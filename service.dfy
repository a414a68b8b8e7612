/** The boundary to the outside world. Every HTTP exchange (Face++ detect and compare, image
    downloads, HEAD probes) is a request value; the answer the network gives is a function of
    that request, supplied by the caller. Functions that send several requests report the
    requests they sent, in order, as a trace of `Call`s. */
module Service {
  import opened Common

  newtype byte = b: int | 0 <= b < 256

  /** The face attributes the view and the crawler ask Face++ to return. */
  const DetectAttributes := "gender,age,beauty"

  /** The Face++ error code for an image URL it could not fetch or decode. */
  const ImageUrlCode := "INVALID_IMAGE_URL"

  /** A Face++ face token. */
  type Token = string

  /** The form fields of a POST to the Face++ `/detect` endpoint. */
  datatype DetectRequest =
    | ByUrl(apiKey: string, apiSecret: string, imageUrl: string,
            returnAttributes: string, returnLandmark: Option<string>)
    | ByFile(apiKey: string, apiSecret: string, fileName: string, imageData: seq<byte>,
             mimeType: string, returnAttributes: string, returnLandmark: Option<string>)

  /** What a detect call yields: the request raised (network failure, timeout, a body that is
      not JSON), or a JSON object with an optional `error_message` and the face tokens of its
      `faces` list (a missing list reads as empty). */
  datatype DetectReply =
    | DetectUnreachable(reason: string)
    | DetectAnswer(errorMessage: Option<string>, faces: seq<Token>)

  /** The form fields of a POST to the Face++ `/compare` endpoint. */
  datatype CompareRequest = CompareRequest(apiKey: string, apiSecret: string, faceToken1: Token, faceToken2: Token)

  /** What a compare call yields; `confidence` is the similarity score, present or not. */
  datatype CompareReply =
    | CompareUnreachable(reason: string)
    | CompareAnswer(errorMessage: Option<string>, confidence: Option<int>)

  /** A plain HTTP GET or HEAD: it raised, or it answered with a status code and a body. */
  datatype HttpReply =
    | HttpUnreachable(reason: string)
    | HttpAnswer(status: int, content: seq<byte>)

  /** One request sent over the network. */
  datatype Call =
    | DetectCall(detect: DetectRequest)
    | GetCall(getUrl: string)
    | HeadCall(headUrl: string)

  /** The answers the network gives. */
  datatype Network = Network(
    detect: DetectRequest -> DetectReply,
    compare: CompareRequest -> CompareReply,
    get: string -> HttpReply,
    head: string -> HttpReply)

  /** The face token a lookup ends with, and every request it sent on the way. */
  datatype TokenLookup = TokenLookup(token: Option<Token>, calls: seq<Call>)

  /** The faces of a detect reply that carries no error and at least one face. */
  function FacesOf(reply: DetectReply): (r: Option<seq<Token>>)
    ensures r.Some? <==> reply.DetectAnswer? && reply.errorMessage.None? && |reply.faces| > 0
    ensures r.Some? ==> r.value == reply.faces && |r.value| > 0
  {
    match reply
    case DetectAnswer(None, faces) => if |faces| > 0 then Some(faces) else None
    case _ => None
  }

  /** The detect calls of an optional request: none when no request was built. */
  function DetectCalls(req: Option<DetectRequest>): (r: seq<Call>)
    ensures req.Some? ==> r == [DetectCall(req.value)]
    ensures req.None? ==> r == []
  {
    if req.Some? then [DetectCall(req.value)] else []
  }

  /** The faces found by sending an optional detect request: none when no request was built. */
  function Detected(req: Option<DetectRequest>, net: Network): (r: Option<seq<Token>>)
    ensures r.Some? ==> req.Some? && net.detect(req.value) == DetectAnswer(None, r.value) && |r.value| > 0
    ensures req.Some? && FacesOf(net.detect(req.value)).Some? ==> r.Some?
  {
    if req.Some? then FacesOf(net.detect(req.value)) else None
  }

  /** The first face of an answer without error, or nothing. */
  function FirstToken(reply: DetectReply): (r: Option<Token>)
    ensures r.Some? <==> FacesOf(reply).Some?
    ensures r.Some? ==> r.value == reply.faces[0]
  {
    match FacesOf(reply)
    case Some(faces) => Some(faces[0])
    case None => None
  }

  function Last<T>(s: seq<T>): T
    requires |s| > 0
  {
    s[|s| - 1]
  }

  /** A token lookup ends with a token exactly when its last request was a detect request
      answered without error and with a face, and the token is that answer's first face. */
  predicate TokenFromLastDetect(r: TokenLookup, net: Network)
  {
    r.token == (if |r.calls| > 0 && Last(r.calls).DetectCall? then FirstToken(net.detect(Last(r.calls).detect)) else None)
  }
}
