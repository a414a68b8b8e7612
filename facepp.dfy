/** The Face++ helper class `FacePPAPI` (backend/celebrity_compare/facepp_utils.py): argument
    validation, URL normalisation, MIME inference and the order in which image sources are tried.
    The HTTP posts themselves are the `Network` answers. */
module FacePP {
  import opened Common
  import opened Service

  /** The `FACE_PLUS_PLUS` settings the helper reads (missing entries are their defaults). */
  datatype Config = Config(apiKey: string, apiSecret: string, returnAttributes: string, returnLandmark: string)

  /** An API key is usable only when it is longer than five characters. */
  predicate ValidApiKey(key: string)
  {
    |key| > 5
  }

  /** `//host/...` gains the `https:` scheme, `http://` and `https://` URLs are kept, and every
      other URL, the empty one included, is rejected. */
  function NormalizeUrl(url: string): (r: Option<string>)
    ensures r.Some? <==> StartsWith(url, "//") || StartsWith(url, "http://") || StartsWith(url, "https://")
    ensures r.Some? ==> StartsWith(r.value, "http://") || StartsWith(r.value, "https://")
    ensures StartsWith(url, "//") ==> r == Some("https:" + url)
    ensures StartsWith(url, "http://") || StartsWith(url, "https://") ==> r == Some(url)
  {
    if StartsWith(url, "//") then
      assert url[0] == '/';
      assert ("https:" + url)[..8] == "https:" + url[..2];
      Some("https:" + url)
    else if StartsWith(url, "http://") || StartsWith(url, "https://") then
      Some(url)
    else
      None
  }

  /** Normalising twice changes nothing. */
  lemma NormalizeUrlIdempotent(url: string)
    requires NormalizeUrl(url).Some?
    ensures NormalizeUrl(NormalizeUrl(url).value) == NormalizeUrl(url)
  {
    var n := NormalizeUrl(url).value;
    assert n[0] == 'h';
  }

  /** An explicit MIME type is kept; otherwise a `.png` file name (any case) gives PNG and every
      other name, `.jpg` and `.jpeg` included, gives JPEG. */
  function ChooseMime(fileName: string, mimeType: Option<string>): (r: string)
    ensures Present(mimeType) ==> r == mimeType.value
    ensures !Present(mimeType) ==> r == "image/png" || r == "image/jpeg"
    ensures !Present(mimeType) ==> (r == "image/png" <==> EndsWith(Lower(fileName), ".png"))
  {
    if Present(mimeType) then mimeType.value
    else if EndsWith(Lower(fileName), ".png") then "image/png"
    else if EndsWith(Lower(fileName), ".jpeg") || EndsWith(Lower(fileName), ".jpg") then "image/jpeg"
    else "image/jpeg"
  }

  /** The `return_landmark` field: the caller's value when given, else the configured one. */
  function ChooseLandmark(cfg: Config, landmark: Option<string>): (r: string)
    ensures landmark.Some? ==> r == landmark.value
    ensures landmark.None? ==> r == cfg.returnLandmark
  {
    if landmark.Some? then landmark.value else cfg.returnLandmark
  }

  /** The URL detect request the view and the crawler build themselves: the fixed attribute list
      and no `return_landmark` field. */
  function PlainUrlRequest(cfg: Config, url: string): (r: DetectRequest)
    ensures r.ByUrl? && r.imageUrl == url && r.returnLandmark.None?
    ensures r.apiKey == cfg.apiKey && r.apiSecret == cfg.apiSecret && r.returnAttributes == DetectAttributes
  {
    ByUrl(cfg.apiKey, cfg.apiSecret, url, DetectAttributes, None)
  }

  /** The request `detect_face_by_url` sends, or `None` when it gives up before sending one. */
  function UrlDetectRequest(cfg: Config, imageUrl: string, landmark: Option<string>): (r: Option<DetectRequest>)
    ensures r.Some? <==> ValidApiKey(cfg.apiKey) && NormalizeUrl(imageUrl).Some?
    ensures r.Some? ==> r.value.ByUrl? && r.value.imageUrl == NormalizeUrl(imageUrl).value
    ensures r.Some? ==> r.value.apiKey == cfg.apiKey && r.value.apiSecret == cfg.apiSecret
    ensures r.Some? ==> r.value.returnAttributes == cfg.returnAttributes
    ensures r.Some? && landmark.Some? ==> r.value.returnLandmark == landmark
    ensures r.Some? && landmark.None? ==> r.value.returnLandmark == Some(cfg.returnLandmark)
  {
    if !ValidApiKey(cfg.apiKey) then None
    else match NormalizeUrl(imageUrl)
      case None => None
      case Some(url) =>
        Some(ByUrl(cfg.apiKey, cfg.apiSecret, url, cfg.returnAttributes, Some(ChooseLandmark(cfg, landmark))))
  }

  /** The request `detect_face_by_file` sends, or `None` when it gives up before sending one. */
  function FileDetectRequest(cfg: Config, imageData: seq<byte>, fileName: string, mimeType: Option<string>,
                             landmark: Option<string>): (r: Option<DetectRequest>)
    ensures r.Some? <==> ValidApiKey(cfg.apiKey) && |imageData| > 0
    ensures r.Some? ==> r.value.ByFile? && r.value.imageData == imageData && r.value.fileName == fileName
    ensures r.Some? ==> r.value.apiKey == cfg.apiKey && r.value.apiSecret == cfg.apiSecret
    ensures r.Some? ==> r.value.mimeType == ChooseMime(fileName, mimeType)
    ensures r.Some? ==> r.value.returnAttributes == cfg.returnAttributes
    ensures r.Some? && landmark.Some? ==> r.value.returnLandmark == landmark
    ensures r.Some? && landmark.None? ==> r.value.returnLandmark == Some(cfg.returnLandmark)
  {
    if !ValidApiKey(cfg.apiKey) || |imageData| == 0 then None
    else Some(ByFile(cfg.apiKey, cfg.apiSecret, fileName, imageData, ChooseMime(fileName, mimeType),
                     cfg.returnAttributes, Some(ChooseLandmark(cfg, landmark))))
  }

  /** `detect_face_by_url`: the faces, only when a request was sent and its answer carries no
      error and at least one face. */
  function DetectFaceByUrl(cfg: Config, imageUrl: string, landmark: Option<string>, net: Network): (r: Option<seq<Token>>)
    ensures !ValidApiKey(cfg.apiKey) || NormalizeUrl(imageUrl).None? ==> r.None?
    ensures r.Some? <==> UrlDetectRequest(cfg, imageUrl, landmark).Some?
                         && FacesOf(net.detect(UrlDetectRequest(cfg, imageUrl, landmark).value)).Some?
    ensures r.Some? ==> |r.value| > 0
    ensures r.Some? ==> net.detect(UrlDetectRequest(cfg, imageUrl, landmark).value) == DetectAnswer(None, r.value)
  {
    Detected(UrlDetectRequest(cfg, imageUrl, landmark), net)
  }

  /** `detect_face_by_file`: the faces, only when a request was sent and its answer carries no
      error and at least one face. */
  function DetectFaceByFile(cfg: Config, imageData: seq<byte>, fileName: string, mimeType: Option<string>,
                            landmark: Option<string>, net: Network): (r: Option<seq<Token>>)
    ensures !ValidApiKey(cfg.apiKey) || |imageData| == 0 ==> r.None?
    ensures r.Some? <==> FileDetectRequest(cfg, imageData, fileName, mimeType, landmark).Some?
                         && FacesOf(net.detect(FileDetectRequest(cfg, imageData, fileName, mimeType, landmark).value)).Some?
    ensures r.Some? ==> |r.value| > 0
    ensures r.Some? ==> net.detect(FileDetectRequest(cfg, imageData, fileName, mimeType, landmark).value)
                        == DetectAnswer(None, r.value)
  {
    Detected(FileDetectRequest(cfg, imageData, fileName, mimeType, landmark), net)
  }

  /** `url` with the `https:` scheme added to a `//` URL, as `get_face_token` does first. */
  function WithScheme(url: string): (r: string)
    ensures NormalizeUrl(r) == NormalizeUrl(url)
    ensures StartsWith(url, "//") ==> r == "https:" + url
    ensures !StartsWith(url, "//") ==> r == url
  {
    if StartsWith(url, "//") then
      assert ("https:" + url)[..8] == "https:" + url[..2];
      "https:" + url
    else url
  }

  /** The requests `get_face_token` sends when it works from a URL: the URL detect request (when
      one is built) and, when that finds no face, the download and the file detect request for
      the downloaded bytes (when the download answers 200 and one is built). */
  function UrlTrace(cfg: Config, url: string, landmark: Option<string>, net: Network): seq<Call>
  {
    var req := UrlDetectRequest(cfg, url, landmark);
    if Detected(req, net).Some? then DetectCalls(req)
    else
      var fixed := WithScheme(url);
      DetectCalls(req) + [GetCall(fixed)]
      + (match net.get(fixed)
         case HttpAnswer(200, content) => DetectCalls(FileDetectRequest(cfg, content, "downloaded_image.jpg", None, landmark))
         case _ => [])
  }

  /** `get_face_token`: image bytes take priority over the URL; a URL is first sent to Face++ as
      is and, only when that yields no face, downloaded and sent as a file. The token is the
      first face of the last detect answer whenever that answer has faces. */
  function GetFaceToken(cfg: Config, imageUrl: Option<string>, imageData: Option<seq<byte>>, fileName: string,
                        mimeType: Option<string>, landmark: Option<string>, net: Network): (r: TokenLookup)
    ensures TokenFromLastDetect(r, net)
    ensures |r.calls| <= 3
    ensures (imageData.None? || imageData.value == []) && !Present(imageUrl) ==> r == TokenLookup(None, [])
    ensures imageData.Some? && imageData.value != [] ==>
              r.calls == DetectCalls(FileDetectRequest(cfg, imageData.value, fileName, mimeType, landmark))
    ensures (imageData.None? || imageData.value == []) && Present(imageUrl) ==>
              r.calls == UrlTrace(cfg, imageUrl.value, landmark, net)
    ensures (exists i :: 0 <= i < |r.calls| && r.calls[i].GetCall?) ==>
              && (imageData.None? || imageData.value == [])
              && Present(imageUrl)
              && DetectFaceByUrl(cfg, imageUrl.value, landmark, net).None?
  {
    if imageData.Some? && imageData.value != [] then
      var req := FileDetectRequest(cfg, imageData.value, fileName, mimeType, landmark);
      TokenLookup(FirstFaceOf(Detected(req, net)), DetectCalls(req))
    else if Present(imageUrl) then
      var url := WithScheme(imageUrl.value);
      var req := UrlDetectRequest(cfg, url, landmark);
      assert req == UrlDetectRequest(cfg, imageUrl.value, landmark);
      var faces := Detected(req, net);
      if faces.Some? then
        TokenLookup(Some(faces.value[0]), DetectCalls(req))
      else match net.get(url)
        case HttpAnswer(200, content) =>
          var req2 := FileDetectRequest(cfg, content, "downloaded_image.jpg", None, landmark);
          TokenLookup(FirstFaceOf(Detected(req2, net)), DetectCalls(req) + [GetCall(url)] + DetectCalls(req2))
        case _ =>
          TokenLookup(None, DetectCalls(req) + [GetCall(url)])
    else
      TokenLookup(None, [])
  }

  function FirstFaceOf(faces: Option<seq<Token>>): Option<Token>
    requires faces.Some? ==> |faces.value| > 0
  {
    if faces.Some? then Some(faces.value[0]) else None
  }

  /** The request `compare_faces` sends, or `None` when either token is missing or empty. */
  function CompareFacesRequest(cfg: Config, token1: Option<Token>, token2: Option<Token>): (r: Option<CompareRequest>)
    ensures r.None? <==> !Present(token1) || !Present(token2)
    ensures r.Some? ==> r.value == CompareRequest(cfg.apiKey, cfg.apiSecret, token1.value, token2.value)
  {
    if !Present(token1) || !Present(token2) then None
    else Some(CompareRequest(cfg.apiKey, cfg.apiSecret, token1.value, token2.value))
  }

  /** `compare_faces`: the `confidence` of an answer without `error_message`; nothing when no
      request is sent, the call fails, the answer reports an error or lacks the score. */
  function CompareFaces(cfg: Config, token1: Option<Token>, token2: Option<Token>, net: Network): (r: Option<int>)
    ensures !Present(token1) || !Present(token2) ==> r.None?
    ensures r.Some? <==>
              && CompareFacesRequest(cfg, token1, token2).Some?
              && net.compare(CompareFacesRequest(cfg, token1, token2).value).CompareAnswer?
              && net.compare(CompareFacesRequest(cfg, token1, token2).value).errorMessage.None?
              && net.compare(CompareFacesRequest(cfg, token1, token2).value).confidence.Some?
    ensures r.Some? ==> net.compare(CompareFacesRequest(cfg, token1, token2).value) == CompareAnswer(None, r)
  {
    match CompareFacesRequest(cfg, token1, token2)
    case None => None
    case Some(req) =>
      match net.compare(req)
      case CompareAnswer(None, confidence) => confidence
      case _ => None
  }
}
