/** `FaceCompareAPIView` (backend/celebrity_compare/views.py): detect the face in an uploaded
    photo, compare it with every celebrity that has a face token, keep the best three, store
    them as comparison details, and map every failure to an HTTP status. The Face++ answers and
    the JPEG conversion are inputs; the database is the `CompareStore` object. */
module CompareView {
  import opened Common
  import opened Service
  import opened Models
  import opened Ranking
  import FacePP

  // Messages raised while detecting the uploaded face.
  const NetworkErrorPrefix := "连接Face++ API服务失败，请检查网络连接: "
  const NoFaceMessage := "未能检测到人脸，请上传包含清晰人脸的照片"
  const SizeMessage := "照片尺寸不符合要求，请使用分辨率更高的照片"
  const UrlMessage := "照片格式不正确，请更换照片"
  const AuthMessage := "Face++ API授权失败，请检查API密钥设置"
  const ApiErrorPrefix := "Face++ API错误: "
  const NoLibraryMessage := "不支持的图片格式，请上传JPG或PNG格式的图片"
  const ConversionErrorPrefix := "图片格式转换失败: "

  // Messages `post` answers with directly.
  const KeyMissingMessage := "系统未配置Face++ API密钥，无法进行比对。请联系管理员设置密钥。"
  const EmptyCorpusMessage := "数据库中没有明星数据，请先运行爬虫脚本导入明星！"
  const NoMatchMessage := "未能找到相似的明星，请尝试上传不同角度的照片"
  const NothingStoredMessage := "比对处理失败，未能找到匹配的明星数据"

  // Face++ error codes the view looks for.
  const UnsupportedFormatCode := "IMAGE_ERROR_UNSUPPORTED_FORMAT"
  const ImageSizeCode := "INVALID_IMAGE_SIZE"
  const AuthorizationCode := "AUTHORIZATION"

  /** How many celebrities get a token generated when none has one. */
  const TokenGenerationLimit: nat := 20

  /** The uploaded photo: its file name, when it has one, and its bytes. */
  datatype Upload = Upload(name: Option<string>, data: seq<byte>)

  /** What converting the photo to JPEG with PIL gives. */
  datatype Conversion = Converted(jpeg: seq<byte>) | NoImageLibrary | ConversionFailed(reason: string)

  /** The outcome of detecting the uploaded face, and the detect requests sent, in order. */
  datatype Detection = Detection(outcome: Result<Token, string>, requests: seq<DetectRequest>)

  /** An HTTP response of the view. */
  datatype Body = InvalidUpload | ErrorBody(error: string) | ResultBody(comparison: nat)
  datatype Response = Response(status: int, body: Body)

  /** A celebrity that can take part in a comparison: its id and its face token. */
  datatype Holder = Holder(id: nat, token: Token)

  /** The file name sent with the upload: the lower-cased name, or a fixed one without a name. */
  function UploadFileName(u: Upload): (r: string)
    ensures u.name.None? ==> r == "user_photo.jpg"
    ensures u.name.Some? ==> |r| == |u.name.value| && forall i :: 0 <= i < |r| ==> r[i] == LowerChar(u.name.value[i])
  {
    if u.name.Some? then Lower(u.name.value) else "user_photo.jpg"
  }

  /** The MIME type sent with the upload: PNG for a `.png` name, JPEG for everything else. */
  function UploadMime(fileName: string): (r: string)
    ensures r == "image/png" || r == "image/jpeg"
    ensures r == "image/png" <==> EndsWith(fileName, ".png")
  {
    if EndsWith(fileName, ".png") then "image/png"
    else if EndsWith(fileName, ".jpeg") || EndsWith(fileName, ".jpg") then "image/jpeg"
    else "image/jpeg"
  }

  function UploadDetectRequest(cfg: FacePP.Config, u: Upload): DetectRequest
  {
    ByFile(cfg.apiKey, cfg.apiSecret, UploadFileName(u), u.data, UploadMime(UploadFileName(u)), DetectAttributes, None)
  }

  function ConvertedDetectRequest(cfg: FacePP.Config, jpeg: seq<byte>): DetectRequest
  {
    ByFile(cfg.apiKey, cfg.apiSecret, "converted_image.jpg", jpeg, "image/jpeg", DetectAttributes, None)
  }

  /** The message raised for a Face++ detect error, checked in a fixed order; `None` when the
      error asks for a format conversion instead. */
  function DetectErrorMessage(msg: string): (r: Option<string>)
    ensures r.None? <==> Contains(msg, UnsupportedFormatCode)
    ensures r == Some(SizeMessage) <==> !Contains(msg, UnsupportedFormatCode) && Contains(msg, ImageSizeCode)
    ensures r == Some(UrlMessage) <==>
              !Contains(msg, UnsupportedFormatCode) && !Contains(msg, ImageSizeCode) && Contains(msg, ImageUrlCode)
    ensures r == Some(AuthMessage) <==>
              !Contains(msg, UnsupportedFormatCode) && !Contains(msg, ImageSizeCode) && !Contains(msg, ImageUrlCode)
              && Contains(msg, AuthorizationCode)
    ensures r == Some(ApiErrorPrefix + msg) <==>
              !Contains(msg, UnsupportedFormatCode) && !Contains(msg, ImageSizeCode) && !Contains(msg, ImageUrlCode)
              && !Contains(msg, AuthorizationCode)
  {
    assert (ApiErrorPrefix + msg)[0] == 'F' && (ApiErrorPrefix + msg)[10] == '错';
    if Contains(msg, UnsupportedFormatCode) then None
    else if Contains(msg, ImageSizeCode) then Some(SizeMessage)
    else if Contains(msg, ImageUrlCode) then Some(UrlMessage)
    else if Contains(msg, AuthorizationCode) then Some(AuthMessage)
    else Some(ApiErrorPrefix + msg)
  }

  function FirstFace(faces: seq<Token>): (r: Result<Token, string>)
    ensures r.Ok? <==> |faces| > 0
    ensures r.Ok? ==> r.value == faces[0]
    ensures r.Err? ==> r.error == NoFaceMessage
  {
    if |faces| == 0 then Err(NoFaceMessage) else Ok(faces[0])
  }

  /** The detect step of `call_face_plus_plus_api`, with its one JPEG-conversion retry. */
  function DetectUserFace(cfg: FacePP.Config, u: Upload, net: Network, convert: seq<byte> -> Conversion): (r: Detection)
    ensures 1 <= |r.requests| <= 2 && r.requests[0] == UploadDetectRequest(cfg, u)
    ensures |r.requests| == 2 <==>
              && net.detect(UploadDetectRequest(cfg, u)).DetectAnswer?
              && net.detect(UploadDetectRequest(cfg, u)).errorMessage.Some?
              && Contains(net.detect(UploadDetectRequest(cfg, u)).errorMessage.value, UnsupportedFormatCode)
              && convert(u.data).Converted?
    ensures |r.requests| == 2 ==> r.requests[1] == ConvertedDetectRequest(cfg, convert(u.data).jpeg)
    ensures r.outcome.Ok? ==>
              && net.detect(r.requests[|r.requests| - 1]).DetectAnswer?
              && net.detect(r.requests[|r.requests| - 1]).errorMessage.None?
              && |net.detect(r.requests[|r.requests| - 1]).faces| > 0
              && r.outcome.value == net.detect(r.requests[|r.requests| - 1]).faces[0]
    ensures var a := net.detect(UploadDetectRequest(cfg, u));
      && (a.DetectUnreachable? ==> r.outcome == Err(NetworkErrorPrefix + a.reason))
      && (a.DetectAnswer? && a.errorMessage.None? ==> r.outcome == FirstFace(a.faces))
      && (a.DetectAnswer? && a.errorMessage.Some? && DetectErrorMessage(a.errorMessage.value).Some? ==>
            r.outcome == Err(DetectErrorMessage(a.errorMessage.value).value))
    ensures var a := net.detect(UploadDetectRequest(cfg, u));
      a.DetectAnswer? && a.errorMessage.Some? && DetectErrorMessage(a.errorMessage.value).None? ==>
        && (convert(u.data).NoImageLibrary? ==> r.outcome == Err(NoLibraryMessage))
        && (convert(u.data).ConversionFailed? ==> r.outcome == Err(ConversionErrorPrefix + convert(u.data).reason))
    ensures |r.requests| == 2 ==>
      var b := net.detect(r.requests[1]);
      && (b.DetectUnreachable? ==> r.outcome == Err(ConversionErrorPrefix + b.reason))
      && (b.DetectAnswer? && b.errorMessage.Some? ==> r.outcome == Err(ConversionErrorPrefix + ApiErrorPrefix + b.errorMessage.value))
      && (b.DetectAnswer? && b.errorMessage.None? ==> r.outcome == FirstFace(b.faces))
  {
    var first := UploadDetectRequest(cfg, u);
    match net.detect(first)
    case DetectUnreachable(reason) =>
      Detection(Err(NetworkErrorPrefix + reason), [first])
    case DetectAnswer(None, faces) =>
      Detection(FirstFace(faces), [first])
    case DetectAnswer(Some(msg), _) =>
      match DetectErrorMessage(msg)
      case Some(message) => Detection(Err(message), [first])
      case None =>
        match convert(u.data)
        case NoImageLibrary => Detection(Err(NoLibraryMessage), [first])
        case ConversionFailed(reason) => Detection(Err(ConversionErrorPrefix + reason), [first])
        case Converted(jpeg) =>
          var retry := ConvertedDetectRequest(cfg, jpeg);
          match net.detect(retry)
          case DetectUnreachable(reason) => Detection(Err(ConversionErrorPrefix + reason), [first, retry])
          case DetectAnswer(Some(msg2), _) =>
            Detection(Err(ConversionErrorPrefix + ApiErrorPrefix + msg2), [first, retry])
          case DetectAnswer(None, faces) => Detection(FirstFace(faces), [first, retry])
  }

  /** The status `post` gives a raised message: 400 for a missing face or a bad photo size,
      else 503 for anything about the API key or a Face++ error, else 500. */
  function ExceptionStatus(msg: string): (r: int)
    ensures r == 400 || r == 503 || r == 500
    ensures r == 400 <==> Contains(msg, "未能检测到人脸") || Contains(msg, "照片尺寸不符合要求")
    ensures r == 503 <==>
              !Contains(msg, "未能检测到人脸") && !Contains(msg, "照片尺寸不符合要求")
              && (Contains(msg, "API密钥") || Contains(msg, "API错误"))
  {
    if Contains(msg, "未能检测到人脸") then 400
    else if Contains(msg, "照片尺寸不符合要求") then 400
    else if Contains(msg, "API密钥") || Contains(msg, "API错误") then 503
    else 500
  }

  /** A photo without a face is the client's fault: 400. */
  lemma NoFaceStatus()
    ensures ExceptionStatus(NoFaceMessage) == 400
  {
    ContainsAt(NoFaceMessage, "未能检测到人脸", 0);
  }

  /** A photo of the wrong size is the client's fault: 400. */
  lemma SizeStatus()
    ensures ExceptionStatus(SizeMessage) == 400
  {
    ContainsAt(SizeMessage, "照片尺寸不符合要求", 0);
  }

  /** The keywords `post` looks for, in the fixed messages: one fact per lemma keeps each proof
      about the literal strings small. */
  lemma AuthLacksKeywordNoFace()
    ensures !Contains(AuthMessage, "未能检测到人脸")
  {
    MissingCharRefutes(AuthMessage, "未能检测到人脸", 0);
  }

  lemma AuthLacksKeywordSize()
    ensures !Contains(AuthMessage, "照片尺寸不符合要求")
  {
    MissingCharRefutes(AuthMessage, "照片尺寸不符合要求", 0);
  }

  lemma AuthHasKeywordKey()
    ensures Contains(AuthMessage, "API密钥")
  {
    ContainsAt(AuthMessage, "API密钥", 18);
  }

  /** The authorisation failure mentions the API key, so it is reported as 503. */
  lemma AuthStatus()
    ensures ExceptionStatus(AuthMessage) == 503
  {
    AuthLacksKeywordNoFace();
    AuthLacksKeywordSize();
    AuthHasKeywordKey();
  }

  lemma UrlLacksKeywordNoFace()
    ensures !Contains(UrlMessage, "未能检测到人脸")
  {
    MissingCharRefutes(UrlMessage, "未能检测到人脸", 0);
  }

  lemma UrlLacksKeywordSize()
    ensures !Contains(UrlMessage, "照片尺寸不符合要求")
  {
    MissingCharRefutes(UrlMessage, "照片尺寸不符合要求", 2);
  }

  lemma UrlLacksKeywordKey()
    ensures !Contains(UrlMessage, "API密钥")
  {
    MissingCharRefutes(UrlMessage, "API密钥", 0);
  }

  lemma UrlLacksKeywordApiError()
    ensures !Contains(UrlMessage, "API错误")
  {
    MissingCharRefutes(UrlMessage, "API错误", 0);
  }

  /** An image Face++ could not read is not classified and ends as 500. */
  lemma UrlStatus()
    ensures ExceptionStatus(UrlMessage) == 500
  {
    UrlLacksKeywordNoFace();
    UrlLacksKeywordSize();
    UrlLacksKeywordKey();
    UrlLacksKeywordApiError();
  }

  lemma NoLibraryLacksKeywordNoFace()
    ensures !Contains(NoLibraryMessage, "未能检测到人脸")
  {
    MissingCharRefutes(NoLibraryMessage, "未能检测到人脸", 0);
  }

  lemma NoLibraryLacksKeywordSize()
    ensures !Contains(NoLibraryMessage, "照片尺寸不符合要求")
  {
    MissingCharRefutes(NoLibraryMessage, "照片尺寸不符合要求", 0);
  }

  lemma NoLibraryLacksKeywordKey()
    ensures !Contains(NoLibraryMessage, "API密钥")
  {
    MissingCharRefutes(NoLibraryMessage, "API密钥", 0);
  }

  lemma NoLibraryLacksKeywordApiError()
    ensures !Contains(NoLibraryMessage, "API错误")
  {
    MissingCharRefutes(NoLibraryMessage, "API错误", 0);
  }

  /** A missing image library is not classified and ends as 500. */
  lemma NoLibraryStatus()
    ensures ExceptionStatus(NoLibraryMessage) == 500
  {
    NoLibraryLacksKeywordNoFace();
    NoLibraryLacksKeywordSize();
    NoLibraryLacksKeywordKey();
    NoLibraryLacksKeywordApiError();
  }

  /** A Face++ error, reported directly or after a failed conversion retry, is never a 500. */
  lemma ApiErrorNeverInternal(msg: string)
    ensures ExceptionStatus(ApiErrorPrefix + msg) != 500
    ensures ExceptionStatus(ConversionErrorPrefix + ApiErrorPrefix + msg) != 500
  {
    ContainsAt(ApiErrorPrefix + msg, "API错误", 7);
    ContainsAfterPrefix(ConversionErrorPrefix, ApiErrorPrefix + msg, "API错误");
    assert ConversionErrorPrefix + ApiErrorPrefix + msg == ConversionErrorPrefix + (ApiErrorPrefix + msg);
  }

  lemma ApiErrorPrefixLacksNoFaceStart()
    ensures "未能检测到人脸"[0] !in ApiErrorPrefix
  {
  }

  lemma ApiErrorPrefixLacksSizeStart()
    ensures "照片尺寸不符合要求"[0] !in ApiErrorPrefix
  {
  }

  /** A Face++ error is the service's (503) unless the Face++ message itself carries the no-face
      or the photo-size keyword, which `post` checks first (400). */
  lemma ApiErrorStatus(msg: string)
    ensures Contains(msg, "未能检测到人脸") || Contains(msg, "照片尺寸不符合要求") ==>
              ExceptionStatus(ApiErrorPrefix + msg) == 400
    ensures !Contains(msg, "未能检测到人脸") && !Contains(msg, "照片尺寸不符合要求") ==>
              ExceptionStatus(ApiErrorPrefix + msg) == 503
  {
    if Contains(msg, "未能检测到人脸") {
      ContainsAfterPrefix(ApiErrorPrefix, msg, "未能检测到人脸");
    } else if Contains(msg, "照片尺寸不符合要求") {
      ContainsAfterPrefix(ApiErrorPrefix, msg, "照片尺寸不符合要求");
    } else {
      ApiErrorPrefixLacksNoFaceStart();
      ApiErrorPrefixLacksSizeStart();
      if Contains(ApiErrorPrefix + msg, "未能检测到人脸") {
        ContainsPastPrefix(ApiErrorPrefix, msg, "未能检测到人脸");
      }
      if Contains(ApiErrorPrefix + msg, "照片尺寸不符合要求") {
        ContainsPastPrefix(ApiErrorPrefix, msg, "照片尺寸不符合要求");
      }
      ContainsAt(ApiErrorPrefix + msg, "API错误", 7);
    }
  }

  /** The status `post` answers with when detecting the uploaded face fails, from the Face++
      answers: a photo without a face or of the wrong size is the client's fault (400), an
      authorisation failure is the service's (503), any other Face++ error is never a 500 (503,
      unless the Face++ message itself carries the no-face or photo-size keyword, then 400), and
      an unreadable image or a missing image library ends as 500. */
  lemma DetectFailureStatus(cfg: FacePP.Config, u: Upload, net: Network, convert: seq<byte> -> Conversion)
    ensures var a := net.detect(UploadDetectRequest(cfg, u)); var d := DetectUserFace(cfg, u, net, convert).outcome;
      && (a.DetectAnswer? && a.errorMessage.None? && a.faces == [] ==> d.Err? && ExceptionStatus(d.error) == 400)
      && (a.DetectAnswer? && a.errorMessage.Some? && DetectErrorMessage(a.errorMessage.value) == Some(SizeMessage) ==>
            d.Err? && ExceptionStatus(d.error) == 400)
      && (a.DetectAnswer? && a.errorMessage.Some? && DetectErrorMessage(a.errorMessage.value) == Some(UrlMessage) ==>
            d.Err? && ExceptionStatus(d.error) == 500)
      && (a.DetectAnswer? && a.errorMessage.Some? && DetectErrorMessage(a.errorMessage.value) == Some(AuthMessage) ==>
            d.Err? && ExceptionStatus(d.error) == 503)
      && (a.DetectAnswer? && a.errorMessage.Some? && DetectErrorMessage(a.errorMessage.value) == Some(ApiErrorPrefix + a.errorMessage.value) ==>
            d.Err? && ExceptionStatus(d.error) != 500)
      && (a.DetectAnswer? && a.errorMessage.Some? && DetectErrorMessage(a.errorMessage.value) == Some(ApiErrorPrefix + a.errorMessage.value)
          && !Contains(a.errorMessage.value, "未能检测到人脸") && !Contains(a.errorMessage.value, "照片尺寸不符合要求") ==>
            d.Err? && ExceptionStatus(d.error) == 503)
      && (a.DetectAnswer? && a.errorMessage.Some? && DetectErrorMessage(a.errorMessage.value) == Some(ApiErrorPrefix + a.errorMessage.value)
          && (Contains(a.errorMessage.value, "未能检测到人脸") || Contains(a.errorMessage.value, "照片尺寸不符合要求")) ==>
            d.Err? && ExceptionStatus(d.error) == 400)
      && (a.DetectAnswer? && a.errorMessage.Some? && DetectErrorMessage(a.errorMessage.value).None? && convert(u.data).NoImageLibrary? ==>
            d.Err? && ExceptionStatus(d.error) == 500)
  {
    var a := net.detect(UploadDetectRequest(cfg, u));
    NoFaceStatus();
    SizeStatus();
    UrlStatus();
    AuthStatus();
    NoLibraryStatus();
    if a.DetectAnswer? && a.errorMessage.Some? {
      ApiErrorNeverInternal(a.errorMessage.value);
      ApiErrorStatus(a.errorMessage.value);
    }
  }

  /** After a successful conversion, a Face++ error on the converted photo is never a 500. */
  lemma RetryFailureStatus(cfg: FacePP.Config, u: Upload, net: Network, convert: seq<byte> -> Conversion)
    requires |DetectUserFace(cfg, u, net, convert).requests| == 2
    ensures var b := net.detect(DetectUserFace(cfg, u, net, convert).requests[1]); var d := DetectUserFace(cfg, u, net, convert).outcome;
      b.DetectAnswer? && b.errorMessage.Some? ==> d.Err? && ExceptionStatus(d.error) != 500
  {
    var b := net.detect(DetectUserFace(cfg, u, net, convert).requests[1]);
    if b.DetectAnswer? && b.errorMessage.Some? {
      ApiErrorNeverInternal(b.errorMessage.value);
    }
  }

  /** The celebrities with a face token (`face_token__isnull=False`), in table order. */
  function TokenHolders(corpus: seq<Celebrity>): (r: seq<Holder>)
    ensures |r| <= |corpus|
    ensures forall h :: h in r ==> exists c :: c in corpus && c.id == h.id && c.faceToken == Some(h.token)
    ensures forall c :: c in corpus && c.faceToken.Some? ==> Holder(c.id, c.faceToken.value) in r
  {
    if corpus == [] then []
    else
      var rest := TokenHolders(corpus[1..]);
      assert forall c :: c in corpus[1..] ==> c in corpus;
      if corpus[0].faceToken.Some? then [Holder(corpus[0].id, corpus[0].faceToken.value)] + rest else rest
  }

  function CompareRequestFor(cfg: FacePP.Config, userToken: Token, h: Holder): CompareRequest
  {
    CompareRequest(cfg.apiKey, cfg.apiSecret, userToken, h.token)
  }

  /** Whether comparing with `h` raised (network failure, timeout, a body that is not JSON). */
  predicate CompareRaises(cfg: FacePP.Config, userToken: Token, h: Holder, net: Network)
  {
    net.compare(CompareRequestFor(cfg, userToken, h)).CompareUnreachable?
  }

  /** The compare loop of `call_face_plus_plus_api`, in the order of `holders`: an answer with an
      `error_message` or without `confidence` is skipped, a raised request ends the whole
      comparison with the network message. */
  function CompareOutcome(cfg: FacePP.Config, userToken: Token, holders: seq<Holder>, net: Network): (r: Result<seq<Match>, string>)
    ensures r.Ok? ==> |r.value| <= |holders|
    decreases |holders|
  {
    if holders == [] then Ok([])
    else
      var n := |holders| - 1;
      match CompareOutcome(cfg, userToken, holders[..n], net)
      case Err(e) => Err(e)
      case Ok(ms) =>
        var h := holders[n];
        match net.compare(CompareRequestFor(cfg, userToken, h))
        case CompareUnreachable(reason) => Err(NetworkErrorPrefix + reason)
        case CompareAnswer(Some(_), _) => Ok(ms)
        case CompareAnswer(None, None) => Ok(ms)
        case CompareAnswer(None, Some(score)) => Ok(ms + [Match(h.id, score)])
  }

  /** Whether comparing with `h` gave a score: an answer without `error_message` that carries
      `confidence`. */
  predicate Scored(cfg: FacePP.Config, userToken: Token, h: Holder, net: Network)
  {
    var reply := net.compare(CompareRequestFor(cfg, userToken, h));
    reply.CompareAnswer? && reply.errorMessage.None? && reply.confidence.Some?
  }

  /** The loop fails exactly when some compare request raised, and then with the message of the
      first one; otherwise it keeps exactly the scored celebrities, each with its own score. */
  lemma {:induction false} CompareOutcomeSpec(cfg: FacePP.Config, userToken: Token, holders: seq<Holder>, net: Network)
    ensures var r := CompareOutcome(cfg, userToken, holders, net);
      && (r.Err? <==> exists i :: 0 <= i < |holders| && CompareRaises(cfg, userToken, holders[i], net))
      && (r.Err? ==> exists i :: 0 <= i < |holders| && CompareRaises(cfg, userToken, holders[i], net)
                       && (forall j :: 0 <= j < i ==> !CompareRaises(cfg, userToken, holders[j], net))
                       && r.error == NetworkErrorPrefix + net.compare(CompareRequestFor(cfg, userToken, holders[i])).reason)
      && (r.Ok? ==> forall m :: m in r.value ==>
                      exists i :: 0 <= i < |holders| && holders[i].id == m.celebrityId
                        && net.compare(CompareRequestFor(cfg, userToken, holders[i])) == CompareAnswer(None, Some(m.similarity)))
      && (r.Ok? ==> forall i :: 0 <= i < |holders| && Scored(cfg, userToken, holders[i], net) ==>
                      Match(holders[i].id, net.compare(CompareRequestFor(cfg, userToken, holders[i])).confidence.value) in r.value)
    decreases |holders|
  {
    if holders != [] {
      var n := |holders| - 1;
      var prefix := holders[..n];
      CompareOutcomeSpec(cfg, userToken, prefix, net);
      assert forall i :: 0 <= i < n ==> prefix[i] == holders[i];
    }
  }

  /** The scored celebrities, in comparison order, each with its score: an independent,
      front-to-back statement of what the compare loop keeps. */
  function ScoredMatches(cfg: FacePP.Config, userToken: Token, holders: seq<Holder>, net: Network): (r: seq<Match>)
    ensures |r| <= |holders|
  {
    if holders == [] then []
    else
      var h := holders[0];
      (if Scored(cfg, userToken, h, net) then [Match(h.id, net.compare(CompareRequestFor(cfg, userToken, h)).confidence.value)] else [])
      + ScoredMatches(cfg, userToken, holders[1..], net)
  }

  lemma {:induction false} ScoredMatchesAppend(cfg: FacePP.Config, userToken: Token, holders: seq<Holder>, h: Holder, net: Network)
    ensures ScoredMatches(cfg, userToken, holders + [h], net)
            == ScoredMatches(cfg, userToken, holders, net)
               + (if Scored(cfg, userToken, h, net) then [Match(h.id, net.compare(CompareRequestFor(cfg, userToken, h)).confidence.value)] else [])
  {
    if holders != [] {
      assert (holders + [h])[1..] == holders[1..] + [h];
      ScoredMatchesAppend(cfg, userToken, holders[1..], h, net);
    } else {
      assert holders + [h] == [h];
    }
  }

  /** When no compare request raised, the loop keeps exactly the scored celebrities, once each
      and in the order they were compared: the order ties are broken by when ranking. */
  lemma {:induction false} CompareOutcomeInOrder(cfg: FacePP.Config, userToken: Token, holders: seq<Holder>, net: Network)
    ensures CompareOutcome(cfg, userToken, holders, net).Ok? ==>
              CompareOutcome(cfg, userToken, holders, net).value == ScoredMatches(cfg, userToken, holders, net)
    decreases |holders|
  {
    if holders != [] {
      var n := |holders| - 1;
      CompareOutcomeInOrder(cfg, userToken, holders[..n], net);
      ScoredMatchesAppend(cfg, userToken, holders[..n], holders[n], net);
      assert holders[..n] + [holders[n]] == holders;
    }
  }

  /** Once a prefix of the loop has failed, the whole loop fails with the same message. */
  lemma {:induction false} CompareErrPersists(cfg: FacePP.Config, userToken: Token, holders: seq<Holder>, k: nat, net: Network)
    requires k <= |holders| && CompareOutcome(cfg, userToken, holders[..k], net).Err?
    ensures CompareOutcome(cfg, userToken, holders, net) == CompareOutcome(cfg, userToken, holders[..k], net)
    decreases |holders| - k
  {
    if k < |holders| {
      var n := |holders| - 1;
      assert holders[..n][..k] == holders[..k];
      CompareErrPersists(cfg, userToken, holders[..n], k, net);
    } else {
      assert holders[..k] == holders;
    }
  }

  /** The compare loop, as the view runs it. */
  method CompareWithCelebrities(cfg: FacePP.Config, userToken: Token, holders: seq<Holder>, net: Network)
    returns (r: Result<seq<Match>, string>)
    ensures r == CompareOutcome(cfg, userToken, holders, net)
  {
    var matches: seq<Match> := [];
    var i := 0;
    while i < |holders|
      invariant 0 <= i <= |holders|
      invariant CompareOutcome(cfg, userToken, holders[..i], net) == Ok(matches)
    {
      var h := holders[i];
      assert holders[..i + 1][..i] == holders[..i];
      var reply := net.compare(CompareRequestFor(cfg, userToken, h));
      match reply {
        case CompareUnreachable(reason) =>
          r := Err(NetworkErrorPrefix + reason);
          CompareErrPersists(cfg, userToken, holders, i + 1, net);
          return;
        case CompareAnswer(err, confidence) =>
          if err.None? && confidence.Some? {
            matches := matches + [Match(h.id, confidence.value)];
          }
      }
      i := i + 1;
    }
    assert holders[..i] == holders;
    r := Ok(matches);
  }

  /** How many celebrities of `cs` have no face token. */
  function Untokenized(cs: seq<Celebrity>): (r: nat)
    ensures r <= |cs|
  {
    if cs == [] then 0
    else Untokenized(cs[..|cs| - 1]) + (if cs[|cs| - 1].faceToken.None? then 1 else 0)
  }

  /** Celebrity `i` is among the first `limit` celebrities without a token. */
  predicate TokenCandidate(cs: seq<Celebrity>, i: nat, limit: nat)
    requires i < |cs|
  {
    cs[i].faceToken.None? && Untokenized(cs[..i]) < limit
  }

  /** Whether a photo is an http(s) URL, the only photos token generation sends to Face++. */
  predicate HttpPhoto(photo: string)
  {
    StartsWith(photo, "http://") || StartsWith(photo, "https://")
  }

  /** A celebrity after `generate_face_tokens_for_celebrities` looked at it: an http(s) photo
      whose detection finds a face gives the first face's token; anything else leaves it as is. */
  function WithPhotoToken(cfg: FacePP.Config, c: Celebrity, net: Network): (r: Celebrity)
    ensures r == c || (r == c.(faceToken := r.faceToken) && r.faceToken.Some?)
    ensures HttpPhoto(c.photo) && FirstToken(net.detect(FacePP.PlainUrlRequest(cfg, c.photo))).Some? ==>
              r == c.(faceToken := FirstToken(net.detect(FacePP.PlainUrlRequest(cfg, c.photo))))
    ensures !HttpPhoto(c.photo) || FirstToken(net.detect(FacePP.PlainUrlRequest(cfg, c.photo))).None? ==> r == c
  {
    if HttpPhoto(c.photo) then
      match FacesOf(net.detect(FacePP.PlainUrlRequest(cfg, c.photo)))
      case Some(faces) => c.(faceToken := Some(faces[0]))
      case None => c
    else c
  }

  /** The table after token generation: only the first `limit` celebrities without a token are
      looked at; each of them gains the first face of its photo's detect answer when it has an
      http(s) photo and the answer has a face; every other row stays as it was. */
  function WithGeneratedTokens(cs: seq<Celebrity>, limit: nat, cfg: FacePP.Config, net: Network): (r: seq<Celebrity>)
    ensures |r| == |cs|
    ensures forall i :: 0 <= i < |cs| ==> r[i].id == cs[i].id && r[i].name == cs[i].name && r[i].photo == cs[i].photo
    ensures forall i :: 0 <= i < |cs| && !TokenCandidate(cs, i, limit) ==> r[i] == cs[i]
    ensures forall i :: 0 <= i < |cs| && TokenCandidate(cs, i, limit) && HttpPhoto(cs[i].photo) ==>
              r[i] == cs[i].(faceToken := FirstToken(net.detect(FacePP.PlainUrlRequest(cfg, cs[i].photo))))
    ensures forall i :: 0 <= i < |cs| && TokenCandidate(cs, i, limit) && !HttpPhoto(cs[i].photo) ==> r[i] == cs[i]
  {
    seq(|cs|, i requires 0 <= i < |cs| => if TokenCandidate(cs, i, limit) then WithPhotoToken(cfg, cs[i], net) else cs[i])
  }

  /** How many celebrities of `cs` token generation looks at. */
  function CandidateCount(cs: seq<Celebrity>, limit: nat): nat
  {
    if cs == [] then 0
    else CandidateCount(cs[..|cs| - 1], limit) + (if TokenCandidate(cs, |cs| - 1, limit) then 1 else 0)
  }

  /** Token generation looks at `min(limit, celebrities without a token)` rows, as the sliced
      query `filter(face_token__isnull=True)[:limit]` does. */
  lemma {:induction false} CandidatesWithinLimit(cs: seq<Celebrity>, limit: nat)
    ensures CandidateCount(cs, limit) == if Untokenized(cs) < limit then Untokenized(cs) else limit
  {
    if cs != [] {
      CandidatesWithinLimit(cs[..|cs| - 1], limit);
    }
  }

  /** The table `call_face_plus_plus_api` compares against: tokens are generated only when no
      celebrity has one yet. */
  function CorpusForComparison(cs: seq<Celebrity>, cfg: FacePP.Config, net: Network): (r: seq<Celebrity>)
    ensures TokenHolders(cs) != [] ==> r == cs
    ensures TokenHolders(cs) == [] ==> r == WithGeneratedTokens(cs, TokenGenerationLimit, cfg, net)
  {
    if TokenHolders(cs) == [] then WithGeneratedTokens(cs, TokenGenerationLimit, cfg, net) else cs
  }

  /** `call_face_plus_plus_api` as a function of the table it compares against. */
  function RankingOutcome(cs: seq<Celebrity>, cfg: FacePP.Config, u: Upload, net: Network,
                          convert: seq<byte> -> Conversion): (r: Result<seq<Match>, string>)
    ensures TokenHolders(cs) == [] ==> r == Ok([])
    ensures TokenHolders(cs) != [] && DetectUserFace(cfg, u, net, convert).outcome.Err? ==>
              r == Err(DetectUserFace(cfg, u, net, convert).outcome.error)
    ensures TokenHolders(cs) != [] && DetectUserFace(cfg, u, net, convert).outcome.Ok? ==>
              var scored := CompareOutcome(cfg, DetectUserFace(cfg, u, net, convert).outcome.value, TokenHolders(cs), net);
              && (scored.Err? ==> r == Err(scored.error))
              && (scored.Ok? ==> r == Ok(TopMatches(scored.value)))
    ensures r.Ok? ==> |r.value| <= MaxMatches && NonIncreasing(r.value)
    ensures r.Ok? && r.value != [] ==>
              && DetectUserFace(cfg, u, net, convert).outcome.Ok?
              && var scored := CompareOutcome(cfg, DetectUserFace(cfg, u, net, convert).outcome.value, TokenHolders(cs), net);
                 scored.Ok? && r.value == TopMatches(scored.value)
  {
    var holders := TokenHolders(cs);
    if holders == [] then Ok([])
    else match DetectUserFace(cfg, u, net, convert).outcome
      case Err(e) => Err(e)
      case Ok(token) =>
        match CompareOutcome(cfg, token, holders, net)
        case Err(e) => Err(e)
        case Ok(ms) => Ok(TopMatches(ms))
  }


  /** Every celebrity `call_face_plus_plus_api` returns is in the table, holds a face token, and
      was scored by a Face++ answer without error carrying exactly the returned similarity. */
  lemma RankedAreScoredHolders(cs: seq<Celebrity>, cfg: FacePP.Config, u: Upload, net: Network,
                               convert: seq<byte> -> Conversion, m: Match)
    requires RankingOutcome(cs, cfg, u, net, convert).Ok? && m in RankingOutcome(cs, cfg, u, net, convert).value
    ensures HasId(cs, m.celebrityId)
    ensures DetectUserFace(cfg, u, net, convert).outcome.Ok?
    ensures exists h :: h in TokenHolders(cs) && h.id == m.celebrityId
              && net.compare(CompareRequestFor(cfg, DetectUserFace(cfg, u, net, convert).outcome.value, h))
                 == CompareAnswer(None, Some(m.similarity))
  {
    var token := DetectUserFace(cfg, u, net, convert).outcome.value;
    var holders := TokenHolders(cs);
    var ms := CompareOutcome(cfg, token, holders, net).value;
    assert m in multiset(TopMatches(ms));
    assert m in ms;
    CompareOutcomeSpec(cfg, token, holders, net);
    var i :| 0 <= i < |holders| && holders[i].id == m.celebrityId
             && net.compare(CompareRequestFor(cfg, token, holders[i])) == CompareAnswer(None, Some(m.similarity));
    assert holders[i] in holders;
    var c :| c in cs && c.id == holders[i].id && c.faceToken == Some(holders[i].token);
    var j :| 0 <= j < |cs| && cs[j] == c;
  }

  /** A non-empty ranking is the top three of the scored celebrities taken in comparison order,
      so ties are ranked by when the celebrity was compared. */
  lemma RankingInComparisonOrder(cs: seq<Celebrity>, cfg: FacePP.Config, u: Upload, net: Network,
                                 convert: seq<byte> -> Conversion)
    requires RankingOutcome(cs, cfg, u, net, convert).Ok? && RankingOutcome(cs, cfg, u, net, convert).value != []
    ensures DetectUserFace(cfg, u, net, convert).outcome.Ok?
    ensures RankingOutcome(cs, cfg, u, net, convert).value
            == TopMatches(ScoredMatches(cfg, DetectUserFace(cfg, u, net, convert).outcome.value, TokenHolders(cs), net))
  {
    CompareOutcomeInOrder(cfg, DetectUserFace(cfg, u, net, convert).outcome.value, TokenHolders(cs), net);
  }

  /** The details `post` stores for comparison `id`: one per match whose celebrity still exists,
      in ranking order. */
  function StoredDetails(id: nat, matches: seq<Match>, cs: seq<Celebrity>): (r: seq<Detail>)
    ensures |r| <= |matches|
    ensures forall d :: d in r ==> d.comparison == id && HasId(cs, d.celebrityId)
    ensures forall m :: m in matches && HasId(cs, m.celebrityId) ==> Detail(id, m.celebrityId, m.similarity) in r
    decreases |matches|
  {
    if matches == [] then []
    else
      var n := |matches| - 1;
      var m := matches[n];
      assert forall x :: x in matches ==> x in matches[..n] || x == m;
      StoredDetails(id, matches[..n], cs) + (if HasId(cs, m.celebrityId) then [Detail(id, m.celebrityId, m.similarity)] else [])
  }

  /** A non-empty ranking always stores at least one detail: the 500 answer for "nothing
      stored" cannot happen, since every ranked celebrity comes from the table. */
  lemma RankingAlwaysStored(cs: seq<Celebrity>, cfg: FacePP.Config, u: Upload, net: Network,
                            convert: seq<byte> -> Conversion, id: nat)
    requires RankingOutcome(cs, cfg, u, net, convert).Ok? && RankingOutcome(cs, cfg, u, net, convert).value != []
    ensures |StoredDetails(id, RankingOutcome(cs, cfg, u, net, convert).value, cs)| > 0
  {
    var ms := RankingOutcome(cs, cfg, u, net, convert).value;
    assert ms[0] in ms;
    RankedAreScoredHolders(cs, cfg, u, net, convert, ms[0]);
  }

  /** The details left after comparison `id` is deleted (the foreign key cascades). */
  function DetailsWithout(ds: seq<Detail>, id: nat): (r: seq<Detail>)
    ensures forall d :: d in r <==> d in ds && d.comparison != id
    ensures (forall d :: d in ds ==> d.comparison != id) ==> r == ds
  {
    if ds == [] then []
    else (if ds[0].comparison == id then [] else [ds[0]]) + DetailsWithout(ds[1..], id)
  }

  lemma {:induction false} DetailsWithoutAppended(ds: seq<Detail>, added: seq<Detail>, id: nat)
    requires forall d :: d in ds ==> d.comparison != id
    requires forall d :: d in added ==> d.comparison == id
    ensures DetailsWithout(ds + added, id) == ds
  {
    if ds == [] {
      assert ds + added == added;
      DetailsWithoutAll(added, id);
    } else {
      assert (ds + added)[1..] == ds[1..] + added;
      DetailsWithoutAppended(ds[1..], added, id);
    }
  }

  lemma {:induction false} DetailsWithoutAll(added: seq<Detail>, id: nat)
    requires forall d :: d in added ==> d.comparison == id
    ensures DetailsWithout(added, id) == []
  {
    if added != [] {
      assert added[0] in added;
      DetailsWithoutAll(added[1..], id);
    }
  }

  /** The answer `post` gives once the ranking is known and `stored` details were written. */
  function RankedResponse(ranking: Result<seq<Match>, string>, stored: nat, id: nat): (r: Response)
    ensures r.status == 201 <==> ranking.Ok? && ranking.value != [] && stored > 0
    ensures r.status == 201 ==> r.body == ResultBody(id)
    ensures ranking.Err? ==> r == Response(ExceptionStatus(ranking.error), ErrorBody(ranking.error))
    ensures ranking == Ok([]) ==> r == Response(404, ErrorBody(NoMatchMessage))
    ensures ranking.Ok? && ranking.value != [] && stored == 0 ==> r == Response(500, ErrorBody(NothingStoredMessage))
  {
    match ranking
    case Err(msg) => Response(ExceptionStatus(msg), ErrorBody(msg))
    case Ok(ms) =>
      if ms == [] then Response(404, ErrorBody(NoMatchMessage))
      else if stored == 0 then Response(500, ErrorBody(NothingStoredMessage))
      else Response(201, ResultBody(id))
  }

  /** The tables `FaceCompareAPIView` reads and writes: celebrities, comparison records (by id)
      and comparison details. */
  class CompareStore {
    var celebrities: seq<Celebrity>
    var comparisons: set<nat>
    var details: seq<Detail>
    var nextComparison: nat

    /** Every detail belongs to an existing comparison, and ids handed out are below the next one. */
    ghost predicate Valid()
      reads this
    {
      && (forall c :: c in comparisons ==> c < nextComparison)
      && (forall d :: d in details ==> d.comparison in comparisons)
    }

    constructor (cs: seq<Celebrity>)
      ensures Valid()
      ensures celebrities == cs && comparisons == {} && details == [] && nextComparison == 0
    {
      celebrities := cs;
      comparisons := {};
      details := [];
      nextComparison := 0;
    }

    /** `ComparisonResult.objects.create`: a new record with a fresh id. */
    method CreateComparison() returns (id: nat)
      requires Valid()
      modifies this
      ensures Valid()
      ensures id == old(nextComparison) && id !in old(comparisons)
      ensures comparisons == old(comparisons) + {id} && nextComparison == old(nextComparison) + 1
      ensures celebrities == old(celebrities) && details == old(details)
    {
      id := nextComparison;
      comparisons := comparisons + {id};
      nextComparison := nextComparison + 1;
    }

    /** `comparison.delete()`: the record and, by cascade, its details go. */
    method DeleteComparison(id: nat)
      requires Valid()
      modifies this
      ensures Valid()
      ensures comparisons == old(comparisons) - {id} && details == DetailsWithout(old(details), id)
      ensures celebrities == old(celebrities) && nextComparison == old(nextComparison)
    {
      comparisons := comparisons - {id};
      details := DetailsWithout(details, id);
    }

    /** `generate_face_tokens_for_celebrities`: the first `limit` celebrities without a token get
        the token of the first face Face++ finds in their http(s) photo. */
    method GenerateTokens(cfg: FacePP.Config, limit: nat, net: Network)
      requires Valid()
      modifies this
      ensures Valid()
      ensures celebrities == WithGeneratedTokens(old(celebrities), limit, cfg, net)
      ensures comparisons == old(comparisons) && details == old(details) && nextComparison == old(nextComparison)
    {
      var cs := celebrities;
      var i := 0;
      var seen := 0;
      while i < |cs|
        invariant 0 <= i <= |cs| && |celebrities| == |cs|
        invariant seen == Untokenized(cs[..i])
        invariant forall k :: 0 <= k < i ==> celebrities[k] == WithGeneratedTokens(cs, limit, cfg, net)[k]
        invariant forall k :: i <= k < |cs| ==> celebrities[k] == cs[k]
        invariant comparisons == old(comparisons) && details == old(details) && nextComparison == old(nextComparison)
      {
        assert cs[..i + 1][..i] == cs[..i];
        if cs[i].faceToken.None? {
          if seen < limit {
            celebrities := celebrities[i := WithPhotoToken(cfg, cs[i], net)];
          }
          seen := seen + 1;
        }
        i := i + 1;
      }
    }

    /** `call_face_plus_plus_api`: tokens are generated first when no celebrity has one, and
        then the user's face is ranked against the table as it now stands. */
    method CallFacePlusPlus(cfg: FacePP.Config, u: Upload, net: Network, convert: seq<byte> -> Conversion)
      returns (r: Result<seq<Match>, string>)
      requires Valid()
      modifies this
      ensures Valid()
      ensures celebrities == CorpusForComparison(old(celebrities), cfg, net)
      ensures r == RankingOutcome(celebrities, cfg, u, net, convert)
      ensures comparisons == old(comparisons) && details == old(details) && nextComparison == old(nextComparison)
    {
      if TokenHolders(celebrities) == [] {
        GenerateTokens(cfg, TokenGenerationLimit, net);
      }
      var holders := TokenHolders(celebrities);
      if holders == [] {
        return Ok([]);
      }
      var detection := DetectUserFace(cfg, u, net, convert);
      if detection.outcome.Err? {
        return Err(detection.outcome.error);
      }
      var scored := CompareWithCelebrities(cfg, detection.outcome.value, holders, net);
      if scored.Err? {
        return Err(scored.error);
      }
      var matches := scored.value;
      r := Ok(TopMatches(matches));
    }

    /** The loop of `post` that writes one detail per ranked celebrity still in the table. */
    method StoreDetails(id: nat, matches: seq<Match>)
      requires Valid() && id in comparisons
      modifies this
      ensures Valid()
      ensures details == old(details) + StoredDetails(id, matches, celebrities)
      ensures celebrities == old(celebrities) && comparisons == old(comparisons) && nextComparison == old(nextComparison)
    {
      var i := 0;
      while i < |matches|
        invariant 0 <= i <= |matches|
        invariant details == old(details) + StoredDetails(id, matches[..i], celebrities)
        invariant Valid()
        invariant celebrities == old(celebrities) && comparisons == old(comparisons) && nextComparison == old(nextComparison)
      {
        var m := matches[i];
        assert matches[..i + 1][..i] == matches[..i];
        if HasId(celebrities, m.celebrityId) {
          details := details + [Detail(id, m.celebrityId, m.similarity)];
        }
        i := i + 1;
      }
      assert matches[..i] == matches;
    }

    /** `FaceCompareAPIView.post`. An invalid upload changes nothing. Otherwise a comparison
        record is created; a missing or short API key answers 503 and keeps it; every other
        failure deletes it again, leaving the comparisons and details as they were; a 201 keeps
        it with at least one stored detail. */
    method Post(upload: Option<Upload>, cfg: FacePP.Config, net: Network, convert: seq<byte> -> Conversion)
      returns (resp: Response)
      requires Valid()
      modifies this
      ensures Valid()
      ensures upload.None? ==>
                && resp == Response(400, InvalidUpload)
                && celebrities == old(celebrities) && comparisons == old(comparisons)
                && details == old(details) && nextComparison == old(nextComparison)
      ensures upload.Some? ==> nextComparison == old(nextComparison) + 1
      ensures upload.Some? && !FacePP.ValidApiKey(cfg.apiKey) ==>
                && resp == Response(503, ErrorBody(KeyMissingMessage))
                && comparisons == old(comparisons) + {old(nextComparison)}
                && celebrities == old(celebrities) && details == old(details)
      ensures upload.Some? && FacePP.ValidApiKey(cfg.apiKey) && old(celebrities) == [] ==>
                && resp == Response(404, ErrorBody(EmptyCorpusMessage))
                && celebrities == old(celebrities) && comparisons == old(comparisons) && details == old(details)
      ensures upload.Some? && FacePP.ValidApiKey(cfg.apiKey) && old(celebrities) != [] ==>
                && celebrities == CorpusForComparison(old(celebrities), cfg, net)
                && var ranking := RankingOutcome(celebrities, cfg, upload.value, net, convert);
                   var stored := if ranking.Ok? && ranking.value != []
                                 then StoredDetails(old(nextComparison), ranking.value, celebrities) else [];
                   && resp == RankedResponse(ranking, |stored|, old(nextComparison))
                   && (resp.status == 201 ==>
                         comparisons == old(comparisons) + {old(nextComparison)} && details == old(details) + stored)
                   && (resp.status != 201 ==> comparisons == old(comparisons) && details == old(details))
    {
      if upload.None? {
        return Response(400, InvalidUpload);
      }
      var id := CreateComparison();
      if !FacePP.ValidApiKey(cfg.apiKey) {
        return Response(503, ErrorBody(KeyMissingMessage));
      }
      if celebrities == [] {
        DeleteComparison(id);
        return Response(404, ErrorBody(EmptyCorpusMessage));
      }
      var ranking := CallFacePlusPlus(cfg, upload.value, net, convert);
      if ranking.Err? {
        DeleteComparison(id);
        return Response(ExceptionStatus(ranking.error), ErrorBody(ranking.error));
      }
      if ranking.value == [] {
        DeleteComparison(id);
        return Response(404, ErrorBody(NoMatchMessage));
      }
      ghost var before := details;
      StoreDetails(id, ranking.value);
      var stored := StoredDetails(id, ranking.value, celebrities);
      if |stored| == 0 {
        DetailsWithoutAppended(before, stored, id);
        DeleteComparison(id);
        return Response(500, ErrorBody(NothingStoredMessage));
      }
      resp := Response(201, ResultBody(id));
    }
  }
}
