/** The error handling of the frontend's API client (frontend/src/services/api.js): which
    message and which status `uploadPhoto`, `getComparisonResult` and `getCelebrities` throw
    when a request fails, and what they return when it succeeds. */
module ApiClient {
  import opened Common

  /** The three calls of the client. */
  datatype Endpoint = UploadPhoto | GetComparisonResult | GetCelebrities

  /** The JSON body of an error response, as far as the client reads it: the text of its
      `error` and `detail` fields (a missing field is `None`; an empty one is falsy). */
  datatype ErrorData = ErrorData(error: Option<string>, detail: Option<string>)

  /** A response that came back with an error status; `data` is absent when the body is falsy. */
  datatype ErrorResponse = ErrorResponse(status: int, data: Option<ErrorData>)

  /** What axios rejects with: the response, when there was one, and the error `code`. */
  datatype AxiosError = AxiosError(response: Option<ErrorResponse>, code: Option<string>)

  /** The object the client throws (`originalError` is the axios error itself, not modelled). */
  datatype Thrown = Thrown(message: string, status: Option<int>)

  /** The outcome of a call: the response body, or the thrown object. */
  datatype Outcome<T> = Returned(data: T) | Threw(thrown: Thrown)

  const TimeoutCode := "ECONNABORTED"
  const TimeoutMessage := "上传超时，请确保网络稳定并重试"

  /** The message each call throws when nothing better is known. */
  function DefaultMessage(ep: Endpoint): string
  {
    match ep
    case UploadPhoto => "上传照片失败，请重试"
    case GetComparisonResult => "获取比对结果失败"
    case GetCelebrities => "获取名人列表失败"
  }

  /** Whether the error carries response data the client can read. */
  predicate HasData(e: AxiosError)
  {
    e.response.Some? && e.response.value.data.Some?
  }

  /** The message thrown: the server's `error`, else its `detail`; without response data, the
      timeout message for an aborted upload; the call's default otherwise. */
  function ErrorMessage(ep: Endpoint, e: AxiosError): (r: string)
    ensures HasData(e) && Present(e.response.value.data.value.error) ==> r == e.response.value.data.value.error.value
    ensures HasData(e) && !Present(e.response.value.data.value.error) && Present(e.response.value.data.value.detail) ==>
              r == e.response.value.data.value.detail.value
    ensures HasData(e) && !Present(e.response.value.data.value.error) && !Present(e.response.value.data.value.detail) ==>
              r == DefaultMessage(ep)
    ensures !HasData(e) && ep == UploadPhoto && e.code == Some(TimeoutCode) ==> r == TimeoutMessage
    ensures !HasData(e) && (ep != UploadPhoto || e.code != Some(TimeoutCode)) ==> r == DefaultMessage(ep)
  {
    if HasData(e) then
      var data := e.response.value.data.value;
      if Present(data.error) then data.error.value
      else if Present(data.detail) then data.detail.value
      else DefaultMessage(ep)
    else if ep == UploadPhoto && e.code == Some(TimeoutCode) then TimeoutMessage
    else DefaultMessage(ep)
  }

  /** What a failed call throws: the chosen message, and the response status when a response
      exists (`null` otherwise). */
  function ThrownFor(ep: Endpoint, e: AxiosError): (r: Thrown)
    ensures r.message == ErrorMessage(ep, e)
    ensures r.status.Some? <==> e.response.Some?
    ensures e.response.Some? ==> r.status == Some(e.response.value.status)
  {
    Thrown(ErrorMessage(ep, e), if e.response.Some? then Some(e.response.value.status) else None)
  }

  /** A call: the response body is returned unchanged on success; a failure throws. */
  function Call<T>(ep: Endpoint, reply: Result<T, AxiosError>): (r: Outcome<T>)
    ensures reply.Ok? <==> r.Returned?
    ensures reply.Ok? ==> r.data == reply.value
    ensures reply.Err? ==> r.thrown == ThrownFor(ep, reply.error)
  {
    match reply
    case Ok(data) => Returned(data)
    case Err(e) => Threw(ThrownFor(ep, e))
  }

  /** The error code matters only for an upload: the other two calls throw the same thing
      whatever the code. */
  lemma CodeOnlyMattersForUpload(ep: Endpoint, e: AxiosError, code: Option<string>)
    requires ep != UploadPhoto
    ensures ThrownFor(ep, e) == ThrownFor(ep, e.(code := code))
  {
  }

  /** Readable response data wins over the timeout code: an upload whose response data has
      neither field keeps the default message even when the request was aborted. */
  lemma DataOverridesTimeout(status: int)
    ensures ErrorMessage(UploadPhoto, AxiosError(Some(ErrorResponse(status, Some(ErrorData(None, None)))), Some(TimeoutCode)))
            == DefaultMessage(UploadPhoto)
  {
  }
}
