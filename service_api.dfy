/**
 * The HTTP client of src/api/ServiceApi.ts: the response envelope, the normalisation of a
 * failed request (`handleError`) and the catch-and-return shape shared by every endpoint wrapper.
 * The transport (axios) is abstracted: a request either delivers the server's JSON envelope or
 * fails, and that outcome is a parameter.
 */
module ServiceApi {
  import opened Wrappers
  import opened Text
  import opened Errors

  /** The part of a server reply body the client inspects: `data.error.message`. */
  datatype ReplyBody = ReplyBody(errorMessage: Option<string>)

  /** An HTTP response attached to a failed request (axios rejects every non-2xx status). */
  datatype HttpReply = HttpReply(status: nat, body: Option<ReplyBody>)

  /** Why a request failed: an axios error, with or without a response, or any other Error. */
  datatype RequestFailure =
    | AxiosFailure(message: string, response: Option<HttpReply>)
    | OtherFailure(message: string)

  /** What `details` holds: the reply body, or the error object itself. */
  datatype ErrorDetails =
    | ResponseData(body: ReplyBody)
    | AxiosErrorObject(message: string)
    | ThrownObject(message: string)

  datatype ErrorBody = ErrorBody(code: string, message: string, details: Option<ErrorDetails>)

  /** The envelope `{ data?, error?, status, timestamp }`; the timestamp is not modelled. */
  datatype ApiResponse<T> = ApiResponse(data: Option<T>, error: Option<ErrorBody>, status: int)

  /** What one endpoint call meets on the wire: the server's envelope, or a failure. */
  datatype Transport<T> = Delivered(response: ApiResponse<T>) | Failed(failure: RequestFailure)

  const HttpPrefix := "HTTP_"

  function HttpCode(status: nat): string {
    HttpPrefix + NatToString(status)
  }

  /** Recovers the status from an `HTTP_<status>` code; other codes carry none. */
  function ParseHttpCode(code: string): Option<nat> {
    if StartsWith(code, HttpPrefix) then ParseNat(code[|HttpPrefix|..]) else None
  }

  /** `axiosErr.response?.data?.error?.message`, when it is a non-empty string. */
  function ServerMessage(response: Option<HttpReply>): Option<string> {
    if response.Some? && response.value.body.Some? && response.value.body.value.errorMessage.Some?
       && response.value.body.value.errorMessage.value != ""
    then response.value.body.value.errorMessage
    else None
  }

  /** `handleError`: every failure becomes an error envelope, never a data one. */
  function HandleError<T>(f: RequestFailure): (r: ApiResponse<T>)
    ensures r.data.None? && r.error.Some?
    ensures f.AxiosFailure? && f.response.Some? ==>
      r.error.value.code == HttpCode(f.response.value.status) &&
      r.status == (if f.response.value.status == 0 then 500 else f.response.value.status)
    ensures f.AxiosFailure? && f.response.None? ==> r.error.value.code == NETWORK_ERROR && r.status == 500
    ensures f.AxiosFailure? ==>
      r.error.value.message == ServerMessage(f.response).GetOr(f.message)
    ensures f.OtherFailure? ==>
      r.error.value == ErrorBody(UNKNOWN_ERROR, f.message, Some(ThrownObject(f.message))) && r.status == 500
  {
    match f
    case AxiosFailure(message, response) =>
      var code := if response.Some? then HttpCode(response.value.status) else NETWORK_ERROR;
      var details :=
        if response.Some? && response.value.body.Some? then ResponseData(response.value.body.value)
        else AxiosErrorObject(message);
      var status := if response.Some? && response.value.status != 0 then response.value.status else 500;
      ApiResponse(None, Some(ErrorBody(code, ServerMessage(response).GetOr(message), Some(details))), status)
    case OtherFailure(message) =>
      ApiResponse(None, Some(ErrorBody(UNKNOWN_ERROR, message, Some(ThrownObject(message)))), 500)
  }

  /**
   * Every endpoint wrapper (`getAllServices`, `getServiceById`, `createService`, `updateService`,
   * `deleteService`, `getServicesByUser`, `toggleServiceStatus`, `searchServices`): the delivered
   * envelope is returned as it is, and a failure is caught and returned through `handleError`.
   */
  function Invoke<T>(t: Transport<T>): (r: ApiResponse<T>)
    ensures t.Delivered? ==> r == t.response
    ensures t.Failed? ==> r.data.None? && r.error.Some? && r == HandleError(t.failure)
  {
    match t
    case Delivered(response) => response
    case Failed(failure) => HandleError(failure)
  }

  /**
   * The code of a normalised failure identifies it: an `HTTP_<status>` code gives back the exact
   * response status (even 0, whose envelope status is 500), and the other two codes give none.
   */
  lemma CodeIdentifiesFailure<T>(f: RequestFailure)
    ensures var code := HandleError<T>(f).error.value.code;
      ParseHttpCode(code) == (if f.AxiosFailure? && f.response.Some? then Some(f.response.value.status) else None)
  {
    var code := HandleError<T>(f).error.value.code;
    if f.AxiosFailure? && f.response.Some? {
      var s := f.response.value.status;
      assert code[|HttpPrefix|..] == NatToString(s);
      ParseNatToString(s);
    } else {
      assert code[0] != 'H';
    }
  }

  /**
   * Rethrown as a `ServiceOperationError`, a normalised failure is retryable exactly when no
   * response arrived; an `HTTP_<status>` or `UNKNOWN_ERROR` failure never is.
   */
  lemma RetryableOnlyWithoutResponse<T>(f: RequestFailure)
    ensures var e := HandleError<T>(f).error.value;
      IsRetryable(NewOperationError(e.message, e.code, None)) <==> f.AxiosFailure? && f.response.None?
  {
    var e := HandleError<T>(f).error.value;
    if f.AxiosFailure? && f.response.Some? {
      NonTransientCodesNotRetryable(f.response.value.status, e.message, None);
    } else if f.OtherFailure? {
      NonTransientCodesNotRetryable(0, e.message, None);
    }
  }
}
