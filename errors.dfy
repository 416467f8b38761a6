/**
 * The error taxonomy of the client (src/types/errors.ts): the values a failing operation can
 * throw, the `ServiceOperationError` constructor and the retry-eligibility test.
 */
module Errors {
  import opened Wrappers
  import opened Text

  /** The retryable codes, in the order the source lists them. */
  const NETWORK_ERROR := "NETWORK_ERROR"
  const TIMEOUT_ERROR := "TIMEOUT_ERROR"
  const SERVICE_UNAVAILABLE := "SERVICE_UNAVAILABLE"
  const RetryableCodes: seq<string> := [NETWORK_ERROR, TIMEOUT_ERROR, SERVICE_UNAVAILABLE]

  /** Codes produced elsewhere in the client; none of them is retryable. */
  const VALIDATION_ERROR := "VALIDATION_ERROR"
  const NOT_FOUND := "NOT_FOUND"
  const NO_DATA := "NO_DATA"
  const UNKNOWN_ERROR := "UNKNOWN_ERROR"
  const OPERATION_ERROR := "OPERATION_ERROR"

  const OperationErrorName := "ServiceOperationError"

  /** The `details` payload of an error (`unknown` in the source), kept as an opaque description. */
  datatype Details = Details(description: string)

  /**
   * A thrown JavaScript value, as far as the core distinguishes it:
   * an instance of `ServiceOperationError`, some other `Error`, or a value that is not an
   * `Error` at all (a string, `undefined`, ...), remembered by its `String(...)` rendering.
   */
  datatype Thrown =
    | OperationError(name: string, message: string, code: string, details: Option<Details>)
    | PlainError(name: string, message: string)
    | NonError(text: string)
  {
    predicate IsError() { OperationError? || PlainError? }
  }

  /** `new ServiceOperationError(message, code, details)`. */
  function NewOperationError(message: string, code: string, details: Option<Details>): (e: Thrown)
    ensures e.OperationError? && e.name == OperationErrorName
    ensures e.message == message && e.code == code && e.details == details
    ensures IsRetryable(e) <==> code in RetryableCodes
  {
    OperationError(OperationErrorName, message, code, details)
  }

  /** `isRetryableError`: only a `ServiceOperationError` whose code is one of the three retryable codes. */
  predicate IsRetryable(e: Thrown): (b: bool)
    ensures b ==> e.IsError() && e.OperationError?
    ensures b ==> e.code == NETWORK_ERROR || e.code == TIMEOUT_ERROR || e.code == SERVICE_UNAVAILABLE
  {
    e.OperationError? && e.code in RetryableCodes
  }

  /**
   * Retryable exactly for the three transient codes; any other thrown value (a plain Error, a
   * string, undefined) never is, and message and details play no part.
   */
  lemma RetryableExactly(e: Thrown)
    ensures IsRetryable(e) <==>
      e.OperationError? &&
      (e.code == "NETWORK_ERROR" || e.code == "TIMEOUT_ERROR" || e.code == "SERVICE_UNAVAILABLE")
    ensures !e.OperationError? ==> !IsRetryable(e)
    ensures forall m: string, d: Option<Details> ::
      e.OperationError? ==> IsRetryable(e) == IsRetryable(OperationError(e.name, m, e.code, d))
  {
  }

  /** The codes of validation, lookup and unclassified failures, and every `HTTP_<status>`, are not retryable. */
  lemma NonTransientCodesNotRetryable(status: nat, message: string, details: Option<Details>)
    ensures forall code :: code in [VALIDATION_ERROR, NOT_FOUND, NO_DATA, UNKNOWN_ERROR, OPERATION_ERROR] ==>
      !IsRetryable(NewOperationError(message, code, details))
    ensures !IsRetryable(NewOperationError(message, "HTTP_" + NatToString(status), details))
  {
    var http := "HTTP_" + NatToString(status);
    assert http[0] == 'H';
    assert http != NETWORK_ERROR && http != TIMEOUT_ERROR && http != SERVICE_UNAVAILABLE;
  }
}
