/**
 * What every response decoder does first: record the error message, the rate-limit and
 * two-factor flags, and the generic success flag, from the keys present in the answer.
 */
module ResponseBase {
  import opened Wrappers
  import opened Clr
  import opened Json

  /** The fields every response has. */
  datatype BaseFields = BaseFields(success: bool, errorMessage: Option<string>, rateLimited: bool, totpFailure: bool)

  /** A response before decoding: no success, no message, no flags. */
  const FreshBase: BaseFields := BaseFields(false, None, false, false)

  /**
   * The common part of decoding, applied to a new response: "error" gives the message (it
   * must be a string or null), "TooFast" the rate-limit flag, "TotpFailure" the two-factor
   * flag and "success" the success flag; each flag is set exactly when its key is present.
   */
  function DecodeBase(resp: JsonObject): (r: Result<BaseFields, Exception>)
    ensures r.Failure? <==> "error" in resp && !(resp["error"].Null? || resp["error"].Text?)
    ensures r.Failure? ==> r.error == InvalidCastException
    ensures r.Success? ==> r.value.success == ("success" in resp)
    ensures r.Success? ==> r.value.rateLimited == ("TooFast" in resp)
    ensures r.Success? ==> r.value.totpFailure == ("TotpFailure" in resp)
    ensures r.Success? ==> (r.value.errorMessage.Some? <==> "error" in resp && resp["error"].Text?)
    ensures r.Success? && r.value.errorMessage.Some? ==> r.value.errorMessage.value == resp["error"].s
  {
    var message :- if "error" in resp then StringCast(resp["error"]) else Success(None);
    Success(BaseFields("success" in resp, message, "TooFast" in resp, "TotpFailure" in resp))
  }
}
