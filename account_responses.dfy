/**
 * The two account answers the client acts on: `WithdrawResponse` (a withdrawal refused as
 * too small, refused for want of funds, or pending) and `GetBalanceResponse` (the balance).
 */
module AccountResponses {
  import opened Wrappers
  import opened Clr
  import opened Json
  import opened ResponseBase

  /** A withdrawal response: the common fields, the pending amount and the two refusal flags. */
  datatype WithdrawView = WithdrawView(base: BaseFields, withdrawalPending: real, withdrawalTooSmall: bool, insufficientFunds: bool)

  const FreshWithdraw: WithdrawView := WithdrawView(FreshBase, 0.0, false, false)

  /** The answer reports a pending withdrawal: neither refusal key comes first. */
  predicate IsPending(resp: JsonObject)
  {
    "TooSmall" !in resp && "InsufficientFunds" !in resp && "Pending" in resp
  }

  /**
   * The decoding of a withdrawal answer: TooSmall, then InsufficientFunds, then Pending are
   * looked for, and the first present one decides. Only Pending sets success and the pending
   * amount (satoshis read as coins); a refusal leaves the amount at 0.
   */
  function DecodeWithdraw(resp: JsonObject): (r: Result<WithdrawView, Exception>)
    ensures r.Success? <==> DecodeBase(resp).Success? && (IsPending(resp) ==> ToDecimal(resp["Pending"]).Success?)
    ensures r.Success? ==> (r.value.withdrawalTooSmall <==> "TooSmall" in resp)
    ensures r.Success? ==> (r.value.insufficientFunds <==> "TooSmall" !in resp && "InsufficientFunds" in resp)
    ensures r.Success? ==> (r.value.base.success <==> "success" in resp || IsPending(resp))
    ensures r.Success? && IsPending(resp) ==> r.value.withdrawalPending * 100000000.0 == ToDecimal(resp["Pending"]).value
    ensures r.Success? && !IsPending(resp) ==> r.value.withdrawalPending == 0.0
    ensures r.Success? ==> r.value.base.errorMessage == DecodeBase(resp).value.errorMessage
  {
    var base :- DecodeBase(resp);
    if "TooSmall" in resp then Success(WithdrawView(base, 0.0, true, false))
    else if "InsufficientFunds" in resp then Success(WithdrawView(base, 0.0, false, true))
    else if "Pending" in resp then
      var pending :- Satoshis(resp["Pending"]);
      Success(WithdrawView(base.(success := true), pending, false, false))
    else Success(WithdrawView(base, 0.0, false, false))
  }

  class WithdrawResponse {
    var Success: bool
    var ErrorMessage: Option<string>
    var RateLimited: bool
    var TotpFailure: bool
    var WithdrawalPending: real
    var WithdrawalTooSmall: bool
    var InsufficientFunds: bool

    function View(): WithdrawView
      reads this
    {
      WithdrawView(BaseFields(Success, ErrorMessage, RateLimited, TotpFailure), WithdrawalPending, WithdrawalTooSmall, InsufficientFunds)
    }

    constructor()
      ensures View() == FreshWithdraw
    {
      Success, ErrorMessage, RateLimited, TotpFailure := false, None, false, false;
      WithdrawalPending, WithdrawalTooSmall, InsufficientFunds := 0.0, false, false;
    }

    /** Decodes the answer into this new response; an exception leaves the decoder. */
    method SetRawResponse(resp: JsonObject) returns (thrown: Option<Exception>)
      requires View() == FreshWithdraw
      modifies this
      ensures thrown.None? ==> DecodeWithdraw(resp) == Result.Success(View())
      ensures thrown.Some? ==> DecodeWithdraw(resp) == Failure(thrown.value)
    {
      var base := DecodeBase(resp);
      if base.Failure? {
        return Some(base.error);
      }
      Success, ErrorMessage, RateLimited, TotpFailure := base.value.success, base.value.errorMessage, base.value.rateLimited, base.value.totpFailure;
      if "TooSmall" in resp {
        WithdrawalTooSmall := true;
      } else if "InsufficientFunds" in resp {
        InsufficientFunds := true;
      } else if "Pending" in resp {
        var pending := ToDecimal(resp["Pending"]);
        if pending.Failure? {
          return Some(pending.error);
        }
        WithdrawalPending := pending.value / 100000000.0;
        Success := true;
      }
      return None;
    }
  }

  /** A balance response: the common fields and the balance. */
  datatype BalanceView = BalanceView(base: BaseFields, balance: real)

  const FreshBalance: BalanceView := BalanceView(FreshBase, 0.0)

  /**
   * The decoding of a balance answer: a "Balance" key sets success and the balance (satoshis
   * read as coins); without it the balance stays 0 and success follows the common rule.
   */
  function DecodeBalance(resp: JsonObject): (r: Result<BalanceView, Exception>)
    ensures r.Success? <==> DecodeBase(resp).Success? && ("Balance" in resp ==> ToDecimal(resp["Balance"]).Success?)
    ensures r.Success? ==> (r.value.base.success <==> "success" in resp || "Balance" in resp)
    ensures r.Success? && "Balance" in resp ==> r.value.balance * 100000000.0 == ToDecimal(resp["Balance"]).value
    ensures r.Success? && "Balance" !in resp ==> r.value.balance == 0.0
    ensures r.Success? ==> r.value.base.errorMessage == DecodeBase(resp).value.errorMessage
  {
    var base :- DecodeBase(resp);
    if "Balance" in resp then
      var balance :- Satoshis(resp["Balance"]);
      Success(BalanceView(base.(success := true), balance))
    else Success(BalanceView(base, 0.0))
  }

  class GetBalanceResponse {
    var Success: bool
    var ErrorMessage: Option<string>
    var RateLimited: bool
    var TotpFailure: bool
    var Balance: real

    function View(): BalanceView
      reads this
    {
      BalanceView(BaseFields(Success, ErrorMessage, RateLimited, TotpFailure), Balance)
    }

    constructor()
      ensures View() == FreshBalance
    {
      Success, ErrorMessage, RateLimited, TotpFailure := false, None, false, false;
      Balance := 0.0;
    }

    /** Decodes the answer into this new response; an exception leaves the decoder. */
    method SetRawResponse(resp: JsonObject) returns (thrown: Option<Exception>)
      requires View() == FreshBalance
      modifies this
      ensures thrown.None? ==> DecodeBalance(resp) == Result.Success(View())
      ensures thrown.Some? ==> DecodeBalance(resp) == Failure(thrown.value)
    {
      var base := DecodeBase(resp);
      if base.Failure? {
        return Some(base.error);
      }
      Success, ErrorMessage, RateLimited, TotpFailure := base.value.success, base.value.errorMessage, base.value.rateLimited, base.value.totpFailure;
      if "Balance" in resp {
        Success := true;
        var balance := ToDecimal(resp["Balance"]);
        if balance.Failure? {
          return Some(balance.error);
        }
        Balance := balance.value / 100000000.0;
      }
      return None;
    }
  }
}
