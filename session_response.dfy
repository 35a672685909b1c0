/**
 * `BeginSessionResponse`: the answer to a login. Three refusal keys end the decoding early;
 * otherwise a session is built when its three identifying keys are present, and then the
 * figures of each currency are copied, BTC's from the top level and Doge's and LTC's from
 * their sub-objects, one key at a time and only for the keys that are present.
 */
module SessionResponse {
  import opened Wrappers
  import opened Clr
  import opened Json
  import opened ResponseBase
  import opened Session

  /** The currency the decoder's loop visits at step `x`. */
  function LoopCurrency(x: nat): (c: Currency)
    requires x < 3
    ensures (c == Btc <==> x == 0) && (c == Doge <==> x == 1) && (c == Ltc <==> x == 2)
  {
    if x == 0 then Btc else if x == 1 then Doge else Ltc
  }

  /**
   * Where the figures of step `x` come from: the answer itself for BTC, and the "Doge" or
   * "LTC" entry when it is present and an object. A step without a source is skipped.
   */
  function CurrencySource(resp: JsonObject, x: nat): (c: Option<JsonObject>)
    requires x < 3
    ensures x == 0 ==> c == Some(resp)
    ensures x == 1 ==> (c.Some? <==> "Doge" in resp && resp["Doge"].Object?)
    ensures x == 2 ==> (c.Some? <==> "LTC" in resp && resp["LTC"].Object?)
    ensures x == 1 && c.Some? ==> c.value == resp["Doge"].fields
    ensures x == 2 && c.Some? ==> c.value == resp["LTC"].fields
  {
    if x == 0 then Some(resp)
    else if x == 1 then (if "Doge" in resp then AsObject(resp["Doge"]) else None)
    else (if "LTC" in resp then AsObject(resp["LTC"]) else None)
  }

  function OptionalInt64(c: JsonObject, key: string, current: Int64): Result<Int64, Exception>
  {
    if key in c then ToInt64(c[key]) else Success(current)
  }

  function OptionalSatoshis(c: JsonObject, key: string, current: real): Result<real, Exception>
  {
    if key in c then Satoshis(c[key]) else Success(current)
  }

  function OptionalText(c: JsonObject, key: string, current: Option<string>): Result<Option<string>, Exception>
  {
    if key in c then StringCast(c[key]) else Success(current)
  }

  /**
   * The keys of one currency object applied to its figures, in the decoder's order. A key
   * that is present replaces its figure (amounts read as satoshis); an absent key leaves it.
   */
  function CurrencyFigures(c: JsonObject, info: CurrencyInfo): (r: Result<CurrencyInfo, Exception>)
    ensures r.Success? <==> (OptionalInt64(c, "BetCount", info.betCount).Success?
      && OptionalSatoshis(c, "BetPayIn", info.betPayIn).Success? && OptionalSatoshis(c, "BetPayOut", info.betPayOut).Success?
      && OptionalInt64(c, "BetWinCount", info.betWinCount).Success? && OptionalSatoshis(c, "Balance", info.balance).Success?
      && OptionalText(c, "DepositAddress", info.depositAddress).Success?)
    ensures r.Success? && "BetCount" !in c ==> r.value.betCount == info.betCount
    ensures r.Success? && "BetCount" in c ==> r.value.betCount == ToInt64(c["BetCount"]).value
    ensures r.Success? && "BetPayIn" !in c ==> r.value.betPayIn == info.betPayIn
    ensures r.Success? && "BetPayIn" in c ==> r.value.betPayIn * 100000000.0 == ToDecimal(c["BetPayIn"]).value
    ensures r.Success? && "BetPayOut" !in c ==> r.value.betPayOut == info.betPayOut
    ensures r.Success? && "BetPayOut" in c ==> r.value.betPayOut * 100000000.0 == ToDecimal(c["BetPayOut"]).value
    ensures r.Success? && "BetWinCount" !in c ==> r.value.betWinCount == info.betWinCount
    ensures r.Success? && "BetWinCount" in c ==> r.value.betWinCount == ToInt64(c["BetWinCount"]).value
    ensures r.Success? && "Balance" !in c ==> r.value.balance == info.balance
    ensures r.Success? && "Balance" in c ==> r.value.balance * 100000000.0 == ToDecimal(c["Balance"]).value
    ensures r.Success? && "DepositAddress" !in c ==> r.value.depositAddress == info.depositAddress
    ensures r.Success? && "DepositAddress" in c ==> r.value.depositAddress == StringCast(c["DepositAddress"]).value
  {
    var betCount :- OptionalInt64(c, "BetCount", info.betCount);
    var betPayIn :- OptionalSatoshis(c, "BetPayIn", info.betPayIn);
    var betPayOut :- OptionalSatoshis(c, "BetPayOut", info.betPayOut);
    var betWinCount :- OptionalInt64(c, "BetWinCount", info.betWinCount);
    var balance :- OptionalSatoshis(c, "Balance", info.balance);
    var depositAddress :- OptionalText(c, "DepositAddress", info.depositAddress);
    Success(CurrencyInfo(betCount, betPayIn, betPayOut, betWinCount, balance, depositAddress))
  }

  /** What step `x` of the loop makes of the figures it finds in `st`. */
  function StepFigures(resp: JsonObject, st: SessionState, x: nat): Result<CurrencyInfo, Exception>
    requires x < 3
  {
    match CurrencySource(resp, x)
    case None => Success(FiguresOf(st, LoopCurrency(x)))
    case Some(c) => CurrencyFigures(c, FiguresOf(st, LoopCurrency(x)))
  }

  /** Steps `x` to 2 of the currency loop; a step without a source leaves the session alone. */
  function ApplyCurrencies(resp: JsonObject, st: SessionState, x: nat): Result<SessionState, Exception>
    requires x <= 3
    decreases 3 - x
  {
    if x == 3 then Success(st)
    else if CurrencySource(resp, x).None? then ApplyCurrencies(resp, st, x + 1)
    else
      var info :- StepFigures(resp, st, x);
      ApplyCurrencies(resp, WithFigures(st, LoopCurrency(x), info), x + 1)
  }

  /**
   * The loop from step `x` on succeeds exactly when every remaining step's conversions do;
   * each remaining currency then holds what its step made of the figures it had at the
   * start, the others keep theirs, and nothing else of the session changes.
   */
  lemma {:induction false} ApplyCurrenciesSpec(resp: JsonObject, st: SessionState, x: nat)
    requires x <= 3
    ensures ApplyCurrencies(resp, st, x).Success? <==> forall y :: x <= y < 3 ==> StepFigures(resp, st, y).Success?
    ensures ApplyCurrencies(resp, st, x).Success? ==>
      var t := ApplyCurrencies(resp, st, x).value;
      && (forall y :: x <= y < 3 ==> FiguresOf(t, LoopCurrency(y)) == StepFigures(resp, st, y).value)
      && (forall y :: 0 <= y < x ==> FiguresOf(t, LoopCurrency(y)) == FiguresOf(st, LoopCurrency(y)))
      && t.sessionCookie == st.sessionCookie && t.accountId == st.accountId && t.maxBetBatchSize == st.maxBetBatchSize
      && t.accountCookie == st.accountCookie && t.clientSeed == st.clientSeed && t.email == st.email
      && t.emergencyAddress == st.emergencyAddress && t.username == st.username
    decreases 3 - x
  {
    if x < 3 {
      var cur := LoopCurrency(x);
      if CurrencySource(resp, x).None? {
        ApplyCurrenciesSpec(resp, st, x + 1);
      } else if StepFigures(resp, st, x).Success? {
        var next := WithFigures(st, cur, StepFigures(resp, st, x).value);
        ApplyCurrenciesSpec(resp, next, x + 1);
        assert forall y :: x < y < 3 ==> StepFigures(resp, next, y) == StepFigures(resp, st, y) by {
          forall y | x < y < 3
            ensures StepFigures(resp, next, y) == StepFigures(resp, st, y)
          {
            assert FiguresOf(next, LoopCurrency(y)) == FiguresOf(st, LoopCurrency(y));
          }
        }
      }
    }
  }

  predicate HasSessionKeys(resp: JsonObject)
  {
    "SessionCookie" in resp && "AccountId" in resp && "MaxBetBatchSize" in resp
  }

  /**
   * The session before the currency loop: built from the cookie, the account id and the
   * batch size (converted in that order), then given the optional account cookie, e-mail
   * and emergency address.
   */
  function InitialSession(resp: JsonObject): (r: Result<SessionState, Exception>)
    requires HasSessionKeys(resp)
    ensures r.Success? <==> (StringCast(resp["SessionCookie"]).Success? && ToInt64(resp["AccountId"]).Success?
      && ToInt32(resp["MaxBetBatchSize"]).Success? && OptionalText(resp, "AccountCookie", None).Success?
      && OptionalText(resp, "Email", None).Success? && OptionalText(resp, "EmergencyAddress", None).Success?)
    ensures r.Success? ==> (r.value.sessionCookie == StringCast(resp["SessionCookie"]).value
      && r.value.accountId == ToInt64(resp["AccountId"]).value
      && r.value.maxBetBatchSize == ToInt32(resp["MaxBetBatchSize"]).value)
    ensures r.Success? ==> (("AccountCookie" in resp ==> r.value.accountCookie == StringCast(resp["AccountCookie"]).value)
      && ("AccountCookie" !in resp ==> r.value.accountCookie.None?))
    ensures r.Success? ==> ("Email" in resp ==> r.value.email == StringCast(resp["Email"]).value) && ("Email" !in resp ==> r.value.email.None?)
    ensures r.Success? ==> (("EmergencyAddress" in resp ==> r.value.emergencyAddress == StringCast(resp["EmergencyAddress"]).value)
      && ("EmergencyAddress" !in resp ==> r.value.emergencyAddress.None?))
    ensures r.Success? ==> (r.value.(accountCookie := None, email := None, emergencyAddress := None)
      == NewSession(r.value.sessionCookie, r.value.accountId, r.value.maxBetBatchSize))
    ensures r.Success? ==> forall c :: FiguresOf(r.value, c) == NoActivity
  {
    var cookie :- StringCast(resp["SessionCookie"]);
    var accountId :- ToInt64(resp["AccountId"]);
    var maxBetBatchSize :- ToInt32(resp["MaxBetBatchSize"]);
    var accountCookie :- OptionalText(resp, "AccountCookie", None);
    var email :- OptionalText(resp, "Email", None);
    var emergencyAddress :- OptionalText(resp, "EmergencyAddress", None);
    Success(NewSession(cookie, accountId, maxBetBatchSize).(accountCookie := accountCookie, email := email, emergencyAddress := emergencyAddress))
  }

  /** The session a login answer carries, from the identifying keys through the currency loop. */
  function DecodedSession(resp: JsonObject): Result<SessionState, Exception>
    requires HasSessionKeys(resp)
  {
    var st :- InitialSession(resp);
    ApplyCurrencies(resp, st, 0)
  }

  /** A login response: the common fields, the three refusal flags and the session, if one was built. */
  datatype SessionView = SessionView(base: BaseFields, invalidApiKey: bool, loginRequired: bool, wrongUsernameOrPassword: bool, session: Option<SessionState>)

  const FreshSessionView: SessionView := SessionView(FreshBase, false, false, false, None)

  predicate Refused(resp: JsonObject)
  {
    "InvalidApiKey" in resp || "LoginRequired" in resp || "LoginInvalid" in resp
  }

  /**
   * The decoding of a login answer into a new response. At most one refusal flag is set,
   * the first of InvalidApiKey, LoginRequired and LoginInvalid present; a refusal leaves the
   * session null. Otherwise a session exists exactly when its three keys are present, and
   * success is then set.
   */
  function DecodeSession(resp: JsonObject): (r: Result<SessionView, Exception>)
    ensures r.Success? <==> DecodeBase(resp).Success? && (!Refused(resp) && HasSessionKeys(resp) ==> DecodedSession(resp).Success?)
    ensures r.Success? ==> (r.value.invalidApiKey <==> "InvalidApiKey" in resp)
    ensures r.Success? ==> (r.value.loginRequired <==> "InvalidApiKey" !in resp && "LoginRequired" in resp)
    ensures r.Success? ==> (r.value.wrongUsernameOrPassword <==> "InvalidApiKey" !in resp && "LoginRequired" !in resp && "LoginInvalid" in resp)
    ensures r.Success? ==> (r.value.session.Some? <==> !Refused(resp) && HasSessionKeys(resp))
    ensures r.Success? ==> (r.value.base.success <==> "success" in resp || r.value.session.Some?)
    ensures r.Success? && r.value.session.Some? ==> r.value.session == Some(DecodedSession(resp).value)
  {
    var base :- DecodeBase(resp);
    if "InvalidApiKey" in resp then Success(SessionView(base, true, false, false, None))
    else if "LoginRequired" in resp then Success(SessionView(base, false, true, false, None))
    else if "LoginInvalid" in resp then Success(SessionView(base, false, false, true, None))
    else if HasSessionKeys(resp) then
      var session :- DecodedSession(resp);
      Success(SessionView(base.(success := true), false, false, false, Some(session)))
    else Success(SessionView(base, false, false, false, None))
  }

  /**
   * A decoded session carries the identifying values and, for each currency, what its
   * source's keys say, taken over the defaults.
   */
  lemma DecodedSessionSpec(resp: JsonObject)
    requires HasSessionKeys(resp) && DecodedSession(resp).Success?
    ensures DecodedSession(resp).value.accountId == ToInt64(resp["AccountId"]).value
    ensures DecodedSession(resp).value.maxBetBatchSize == ToInt32(resp["MaxBetBatchSize"]).value
    ensures forall y :: 0 <= y < 3 ==> (FiguresOf(DecodedSession(resp).value, LoopCurrency(y)) ==
      if CurrencySource(resp, y).None? then NoActivity else CurrencyFigures(CurrencySource(resp, y).value, NoActivity).value)
  {
    var st := InitialSession(resp).value;
    ApplyCurrenciesSpec(resp, st, 0);
  }

  /**
   * Builds the session of an answer that has the three identifying keys: the new session,
   * then the optional strings, then the currency loop. An exception ends the decoding.
   */
  method BuildSession(resp: JsonObject) returns (session: SessionInfo?, thrown: Option<Exception>)
    requires HasSessionKeys(resp)
    ensures thrown.None? <==> DecodedSession(resp).Success?
    ensures thrown.Some? ==> DecodedSession(resp) == Failure(thrown.value)
    ensures thrown.None? ==> session != null && fresh(session) && session.State() == DecodedSession(resp).value
  {
    session := null;
    var cookie := StringCast(resp["SessionCookie"]);
    if cookie.Failure? {
      return null, Some(cookie.error);
    }
    var accountId := ToInt64(resp["AccountId"]);
    if accountId.Failure? {
      return null, Some(accountId.error);
    }
    var maxBetBatchSize := ToInt32(resp["MaxBetBatchSize"]);
    if maxBetBatchSize.Failure? {
      return null, Some(maxBetBatchSize.error);
    }
    var s := new SessionInfo(cookie.value, accountId.value, maxBetBatchSize.value);
    if "AccountCookie" in resp {
      var v := StringCast(resp["AccountCookie"]);
      if v.Failure? {
        return null, Some(v.error);
      }
      s.SetAccountCookie(v.value);
    }
    if "Email" in resp {
      var v := StringCast(resp["Email"]);
      if v.Failure? {
        return null, Some(v.error);
      }
      s.SetEmail(v.value);
    }
    if "EmergencyAddress" in resp {
      var v := StringCast(resp["EmergencyAddress"]);
      if v.Failure? {
        return null, Some(v.error);
      }
      s.SetEmergencyAddress(v.value);
    }
    assert InitialSession(resp) == Success(s.State());
    var x := 0;
    while x < 3
      invariant 0 <= x <= 3
      invariant ApplyCurrencies(resp, s.State(), x) == DecodedSession(resp)
    {
      var source := CurrencySource(resp, x);
      if source.Some? {
        var info := CurrencyFigures(source.value, s.Figures(LoopCurrency(x)));
        if info.Failure? {
          return null, Some(info.error);
        }
        s.SetFigures(LoopCurrency(x), info.value);
      }
      x := x + 1;
    }
    return s, None;
  }

  class BeginSessionResponse {
    var Success: bool
    var ErrorMessage: Option<string>
    var RateLimited: bool
    var TotpFailure: bool
    var Session: SessionInfo?
    var InvalidApiKey: bool
    var LoginRequired: bool
    var WrongUsernameOrPassword: bool

    function View(): SessionView
      reads this, Session
    {
      SessionView(BaseFields(Success, ErrorMessage, RateLimited, TotpFailure), InvalidApiKey, LoginRequired, WrongUsernameOrPassword,
        if Session == null then None else Some(Session.State()))
    }

    constructor()
      ensures View() == FreshSessionView
    {
      Success, ErrorMessage, RateLimited, TotpFailure := false, None, false, false;
      Session, InvalidApiKey, LoginRequired, WrongUsernameOrPassword := null, false, false, false;
    }

    /**
     * Decodes the answer into this new response. An exception leaves the decoder (the
     * response is then discarded); otherwise the response holds `DecodeSession(resp)`,
     * with a newly built session.
     */
    method SetRawResponse(resp: JsonObject) returns (thrown: Option<Exception>)
      requires View() == FreshSessionView
      modifies this
      ensures thrown.None? ==> DecodeSession(resp) == Result.Success(View())
      ensures thrown.Some? ==> DecodeSession(resp) == Failure(thrown.value)
      ensures Session != null ==> fresh(Session)
    {
      var base := DecodeBase(resp);
      if base.Failure? {
        return Some(base.error);
      }
      Success, ErrorMessage, RateLimited, TotpFailure := base.value.success, base.value.errorMessage, base.value.rateLimited, base.value.totpFailure;
      if "InvalidApiKey" in resp {
        InvalidApiKey := true;
        return None;
      }
      if "LoginRequired" in resp {
        LoginRequired := true;
        return None;
      }
      if "LoginInvalid" in resp {
        WrongUsernameOrPassword := true;
        return None;
      }
      if HasSessionKeys(resp) {
        Success := true;
        var session;
        session, thrown := BuildSession(resp);
        if thrown.Some? {
          return;
        }
        Session := session;
      }
      return None;
    }
  }
}
