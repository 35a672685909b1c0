/**
 * The public synchronous calls of the client: each validates its arguments, builds a form,
 * posts it, decodes the answer into a new response object and lets the matching `Process`
 * overload update the session. The web service is a parameter: a function from the form
 * posted to the reply it gives, either a decoded JSON object or a transport failure
 * (a `WebException`, whose message the response keeps). An exception from validation, from
 * building the form or from decoding leaves the call, and no response is returned.
 */
module ApiCalls {
  import opened Wrappers
  import opened Clr
  import Json
  import opened ResponseBase
  import opened BetResponses
  import opened AccountResponses
  import opened SessionResponse
  import opened Session
  import Settings
  import opened Validation
  import opened FormData
  import opened DiceWebApi
  import Fairness
  import Progression
  import opened Money

  /** What the service gives back for one posted form. */
  datatype Reply = Answer(resp: Json.JsonObject) | WebFailure(message: string)

  /** The web service as the client sees it: the reply to each form. */
  type Service = Form -> Reply

  // ---------------------------------------------------------------------------
  // Request<T>: a new response, decoded from the answer or carrying the transport error

  function ReceivedBet(reply: Reply): Result<BetView, Exception>
  {
    match reply
    case Answer(resp) => DecodeBet(resp)
    case WebFailure(m) => Success(FreshBet.(base := FreshBase.(errorMessage := Some(m))))
  }

  function ReceivedBatch(reply: Reply): Result<BatchView, Exception>
  {
    match reply
    case Answer(resp) => DecodeBatch(resp)
    case WebFailure(m) => Success(FreshBatch.(base := FreshBase.(errorMessage := Some(m))))
  }

  function ReceivedBalance(reply: Reply): Result<BalanceView, Exception>
  {
    match reply
    case Answer(resp) => DecodeBalance(resp)
    case WebFailure(m) => Success(FreshBalance.(base := FreshBase.(errorMessage := Some(m))))
  }

  function ReceivedWithdraw(reply: Reply): Result<WithdrawView, Exception>
  {
    match reply
    case Answer(resp) => DecodeWithdraw(resp)
    case WebFailure(m) => Success(FreshWithdraw.(base := FreshBase.(errorMessage := Some(m))))
  }

  function ReceivedSession(reply: Reply): Result<SessionView, Exception>
  {
    match reply
    case Answer(resp) => DecodeSession(resp)
    case WebFailure(m) => Success(FreshSessionView.(base := FreshBase.(errorMessage := Some(m))))
  }

  method RequestBet(reply: Reply) returns (res: PlaceBetResponse, thrown: Option<Exception>)
    ensures fresh(res)
    ensures thrown.None? ==> ReceivedBet(reply) == Result.Success(res.View())
    ensures thrown.Some? ==> reply.Answer? && ReceivedBet(reply) == Failure(thrown.value)
  {
    res := new PlaceBetResponse();
    match reply
    case Answer(resp) =>
      thrown := res.SetRawResponse(resp);
    case WebFailure(message) =>
      res.ErrorMessage := Some(message);
      thrown := None;
  }

  /** The arrays of a new batch response are fresh and its payouts start at zero. */
  method RequestBatch(reply: Reply) returns (res: PlaceAutomatedBetsResponse, thrown: Option<Exception>)
    ensures fresh(res)
    ensures thrown.None? ==> res.Valid() && ReceivedBatch(reply) == Result.Success(res.View())
    ensures thrown.None? && res.BetIds != null ==> fresh(res.BetIds) && fresh(res.Secrets) && fresh(res.PayIns) && fresh(res.PayOuts)
    ensures thrown.None? && res.PayOuts != null ==> forall i :: 0 <= i < res.PayOuts.Length ==> res.PayOuts[i] == 0.0
    ensures thrown.Some? ==> reply.Answer? && ReceivedBatch(reply) == Failure(thrown.value)
  {
    res := new PlaceAutomatedBetsResponse();
    match reply
    case Answer(resp) =>
      thrown := res.SetRawResponse(resp);
      if thrown.None? && res.PayOuts != null {
        assert res.View().payOuts == Some(res.PayOuts[..]);
        assert res.View().payOuts.value == Repeat<real>(0.0, res.BetCount);
      }
    case WebFailure(message) =>
      res.ErrorMessage := Some(message);
      thrown := None;
  }

  method RequestBalance(reply: Reply) returns (res: GetBalanceResponse, thrown: Option<Exception>)
    ensures fresh(res)
    ensures thrown.None? ==> ReceivedBalance(reply) == Result.Success(res.View())
    ensures thrown.Some? ==> reply.Answer? && ReceivedBalance(reply) == Failure(thrown.value)
  {
    res := new GetBalanceResponse();
    match reply
    case Answer(resp) =>
      thrown := res.SetRawResponse(resp);
    case WebFailure(message) =>
      res.ErrorMessage := Some(message);
      thrown := None;
  }

  method RequestWithdraw(reply: Reply) returns (res: WithdrawResponse, thrown: Option<Exception>)
    ensures fresh(res)
    ensures thrown.None? ==> ReceivedWithdraw(reply) == Result.Success(res.View())
    ensures thrown.Some? ==> reply.Answer? && ReceivedWithdraw(reply) == Failure(thrown.value)
  {
    res := new WithdrawResponse();
    match reply
    case Answer(resp) =>
      thrown := res.SetRawResponse(resp);
    case WebFailure(message) =>
      res.ErrorMessage := Some(message);
      thrown := None;
  }

  method RequestSession(reply: Reply) returns (res: BeginSessionResponse, thrown: Option<Exception>)
    ensures fresh(res)
    ensures res.Session != null ==> fresh(res.Session)
    ensures thrown.None? ==> ReceivedSession(reply) == Result.Success(res.View())
    ensures thrown.Some? ==> reply.Answer? && ReceivedSession(reply) == Failure(thrown.value)
  {
    res := new BeginSessionResponse();
    match reply
    case Answer(resp) =>
      thrown := res.SetRawResponse(resp);
    case WebFailure(message) =>
      res.ErrorMessage := Some(message);
      thrown := None;
  }

  // ---------------------------------------------------------------------------
  // The forms that carry no amount

  function LoginForm(apiKey: Option<string>, username: Option<string>, password: Option<string>): Form
  {
    [("a", Some("Login")), ("Key", apiKey), ("Username", username), ("Password", password)]
  }

  function GetBalanceForm(sessionCookie: Option<string>): Form
  {
    [("a", Some("GetBalance")), ("s", sessionCookie)]
  }

  /**
   * The automated-bets form, field by field in the order the client writes it, with the
   * amount fields as written. It fails only when an amount overflows.
   */
  function AutomatedBetsForm(sessionCookie: Option<string>, settings: Settings.AutomatedBetsSettings): (r: Result<Form, Exception>)
    reads settings
    ensures r.Success? <==> StakeFieldsAsWritten(StakeAmountsOf(settings)).Success?
    ensures r.Failure? ==> r.error == OverflowException
    ensures r.Success? ==> (|r.value| == 15 && r.value[0] == ("a", Some("PlaceAutomatedBets")) && r.value[1] == ("s", sessionCookie)
      && r.value[14] == ("Compact", Some("1")))
    ensures r.Success? ==> (var f := StakeFieldsAsWritten(StakeAmountsOf(settings)).value;
      [r.value[2], r.value[8], r.value[11], r.value[12], r.value[13]] == f
      && CarriesAmount(r.value[2], "BasePayIn", settings.BasePayIn()) && CarriesAmount(r.value[8], "MaxPayIn", settings.MaxAllowedPayIn())
      && CarriesAmount(r.value[11], "StopMaxBalance", settings.StopMaxBalance)
      && CarriesWholeCoins(r.value[12], "StopMinBalance", settings.StopMinBalance)
      && CarriesWholeCoins(r.value[13], "StartingPayIn", settings.StartingPayIn()))
    ensures r.Success? ==> (r.value[3].0 == "Low" && r.value[3].1.Some? && IsDecimalString(r.value[3].1.value) && DecimalValue(r.value[3].1.value) == settings.GuessLow
      && r.value[4].0 == "High" && r.value[4].1.Some? && IsDecimalString(r.value[4].1.value) && DecimalValue(r.value[4].1.value) == settings.GuessHigh
      && r.value[5].0 == "MaxBets" && r.value[5].1.Some? && IsDecimalString(r.value[5].1.value) && DecimalValue(r.value[5].1.value) == settings.MaxBets as int)
    ensures r.Success? ==> (r.value[6] == ("ResetOnWin", Some(BoolString(settings.ResetOnWin)))
      && r.value[7] == ("ResetOnLose", Some(BoolString(settings.ResetOnLose)))
      && r.value[9] == ("ResetOnLoseMaxBet", Some(BoolString(settings.ResetOnLoseMaxBet)))
      && r.value[10] == ("StopOnLoseMaxBet", Some(BoolString(settings.StopOnLoseMaxBet))))
  {
    var f :- StakeFieldsAsWritten(StakeAmountsOf(settings));
    DecimalStringRoundTrip(settings.GuessLow);
    DecimalStringRoundTrip(settings.GuessHigh);
    DecimalStringRoundTrip(settings.MaxBets as int);
    Success(AutomatedBetsFields(sessionCookie, settings.GuessLow, settings.GuessHigh, settings.MaxBets,
      [settings.ResetOnWin, settings.ResetOnLose, settings.ResetOnLoseMaxBet, settings.StopOnLoseMaxBet], f))
  }

  /** Lays out the automated-bets fields: the five amount fields `f` go to positions 2, 8, 11, 12 and 13. */
  function AutomatedBetsFields(sessionCookie: Option<string>, low: Int64, high: Int64, maxBets: Int32, flags: seq<bool>, f: Form): (r: Form)
    requires |flags| == 4 && |f| == 5
    ensures |r| == 15 && [r[2], r[8], r[11], r[12], r[13]] == f
    ensures r[0] == ("a", Some("PlaceAutomatedBets")) && r[1] == ("s", sessionCookie) && r[14] == ("Compact", Some("1"))
    ensures r[3] == ("Low", Some(DecimalString(low))) && r[4] == ("High", Some(DecimalString(high)))
      && r[5] == ("MaxBets", Some(DecimalString(maxBets as int)))
    ensures r[6] == ("ResetOnWin", Some(BoolString(flags[0]))) && r[7] == ("ResetOnLose", Some(BoolString(flags[1])))
      && r[9] == ("ResetOnLoseMaxBet", Some(BoolString(flags[2]))) && r[10] == ("StopOnLoseMaxBet", Some(BoolString(flags[3])))
  {
    [("a", Some("PlaceAutomatedBets")), ("s", sessionCookie), f[0],
     ("Low", Some(DecimalString(low))), ("High", Some(DecimalString(high))), ("MaxBets", Some(DecimalString(maxBets as int))),
     ("ResetOnWin", Some(BoolString(flags[0]))), ("ResetOnLose", Some(BoolString(flags[1]))),
     f[1],
     ("ResetOnLoseMaxBet", Some(BoolString(flags[2]))), ("StopOnLoseMaxBet", Some(BoolString(flags[3]))),
     f[2], f[3], f[4], ("Compact", Some("1"))]
  }

  /** Builds the automated-bets form and posts it: the new response, or the exception of either step. */
  method PostAutomatedBets(sessionCookie: Option<string>, settings: Settings.AutomatedBetsSettings, service: Service)
    returns (res: PlaceAutomatedBetsResponse?, thrown: Option<Exception>)
    ensures thrown.None? <==> res != null
    ensures AutomatedBetsForm(sessionCookie, settings).Failure? ==> thrown == Some(AutomatedBetsForm(sessionCookie, settings).error)
    ensures res != null ==> fresh(res) && res.Valid() && AutomatedBetsForm(sessionCookie, settings).Success?
    ensures res != null ==> ReceivedBatch(service(AutomatedBetsForm(sessionCookie, settings).value)) == Result.Success(res.View())
    ensures res != null && res.BetIds != null ==> fresh(res.BetIds) && fresh(res.Secrets) && fresh(res.PayIns) && fresh(res.PayOuts)
    ensures res != null && res.PayOuts != null ==> forall i :: 0 <= i < res.PayOuts.Length ==> res.PayOuts[i] == 0.0
  {
    var form := AutomatedBetsForm(sessionCookie, settings);
    if form.Failure? {
      return null, Some(form.error);
    }
    var r;
    r, thrown := RequestBatch(service(form.value));
    if thrown.Some? {
      return null, thrown;
    }
    res := r;
  }

  // ---------------------------------------------------------------------------
  // The public calls

  /**
   * Places one bet. The stake is made non-positive before it is sent and recorded, the
   * range is validated first, and a successful answer is recorded in the session.
   */
  method PlaceBet(session: SessionInfo?, payIn: real, guessLow: Int64, guessHigh: Int64, service: Service)
    returns (res: PlaceBetResponse?, thrown: Option<Exception>)
    modifies session
    ensures thrown.None? <==> res != null
    ensures ValidateRange(session, guessLow, guessHigh).Some? ==> thrown == ValidateRange(session, guessLow, guessHigh)
    ensures res != null ==> fresh(res) && session != null && ValidRange(guessLow, guessHigh)
    ensures res != null ==> (
      var form := PlaceBetForm(old(session.SessionCookie), Settings.NonPositive(payIn), guessLow, guessHigh);
      form.Success? && ReceivedBet(service(form.value)) == Result.Success(res.View()))
    ensures res != null && res.Success ==>
      session.State() == AfterBet(old(session.State()), Settings.NonPositive(payIn), res.View().bet, guessLow, guessHigh)
    ensures session != null && (res == null || !res.Success) ==> session.State() == old(session.State())
  {
    thrown := ValidateRange(session, guessLow, guessHigh);
    if thrown.Some? {
      return null, thrown;
    }
    var stake := Settings.NonPositive(payIn);
    var form := PlaceBetForm(session.SessionCookie, stake, guessLow, guessHigh);
    if form.Failure? {
      return null, Some(form.error);
    }
    var r;
    r, thrown := RequestBet(service(form.value));
    if thrown.Some? {
      return null, thrown;
    }
    ProcessPlaceBet(session, r, stake, guessLow, guessHigh);
    res := r;
  }

  /**
   * Places a batch of automated bets. The client seed is read from the session before the
   * request, the batch is replayed from it, and an exception of the replay leaves the call.
   */
  method PlaceAutomatedBets(session: SessionInfo?, settings: Settings.AutomatedBetsSettings?, service: Service, sha512: seq<byte> -> Fairness.Digest)
    returns (res: PlaceAutomatedBetsResponse?, outcome: BatchOutcome, thrown: Option<Exception>)
    modifies session
    ensures thrown.None? <==> res != null
    ensures ValidateSettings(session, settings).Some? ==> thrown == ValidateSettings(session, settings)
    ensures res != null ==> fresh(res) && res.Valid() && session != null && settings != null
    ensures res != null ==> (
      var form := AutomatedBetsForm(old(session.SessionCookie), settings);
      form.Success? && ReceivedBatch(service(form.value)).Success?
      && ReceivedBatch(service(form.value)).value.base == res.Base())
    ensures res != null ==> (
      var received := ReceivedBatch(service(AutomatedBetsForm(old(session.SessionCookie), settings).value)).value;
      var v := res.View();
      received.(secrets := v.secrets, payIns := v.payIns, payOuts := v.payOuts) == v)
    ensures res != null ==> (outcome.Untouched? <==> !res.Success)
    ensures res == null ==> outcome.Untouched? || outcome.Threw?
    ensures outcome.Threw? ==> thrown == Some(outcome.error)
    ensures session != null && !outcome.Replayed? ==> session.State() == old(session.State())
    ensures outcome.Replayed? ==> res != null && res.ServerSeed.Some? && Fairness.DecodeHex(res.ServerSeed.value).Success?
    ensures outcome.Replayed? ==> (
      var seed := Fairness.DecodeHex(res.ServerSeed.value).value;
      var rules := settings.Rules();
      && SecretsFrom(sha512, res.BetIds[..], seed, old(session.ClientSeed), res.Secrets[..], res.BetCount)
      && Progression.Replay(rules, settings.StartingPayIn(), res.StartingBalance, res.Secrets[..]).payIns == res.PayIns[..]
      && Progression.Replay(rules, settings.StartingPayIn(), res.StartingBalance, res.Secrets[..]).payOuts == res.PayOuts[..]
      && session.State() == AfterBatch(old(session.State()), rules, res.Secrets[..], res.BetCount,
           res.StartingBalance, res.TotalPayIn, res.TotalPayOut))
  {
    outcome := Untouched;
    thrown := ValidateSettings(session, settings);
    if thrown.Some? {
      return null, outcome, thrown;
    }
    var clientSeed := session.ClientSeed;
    var r;
    r, thrown := PostAutomatedBets(session.SessionCookie, settings, service);
    if thrown.Some? {
      return null, outcome, thrown;
    }
    ghost var received := r.View();
    outcome := ProcessAutomatedBets(session, r, settings, clientSeed, sha512);
    assert received.(secrets := r.View().secrets, payIns := r.View().payIns, payOuts := r.View().payOuts) == r.View();
    if outcome.Threw? {
      return null, outcome, Some(outcome.error);
    }
    res := r;
  }

  /** Asks for the balance; a successful answer becomes the session's balance. */
  method GetBalance(session: SessionInfo?, service: Service) returns (res: GetBalanceResponse?, thrown: Option<Exception>)
    modifies session
    ensures thrown.None? <==> res != null
    ensures session == null ==> thrown == Some(ArgumentNullException)
    ensures res != null ==> fresh(res) && session != null
    ensures res != null ==> ReceivedBalance(service(GetBalanceForm(old(session.SessionCookie)))) == Result.Success(res.View())
    ensures res != null ==> session.State() == AfterBalance(old(session.State()), res.View())
    ensures session != null && res == null ==> session.State() == old(session.State())
  {
    thrown := ValidateSession(session);
    if thrown.Some? {
      return null, thrown;
    }
    var r;
    r, thrown := RequestBalance(service(GetBalanceForm(session.SessionCookie)));
    if thrown.Some? {
      return null, thrown;
    }
    ProcessGetBalance(session, r);
    res := r;
  }

  /** Withdraws `amount` (0 withdraws everything) to `address`; a pending withdrawal leaves the session's balance. */
  method Withdraw(session: SessionInfo?, amount: real, address: Option<string>, service: Service)
    returns (res: WithdrawResponse?, thrown: Option<Exception>)
    modifies session
    ensures thrown.None? <==> res != null
    ensures ValidateSessionAnd(session, address).Some? ==> thrown == ValidateSessionAnd(session, address)
    ensures res != null ==> fresh(res) && session != null && !StringExtension.IsNullOrWhiteSpace(address)
    ensures res != null ==> (
      var form := WithdrawForm(old(session.SessionCookie), amount, address);
      form.Success? && ReceivedWithdraw(service(form.value)) == Result.Success(res.View()))
    ensures res != null ==> session.State() == AfterWithdraw(old(session.State()), res.View())
    ensures session != null && res == null ==> session.State() == old(session.State())
  {
    thrown := ValidateSessionAnd(session, address);
    if thrown.Some? {
      return null, thrown;
    }
    var form := WithdrawForm(session.SessionCookie, amount, address);
    if form.Failure? {
      return null, Some(form.error);
    }
    var r;
    r, thrown := RequestWithdraw(service(form.value));
    if thrown.Some? {
      return null, thrown;
    }
    ProcessWithdraw(session, r);
    res := r;
  }

  /** Withdraws the whole balance: a withdrawal of amount 0. */
  method WithdrawAll(session: SessionInfo?, address: Option<string>, service: Service)
    returns (res: WithdrawResponse?, thrown: Option<Exception>)
    modifies session
    ensures thrown.None? <==> res != null
    ensures ValidateSessionAnd(session, address).Some? ==> thrown == ValidateSessionAnd(session, address)
    ensures res != null ==> fresh(res) && session != null
    ensures res != null ==> (
      var form := WithdrawForm(old(session.SessionCookie), 0.0, address);
      form.Success? && form.value[2] == ("Amount", Some("0"))
      && ReceivedWithdraw(service(form.value)) == Result.Success(res.View()))
    ensures res != null ==> session.State() == AfterWithdraw(old(session.State()), res.View())
    ensures session != null && res == null ==> session.State() == old(session.State())
  {
    res, thrown := Withdraw(session, 0.0, address, service);
    if res != null {
      assert TruncateToInteger(0.0 * 100000000.0) == 0;
    }
  }

  /**
   * Logs in with a username and password. Both the key and the username must be non-blank;
   * when the answer succeeds and builds a session, the session records the username.
   */
  method BeginSession(apiKey: Option<string>, username: Option<string>, password: Option<string>, service: Service)
    returns (res: BeginSessionResponse?, thrown: Option<Exception>)
    ensures thrown.None? <==> res != null
    ensures ValidateApiKeyAnd(apiKey, username).Some? ==> thrown == ValidateApiKeyAnd(apiKey, username)
    ensures res != null ==> fresh(res) && (res.Session != null ==> fresh(res.Session))
    ensures res != null ==> ReceivedSession(service(LoginForm(apiKey, username, password))).Success?
    ensures res != null ==> (
      var v := ReceivedSession(service(LoginForm(apiKey, username, password))).value;
      && res.View().base == v.base
      && (res.Session == null <==> v.session.None?)
      && (res.Session != null && res.Success ==> res.Session.State() == v.session.value.(username := username))
      && (res.Session != null && !res.Success ==> res.Session.State() == v.session.value))
  {
    thrown := ValidateApiKeyAnd(apiKey, username);
    if thrown.Some? {
      return null, thrown;
    }
    var r;
    r, thrown := RequestSession(service(LoginForm(apiKey, username, password)));
    if thrown.Some? {
      return null, thrown;
    }
    ProcessBeginSession(r, username);
    res := r;
  }
}
