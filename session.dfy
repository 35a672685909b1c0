/**
 * `SessionInfo`: the client's view of a logged-in account, updated in place by the API
 * calls. Only its plain fields are modelled; change notification is not.
 */
module Session {
  import opened Wrappers
  import opened Clr

  datatype Currency = Btc | Doge | Ltc

  /** The figures kept per currency. */
  datatype CurrencyInfo = CurrencyInfo(
    betCount: Int64,
    betPayIn: real,
    betPayOut: real,
    betWinCount: Int64,
    balance: real,
    depositAddress: Option<string>)

  /** A currency with no recorded activity: every figure at its default. */
  const NoActivity: CurrencyInfo := CurrencyInfo(0, 0.0, 0.0, 0, 0.0, None)

  /** Every field of a session at one moment. */
  datatype SessionState = SessionState(
    sessionCookie: Option<string>,
    accountId: Int64,
    maxBetBatchSize: Int32,
    accountCookie: Option<string>,
    clientSeed: Int64,
    betCount: Int64,
    betPayIn: real,
    betPayOut: real,
    betWinCount: Int64,
    balance: real,
    email: Option<string>,
    emergencyAddress: Option<string>,
    depositAddress: Option<string>,
    username: Option<string>,
    otherCurrencies: map<Currency, CurrencyInfo>)

  /** The state of a session just created from its three identifying values. */
  function NewSession(sessionCookie: Option<string>, accountId: Int64, maxBetBatchSize: Int32): SessionState
  {
    SessionState(sessionCookie, accountId, maxBetBatchSize, None, 0, 0, 0.0, 0.0, 0, 0.0, None, None, None, None, map[])
  }

  /** The figures of one currency: BTC's are the session's own fields; a currency never written has none. */
  function FiguresOf(s: SessionState, c: Currency): (info: CurrencyInfo)
  {
    if c == Btc then CurrencyInfo(s.betCount, s.betPayIn, s.betPayOut, s.betWinCount, s.balance, s.depositAddress)
    else if c in s.otherCurrencies then s.otherCurrencies[c]
    else NoActivity
  }

  /** The session with the figures of one currency replaced. */
  function WithFigures(s: SessionState, c: Currency, info: CurrencyInfo): (t: SessionState)
    ensures FiguresOf(t, c) == info
    ensures forall d :: d != c ==> FiguresOf(t, d) == FiguresOf(s, d)
    ensures t.sessionCookie == s.sessionCookie && t.accountId == s.accountId && t.maxBetBatchSize == s.maxBetBatchSize
    ensures t.accountCookie == s.accountCookie && t.clientSeed == s.clientSeed && t.email == s.email
    ensures t.emergencyAddress == s.emergencyAddress && t.username == s.username
  {
    if c == Btc then
      s.(betCount := info.betCount, betPayIn := info.betPayIn, betPayOut := info.betPayOut,
         betWinCount := info.betWinCount, balance := info.balance, depositAddress := info.depositAddress)
    else
      s.(otherCurrencies := s.otherCurrencies[c := info])
  }

  class SessionInfo {
    var SessionCookie: Option<string>
    var AccountId: Int64
    var MaxBetBatchSize: Int32
    var AccountCookie: Option<string>
    var ClientSeed: Int64
    var BetCount: Int64
    var BetPayIn: real
    var BetPayOut: real
    var BetWinCount: Int64
    var Balance: real
    var Email: Option<string>
    var EmergencyAddress: Option<string>
    var DepositAddress: Option<string>
    var Username: Option<string>
    /**
     * The Doge and LTC figures, which the session decoder addresses as `Session[currency]`;
     * the BTC figures are the fields above.
     */
    var OtherCurrencies: map<Currency, CurrencyInfo>

    /** A new session: the three identifying values, everything else at its default. */
    constructor(sessionCookie: Option<string>, accountId: Int64, maxBetBatchSize: Int32)
      ensures State() == NewSession(sessionCookie, accountId, maxBetBatchSize)
    {
      SessionCookie := sessionCookie;
      AccountId := accountId;
      MaxBetBatchSize := maxBetBatchSize;
      AccountCookie := None;
      ClientSeed := 0;
      BetCount := 0;
      BetPayIn := 0.0;
      BetPayOut := 0.0;
      BetWinCount := 0;
      Balance := 0.0;
      Email := None;
      EmergencyAddress := None;
      DepositAddress := None;
      Username := None;
      OtherCurrencies := map[];
    }

    function State(): SessionState
      reads this
    {
      SessionState(SessionCookie, AccountId, MaxBetBatchSize, AccountCookie, ClientSeed, BetCount, BetPayIn,
        BetPayOut, BetWinCount, Balance, Email, EmergencyAddress, DepositAddress, Username, OtherCurrencies)
    }

    /** The figures of one currency, as `Session[currency]` shows them. */
    function Figures(c: Currency): (info: CurrencyInfo)
      reads this
      ensures info == FiguresOf(State(), c)
    {
      if c == Btc then CurrencyInfo(BetCount, BetPayIn, BetPayOut, BetWinCount, Balance, DepositAddress)
      else if c in OtherCurrencies then OtherCurrencies[c]
      else NoActivity
    }

    /** Replaces the figures of one currency and nothing else. */
    method SetFigures(c: Currency, info: CurrencyInfo)
      modifies this
      ensures State() == WithFigures(old(State()), c, info)
    {
      if c == Btc {
        BetCount, BetPayIn, BetPayOut, BetWinCount, Balance, DepositAddress :=
          info.betCount, info.betPayIn, info.betPayOut, info.betWinCount, info.balance, info.depositAddress;
      } else {
        OtherCurrencies := OtherCurrencies[c := info];
      }
    }

    method SetAccountCookie(value: Option<string>)
      modifies this
      ensures State() == old(State()).(accountCookie := value)
    {
      AccountCookie := value;
    }

    method SetEmail(value: Option<string>)
      modifies this
      ensures State() == old(State()).(email := value)
    {
      Email := value;
    }

    method SetEmergencyAddress(value: Option<string>)
      modifies this
      ensures State() == old(State()).(emergencyAddress := value)
    {
      EmergencyAddress := value;
    }
  }
}
