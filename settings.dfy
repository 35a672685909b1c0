/**
 * `AutomatedBetsSettings`: the parameters of an automated batch. The stake setters store
 * the value as a cost (never positive), the starting stake falls back to the base stake
 * while it is unset, and the increase percentages are stored rounded to six decimals with
 * `decimal.Round`'s default rule (a tie goes to the even neighbour).
 */
module Settings {
  import opened Clr
  import opened Money
  import Session
  import Progression

  /** The stake setters' normalisation: a positive value is negated, so the stored value is `-|value|`. */
  function NonPositive(value: real): (r: real)
    ensures r <= 0.0
    ensures r == -Abs(value)
  {
    if value > 0.0 then -value else value
  }

  /** `x` has at most six decimals. */
  predicate IsMicroAligned(x: real)
  {
    (x * 1000000.0).Floor as real == x * 1000000.0
  }

  /** The whole number of millionths nearest to `x`, a tie going to the even one. */
  function RoundHalfEven(x: real): (n: int)
    ensures x - 0.5 <= n as real <= x + 0.5
    ensures x.Floor as real == x ==> n == x.Floor
  {
    var f := x.Floor;
    var frac := x - f as real;
    if frac < 0.5 then f
    else if frac > 0.5 then f + 1
    else if f % 2 == 0 then f
    else f + 1
  }

  /** `decimal.Round(value, 6)`: a six-decimal value less than half a millionth away from `value`. */
  function Round6(value: real): (r: real)
    ensures IsMicroAligned(r)
    ensures Abs(r - value) <= 0.0000005
    ensures IsMicroAligned(value) ==> r == value
  {
    var n := RoundHalfEven(value * 1000000.0);
    MillionthsFacts(value, n);
    n as real / 1000000.0
  }

  /** A whole number of millionths within half a millionth of `value`. */
  lemma MillionthsFacts(value: real, n: int)
    requires value * 1000000.0 - 0.5 <= n as real <= value * 1000000.0 + 0.5
    requires (value * 1000000.0).Floor as real == value * 1000000.0 ==> n == (value * 1000000.0).Floor
    ensures IsMicroAligned(n as real / 1000000.0)
    ensures Abs(n as real / 1000000.0 - value) <= 0.0000005
    ensures IsMicroAligned(value) ==> n as real / 1000000.0 == value
  {
    var r := n as real / 1000000.0;
    assert r * 1000000.0 == n as real;
    assert (r * 1000000.0).Floor == n;
    assert (r - value) * 1000000.0 == n as real - value * 1000000.0;
  }

  /** Rounding picks a nearest six-decimal value: no other one is closer. */
  lemma Round6Nearest(value: real, m: int)
    ensures Abs(Round6(value) - value) <= Abs(m as real / 1000000.0 - value)
  {
    var x := value * 1000000.0;
    var n := RoundHalfEven(x);
    assert Round6(value) == n as real / 1000000.0;
    if m != n {
      assert Abs(m as real - x) >= 0.5;
      assert Abs(n as real - x) <= 0.5;
      assert Abs(m as real / 1000000.0 - value) == Abs(m as real - x) / 1000000.0;
      assert Abs(n as real / 1000000.0 - value) == Abs(n as real - x) / 1000000.0;
    }
  }

  /** At a tie the result is an even number of millionths: 0.0000025 becomes 0.000002 and 0.0000035 becomes 0.000004. */
  lemma Round6TiesToEven(value: real)
    requires (value * 1000000.0) - (value * 1000000.0).Floor as real == 0.5
    ensures RoundHalfEven(value * 1000000.0) % 2 == 0
  {
  }

  lemma Round6Examples()
    ensures Round6(0.0000025) == 0.000002
    ensures Round6(0.0000035) == 0.000004
    ensures Round6(0.12345649) == 0.123456
    ensures Round6(-0.0000025) == -0.000002
  {
    assert RoundHalfEven(2.5) == 2;
    assert RoundHalfEven(3.5) == 4;
    assert RoundHalfEven(123456.49) == 123456;
    assert RoundHalfEven(-2.5) == -2;
  }

  /** The value the `StartingPayIn` getter shows: the stored stake, or the base stake while the stored one is 0. */
  function StartingPayInView(stored: real, basePayIn: real): (r: real)
    ensures stored == 0.0 ==> r == basePayIn
    ensures stored != 0.0 ==> r == stored
  {
    if stored == 0.0 then basePayIn else stored
  }

  /**
   * Reading a setting and writing it back leaves what the getter shows unchanged, for
   * every setter: the stakes, the starting stake and the percentages.
   */
  lemma WriteBackIsIdempotent(stored: real, basePayIn: real, percent: real)
    requires stored <= 0.0 && basePayIn <= 0.0
    ensures NonPositive(NonPositive(stored)) == NonPositive(stored)
    ensures StartingPayInView(NonPositive(StartingPayInView(stored, basePayIn)), basePayIn) == StartingPayInView(stored, basePayIn)
    ensures Round6(Round6(percent)) == Round6(percent)
  {
  }

  /** Every field of the settings at one moment. */
  datatype SettingsState = SettingsState(
    basePayIn: real,
    maxAllowedPayIn: real,
    increaseOnWinPercent: real,
    increaseOnLosePercent: real,
    startingPayIn: real,
    guessLow: Int64,
    guessHigh: Int64,
    maxBets: Int32,
    resetOnWin: bool,
    resetOnLose: bool,
    resetOnLoseMaxBet: bool,
    stopOnLoseMaxBet: bool,
    stopMaxBalance: real,
    stopMinBalance: real,
    clientSeed: Int32,
    currency: Session.Currency)

  class AutomatedBetsSettings {
    var basePayIn: real
    var maxAllowedPayIn: real
    var increaseOnWinPercent: real
    var increaseOnLosePercent: real
    var startingPayIn: real
    var GuessLow: Int64
    var GuessHigh: Int64
    var MaxBets: Int32
    var ResetOnWin: bool
    var ResetOnLose: bool
    var ResetOnLoseMaxBet: bool
    var StopOnLoseMaxBet: bool
    var StopMaxBalance: real
    var StopMinBalance: real
    var ClientSeed: Int32
    var Currency: Session.Currency

    /** What the setters maintain: stored stakes are costs, stored percentages have six decimals. */
    predicate Valid()
      reads this
    {
      && basePayIn <= 0.0 && maxAllowedPayIn <= 0.0 && startingPayIn <= 0.0
      && IsMicroAligned(increaseOnWinPercent) && IsMicroAligned(increaseOnLosePercent)
    }

    function State(): SettingsState
      reads this
    {
      SettingsState(basePayIn, maxAllowedPayIn, increaseOnWinPercent, increaseOnLosePercent, startingPayIn,
        GuessLow, GuessHigh, MaxBets, ResetOnWin, ResetOnLose, ResetOnLoseMaxBet, StopOnLoseMaxBet,
        StopMaxBalance, StopMinBalance, ClientSeed, Currency)
    }

    /** New settings: every field at its default. */
    constructor()
      ensures Valid()
      ensures State() == SettingsState(0.0, 0.0, 0.0, 0.0, 0.0, 0, 0, 0, false, false, false, false, 0.0, 0.0, 0, Session.Btc)
    {
      basePayIn := 0.0;
      maxAllowedPayIn := 0.0;
      increaseOnWinPercent := 0.0;
      increaseOnLosePercent := 0.0;
      startingPayIn := 0.0;
      GuessLow := 0;
      GuessHigh := 0;
      MaxBets := 0;
      ResetOnWin := false;
      ResetOnLose := false;
      ResetOnLoseMaxBet := false;
      StopOnLoseMaxBet := false;
      StopMaxBalance := 0.0;
      StopMinBalance := 0.0;
      ClientSeed := 0;
      Currency := Session.Btc;
    }

    function BasePayIn(): (r: real)
      reads this
      ensures Valid() ==> r <= 0.0
    {
      basePayIn
    }

    method SetBasePayIn(value: real)
      modifies this
      ensures State() == old(State()).(basePayIn := NonPositive(value))
      ensures old(Valid()) ==> Valid()
    {
      basePayIn := if value > 0.0 then -value else value;
    }

    function MaxAllowedPayIn(): (r: real)
      reads this
      ensures Valid() ==> r <= 0.0
    {
      maxAllowedPayIn
    }

    method SetMaxAllowedPayIn(value: real)
      modifies this
      ensures State() == old(State()).(maxAllowedPayIn := NonPositive(value))
      ensures old(Valid()) ==> Valid()
    {
      maxAllowedPayIn := if value > 0.0 then -value else value;
    }

    /** The first stake of a batch: the stored one, or the base stake while none is stored. */
    function StartingPayIn(): (r: real)
      reads this
      ensures r == StartingPayInView(startingPayIn, basePayIn)
      ensures Valid() ==> r <= 0.0
    {
      if startingPayIn == 0.0 then BasePayIn() else startingPayIn
    }

    method SetStartingPayIn(value: real)
      modifies this
      ensures State() == old(State()).(startingPayIn := NonPositive(value))
      ensures old(Valid()) ==> Valid()
    {
      startingPayIn := if value > 0.0 then -value else value;
    }

    function IncreaseOnWinPercent(): (r: real)
      reads this
      ensures Valid() ==> IsMicroAligned(r)
    {
      increaseOnWinPercent
    }

    method SetIncreaseOnWinPercent(value: real)
      modifies this
      ensures State() == old(State()).(increaseOnWinPercent := Round6(value))
      ensures old(Valid()) ==> Valid()
    {
      increaseOnWinPercent := Round6(value);
    }

    function IncreaseOnLosePercent(): (r: real)
      reads this
      ensures Valid() ==> IsMicroAligned(r)
    {
      increaseOnLosePercent
    }

    method SetIncreaseOnLosePercent(value: real)
      modifies this
      ensures State() == old(State()).(increaseOnLosePercent := Round6(value))
      ensures old(Valid()) ==> Valid()
    {
      increaseOnLosePercent := Round6(value);
    }

    /** The settings the batch replay reads, through the getters. */
    function Rules(): (rules: Progression.StakeRules)
      reads this
      ensures Valid() && ValidRange(GuessLow, GuessHigh) && increaseOnWinPercent >= 0.0 && increaseOnLosePercent >= 0.0
        ==> Progression.WellFormed(rules)
    {
      Progression.StakeRules(BasePayIn(), MaxAllowedPayIn(), IncreaseOnWinPercent(), IncreaseOnLosePercent(),
        ResetOnWin, ResetOnLose, ResetOnLoseMaxBet, GuessLow, GuessHigh)
    }
  }
}
