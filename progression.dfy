/**
 * The stake progression of an automated batch, as the client replays it: the stake of each
 * bet, its payout, the running balance, and the stake of the next bet after the
 * reset-or-increase rule and the two clamps.
 *
 * These are the specification functions of the batch replay loop; the loop itself is the
 * method `DiceWebApi.ProcessAutomatedBets`.
 */
module Progression {
  import opened Clr
  import opened Money

  /** The settings a batch is replayed with (a snapshot of `AutomatedBetsSettings`). */
  datatype StakeRules = StakeRules(
    basePayIn: real,
    maxAllowedPayIn: real,
    increaseOnWin: real,
    increaseOnLose: real,
    resetOnWin: bool,
    resetOnLose: bool,
    resetOnLoseMaxBet: bool,
    guessLow: Int64,
    guessHigh: Int64)

  /** A bet wins when its secret lies in the guessed range, both ends included. */
  predicate Wins(rules: StakeRules, secret: int)
  {
    rules.guessLow <= secret <= rules.guessHigh
  }

  /** Scaling a stake by `1 + percent`, cut to satoshis. */
  function Increase(payIn: real, percent: real): (r: real)
  {
    TruncateSatoshis(payIn * (1.0 + percent))
  }

  /**
   * Raising a stake never turns it into a refund, and never makes it smaller: a
   * non-positive, satoshi-aligned stake scaled by a non-negative percentage stays
   * non-positive and at least as large in magnitude.
   */
  lemma IncreaseGrowsStake(payIn: real, percent: real)
    requires payIn <= 0.0 && percent >= 0.0 && IsSatoshiAligned(payIn)
    ensures Increase(payIn, percent) <= payIn
  {
    var x := payIn * (1.0 + percent);
    assert x <= payIn by {
      assert payIn * percent <= 0.0;
    }
    TruncateBelow(x, payIn);
  }

  /** Truncating an amount below an aligned non-positive bound stays below the bound. */
  lemma TruncateBelow(x: real, bound: real)
    requires x <= bound <= 0.0 && IsSatoshiAligned(bound)
    ensures TruncateSatoshis(x) <= bound
  {
    var k := (x * -100000000.0).Floor;
    var j := (bound * -100000000.0).Floor;
    assert bound * -100000000.0 == -((bound * 100000000.0).Floor) as real;
    assert j as real == bound * -100000000.0;
    assert j <= k;
  }

  /** The stake chosen after a bet, before clamping: reset to the base stake or scale the old one. */
  function Escalate(rules: StakeRules, payIn: real, win: bool): (r: real)
    ensures win && rules.resetOnWin ==> r == rules.basePayIn
    ensures win && !rules.resetOnWin ==> r == Increase(payIn, rules.increaseOnWin)
    ensures !win && (rules.resetOnLose || (rules.resetOnLoseMaxBet && payIn == rules.maxAllowedPayIn)) ==> r == rules.basePayIn
    ensures !win && !rules.resetOnLose && !(rules.resetOnLoseMaxBet && payIn == rules.maxAllowedPayIn) ==> r == Increase(payIn, rules.increaseOnLose)
  {
    if win then
      if rules.resetOnWin then rules.basePayIn else Increase(payIn, rules.increaseOnWin)
    else if rules.resetOnLose || (rules.resetOnLoseMaxBet && payIn == rules.maxAllowedPayIn) then
      rules.basePayIn
    else
      Increase(payIn, rules.increaseOnLose)
  }

  /**
   * The two clamps: a stake larger than the maximum (when a maximum is set) becomes the
   * maximum, and a stake larger than the balance becomes the balance. Stakes are negative,
   * so "larger" means "below". The result is the least of the candidates that meets both bounds.
   */
  function Clamp(rules: StakeRules, stake: real, balance: real): (r: real)
    ensures r >= stake && r >= -balance
    ensures rules.maxAllowedPayIn != 0.0 ==> r >= rules.maxAllowedPayIn
    ensures r == stake || (rules.maxAllowedPayIn != 0.0 && r == rules.maxAllowedPayIn) || r == -balance
  {
    var capped := if stake < rules.maxAllowedPayIn && rules.maxAllowedPayIn != 0.0 then rules.maxAllowedPayIn else stake;
    if capped < -balance then -balance else capped
  }

  /** The stake of the next bet, given the outcome of this one and the balance after it. */
  function NextPayIn(rules: StakeRules, payIn: real, win: bool, balance: real): real
  {
    Clamp(rules, Escalate(rules, payIn, win), balance)
  }

  /** What the replay has recorded so far: the stakes and payouts per bet, the next stake and the running balance. */
  datatype Ledger = Ledger(payIns: seq<real>, payOuts: seq<real>, payIn: real, balance: real)

  /** What one bet pays back: the win payout when the secret is in range, nothing otherwise. */
  function PayOut(rules: StakeRules, payIn: real, secret: int): (r: real)
    requires ValidRange(rules.guessLow, rules.guessHigh)
    ensures r >= 0.0
    ensures !Wins(rules, secret) ==> r == 0.0
  {
    if Wins(rules, secret) then WinPayout(payIn, rules.guessLow, rules.guessHigh) else 0.0
  }

  /** One bet: record the stake, add stake and payout to the balance, choose the next stake. */
  function Settle(rules: StakeRules, l: Ledger, secret: int): Ledger
    requires ValidRange(rules.guessLow, rules.guessHigh)
  {
    var payOut := PayOut(rules, l.payIn, secret);
    var balance := l.balance + l.payIn + payOut;
    Ledger(l.payIns + [l.payIn], l.payOuts + [payOut], NextPayIn(rules, l.payIn, Wins(rules, secret), balance), balance)
  }

  /** The replay of a batch with the given secrets, from the first stake and the starting balance. */
  function Replay(rules: StakeRules, payIn: real, balance: real, secrets: seq<int>): (l: Ledger)
    requires ValidRange(rules.guessLow, rules.guessHigh)
    ensures |l.payIns| == |secrets| && |l.payOuts| == |secrets|
    decreases |secrets|
  {
    if secrets == [] then Ledger([], [], payIn, balance)
    else Settle(rules, Replay(rules, payIn, balance, secrets[..|secrets| - 1]), secrets[|secrets| - 1])
  }

  function Sum(s: seq<real>): real
  {
    if s == [] then 0.0 else Sum(s[..|s| - 1]) + s[|s| - 1]
  }

  lemma SumAppend(s: seq<real>, x: real)
    ensures Sum(s + [x]) == Sum(s) + x
  {
    assert (s + [x])[..|s|] == s;
  }

  /** The number of secrets in the guessed range. */
  function CountWins(rules: StakeRules, secrets: seq<int>): (n: nat)
    ensures n <= |secrets|
  {
    if secrets == [] then 0
    else CountWins(rules, secrets[..|secrets| - 1]) + (if Wins(rules, secrets[|secrets| - 1]) then 1 else 0)
  }

  /** The running balance is the starting balance plus every stake and every payout so far. */
  lemma {:induction false} ReplayBalance(rules: StakeRules, payIn: real, balance: real, secrets: seq<int>)
    requires ValidRange(rules.guessLow, rules.guessHigh)
    ensures var l := Replay(rules, payIn, balance, secrets);
      l.balance == balance + Sum(l.payIns) + Sum(l.payOuts)
    decreases |secrets|
  {
    if secrets != [] {
      var prev := Replay(rules, payIn, balance, secrets[..|secrets| - 1]);
      ReplayBalance(rules, payIn, balance, secrets[..|secrets| - 1]);
      SumAppend(prev.payIns, prev.payIn);
      SumAppend(prev.payOuts, PayOut(rules, prev.payIn, secrets[|secrets| - 1]));
    }
  }

  /** Replaying a prefix of the secrets gives a prefix of the record. */
  lemma {:induction false} ReplayPrefix(rules: StakeRules, payIn: real, balance: real, secrets: seq<int>, k: nat)
    requires ValidRange(rules.guessLow, rules.guessHigh)
    requires k <= |secrets|
    ensures var l := Replay(rules, payIn, balance, secrets);
      var p := Replay(rules, payIn, balance, secrets[..k]);
      p.payIns == l.payIns[..k] && p.payOuts == l.payOuts[..k]
    decreases |secrets|
  {
    if k < |secrets| {
      var init := secrets[..|secrets| - 1];
      ReplayPrefix(rules, payIn, balance, init, k);
      assert init[..k] == secrets[..k];
      var prev := Replay(rules, payIn, balance, init);
      var l := Replay(rules, payIn, balance, secrets);
      assert l.payIns[..k] == prev.payIns[..k];
      assert l.payOuts[..k] == prev.payOuts[..k];
    } else {
      assert secrets[..k] == secrets;
    }
  }

  /**
   * Bet `k` of the record: its stake is the stake held before it (the first one is the
   * starting stake), and it pays the win payout of that stake when it wins and 0 when it loses.
   */
  lemma ReplayEntry(rules: StakeRules, payIn: real, balance: real, secrets: seq<int>, k: nat)
    requires ValidRange(rules.guessLow, rules.guessHigh)
    requires k < |secrets|
    ensures var l := Replay(rules, payIn, balance, secrets);
      var before := Replay(rules, payIn, balance, secrets[..k]);
      && l.payIns[k] == before.payIn
      && (Wins(rules, secrets[k]) ==> l.payOuts[k] == WinPayout(before.payIn, rules.guessLow, rules.guessHigh))
      && (!Wins(rules, secrets[k]) ==> l.payOuts[k] == 0.0)
      && (k == 0 ==> l.payIns[k] == payIn)
  {
    ReplayPrefix(rules, payIn, balance, secrets, k + 1);
    assert secrets[..k + 1][..k] == secrets[..k];
  }

  /**
   * The stake recurrence: each stake after the first is the next-stake rule applied to the
   * previous stake, its outcome, and the balance after it; so it is never below the
   * negated balance, nor below the maximum stake when one is set.
   */
  lemma StakeRecurrence(rules: StakeRules, payIn: real, balance: real, secrets: seq<int>, k: nat)
    requires ValidRange(rules.guessLow, rules.guessHigh)
    requires 0 < k < |secrets|
    ensures var l := Replay(rules, payIn, balance, secrets);
      var after := Replay(rules, payIn, balance, secrets[..k]);
      && l.payIns[k] == NextPayIn(rules, l.payIns[k - 1], Wins(rules, secrets[k - 1]), after.balance)
      && l.payIns[k] >= -after.balance
      && (rules.maxAllowedPayIn != 0.0 ==> l.payIns[k] >= rules.maxAllowedPayIn)
  {
    ReplayEntry(rules, payIn, balance, secrets, k);
    ReplayEntry(rules, payIn, balance, secrets, k - 1);
    assert secrets[..k][..k - 1] == secrets[..k - 1];
  }

  /** Settings as `Validate` and the setters leave them: stakes non-positive, increases non-negative. */
  predicate WellFormed(rules: StakeRules)
  {
    && ValidRange(rules.guessLow, rules.guessHigh)
    && rules.basePayIn <= 0.0 && rules.maxAllowedPayIn <= 0.0
    && rules.increaseOnWin >= 0.0 && rules.increaseOnLose >= 0.0
  }

  /** A ledger that can afford its next stake: the stake is a cost and does not exceed the balance. */
  predicate Solvent(l: Ledger)
  {
    l.payIn <= 0.0 && l.balance + l.payIn >= 0.0
  }

  lemma SettleKeepsSolvent(rules: StakeRules, l: Ledger, secret: int)
    requires WellFormed(rules) && Solvent(l)
    ensures Solvent(Settle(rules, l, secret))
    ensures Settle(rules, l, secret).balance >= 0.0
  {
    var payOut := PayOut(rules, l.payIn, secret);
    var balance := l.balance + l.payIn + payOut;
    var esc := Escalate(rules, l.payIn, Wins(rules, secret));
    assert esc <= 0.0 by {
      EscalateNonPositive(rules, l.payIn, Wins(rules, secret));
    }
  }

  lemma EscalateNonPositive(rules: StakeRules, payIn: real, win: bool)
    requires WellFormed(rules) && payIn <= 0.0
    ensures Escalate(rules, payIn, win) <= 0.0
  {
    if win && !rules.resetOnWin {
      NonPositiveIncrease(payIn, rules.increaseOnWin);
    } else if !win && !(rules.resetOnLose || (rules.resetOnLoseMaxBet && payIn == rules.maxAllowedPayIn)) {
      NonPositiveIncrease(payIn, rules.increaseOnLose);
    }
  }

  lemma NonPositiveIncrease(payIn: real, percent: real)
    requires payIn <= 0.0 && percent >= 0.0
    ensures Increase(payIn, percent) <= 0.0
  {
    var x := payIn * (1.0 + percent);
    assert x <= 0.0;
  }

  /**
   * A batch replayed with well-formed settings from an affordable first stake stays
   * solvent: every later stake is a cost the balance covers, and the balance never goes
   * negative.
   */
  lemma {:induction false} ReplayKeepsSolvent(rules: StakeRules, payIn: real, balance: real, secrets: seq<int>)
    requires WellFormed(rules)
    requires Solvent(Ledger([], [], payIn, balance))
    ensures Solvent(Replay(rules, payIn, balance, secrets))
    decreases |secrets|
  {
    if secrets != [] {
      ReplayKeepsSolvent(rules, payIn, balance, secrets[..|secrets| - 1]);
      SettleKeepsSolvent(rules, Replay(rules, payIn, balance, secrets[..|secrets| - 1]), secrets[|secrets| - 1]);
    }
  }
}
