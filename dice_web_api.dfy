/**
 * What the client does with a decoded answer before handing it back: it replays an
 * automated batch to rebuild every bet's secret, stake and payout, and it brings the
 * session's figures up to date after a bet, a batch, a balance query or a withdrawal.
 */
module DiceWebApi {
  import opened Wrappers
  import opened Clr
  import opened Money
  import opened Fairness
  import opened Progression
  import opened Session
  import Settings
  import opened BetResponses
  import opened AccountResponses
  import opened SessionResponse

  // ---------------------------------------------------------------------------
  // The session figures after each kind of answer

  /**
   * The session after a batch: the bet and win counts grow (in unchecked 64-bit
   * arithmetic) by the batch's bet count and its number of wins, the lifetime stakes and
   * payouts by the batch totals, and the balance is the server's starting balance plus
   * both totals.
   */
  function AfterBatch(s: SessionState, rules: StakeRules, secrets: seq<int>, betCount: Int32, startingBalance: real, totalPayIn: real, totalPayOut: real): (t: SessionState)
    ensures MinInt64 <= s.betCount + betCount <= MaxInt64 ==> t.betCount == s.betCount + betCount
    ensures s.betWinCount + CountWins(rules, secrets) <= MaxInt64 ==> t.betWinCount == s.betWinCount + CountWins(rules, secrets)
    ensures t.balance == startingBalance + totalPayIn + totalPayOut
    ensures t.betPayIn - s.betPayIn == totalPayIn && t.betPayOut - s.betPayOut == totalPayOut
    ensures t.(betCount := s.betCount, betWinCount := s.betWinCount, balance := s.balance, betPayIn := s.betPayIn, betPayOut := s.betPayOut) == s
  {
    s.(betWinCount := Wrap64(s.betWinCount + CountWins(rules, secrets)), betCount := Wrap64(s.betCount + betCount),
       balance := startingBalance + totalPayIn + totalPayOut, betPayIn := s.betPayIn + totalPayIn, betPayOut := s.betPayOut + totalPayOut)
  }

  /**
   * The session after a single bet of stake `payIn` (a cost, so negative): one more bet,
   * one more win when the secret is in the range, the stake and payout added to the
   * lifetime figures, and the balance the server's starting balance plus payout and stake.
   */
  function AfterBet(s: SessionState, payIn: real, bet: BetFields, guessLow: Int64, guessHigh: Int64): (t: SessionState)
    ensures s.betCount < MaxInt64 ==> t.betCount == s.betCount + 1
    ensures s.betWinCount < MaxInt64 ==> (t.betWinCount == s.betWinCount + 1 <==> guessLow <= bet.secret <= guessHigh)
    ensures !(guessLow <= bet.secret <= guessHigh) ==> t.betWinCount == s.betWinCount
    ensures t.balance == bet.startingBalance + bet.payOut + payIn
    ensures t.betPayIn - s.betPayIn == payIn && t.betPayOut - s.betPayOut == bet.payOut
    ensures t.(betCount := s.betCount, betWinCount := s.betWinCount, balance := s.balance, betPayIn := s.betPayIn, betPayOut := s.betPayOut) == s
  {
    s.(betCount := Wrap64(s.betCount + 1), betPayIn := s.betPayIn + payIn, betPayOut := s.betPayOut + bet.payOut,
       balance := bet.startingBalance + bet.payOut + payIn,
       betWinCount := if guessLow <= bet.secret <= guessHigh then Wrap64(s.betWinCount + 1) else s.betWinCount)
  }

  /**
   * A batch of one bet is accounted exactly as a single bet with the same secret, stake,
   * payout and starting balance.
   */
  lemma OneBetBatchIsOneBet(s: SessionState, rules: StakeRules, secret: Int64, startingBalance: real, payIn: real, payOut: real, betId: Int64, seed: Option<string>)
    ensures AfterBatch(s, rules, [secret], 1, startingBalance, payIn, payOut)
         == AfterBet(s, payIn, BetFields(betId, payOut, secret, startingBalance, seed), rules.guessLow, rules.guessHigh)
  {
    assert [secret][..0] == [];
  }

  /**
   * When the server's totals agree with the replay, the balance the batch leaves in the
   * session is the replay's own running balance after the last bet.
   */
  lemma BatchBalanceIsReplayBalance(s: SessionState, rules: StakeRules, payIn: real, startingBalance: real, secrets: seq<int>, betCount: Int32, totalPayIn: real, totalPayOut: real)
    requires ValidRange(rules.guessLow, rules.guessHigh)
    requires totalPayIn == Sum(Replay(rules, payIn, startingBalance, secrets).payIns)
    requires totalPayOut == Sum(Replay(rules, payIn, startingBalance, secrets).payOuts)
    ensures AfterBatch(s, rules, secrets, betCount, startingBalance, totalPayIn, totalPayOut).balance == Replay(rules, payIn, startingBalance, secrets).balance
  {
    ReplayBalance(rules, payIn, startingBalance, secrets);
  }

  /** The session after a balance answer: the reported balance when it succeeded, unchanged otherwise. */
  function AfterBalance(s: SessionState, v: BalanceView): (t: SessionState)
    ensures v.base.success ==> t == s.(balance := v.balance)
    ensures !v.base.success ==> t == s
  {
    if v.base.success then s.(balance := v.balance) else s
  }

  /** The session after a withdrawal answer: the pending amount taken off the balance when it succeeded. */
  function AfterWithdraw(s: SessionState, v: WithdrawView): (t: SessionState)
    ensures v.base.success ==> t == s.(balance := s.balance - v.withdrawalPending)
    ensures !v.base.success ==> t == s
  {
    if v.base.success then s.(balance := s.balance - v.withdrawalPending) else s
  }

  /**
   * A pending withdrawal lowers the balance by the amount the server reports, read as
   * satoshis; a refused one (or an answer without "Pending") leaves the session as it was.
   */
  lemma WithdrawalMovesBalance(s: SessionState, resp: Json.JsonObject)
    requires DecodeWithdraw(resp).Success?
    ensures IsPending(resp) ==>
      AfterWithdraw(s, DecodeWithdraw(resp).value).balance * 100000000.0 == s.balance * 100000000.0 - Json.ToDecimal(resp["Pending"]).value
    ensures !IsPending(resp) ==> AfterWithdraw(s, DecodeWithdraw(resp).value) == s
  {
    var v := DecodeWithdraw(resp).value;
    if IsPending(resp) {
      assert (s.balance - v.withdrawalPending) * 100000000.0 == s.balance * 100000000.0 - v.withdrawalPending * 100000000.0;
    }
  }

  /**
   * A balance answer with a "Balance" key sets the session balance to it, read as satoshis;
   * without one, the session changes only if the answer says "success", and then to 0.
   */
  lemma BalanceAnswerSetsBalance(s: SessionState, resp: Json.JsonObject)
    requires DecodeBalance(resp).Success?
    ensures "Balance" in resp ==> AfterBalance(s, DecodeBalance(resp).value).balance * 100000000.0 == Json.ToDecimal(resp["Balance"]).value
    ensures "Balance" !in resp && "success" !in resp ==> AfterBalance(s, DecodeBalance(resp).value) == s
    ensures AfterBalance(s, DecodeBalance(resp).value) == s.(balance := AfterBalance(s, DecodeBalance(resp).value).balance)
  {
  }

  // ---------------------------------------------------------------------------
  // The Process overloads

  /** Records a successful balance query in the session. */
  method ProcessGetBalance(session: SessionInfo, res: GetBalanceResponse)
    modifies session
    ensures session.State() == AfterBalance(old(session.State()), res.View())
  {
    if res.Success {
      session.Balance := res.Balance;
    }
  }

  /** Records a successful withdrawal in the session. */
  method ProcessWithdraw(session: SessionInfo, res: WithdrawResponse)
    modifies session
    ensures session.State() == AfterWithdraw(old(session.State()), res.View())
  {
    if res.Success {
      session.Balance := session.Balance - res.WithdrawalPending;
    }
  }

  /** After a login, a successful answer that built a session records the username in it. */
  method ProcessBeginSession(res: BeginSessionResponse, username: Option<string>)
    modifies res.Session
    ensures res.Success && res.Session != null ==> res.Session.State() == old(res.Session.State()).(username := username)
    ensures !(res.Success && res.Session != null) ==> res.Session == null || res.Session.State() == old(res.Session.State())
  {
    if res.Success && res.Session != null {
      res.Session.Username := username;
    }
  }

  /** Records a successful single bet of stake `payIn` on the range [guessLow, guessHigh]. */
  method ProcessPlaceBet(session: SessionInfo, res: PlaceBetResponse, payIn: real, guessLow: Int64, guessHigh: Int64)
    modifies session
    ensures res.Success ==> session.State() == AfterBet(old(session.State()), payIn, res.View().bet, guessLow, guessHigh)
    ensures !res.Success ==> session.State() == old(session.State())
  {
    if res.Success {
      session.BetCount, session.BetPayIn, session.BetPayOut, session.Balance :=
        Wrap64(session.BetCount + 1), session.BetPayIn + payIn, session.BetPayOut + res.PayOut, res.StartingBalance + res.PayOut + payIn;
      if res.Secret >= guessLow && res.Secret <= guessHigh {
        session.BetWinCount := Wrap64(session.BetWinCount + 1);
      }
    }
  }

  // ---------------------------------------------------------------------------
  // The batch replay

  /**
   * How the replay of a batch ends: nothing to do (the answer was not a success), an
   * exception, a bet whose digest has no accepted chunk (the source then loops for ever,
   * since it never rehashes), or every bet replayed; `totalsAgree` is what the two debug
   * assertions check, that the replayed stakes and payouts add up to the server's totals.
   */
  datatype BatchOutcome = Untouched | Threw(error: Exception) | Spins(bet: nat) | Replayed(totalsAgree: bool)

  /** Every secret among the first `k` is the one the bet's own id, the seed and the client seed give. */
  predicate SecretsFrom(sha512: seq<byte> -> Digest, betIds: seq<Int64>, seed: seq<byte>, clientSeed: Int64, secrets: seq<Int64>, k: nat)
    requires k <= |betIds| && k <= |secrets|
  {
    forall i :: 0 <= i < k ==> BetSecret(sha512, betIds[i], seed, clientSeed) == Some(secrets[i] as int)
  }

  /**
   * The stake of the next bet: after a win, the base stake when resetting on a win and the
   * old stake scaled by the win increase otherwise; after a loss, the base stake when
   * resetting on a loss (or on a loss at the maximum stake, when asked) and the old stake
   * scaled by the loss increase otherwise; then clamped to the maximum stake and the balance.
   */
  method NextStake(rules: StakeRules, payIn: real, win: bool, balance: real) returns (next: real)
    ensures next == NextPayIn(rules, payIn, win, balance)
  {
    if win {
      if rules.resetOnWin {
        next := rules.basePayIn;
      } else {
        next := Increase(payIn, rules.increaseOnWin);
      }
    } else {
      if rules.resetOnLose || (rules.resetOnLoseMaxBet && payIn == rules.maxAllowedPayIn) {
        next := rules.basePayIn;
      } else {
        next := Increase(payIn, rules.increaseOnLose);
      }
    }
    if next < rules.maxAllowedPayIn && rules.maxAllowedPayIn != 0.0 {
      next := rules.maxAllowedPayIn;
    }
    if next < -balance {
      next := -balance;
    }
  }

  /**
   * One bet of the replay: record the stake, add it to the balance, and on a win record
   * and add the payout (a loss leaves the payout slot as it is); then choose the next stake.
   */
  method SettleBet(payIns: array<real>, payOuts: array<real>, x: nat, rules: StakeRules, payIn: real, balance: real, secret: int)
    returns (nextPayIn: real, nextBalance: real)
    requires payIns != payOuts && x < payIns.Length && x < payOuts.Length
    requires ValidRange(rules.guessLow, rules.guessHigh)
    modifies payIns, payOuts
    ensures payIns[..] == old(payIns[..])[x := payIn]
    ensures Wins(rules, secret) ==> payOuts[..] == old(payOuts[..])[x := PayOut(rules, payIn, secret)]
    ensures !Wins(rules, secret) ==> payOuts[..] == old(payOuts[..])
    ensures nextBalance == balance + payIn + PayOut(rules, payIn, secret)
    ensures nextPayIn == NextPayIn(rules, payIn, Wins(rules, secret), nextBalance)
  {
    payIns[x] := payIn;
    nextBalance := balance + payIn;
    var win := secret >= rules.guessLow && secret <= rules.guessHigh;
    if win {
      payOuts[x] := WinPayout(payIn, rules.guessLow, rules.guessHigh);
      nextBalance := nextBalance + payOuts[x];
    }
    nextPayIn := NextStake(rules, payIn, win, nextBalance);
  }

  /**
   * Recording one more bet in the arrays extends the record of the replay by that bet,
   * provided its payout slot starts at 0.
   */
  lemma RecordExtendsReplay(rules: StakeRules, l: Ledger, secrets: seq<int>, payIns: seq<real>, payOuts: seq<real>, x: nat, secret: int)
    requires ValidRange(rules.guessLow, rules.guessHigh)
    requires x < |secrets| && x < |payIns| && x < |payOuts| && secrets[x] == secret && payOuts[x] == 0.0
    requires l == Ledger(payIns[..x], payOuts[..x], l.payIn, l.balance)
    ensures var s := Settle(rules, l, secret);
      var outs := if Wins(rules, secret) then payOuts[x := PayOut(rules, l.payIn, secret)] else payOuts;
      s == Ledger(payIns[x := l.payIn][..x + 1], outs[..x + 1], s.payIn, s.balance)
  {
    assert payIns[x := l.payIn][..x + 1] == payIns[..x] + [l.payIn];
    assert payOuts[x := PayOut(rules, l.payIn, secret)][..x + 1] == payOuts[..x] + [PayOut(rules, l.payIn, secret)];
    assert payOuts[..x + 1] == payOuts[..x] + [0.0];
  }

  /** The secret of one bet: double SHA-512 of its hash input, scanned in 3-byte chunks. */
  method FindSecret(sha512: seq<byte> -> Digest, betId: Int64, seed: seq<byte>, client: seq<byte>, clientSeed: Int64) returns (secret: Option<Int64>)
    requires client == GetBytes(clientSeed)
    ensures secret.None? <==> BetSecret(sha512, betId, seed, clientSeed).None?
    ensures secret.Some? ==> BetSecret(sha512, betId, seed, clientSeed) == Some(secret.value as int) && 0 <= secret.value < GuessSpan
  {
    var number := AsciiBytes(DecimalString(betId));
    var data := number + seed + client;
    assert data == HashInput(betId, seed, clientSeed);
    var hash := sha512(sha512(data));
    var found := ScanChunks(hash);
    ScanDigestSpec(hash);
    if found.None? {
      return None;
    }
    return Some(found.value);
  }

  /** `Enumerable.Sum` over an array of amounts. */
  method ArraySum(a: array<real>) returns (total: real)
    ensures total == Sum(a[..])
  {
    total := 0.0;
    var i := 0;
    while i < a.Length
      invariant 0 <= i <= a.Length
      invariant total == Sum(a[..i])
    {
      assert a[..i + 1][..i] == a[..i];
      total := total + a[i];
      i := i + 1;
    }
    assert a[..] == a[..a.Length];
  }

  /** Counts one win in the session for every secret in the guessed range. */
  method CountBatchWins(session: SessionInfo, rules: StakeRules, secrets: array<Int64>)
    modifies session`BetWinCount
    ensures session.BetWinCount == Wrap64(old(session.BetWinCount) + CountWins(rules, secrets[..]))
  {
    var x := 0;
    while x < secrets.Length
      invariant 0 <= x <= secrets.Length
      invariant session.BetWinCount == Wrap64(old(session.BetWinCount) + CountWins(rules, secrets[..x]))
    {
      assert secrets[..x + 1][..x] == secrets[..x];
      if secrets[x] >= rules.guessLow && secrets[x] <= rules.guessHigh {
        Wrap64Add(old(session.BetWinCount) + CountWins(rules, secrets[..x]), 1);
        session.BetWinCount := Wrap64(session.BetWinCount + 1);
      }
      x := x + 1;
    }
    assert secrets[..] == secrets[..x];
  }

  /** Adds a batch's bet count and totals to the session and sets its balance. */
  method RecordBatchTotals(session: SessionInfo, betCount: Int32, startingBalance: real, totalPayIn: real, totalPayOut: real)
    modifies session
    ensures session.State() == old(session.State()).(betCount := Wrap64(old(session.BetCount) + betCount),
      balance := startingBalance + totalPayIn + totalPayOut, betPayIn := old(session.BetPayIn) + totalPayIn,
      betPayOut := old(session.BetPayOut) + totalPayOut)
  {
    session.BetCount := Wrap64(session.BetCount + betCount);
    session.Balance := startingBalance + totalPayIn + totalPayOut;
    session.BetPayIn := session.BetPayIn + totalPayIn;
    session.BetPayOut := session.BetPayOut + totalPayOut;
  }

  /** The session bookkeeping after a replayed batch: the wins, then the totals. */
  method RecordBatch(session: SessionInfo, rules: StakeRules, secrets: array<Int64>, betCount: Int32, startingBalance: real, totalPayIn: real, totalPayOut: real)
    modifies session
    ensures session.State() == AfterBatch(old(session.State()), rules, secrets[..], betCount, startingBalance, totalPayIn, totalPayOut)
  {
    CountBatchWins(session, rules, secrets);
    RecordBatchTotals(session, betCount, startingBalance, totalPayIn, totalPayOut);
  }

  /**
   * The state of the batch loop after `x` bets: each of their secrets comes from the bet's
   * own id, the payout slots still to come are 0, and the recorded stakes and payouts, the
   * next stake and the running balance are those of the specification replay.
   */
  predicate ReplayedUpTo(sha512: seq<byte> -> Digest, betIds: seq<Int64>, secrets: seq<Int64>, payIns: seq<real>, payOuts: seq<real>,
                         seed: seq<byte>, clientSeed: Int64, rules: StakeRules, payIn: real, balance: real, x: nat, payin: real, bal: real)
  {
    && x <= |betIds| && |secrets| == |betIds| && |payIns| == |betIds| && |payOuts| == |betIds|
    && ValidRange(rules.guessLow, rules.guessHigh)
    && SecretsFrom(sha512, betIds, seed, clientSeed, secrets, x)
    && (forall i :: x <= i < |payOuts| ==> payOuts[i] == 0.0)
    && Replay(rules, payIn, balance, secrets[..x]) == Ledger(payIns[..x], payOuts[..x], payin, bal)
  }

  /** Settling bet `x` with the secret its own id gives keeps the loop state one bet further on. */
  lemma ReplayedUpToStep(sha512: seq<byte> -> Digest, betIds: seq<Int64>, secrets: seq<Int64>, payIns: seq<real>, payOuts: seq<real>,
                         seed: seq<byte>, clientSeed: Int64, rules: StakeRules, payIn: real, balance: real, x: nat, payin: real, bal: real,
                         secret: Int64)
    requires ReplayedUpTo(sha512, betIds, secrets, payIns, payOuts, seed, clientSeed, rules, payIn, balance, x, payin, bal)
    requires x < |betIds| && BetSecret(sha512, betIds[x], seed, clientSeed) == Some(secret as int)
    ensures var s := Settle(rules, Ledger(payIns[..x], payOuts[..x], payin, bal), secret);
      var outs := if Wins(rules, secret) then payOuts[x := PayOut(rules, payin, secret)] else payOuts;
      ReplayedUpTo(sha512, betIds, secrets[x := secret], payIns[x := payin], outs, seed, clientSeed, rules, payIn, balance, x + 1, s.payIn, s.balance)
  {
    var next := secrets[x := secret];
    var l := Ledger(payIns[..x], payOuts[..x], payin, bal);
    assert SecretsFrom(sha512, betIds, seed, clientSeed, next, x + 1) by {
      forall i | 0 <= i < x + 1
        ensures BetSecret(sha512, betIds[i], seed, clientSeed) == Some(next[i] as int)
      {
        if i < x {
          assert next[i] == secrets[i];
        }
      }
    }
    assert next[..x + 1][..x] == secrets[..x];
    assert Replay(rules, payIn, balance, next[..x + 1]) == Settle(rules, l, secret);
    RecordExtendsReplay(rules, l, next, payIns, payOuts, x, secret);
  }

  /** One turn of the batch loop: find bet `x`'s secret, then settle the bet. */
  method ReplayStep(sha512: seq<byte> -> Digest, betIds: array<Int64>, secrets: array<Int64>, payIns: array<real>, payOuts: array<real>,
                    seed: seq<byte>, client: seq<byte>, clientSeed: Int64, rules: StakeRules, payIn: real, balance: real,
                    x: nat, payin: real, bal: real)
    returns (found: bool, nextPayin: real, nextBal: real)
    requires betIds != secrets && payIns != payOuts && client == GetBytes(clientSeed)
    requires ReplayedUpTo(sha512, betIds[..], secrets[..], payIns[..], payOuts[..], seed, clientSeed, rules, payIn, balance, x, payin, bal)
    requires x < betIds.Length
    modifies secrets, payIns, payOuts
    ensures !found ==> BetSecret(sha512, betIds[x], seed, clientSeed).None?
    ensures !found ==> secrets[..] == old(secrets[..]) && payIns[..] == old(payIns[..]) && payOuts[..] == old(payOuts[..])
    ensures found ==> ReplayedUpTo(sha512, betIds[..], secrets[..], payIns[..], payOuts[..], seed, clientSeed, rules, payIn, balance, x + 1, nextPayin, nextBal)
  {
    var secret := FindSecret(sha512, betIds[x], seed, client, clientSeed);
    if secret.None? {
      return false, payin, bal;
    }
    ghost var ids, before := betIds[..], secrets[..];
    ReplayedUpToStep(sha512, ids, before, payIns[..], payOuts[..], seed, clientSeed, rules, payIn, balance, x, payin, bal, secret.value);
    secrets[x] := secret.value;
    assert secrets[..] == before[x := secret.value];
    nextPayin, nextBal := SettleBet(payIns, payOuts, x, rules, payin, bal, secret.value);
    assert betIds[..] == ids;
    found := true;
  }

  /**
   * The loop over the bets of a batch: each bet's secret from its own id, then its stake,
   * payout and the next stake. It stops at the first bet without a secret (where the
   * source spins); otherwise the arrays hold the specification replay of the secrets.
   */
  method ReplayBets(sha512: seq<byte> -> Digest, betIds: array<Int64>, secrets: array<Int64>, payIns: array<real>, payOuts: array<real>,
                    seed: seq<byte>, clientSeed: Int64, rules: StakeRules, payIn: real, balance: real)
    returns (spinsAt: Option<nat>)
    requires betIds != secrets && payIns != payOuts
    requires secrets.Length == betIds.Length && payIns.Length == betIds.Length && payOuts.Length == betIds.Length
    requires forall i :: 0 <= i < payOuts.Length ==> payOuts[i] == 0.0
    requires ValidRange(rules.guessLow, rules.guessHigh)
    modifies secrets, payIns, payOuts
    ensures spinsAt.None? ==>
      && SecretsFrom(sha512, betIds[..], seed, clientSeed, secrets[..], betIds.Length)
      && Replay(rules, payIn, balance, secrets[..]).payIns == payIns[..]
      && Replay(rules, payIn, balance, secrets[..]).payOuts == payOuts[..]
    ensures spinsAt.Some? ==>
      var k := spinsAt.value;
      && k < betIds.Length
      && SecretsFrom(sha512, betIds[..], seed, clientSeed, secrets[..], k)
      && BetSecret(sha512, betIds[k], seed, clientSeed).None?
      && Replay(rules, payIn, balance, secrets[..k]).payIns == payIns[..k]
      && Replay(rules, payIn, balance, secrets[..k]).payOuts == payOuts[..k]
  {
    var client := GetBytes(clientSeed);
    var payin := payIn;
    var bal := balance;
    var x := 0;
    while x < betIds.Length
      invariant ReplayedUpTo(sha512, betIds[..], secrets[..], payIns[..], payOuts[..], seed, clientSeed, rules, payIn, balance, x, payin, bal)
      decreases betIds.Length - x
    {
      var found;
      found, payin, bal := ReplayStep(sha512, betIds, secrets, payIns, payOuts, seed, client, clientSeed, rules, payIn, balance, x, payin, bal);
      if !found {
        return Some(x);
      }
      x := x + 1;
    }
    assert secrets[..] == secrets[..x] && payIns[..] == payIns[..x] && payOuts[..] == payOuts[..x];
    return None;
  }

  /**
   * Replays a decoded batch. The seed is decoded from hex; then, for each bet in turn, its
   * secret is found from its own id, the seed and the client seed, its stake and payout
   * are recorded, and the next stake is chosen. The arrays then hold exactly the
   * specification replay `Replay` of the secrets, from the settings' starting stake and the
   * server's starting balance; the session is updated only after the whole batch.
   */
  method ProcessAutomatedBets(session: SessionInfo, res: PlaceAutomatedBetsResponse, settings: Settings.AutomatedBetsSettings, clientSeed: Int64, sha512: seq<byte> -> Digest)
    returns (outcome: BatchOutcome)
    requires res.Valid()
    requires res.PayOuts != null ==> forall i :: 0 <= i < res.PayOuts.Length ==> res.PayOuts[i] == 0.0
    requires ValidRange(settings.GuessLow, settings.GuessHigh)
    modifies session, res.Secrets, res.PayIns, res.PayOuts
    ensures res.View() == old(res.View()).(secrets := res.View().secrets, payIns := res.View().payIns, payOuts := res.View().payOuts)
    ensures outcome.Untouched? || outcome.Threw? ==> res.View() == old(res.View())
    ensures !res.Success <==> outcome.Untouched?
    ensures res.Success && res.ServerSeed.None? ==> outcome == Threw(NullReferenceException)
    ensures res.Success && res.ServerSeed.Some? && DecodeHex(res.ServerSeed.value).Failure? ==> outcome == Threw(FormatException)
    ensures !outcome.Replayed? ==> session.State() == old(session.State())
    ensures outcome.Spins? || outcome.Replayed? ==> res.ServerSeed.Some? && DecodeHex(res.ServerSeed.value).Success?
    ensures outcome.Spins? ==>
      var seed := DecodeHex(res.ServerSeed.value).value;
      var k := outcome.bet;
      && k < res.BetCount
      && SecretsFrom(sha512, res.BetIds[..], seed, clientSeed, res.Secrets[..], k)
      && BetSecret(sha512, res.BetIds[k], seed, clientSeed).None?
      && Replay(settings.Rules(), settings.StartingPayIn(), res.StartingBalance, res.Secrets[..k]).payIns == res.PayIns[..k]
      && Replay(settings.Rules(), settings.StartingPayIn(), res.StartingBalance, res.Secrets[..k]).payOuts == res.PayOuts[..k]
    ensures outcome.Replayed? ==>
      var seed := DecodeHex(res.ServerSeed.value).value;
      var l := Replay(settings.Rules(), settings.StartingPayIn(), res.StartingBalance, res.Secrets[..]);
      && SecretsFrom(sha512, res.BetIds[..], seed, clientSeed, res.Secrets[..], res.BetCount)
      && l.payIns == res.PayIns[..] && l.payOuts == res.PayOuts[..]
      && (outcome.totalsAgree <==> Sum(l.payIns) == res.TotalPayIn && Sum(l.payOuts) == res.TotalPayOut)
      && session.State() == AfterBatch(old(session.State()), settings.Rules(), res.Secrets[..], res.BetCount,
           res.StartingBalance, res.TotalPayIn, res.TotalPayOut)
  {
    if !res.Success {
      return Untouched;
    }
    if res.ServerSeed.None? {
      return Threw(NullReferenceException);
    }
    var seed := DecodeServerSeed(res.ServerSeed.value);
    if seed.Failure? {
      return Threw(seed.error);
    }
    var rules := settings.Rules();
    var spinsAt := ReplayBets(sha512, res.BetIds, res.Secrets, res.PayIns, res.PayOuts, seed.value, clientSeed,
      rules, settings.StartingPayIn(), res.StartingBalance);
    if spinsAt.Some? {
      return Spins(spinsAt.value);
    }
    var sumPayIns := ArraySum(res.PayIns);
    var sumPayOuts := ArraySum(res.PayOuts);
    RecordBatch(session, rules, res.Secrets, res.BetCount, res.StartingBalance, res.TotalPayIn, res.TotalPayOut);
    return Replayed(res.TotalPayIn == sumPayIns && res.TotalPayOut == sumPayOuts);
  }
}
