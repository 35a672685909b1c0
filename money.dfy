/**
 * Fixed-point money and the payout rules of the dice game.
 *
 * Amounts are .NET `decimal`s; here they are exact `real`s. One satoshi is 1e-8 of a coin,
 * and every amount the client computes is cut to whole satoshis, toward zero.
 * Guesses are ranges of secrets in [0, 999999]; a winning bet returns the stake times
 * 0.999 / chance, so the house keeps 0.1%.
 */
module Money {
  import opened Wrappers
  import opened Clr

  /** All secrets lie in [0, GuessSpan). */
  const GuessSpan: int := 1000000
  /** 99.9% payout, a 0.1% house edge. */
  const HousePayout: real := 0.999
  const SatoshisPerCoin: real := 100000000.0
  const Satoshi: real := 0.00000001

  function Abs(x: real): (r: real)
    ensures r >= 0.0 && (r == x || r == -x)
  {
    if x < 0.0 then -x else x
  }

  /** `x` is a whole number of satoshis. */
  predicate IsSatoshiAligned(x: real)
  {
    (x * 100000000.0).Floor as real == x * 100000000.0
  }

  /**
   * Cuts an amount to whole satoshis toward zero: the magnitude is truncated and the sign
   * kept. The result is aligned, never farther from zero than the input, less than one
   * satoshi away from it, and an aligned amount is left as it is.
   */
  function TruncateSatoshis(amt: real): (r: real)
    ensures amt >= 0.0 ==> 0.0 <= r <= amt
    ensures amt < 0.0 ==> amt <= r <= 0.0
  {
    if amt < 0.0 then
      var k := (amt * -100000000.0).Floor;
      k as real / -100000000.0
    else
      var k := (amt * 100000000.0).Floor;
      k as real / 100000000.0
  }

  /**
   * The result of `TruncateSatoshis` is aligned, less than one satoshi away from the input,
   * and an aligned amount is left as it is.
   */
  lemma TruncateSatoshisSpec(amt: real)
    ensures IsSatoshiAligned(TruncateSatoshis(amt))
    ensures Abs(amt - TruncateSatoshis(amt)) < 0.00000001
    ensures IsSatoshiAligned(amt) ==> TruncateSatoshis(amt) == amt
  {
    if amt < 0.0 {
      var k := (amt * -100000000.0).Floor;
      SatoshiCount(-k);
      AlignedIsFixed(amt, k);
      assert k as real / -100000000.0 == (-k) as real / 100000000.0;
    } else {
      var k := (amt * 100000000.0).Floor;
      SatoshiCount(k);
      AlignedIsFixed(amt, k);
    }
  }

  lemma AlignedIsFixed(amt: real, k: int)
    requires k == if amt < 0.0 then (amt * -100000000.0).Floor else (amt * 100000000.0).Floor
    ensures IsSatoshiAligned(amt) ==> amt == if amt < 0.0 then k as real / -100000000.0 else k as real / 100000000.0
  {
    if IsSatoshiAligned(amt) {
      var j := (amt * 100000000.0).Floor;
      assert amt == j as real / 100000000.0;
      if amt < 0.0 {
        assert amt * -100000000.0 == (-j) as real;
        assert k == -j;
      }
    }
  }

  /** `k` satoshis, written as coins, is aligned and scales back to `k`. */
  lemma SatoshiCount(k: int)
    ensures (k as real / 100000000.0) * 100000000.0 == k as real
    ensures IsSatoshiAligned(k as real / 100000000.0)
  {
  }

  lemma TruncateSatoshisIdempotent(amt: real)
    ensures TruncateSatoshis(TruncateSatoshis(amt)) == TruncateSatoshis(amt)
  {
  }

  /** Truncation commutes with negation: a stake and its negation are cut alike. */
  lemma TruncateSatoshisOdd(amt: real)
    ensures TruncateSatoshis(-amt) == -TruncateSatoshis(amt)
  {
  }

  /** The ninth decimal is dropped, not rounded: -0.123456789 is cut to -0.12345678, not -0.12345679. */
  lemma TruncateSatoshisExample()
    ensures TruncateSatoshis(-0.123456789) == -0.12345678
    ensures TruncateSatoshis(0.123456789) == 0.12345678
  {
  }

  /** The range check of the API: 0 <= low <= high < 1000000. */
  predicate ValidRange(low: int, high: int)
  {
    0 <= low <= high < GuessSpan
  }

  /** The number of winning secrets, `high - low + 1`, in unchecked 64-bit arithmetic. */
  function Odds(low: Int64, high: Int64): (n: Int64)
    ensures ValidRange(low, high) ==> 1 <= n <= GuessSpan && n == high - low + 1
  {
    Wrap64(high - low + 1)
  }

  /** The chance to win: the share of the 1000000 secrets that the range covers. */
  function ChanceToWin(low: Int64, high: Int64): (c: real)
    ensures c * GuessSpan as real == Odds(low, high) as real
    ensures ValidRange(low, high) ==> 0.0 < c <= 1.0
  {
    Odds(low, high) as real / GuessSpan as real
  }

  /**
   * The payout multiplier 0.999 / chance, exactly (it is not cut to six decimals).
   * The division needs a non-empty range: for odds 0 the source divides by zero.
   */
  function PayoutMultiplier(low: Int64, high: Int64): (m: real)
    requires Odds(low, high) != 0
    ensures m * ChanceToWin(low, high) == HousePayout
    ensures ValidRange(low, high) ==> HousePayout <= m <= HousePayout * GuessSpan as real
  {
    HousePayout / ChanceToWin(low, high)
  }

  /**
   * What a stake already cut to satoshis pays back on a win: the stake times the multiplier,
   * cut to satoshis again.
   */
  function StakePayout(stake: real, low: Int64, high: Int64): (r: real)
    requires Odds(low, high) != 0
    ensures ValidRange(low, high) && stake >= 0.0 ==> 0.0 <= r <= stake * PayoutMultiplier(low, high)
    ensures ValidRange(low, high) && stake >= 0.0 ==> stake * PayoutMultiplier(low, high) - Satoshi < r
  {
    TruncateSatoshisSpec(stake * PayoutMultiplier(low, high));
    TruncateSatoshis(stake * PayoutMultiplier(low, high))
  }

  /**
   * What a winning bet pays back: the stake, sign dropped and cut to satoshis, times the
   * multiplier, cut to satoshis again. For a valid range it is non-negative and never more
   * than the exact product.
   */
  function WinPayout(payIn: real, low: Int64, high: Int64): (r: real)
    requires Odds(low, high) != 0
    ensures ValidRange(low, high) ==> 0.0 <= r <= TruncateSatoshis(Abs(payIn)) * PayoutMultiplier(low, high)
    ensures ValidRange(low, high) ==> TruncateSatoshis(Abs(payIn)) * PayoutMultiplier(low, high) - Satoshi < r
  {
    StakePayout(TruncateSatoshis(Abs(payIn)), low, high)
  }

  /** The payout is a whole number of satoshis. */
  lemma WinPayoutAligned(payIn: real, low: Int64, high: Int64)
    requires Odds(low, high) != 0
    ensures IsSatoshiAligned(WinPayout(payIn, low, high))
  {
    var x := TruncateSatoshis(Abs(payIn)) * PayoutMultiplier(low, high);
    TruncateSatoshisSpec(x);
    assert WinPayout(payIn, low, high) == TruncateSatoshis(x);
  }

  /**
   * Rounding never works in the bettor's favour: the expected payout of a bet,
   * payout times chance, is at most 0.999 times the stake.
   */
  lemma WinPayoutKeepsHouseEdge(payIn: real, low: Int64, high: Int64)
    requires ValidRange(low, high)
    ensures WinPayout(payIn, low, high) * ChanceToWin(low, high) <= HousePayout * Abs(payIn)
  {
    var stake := TruncateSatoshis(Abs(payIn));
    var m := PayoutMultiplier(low, high);
    var c := ChanceToWin(low, high);
    var payout := WinPayout(payIn, low, high);
    assert 0.0 <= stake <= Abs(payIn);
    assert payout <= stake * m;
    assert payout * c <= stake * m * c by {
      assert c > 0.0;
    }
    assert stake * m * c == stake * HousePayout;
  }

  /** A stake and its negation win the same payout. */
  lemma WinPayoutIgnoresSign(payIn: real, low: Int64, high: Int64)
    requires Odds(low, high) != 0
    ensures WinPayout(-payIn, low, high) == WinPayout(payIn, low, high)
  {
    assert Abs(-payIn) == Abs(payIn);
  }

  /** The profit of a winning bet: the payout less the stake, both taken without sign and cut to satoshis. */
  function WinProfit(payIn: real, low: Int64, high: Int64): (r: real)
    requires Odds(low, high) != 0
    ensures r == WinPayout(payIn, low, high) - TruncateSatoshis(Abs(payIn))
  {
    var stake := TruncateSatoshis(Abs(payIn));
    TruncateSatoshisSpec(Abs(payIn));
    TruncateSatoshisSpec(stake);
    assert Abs(stake) == stake;
    WinPayout(stake, low, high) - stake
  }

  /**
   * The public helper `CalculatePayoutMultiplier`, which accepts any range: a range with no
   * winning secret (odds 0, as for high == low - 1) divides by zero.
   */
  function CalculatePayoutMultiplier(low: Int64, high: Int64): (r: Result<real, Exception>)
    ensures r.Failure? <==> Odds(low, high) == 0
    ensures r.Failure? ==> r.error == DivideByZeroException
    ensures r.Success? ==> r.value * ChanceToWin(low, high) == HousePayout
    ensures r.Success? && ValidRange(low, high) ==> HousePayout <= r.value <= HousePayout * GuessSpan as real
  {
    if Odds(low, high) == 0 then Failure(DivideByZeroException) else Success(PayoutMultiplier(low, high))
  }

  /** The public helper `CalculateWinPayout`: the win payout, or DivideByZeroException for odds 0. */
  function CalculateWinPayout(payIn: real, low: Int64, high: Int64): (r: Result<real, Exception>)
    ensures r.Failure? <==> Odds(low, high) == 0
    ensures r.Failure? ==> r.error == DivideByZeroException
    ensures r.Success? ==> r.value == WinPayout(payIn, low, high) && IsSatoshiAligned(r.value)
  {
    if Odds(low, high) == 0 then Failure(DivideByZeroException)
    else
      WinPayoutAligned(payIn, low, high);
      Success(WinPayout(payIn, low, high))
  }

  /** The public helper `CalculateWinProfit`: the payout less the stake, or DivideByZeroException for odds 0. */
  function CalculateWinProfit(payIn: real, low: Int64, high: Int64): (r: Result<real, Exception>)
    ensures r.Failure? <==> Odds(low, high) == 0
    ensures r.Failure? ==> r.error == DivideByZeroException
    ensures r.Success? ==> r.value == WinPayout(payIn, low, high) - TruncateSatoshis(Abs(payIn))
  {
    if Odds(low, high) == 0 then Failure(DivideByZeroException) else Success(WinProfit(payIn, low, high))
  }

  /** An even-money bet (half the range) of 1 coin pays back 1.998, a profit of 0.998. */
  lemma EvenMoneyExample()
    ensures ChanceToWin(0, 499999) == 0.5
    ensures PayoutMultiplier(0, 499999) == 1.998
    ensures WinPayout(-1.0, 0, 499999) == 1.998
    ensures WinProfit(-1.0, 0, 499999) == 0.998
  {
    assert Odds(0, 499999) == 500000;
    assert TruncateSatoshis(1.998) == 1.998 by {
      assert (1.998 * SatoshisPerCoin).Floor == 199800000;
    }
  }
}
