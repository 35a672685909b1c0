/**
 * The few pieces of the .NET runtime that the client's arithmetic and hashing rely on:
 * fixed-width integers, the exceptions the core can raise, `long.ToString()`,
 * `Encoding.ASCII.GetBytes`, `BitConverter.GetBytes(long)` and the explicit
 * `(long)` conversion of a `decimal`.
 */
module Clr {
  import opened Wrappers

  const MinInt64: int := -0x8000_0000_0000_0000
  const MaxInt64: int := 0x7FFF_FFFF_FFFF_FFFF
  const TwoTo64: int := 0x1_0000_0000_0000_0000
  const MinInt32: int := -0x8000_0000
  const MaxInt32: int := 0x7FFF_FFFF

  type Int64 = x: int | MinInt64 <= x <= MaxInt64
  type Int32 = x: int | MinInt32 <= x <= MaxInt32
  type byte = b: int | 0 <= b < 256

  /** The exceptions that can leave the modelled code. */
  datatype Exception =
    | ArgumentNullException
    | ArgumentOutOfRangeException
    | NullReferenceException
    | FormatException
    | InvalidCastException
    | OverflowException
    | DivideByZeroException

  /** Unchecked 64-bit arithmetic: the two's-complement value congruent to `x`. */
  function Wrap64(x: int): (r: Int64)
    ensures (x - r) % TwoTo64 == 0
    ensures MinInt64 <= x <= MaxInt64 ==> r == x
  {
    (x - MinInt64) % TwoTo64 + MinInt64
  }

  /** Wrapping after each addition is wrapping once at the end: `unchecked(unchecked(a) + b) == unchecked(a + b)`. */
  lemma Wrap64Add(a: int, b: int)
    ensures Wrap64(Wrap64(a) + b) == Wrap64(a + b)
  {
    var k := (a - MinInt64) / TwoTo64;
    assert Wrap64(a) == a - k * TwoTo64;
    ModShift(a + b - MinInt64, k);
  }

  lemma ModShift(x: int, k: int)
    ensures (x - k * TwoTo64) % TwoTo64 == x % TwoTo64
  {
    var q := x / TwoTo64;
    var r := x % TwoTo64;
    assert x - k * TwoTo64 == (q - k) * TwoTo64 + r;
  }

  /** The explicit `(long)` conversion of a decimal: truncation toward zero. */
  function TruncateToInteger(x: real): (n: int)
    ensures x >= 0.0 ==> 0 <= n && n as real <= x < n as real + 1.0
    ensures x < 0.0 ==> n <= 0 && n as real - 1.0 < x <= n as real
  {
    if x < 0.0 then -((-x).Floor) else x.Floor
  }

  /** `(long)x` for a decimal `x`: an OverflowException when the truncated value does not fit. */
  function CastToInt64(x: real): (r: Result<Int64, Exception>)
    ensures r.Success? <==> MinInt64 <= TruncateToInteger(x) <= MaxInt64
    ensures r.Success? ==> r.value == TruncateToInteger(x)
    ensures r.Failure? ==> r.error == OverflowException
  {
    var n := TruncateToInteger(x);
    if MinInt64 <= n <= MaxInt64 then Success(n) else Failure(OverflowException)
  }

  // ---------------------------------------------------------------------------
  // long.ToString(): an optional '-' followed by the decimal digits, no leading zeros

  predicate IsDigit(c: char) { '0' <= c <= '9' }

  predicate AllDigits(s: string) { forall i :: 0 <= i < |s| ==> IsDigit(s[i]) }

  function DigitChar(d: nat): (c: char)
    requires d < 10
    ensures IsDigit(c) && c as int - '0' as int == d
  {
    ('0' as int + d) as char
  }

  /** The decimal digits of `n`, most significant first. */
  function Digits(n: nat): (s: string)
    ensures |s| >= 1 && AllDigits(s)
    ensures n > 0 ==> s[0] != '0'
  {
    if n < 10 then [DigitChar(n)] else Digits(n / 10) + [DigitChar(n % 10)]
  }

  /** The number a string of decimal digits denotes. */
  function DigitsValue(s: string): nat
    requires AllDigits(s)
  {
    if s == [] then 0
    else 10 * DigitsValue(s[..|s| - 1]) + (s[|s| - 1] as int - '0' as int)
  }

  lemma {:induction false} DigitsRoundTrip(n: nat)
    ensures DigitsValue(Digits(n)) == n
  {
    if n >= 10 {
      DigitsRoundTrip(n / 10);
      var s := Digits(n / 10);
      var t := s + [DigitChar(n % 10)];
      assert t[..|t| - 1] == s;
    }
  }

  /** The text `long.ToString()` produces. */
  function DecimalString(n: int): string
  {
    if n < 0 then "-" + Digits(-n) else Digits(n)
  }

  /** The text `bool.ToString()` produces. */
  function BoolString(b: bool): (s: string)
    ensures s == "True" <==> b
    ensures !b ==> s == "False"
  {
    if b then "True" else "False"
  }

  predicate IsDecimalString(s: string)
  {
    |s| >= 1 && if s[0] == '-' then |s| >= 2 && AllDigits(s[1..]) else AllDigits(s)
  }

  function DecimalValue(s: string): int
    requires IsDecimalString(s)
  {
    if s[0] == '-' then -(DigitsValue(s[1..]) as int) else DigitsValue(s)
  }

  /** `long.ToString()` is read back unambiguously: the text is well formed and denotes `n`. */
  lemma DecimalStringRoundTrip(n: int)
    ensures IsDecimalString(DecimalString(n))
    ensures DecimalValue(DecimalString(n)) == n
  {
    if n < 0 {
      DigitsRoundTrip(-n);
      assert DecimalString(n)[1..] == Digits(-n);
    } else {
      DigitsRoundTrip(n);
    }
  }

  // ---------------------------------------------------------------------------
  // Encoding.ASCII.GetBytes: characters above 0x7F become '?'

  function AsciiByte(c: char): byte
  {
    if c as int < 128 then c as int else '?' as int
  }

  function AsciiBytes(s: string): (b: seq<byte>)
    ensures |b| == |s|
    ensures forall i :: 0 <= i < |s| && s[i] as int < 128 ==> b[i] == s[i] as int
  {
    seq(|s|, i requires 0 <= i < |s| => AsciiByte(s[i]))
  }

  // ---------------------------------------------------------------------------
  // BitConverter.GetBytes(long): eight bytes, least significant first (a little-endian host)

  function Pow256(n: nat): (p: nat)
    ensures p >= 1
  {
    if n == 0 then 1 else 256 * Pow256(n - 1)
  }

  function LittleEndian(v: nat, n: nat): (b: seq<byte>)
    ensures |b| == n
  {
    if n == 0 then [] else [v % 256] + LittleEndian(v / 256, n - 1)
  }

  function FromLittleEndian(b: seq<byte>): nat
  {
    if b == [] then 0 else b[0] + 256 * FromLittleEndian(b[1..])
  }

  lemma {:induction false} LittleEndianRoundTrip(v: nat, n: nat)
    requires v < Pow256(n)
    ensures FromLittleEndian(LittleEndian(v, n)) == v
  {
    if n > 0 {
      assert v / 256 < Pow256(n - 1);
      LittleEndianRoundTrip(v / 256, n - 1);
      assert LittleEndian(v, n)[1..] == LittleEndian(v / 256, n - 1);
    }
  }

  function GetBytes(v: Int64): (b: seq<byte>)
    ensures |b| == 8
  {
    LittleEndian(if v < 0 then v + TwoTo64 else v, 8)
  }

  /** `BitConverter.ToInt64`, the reading that `GetBytes` is meant for. */
  function BytesToInt64(b: seq<byte>): int
    requires |b| == 8
  {
    var u := FromLittleEndian(b);
    if u > MaxInt64 then u - TwoTo64 else u
  }

  lemma GetBytesRoundTrip(v: Int64)
    ensures BytesToInt64(GetBytes(v)) == v
  {
    assert Pow256(8) == TwoTo64;
    LittleEndianRoundTrip(if v < 0 then v + TwoTo64 else v, 8);
  }
}
