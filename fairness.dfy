/**
 * Provably-fair secrets: how the client rebuilds the secret of every bet in a batch from
 * the server seed (sent as hex), the bet id and the client seed.
 *
 * The secret of a bet is found by hashing `ASCII(betId) ++ seed ++ LE64(clientSeed)` twice
 * with SHA-512 and scanning the digest in 3-byte big-endian chunks at offsets 0, 3, ..., 60;
 * the first chunk below 16000000 gives the secret, modulo 1000000. The digest is never
 * recomputed, so a digest with no such chunk gives no secret at all (the client then
 * spins for ever). SHA-512 itself is a parameter of the model.
 */
module Fairness {
  import opened Wrappers
  import opened Clr
  import Money

  /** A SHA-512 digest: 64 bytes. */
  type Digest = d: seq<byte> | |d| == 64 witness seq(64, _ => 0)

  // ---------------------------------------------------------------------------
  // byte.Parse(pair, NumberStyles.HexNumber)

  predicate IsHexDigit(c: char)
  {
    '0' <= c <= '9' || 'a' <= c <= 'f' || 'A' <= c <= 'F'
  }

  function HexDigitValue(c: char): (v: nat)
    requires IsHexDigit(c)
    ensures v < 16
  {
    if '0' <= c <= '9' then c as int - '0' as int
    else if 'a' <= c <= 'f' then c as int - 'a' as int + 10
    else c as int - 'A' as int + 10
  }

  /** The white space that number parsing skips before and after the digits: tab to carriage return, and space. */
  predicate IsNumberWhite(c: char)
  {
    '\t' <= c <= '\r' || c == ' '
  }

  /**
   * Parses a two-character substring as a hexadecimal byte. Leading and trailing white
   * space is allowed, so a digit next to a blank is a one-digit number; anything else,
   * including two blanks, is a FormatException.
   */
  function ParseHexByte(hi: char, lo: char): (r: Result<byte, Exception>)
    ensures r.Success? <==> (IsHexDigit(hi) && IsHexDigit(lo)) || (IsNumberWhite(hi) && IsHexDigit(lo)) || (IsHexDigit(hi) && IsNumberWhite(lo))
    ensures r.Failure? ==> r.error == FormatException
    ensures IsHexDigit(hi) && IsHexDigit(lo) ==> r.Success? && r.value == 16 * HexDigitValue(hi) + HexDigitValue(lo)
  {
    if IsHexDigit(hi) && IsHexDigit(lo) then Success(16 * HexDigitValue(hi) + HexDigitValue(lo))
    else if IsNumberWhite(hi) && IsHexDigit(lo) then Success(HexDigitValue(lo))
    else if IsHexDigit(hi) && IsNumberWhite(lo) then Success(HexDigitValue(hi))
    else Failure(FormatException)
  }

  /** Byte `i` of a hex string: characters `2i` and `2i + 1`. */
  function PairAt(s: string, i: nat): Result<byte, Exception>
    requires i < |s| / 2
  {
    ParseHexByte(s[2 * i], s[2 * i + 1])
  }

  /**
   * The bytes a hex string denotes: one per pair of characters, a trailing odd character
   * ignored. It fails, with a FormatException, exactly when some pair does not parse.
   */
  function DecodeHex(s: string): (r: Result<seq<byte>, Exception>)
    ensures r.Success? <==> forall i :: 0 <= i < |s| / 2 ==> PairAt(s, i).Success?
    ensures r.Success? ==> |r.value| == |s| / 2 && forall i :: 0 <= i < |s| / 2 ==> PairAt(s, i) == Success(r.value[i])
    ensures r.Failure? ==> r.error == FormatException
    decreases |s|
  {
    if |s| < 2 then Success([])
    else
      var rest := DecodeHex(s[2..]);
      PairShift(s);
      match ParseHexByte(s[0], s[1])
      case Failure(e) =>
        assert !PairAt(s, 0).Success?;
        Failure(e)
      case Success(b) =>
        if rest.Failure? then
          assert exists i :: 1 <= i < |s| / 2 && !PairAt(s, i).Success? by {
            var i :| 0 <= i < |s[2..]| / 2 && !PairAt(s[2..], i).Success?;
            assert !PairAt(s, i + 1).Success?;
          }
          rest
        else
          assert forall i :: 1 <= i < |s| / 2 ==> PairAt(s, i) == Success(([b] + rest.value)[i]) by {
            forall i | 1 <= i < |s| / 2
              ensures PairAt(s, i) == Success(([b] + rest.value)[i])
            {
              assert PairAt(s, i) == PairAt(s[2..], i - 1);
            }
          }
          Success([b] + rest.value)
  }

  /** Dropping the first two characters shifts every pair down by one. */
  lemma PairShift(s: string)
    requires |s| >= 2
    ensures forall i :: 1 <= i < |s| / 2 ==> PairAt(s, i) == PairAt(s[2..], i - 1)
  {
    forall i | 1 <= i < |s| / 2
      ensures PairAt(s, i) == PairAt(s[2..], i - 1)
    {
      assert s[2..][2 * (i - 1)] == s[2 * i];
      assert s[2..][2 * (i - 1) + 1] == s[2 * i + 1];
    }
  }

  /**
   * The seed decoding loop of the batch replay: a byte array of half the string's length,
   * filled pair by pair; the first pair that does not parse throws.
   */
  method DecodeServerSeed(serverSeed: string) returns (r: Result<seq<byte>, Exception>)
    ensures r == DecodeHex(serverSeed)
  {
    var seed := new byte[|serverSeed| / 2];
    var x := 0;
    while x < seed.Length
      invariant 0 <= x <= seed.Length
      invariant forall i :: 0 <= i < x ==> PairAt(serverSeed, i) == Success(seed[i])
    {
      var b := ParseHexByte(serverSeed[x * 2], serverSeed[x * 2 + 1]);
      if b.Failure? {
        assert !PairAt(serverSeed, x).Success?;
        return Failure(b.error);
      }
      seed[x] := b.value;
      x := x + 1;
    }
    r := Success(seed[..]);
    assert seed[..] == DecodeHex(serverSeed).value;
  }

  /** The lower-case hex digit of a nibble. */
  function HexDigit(v: nat): (c: char)
    requires v < 16
    ensures IsHexDigit(c) && HexDigitValue(c) == v
  {
    if v < 10 then ('0' as int + v) as char else ('a' as int + v - 10) as char
  }

  /** How a seed is written as hex: two lower-case digits per byte, high nibble first. */
  function EncodeHex(b: seq<byte>): (s: string)
    ensures |s| == 2 * |b|
    ensures forall i :: 0 <= i < |b| ==> s[2 * i] == HexDigit(b[i] / 16) && s[2 * i + 1] == HexDigit(b[i] % 16)
  {
    if b == [] then [] else [HexDigit(b[0] / 16), HexDigit(b[0] % 16)] + EncodeHex(b[1..])
  }

  /** Every seed written as hex is read back as the same bytes. */
  lemma DecodeEncodeHex(b: seq<byte>)
    ensures DecodeHex(EncodeHex(b)) == Success(b)
  {
    var s := EncodeHex(b);
    assert |s| / 2 == |b|;
    forall i | 0 <= i < |b|
      ensures PairAt(s, i) == Success(b[i])
    {
      assert s[2 * i] == HexDigit(b[i] / 16) && s[2 * i + 1] == HexDigit(b[i] % 16);
      HexPairRoundTrip(b[i]);
    }
    assert DecodeHex(s).value == b;
  }

  lemma HexPairRoundTrip(v: byte)
    ensures ParseHexByte(HexDigit(v / 16), HexDigit(v % 16)) == Success(v)
  {
    assert 16 * (v / 16) + v % 16 == v;
  }

  // ---------------------------------------------------------------------------
  // The hashed data

  /** `long.ToString()` writes only '-' and digits, which ASCII encodes as themselves. */
  lemma DecimalStringIsAscii(n: int)
    ensures forall i :: 0 <= i < |DecimalString(n)| ==> DecimalString(n)[i] as int < 128
  {
    var s := DecimalString(n);
    forall i | 0 <= i < |s|
      ensures s[i] as int < 128
    {
      if n < 0 {
        assert s == "-" + Digits(-n);
        if i > 0 {
          assert s[i] == Digits(-n)[i - 1];
        }
      }
    }
  }

  /** The input to the double SHA-512 for one bet: the bet id in decimal ASCII, the seed bytes, then the client seed as 8 little-endian bytes. */
  function HashInput(betId: Int64, seed: seq<byte>, clientSeed: Int64): (data: seq<byte>)
    ensures |data| == |DecimalString(betId)| + |seed| + 8
    ensures BytesToInt64(data[|data| - 8..]) == clientSeed
  {
    var data := AsciiBytes(DecimalString(betId)) + seed + GetBytes(clientSeed);
    assert data[|data| - 8..] == GetBytes(clientSeed);
    GetBytesRoundTrip(clientSeed);
    data
  }

  /**
   * The hashed data determines the bet id: two different ids never share a digest input
   * for the same seeds. The proof reads the id back from its ASCII digits.
   */
  lemma HashInputDeterminesBetId(a: Int64, b: Int64, seed: seq<byte>, clientSeed: Int64)
    requires HashInput(a, seed, clientSeed) == HashInput(b, seed, clientSeed)
    ensures a == b
  {
    var sa, sb := DecimalString(a), DecimalString(b);
    var da, db := HashInput(a, seed, clientSeed), HashInput(b, seed, clientSeed);
    assert |sa| == |sb|;
    assert da[..|sa|] == AsciiBytes(sa);
    assert db[..|sb|] == AsciiBytes(sb);
    DecimalStringIsAscii(a);
    DecimalStringIsAscii(b);
    forall i | 0 <= i < |sa|
      ensures sa[i] == sb[i]
    {
      assert AsciiBytes(sa)[i] == AsciiBytes(sb)[i];
    }
    assert sa == sb;
    DecimalStringRoundTrip(a);
    DecimalStringRoundTrip(b);
  }

  // ---------------------------------------------------------------------------
  // The digest scan

  /** A chunk is accepted when it is below 16 * 1000000, so that every secret has 16 chunks mapping to it. */
  const ChunkLimit: int := 16000000

  /** The 24-bit big-endian value at byte offset `y` (the source ORs the shifted bytes, which do not overlap). */
  function Chunk(d: Digest, y: nat): (v: nat)
    requires y + 2 < 64
    ensures v < 0x100_0000
  {
    d[y] as int * 0x1_0000 + d[y + 1] as int * 0x100 + d[y + 2]
  }

  /** The offsets the scan reads: 0, 3, ..., 60. */
  predicate IsChunkOffset(y: int)
  {
    0 <= y <= 61 && y % 3 == 0
  }

  /** The scan from offset `y` on: the first accepted chunk, reduced modulo 1000000. */
  function ScanFrom(d: Digest, y: nat): (r: Option<int>)
    requires y % 3 == 0
    decreases 64 - y
  {
    if y > 61 then None
    else if Chunk(d, y) < ChunkLimit then Some(Chunk(d, y) % Money.GuessSpan)
    else ScanFrom(d, y + 3)
  }

  function ScanDigest(d: Digest): Option<int>
  {
    ScanFrom(d, 0)
  }

  /** The first accepted chunk at or after offset `y`. */
  predicate FirstAcceptedFrom(d: Digest, y: nat, z: nat)
  {
    && y <= z && IsChunkOffset(z) && Chunk(d, z) < ChunkLimit
    && forall w :: y <= w < z && IsChunkOffset(w) ==> Chunk(d, w) >= ChunkLimit
  }

  /** Offsets are multiples of 3, so the one after `y` is at least `y + 3`. */
  lemma OffsetStep(y: int, w: int)
    requires y % 3 == 0 && w % 3 == 0 && y < w
    ensures y + 3 <= w
  {
    assert y == 3 * (y / 3) && w == 3 * (w / 3);
  }

  lemma {:induction false} ScanFromSpec(d: Digest, y: nat)
    requires y % 3 == 0
    ensures ScanFrom(d, y).None? <==> forall w :: y <= w && IsChunkOffset(w) ==> Chunk(d, w) >= ChunkLimit
    ensures ScanFrom(d, y).Some? ==> exists z :: FirstAcceptedFrom(d, y, z) && ScanFrom(d, y).value == Chunk(d, z) % Money.GuessSpan
    decreases 64 - y
  {
    if y <= 61 && Chunk(d, y) >= ChunkLimit {
      ScanFromSpec(d, y + 3);
      forall w | y < w && IsChunkOffset(w)
        ensures y + 3 <= w
      {
        OffsetStep(y, w);
      }
      if ScanFrom(d, y).Some? {
        var z :| FirstAcceptedFrom(d, y + 3, z) && ScanFrom(d, y + 3).value == Chunk(d, z) % Money.GuessSpan;
        assert FirstAcceptedFrom(d, y, z);
      }
    } else if y <= 61 {
      assert FirstAcceptedFrom(d, y, y);
    }
  }

  /**
   * The scan of a digest: a secret exists exactly when some chunk at offsets 0, 3, ..., 60
   * is below 16000000; it is then the first such chunk modulo 1000000, a value in [0, 999999].
   */
  lemma ScanDigestSpec(d: Digest)
    ensures ScanDigest(d).None? <==> forall y :: IsChunkOffset(y) ==> Chunk(d, y) >= ChunkLimit
    ensures ScanDigest(d).Some? ==> exists z :: FirstAcceptedFrom(d, 0, z) && ScanDigest(d).value == Chunk(d, z) % Money.GuessSpan
    ensures ScanDigest(d).Some? ==> 0 <= ScanDigest(d).value < Money.GuessSpan
  {
    ScanFromSpec(d, 0);
  }

  /**
   * The scan as the source runs it: offsets 0, 3, ..., 60, stopping at the first accepted
   * chunk. `None` is the case where the surrounding `while (!found)` never ends.
   */
  method ScanChunks(hash: Digest) returns (secret: Option<int>)
    ensures secret == ScanDigest(hash)
  {
    var y := 0;
    while y <= 61
      invariant y % 3 == 0 && y <= 63
      invariant ScanFrom(hash, y) == ScanDigest(hash)
      decreases 64 - y
    {
      var result := hash[y] as int * 0x1_0000 + hash[y + 1] as int * 0x100 + hash[y + 2];
      if result < ChunkLimit {
        return Some(result % Money.GuessSpan);
      }
      y := y + 3;
    }
    return None;
  }

  /** Every accepted chunk value with a given remainder: `q * 1000000 + s` for `q` in [0, 16). */
  function ChunksFor(s: int, n: nat): set<int>
  {
    set q | 0 <= q < n :: q * Money.GuessSpan + s
  }

  lemma {:induction false} ChunksForSize(s: int, n: nat)
    ensures |ChunksFor(s, n)| == n
  {
    if n > 0 {
      ChunksForSize(s, n - 1);
      assert ChunksFor(s, n) == ChunksFor(s, n - 1) + {(n - 1) * Money.GuessSpan + s};
      assert (n - 1) * Money.GuessSpan + s !in ChunksFor(s, n - 1);
    }
  }

  /**
   * Rejection sampling makes the secrets even: every secret in [0, 999999] is the image of
   * exactly 16 of the accepted chunk values.
   */
  lemma AcceptedChunksEven(s: int)
    requires 0 <= s < Money.GuessSpan
    ensures (set c | 0 <= c < ChunkLimit && c % Money.GuessSpan == s) == ChunksFor(s, 16)
    ensures |ChunksFor(s, 16)| == 16
  {
    var accepted := set c | 0 <= c < ChunkLimit && c % Money.GuessSpan == s;
    forall c | c in accepted
      ensures c in ChunksFor(s, 16)
    {
      var q := c / Money.GuessSpan;
      assert c == q * Money.GuessSpan + s;
    }
    ChunksForSize(s, 16);
  }

  // ---------------------------------------------------------------------------
  // One bet's secret

  /** The secret of one bet: the scan of SHA-512 applied twice to the hash input. */
  function BetSecret(sha512: seq<byte> -> Digest, betId: Int64, seed: seq<byte>, clientSeed: Int64): Option<int>
  {
    ScanDigest(sha512(sha512(HashInput(betId, seed, clientSeed))))
  }
}
