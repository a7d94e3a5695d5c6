// Difficulties, targets and compact bits, as the V1 side and the SV2 side each compute them.
module Target {
  import opened Arith
  import opened Bytes
  import opened Hex

  /** The difficulty-1 target, 0x00000000FFFF followed by 26 zero bytes. */
  const DIFF1: nat := 0xFFFF * Pow256(26)

  function V1DifficultyToTarget(difficulty: real): (target: nat) {
    if difficulty <= 0.0 then DIFF1 else Quotient(DIFF1, difficulty)
  }

  /** SV2 answers a non-positive difficulty with the easiest target there is. */
  function Sv2DifficultyToTarget(difficulty: real): (target: nat) {
    if difficulty <= 0.0 then Pow256(32) - 1 else Quotient(DIFF1, difficulty)
  }

  /** n / d rounded down. */
  function Quotient(n: nat, d: real): (q: nat)
    requires d > 0.0
  {
    DivNonNegative(n as real, d);
    (n as real / d).Floor
  }

  lemma DivNonNegative(n: real, d: real)
    requires n >= 0.0 && d > 0.0
    ensures n / d >= 0.0
  {
  }

  lemma MulDiv(n: real, d: real)
    requires d > 0.0
    ensures n / d * d == n
  {
  }

  lemma ScaleLe(a: real, b: real, d: real)
    requires a <= b && d > 0.0
    ensures a * d <= b * d
  {
    if a < b { ScaleLt(a, b, d); }
  }

  lemma ScaleLt(a: real, b: real, d: real)
    requires a < b && d > 0.0
    ensures a * d < b * d
  {
    assert (b - a) * d > 0.0;
    assert b * d - a * d == (b - a) * d;
  }

  lemma ScaleRight(a: real, c: real, d: real)
    requires a >= 0.0 && c <= d
    ensures a * c <= a * d
  {
    assert a * d - a * c == a * (d - c);
  }

  /** A number is within the rounded-down quotient exactly when scaling it stays within n. */
  lemma WithinQuotient(h: nat, n: nat, d: real)
    requires d > 0.0
    ensures h <= Quotient(n, d) <==> h as real * d <= n as real
  {
    var x := n as real / d;
    MulDiv(n as real, d);
    if h as real <= x {
      ScaleLe(h as real, x, d);
    } else {
      ScaleLt(x, h as real, d);
    }
  }

  /** A lower positive difficulty accepts every hash a higher one accepts. */
  lemma EasierDifficultyAcceptsMore(h: nat, low: real, high: real)
    requires 0.0 < low <= high
    requires h <= V1DifficultyToTarget(high)
    ensures h <= V1DifficultyToTarget(low)
  {
    QuotientGrows(h, DIFF1, low, high);
  }

  lemma QuotientGrows(h: nat, n: nat, low: real, high: real)
    requires 0.0 < low <= high
    requires h <= Quotient(n, high)
    ensures h <= Quotient(n, low)
  {
    assert h as real * low <= n as real by {
      WithinQuotient(h, n, high);
      ScaleRight(h as real, low, high);
    }
    WithinQuotient(h, n, low);
  }

  /** Minimal big-endian bytes, nothing for zero. */
  function MinimalBE(n: nat): (b: seq<byte>) {
    if n == 0 then [] else MinimalBE(n / 256) + [n % 256]
  }

  /** 32 little-endian bytes; a target of 2^256 or more does not fit and stops the program. */
  function TargetToBytes(t: nat): (b: Option<seq<byte>>) {
    var raw := MinimalBE(t);
    if |raw| > 32 then None else Some(Reverse(Zeros(32 - |raw|) + raw))
  }

  function BytesToTarget(b: seq<byte>): nat {
    if |b| != 32 then 0 else FromBE(Reverse(b))
  }

  lemma {:induction false} MinimalBEValue(n: nat)
    ensures FromBE(MinimalBE(n)) == n
    ensures n > 0 ==> MinimalBE(n)[0] > 0
  {
    if n > 0 {
      MinimalBEValue(n / 256);
      var b := MinimalBE(n);
      assert b[..|b| - 1] == MinimalBE(n / 256);
    }
  }

  lemma {:induction false} MinimalBELength(n: nat, k: nat)
    ensures |MinimalBE(n)| <= k <==> n < Pow256(k)
    decreases k
  {
    if n > 0 && k > 0 {
      MinimalBELength(n / 256, k - 1);
      assert n / 256 < Pow256(k - 1) <==> n < 256 * Pow256(k - 1);
    }
  }

  lemma {:induction false} LeadingZeros(k: nat, b: seq<byte>)
    ensures FromBE(Zeros(k) + b) == FromBE(b)
    decreases k + |b|
  {
    if b == [] {
      if k > 0 {
        ZerosEnd(k);
        assert (Zeros(k) + b)[..k - 1] == Zeros(k - 1) + b;
        LeadingZeros(k - 1, b);
      }
    } else {
      LeadingZeros(k, b[..|b| - 1]);
      var z := Zeros(k) + b;
      assert z[..|z| - 1] == Zeros(k) + b[..|b| - 1];
    }
  }

  lemma ZerosEnd(k: nat)
    requires k > 0
    ensures Zeros(k)[..k - 1] == Zeros(k - 1)
  {
  }

  /** The wire form of a target exists exactly below 2^256, and then stands for the same number. */
  lemma TargetBytesRoundTrip(t: nat)
    ensures TargetToBytes(t).Some? <==> t < Pow256(32)
    ensures t < Pow256(32) ==> |TargetToBytes(t).value| == 32 && BytesToTarget(TargetToBytes(t).value) == t
  {
    MinimalBELength(t, 32);
    if t < Pow256(32) {
      var raw := MinimalBE(t);
      MinimalBEValue(t);
      PaddedBack(raw, 32);
    }
  }

  lemma PaddedBack(raw: seq<byte>, width: nat)
    requires |raw| <= width
    ensures var padded := Reverse(Zeros(width - |raw|) + raw);
            |padded| == width && FromBE(Reverse(padded)) == FromBE(raw)
  {
    LeadingZeros(width - |raw|, raw);
    ReverseTwice(Zeros(width - |raw|) + raw);
  }

  const SIGN_BIT: nat := 0x800000

  /** Compact bits as the V1 validator reads them: 23 bits of mantissa and a sign. */
  function CompactToBig(compact: nat): int
    requires compact < 0x1_0000_0000
  {
    var exponent := compact / 0x100_0000;
    var mantissa := compact % SIGN_BIT;
    var magnitude: int := Shifted(mantissa, exponent);
    if compact / SIGN_BIT % 2 == 1 then -magnitude else magnitude
  }

  /** Compact bits as SV2 reads them: 24 bits of coefficient. */
  function NBitsToTarget(nBits: nat): nat
    requires nBits < 0x1_0000_0000
  {
    Shifted(nBits % 0x100_0000, nBits / 0x100_0000)
  }

  /** m * 256^(exponent - 3), rounded down. */
  function Shifted(m: nat, exponent: nat): (r: nat)
    requires exponent < 0x100
  {
    if exponent <= 3 then Over(m, Pow256(3 - exponent)) else Times(m, Pow256(exponent - 3))
  }

  function Over(m: nat, p: nat): nat
    requires p >= 1
  {
    m / p
  }

  function Times(m: nat, p: nat): nat {
    m * p
  }

  /** The two readings of the bits agree exactly when the sign bit is clear or the exponent is zero. */
  lemma CompactReadingsAgree(nBits: nat)
    requires nBits < 0x1_0000_0000
    ensures CompactToBig(nBits) == NBitsToTarget(nBits)
       <==> nBits / SIGN_BIT % 2 == 0 || nBits / 0x100_0000 == 0
  {
    var e := nBits / 0x100_0000;
    var c := nBits % 0x100_0000;
    SplitSignBit(nBits);
    assert Pow256(1) == 256 && Pow256(2) == 256 * Pow256(1) && Pow256(3) == 256 * Pow256(2);
    if nBits / SIGN_BIT % 2 == 1 {
      assert c >= SIGN_BIT;
      if e > 3 {
        MulAtLeast(c, Pow256(e - 3));
      }
    }
  }

  lemma SplitSignBit(n: nat)
    ensures n % 0x100_0000 == n % SIGN_BIT + SIGN_BIT * (n / SIGN_BIT % 2)
  {
    var h := n / SIGN_BIT;
    DivModUnique(n, 0x100_0000, h / 2, n % SIGN_BIT + SIGN_BIT * (h % 2));
  }

  lemma BitsOfOne(bits: nat, exponent: nat)
    requires bits == 0x1D00_FFFF && exponent == 29
    ensures CompactToBig(bits) == NBitsToTarget(bits) == DIFF1
  {
    assert bits == exponent * 0x100_0000 + 0xFFFF;
    assert Shifted(0xFFFF, exponent) == Times(0xFFFF, Pow256(exponent - 3));
  }

  /** Difficulty 1 is the target of the bits 0x1d00ffff, whichever side reads them and whichever computes it. */
  lemma DifficultyOne()
    ensures CompactToBig(0x1D00_FFFF) == NBitsToTarget(0x1D00_FFFF) == DIFF1
    ensures V1DifficultyToTarget(1.0) == Sv2DifficultyToTarget(1.0) == DIFF1
  {
    BitsOfOne(0x1D00_FFFF, 29);
  }

  /** A difficulty that is not positive: V1 accepts what difficulty 1 accepts, SV2 every hash there is. */
  lemma NotPositive(difficulty: real, h: nat)
    requires difficulty <= 0.0 && h < Pow256(32)
    ensures h <= V1DifficultyToTarget(difficulty) <==> h <= V1DifficultyToTarget(1.0)
    ensures h <= Sv2DifficultyToTarget(difficulty)
  {
    DifficultyOne();
  }
}
