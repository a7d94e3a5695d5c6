// Bech32 text and its checksum (BIP173).
module Bech32 {
  import opened Hex
  import opened BitRegroup
  import LinearCode

  /** Text is ASCII throughout. */
  type Ascii = c: char | c < 128 as char witness 'a'
  type Text = seq<Ascii>

  /** A 5-bit symbol and the 30-bit checksum register. */
  type Sym = bv5
  type Register = bv30

  function CharOf(s: Sym): (c: Ascii) {
    if s < 16 then FirstHalf(s) else SecondHalf(s)
  }

  function FirstHalf(s: Sym): (c: Ascii) {
    if s == 0 then 'q'
    else if s == 1 then 'p'
    else if s == 2 then 'z'
    else if s == 3 then 'r'
    else if s == 4 then 'y'
    else if s == 5 then '9'
    else if s == 6 then 'x'
    else if s == 7 then '8'
    else if s == 8 then 'g'
    else if s == 9 then 'f'
    else if s == 10 then '2'
    else if s == 11 then 't'
    else if s == 12 then 'v'
    else if s == 13 then 'd'
    else if s == 14 then 'w'
    else '0'
  }

  function SecondHalf(s: Sym): (c: Ascii) {
    if s == 16 then 's'
    else if s == 17 then '3'
    else if s == 18 then 'j'
    else if s == 19 then 'n'
    else if s == 20 then '5'
    else if s == 21 then '4'
    else if s == 22 then 'k'
    else if s == 23 then 'h'
    else if s == 24 then 'c'
    else if s == 25 then 'e'
    else if s == 26 then '6'
    else if s == 27 then 'm'
    else if s == 28 then 'u'
    else if s == 29 then 'a'
    else if s == 30 then '7'
    else 'l'
  }

  /** The reverse table: None for a character outside the alphabet. */
  function SymOf(c: Ascii): (s: Option<Sym>)
  {
    match c
    case 'q' => Some(0)
    case 'p' => Some(1)
    case 'z' => Some(2)
    case 'r' => Some(3)
    case 'y' => Some(4)
    case '9' => Some(5)
    case 'x' => Some(6)
    case '8' => Some(7)
    case 'g' => Some(8)
    case 'f' => Some(9)
    case '2' => Some(10)
    case 't' => Some(11)
    case 'v' => Some(12)
    case 'd' => Some(13)
    case 'w' => Some(14)
    case '0' => Some(15)
    case 's' => Some(16)
    case '3' => Some(17)
    case 'j' => Some(18)
    case 'n' => Some(19)
    case '5' => Some(20)
    case '4' => Some(21)
    case 'k' => Some(22)
    case 'h' => Some(23)
    case 'c' => Some(24)
    case 'e' => Some(25)
    case '6' => Some(26)
    case 'm' => Some(27)
    case 'u' => Some(28)
    case 'a' => Some(29)
    case '7' => Some(30)
    case 'l' => Some(31)
    case _ => None
  }

  function Lower(c: Ascii): Ascii {
    if 'A' <= c <= 'Z' then (c as int + 32) as char else c
  }

  function Upper(c: Ascii): Ascii {
    if 'a' <= c <= 'z' then (c as int - 32) as char else c
  }

  lemma AlphabetRoundTrip(s: Sym)
    ensures SymOf(CharOf(s)) == Some(s)
    ensures CharOf(s) != '1' && Lower(CharOf(s)) == CharOf(s)
  {
  }

  lemma FirstHalfInverse(c: Ascii)
    requires SymOf(c).Some? && SymOf(c).value < 16
    ensures CharOf(SymOf(c).value) == c
  {
  }

  lemma SecondHalfInverse(c: Ascii)
    requires SymOf(c).Some? && SymOf(c).value >= 16
    ensures CharOf(SymOf(c).value) == c
  {
  }

  lemma AlphabetInverse(c: Ascii)
    requires SymOf(c).Some?
    ensures CharOf(SymOf(c).value) == c
  {
    if SymOf(c).value < 16 {
      FirstHalfInverse(c);
    } else {
      SecondHalfInverse(c);
    }
  }

  // ---- The checksum register ----

  function Gen(b: Sym): Register {
    (if b & 1 != 0 then 0x3b6a57b2 else 0) ^
    (if b & 2 != 0 then 0x26508e6d else 0) ^
    (if b & 4 != 0 then 0x1ea119fa else 0) ^
    (if b & 8 != 0 then 0x3d4233dd else 0) ^
    (if b & 16 != 0 then 0x2a1462b3 else 0)
  }

  function Shift(c: Register): Register {
    (c & 0x1ffffff) << 5
  }

  function Top(c: Register): Sym {
    (c >> 25) as bv5
  }

  function Widen(v: Sym): Register {
    v as bv30
  }

  function Step(c: Register, v: Sym): Register {
    Shift(c) ^ Widen(v) ^ Gen(Top(c))
  }

  function Run(c: Register, vs: seq<Sym>): Register {
    LinearCode.Run(Step, c, vs)
  }

  function Polymod(vs: seq<Sym>): Register {
    Run(1, vs)
  }

  method ComputePolymod(values: seq<Sym>) returns (chk: Register)
    ensures chk == Polymod(values)
  {
    var gen: seq<Register> := [0x3b6a57b2, 0x26508e6d, 0x1ea119fa, 0x3d4233dd, 0x2a1462b3];
    chk := 1;
    for k := 0 to |values|
      invariant Run(chk, values[k..]) == Polymod(values)
    {
      assert values[k..][1..] == values[k + 1..];
      var b := (chk >> 25) as bv5;
      ghost var before := chk;
      chk := ((chk & 0x1ffffff) << 5) ^ (values[k] as bv30);
      chk := ApplyGenerators(chk, b, gen);
    }
  }

  /** The inner loop over the five generator words, bit i of b choosing word i. */
  method ApplyGenerators(start: Register, b: Sym, gen: seq<Register>) returns (chk: Register)
    requires gen == [0x3b6a57b2, 0x26508e6d, 0x1ea119fa, 0x3d4233dd, 0x2a1462b3]
    ensures chk == start ^ Gen(b)
  {
    chk := start;
    var bit: Sym := 1;
    for i := 0 to 5
      invariant bit == [1, 2, 4, 8, 16, 0][i]
      invariant chk == start ^ GenBelow(b, i)
    {
      if b & bit != 0 {
        chk := chk ^ gen[i];
      }
      bit := bit << 1;
    }
  }

  function GenBelow(b: Sym, i: nat): Register
    requires i <= 5
  {
    (if i > 0 && b & 1 != 0 then 0x3b6a57b2 else 0) ^
    (if i > 1 && b & 2 != 0 then 0x26508e6d else 0) ^
    (if i > 2 && b & 4 != 0 then 0x1ea119fa else 0) ^
    (if i > 3 && b & 8 != 0 then 0x3d4233dd else 0) ^
    (if i > 4 && b & 16 != 0 then 0x2a1462b3 else 0)
  }

  // ---- Linearity ----

  function XorR(a: Register, b: Register): Register {
    a ^ b
  }

  function XorS(a: Sym, b: Sym): Sym {
    a ^ b
  }

  lemma XorSAssociates(a: Sym, b: Sym, c: Sym)
    ensures (a ^ b) ^ c == a ^ (b ^ c)
  {
  }

  lemma XorRAssociates(a: Register, b: Register, c: Register)
    ensures (a ^ b) ^ c == a ^ (b ^ c)
  {
  }

  lemma XorSAssociative()
    ensures LinearCode.Associative(XorS)
  {
    forall a: Sym, b: Sym, c: Sym
      ensures XorS(XorS(a, b), c) == XorS(a, XorS(b, c))
    {
      XorSAssociates(a, b, c);
    }
  }

  lemma XorRAssociative()
    ensures LinearCode.Associative(XorR)
  {
    forall a: Register, b: Register, c: Register
      ensures XorR(XorR(a, b), c) == XorR(a, XorR(b, c))
    {
      XorRAssociates(a, b, c);
    }
  }

  lemma XorRCommutative()
    ensures LinearCode.Commutative(XorR)
  {
  }

  predicate AtMostOneBit(k: Sym) {
    k == 0 || k == 1 || k == 2 || k == 4 || k == 8 || k == 16
  }

  function BitsOf(a: Sym): (ks: seq<Sym>)
    ensures |ks| == 5
  {
    [a & 1, a & 2, a & 4, a & 8, a & 16]
  }

  lemma BitsTotal(a: Sym)
    ensures LinearCode.Total(XorS, BitsOf(a)) == a
    ensures forall i :: 0 <= i < 5 ==> AtMostOneBit(BitsOf(a)[i])
  {
    var ks := BitsOf(a);
    assert ks[..5] == ks && ks[..5][..4] == ks[..4] && ks[..4][..3] == ks[..3];
    assert ks[..3][..2] == ks[..2] && ks[..2][..1] == ks[..1];
    assert LinearCode.Total(XorS, ks[..2]) == XorS(ks[0], ks[1]);
    assert LinearCode.Total(XorS, ks[..3]) == XorS(XorS(ks[0], ks[1]), ks[2]);
    assert LinearCode.Total(XorS, ks[..4]) == XorS(XorS(XorS(ks[0], ks[1]), ks[2]), ks[3]);
    assert LinearCode.Total(XorS, ks) == XorS(XorS(XorS(XorS(ks[0], ks[1]), ks[2]), ks[3]), ks[4]);
  }

  lemma Bit0Added(b: Sym)
    ensures Gen(0 ^ b) == Gen(0) ^ Gen(b)
  {
  }

  lemma Bit1Added(b: Sym)
    ensures Gen(1 ^ b) == Gen(1) ^ Gen(b)
  {
  }

  lemma Bit2Added(b: Sym)
    ensures Gen(2 ^ b) == Gen(2) ^ Gen(b)
  {
  }

  lemma Bit4Added(b: Sym)
    ensures Gen(4 ^ b) == Gen(4) ^ Gen(b)
  {
  }

  lemma Bit8Added(b: Sym)
    ensures Gen(8 ^ b) == Gen(8) ^ Gen(b)
  {
  }

  lemma Bit16Added(b: Sym)
    ensures Gen(16 ^ b) == Gen(16) ^ Gen(b)
  {
  }

  lemma BitAdds(k: Sym)
    requires AtMostOneBit(k)
    ensures LinearCode.Adds(Gen, XorS, XorR, k)
  {
    forall b: Sym
      ensures Gen(XorS(k, b)) == XorR(Gen(k), Gen(b))
    {
      if k == 0 {
        Bit0Added(b);
      } else if k == 1 {
        Bit1Added(b);
      } else if k == 2 {
        Bit2Added(b);
      } else if k == 4 {
        Bit4Added(b);
      } else if k == 8 {
        Bit8Added(b);
      } else {
        Bit16Added(b);
      }
    }
  }

  lemma GenAdds(a: Sym)
    ensures LinearCode.Adds(Gen, XorS, XorR, a)
  {
    XorSAssociative();
    XorRAssociative();
    BitsTotal(a);
    forall i | 0 <= i < 5
      ensures LinearCode.Adds(Gen, XorS, XorR, BitsOf(a)[i])
    {
      BitAdds(BitsOf(a)[i]);
    }
    LinearCode.TotalAdds(Gen, XorS, XorR, BitsOf(a));
  }

  lemma GenAdditive()
    ensures LinearCode.Additive(Gen, XorS, XorR)
  {
    forall a: Sym
      ensures LinearCode.Adds(Gen, XorS, XorR, a)
    {
      GenAdds(a);
    }
  }

  lemma ShiftAdds(c: Register)
    ensures LinearCode.Adds(Shift, XorR, XorR, c) && LinearCode.Adds(Top, XorR, XorS, c)
  {
    forall d: Register
      ensures Shift(XorR(c, d)) == XorR(Shift(c), Shift(d)) && Top(XorR(c, d)) == XorS(Top(c), Top(d))
    {
      ShiftLinear(c, d);
    }
  }

  lemma ShiftLinear(c: Register, d: Register)
    ensures Shift(c ^ d) == Shift(c) ^ Shift(d)
    ensures Top(c ^ d) == Top(c) ^ Top(d)
  {
  }

  lemma WidenAdds(v: Sym)
    ensures LinearCode.Adds(Widen, XorS, XorR, v)
  {
    forall w: Sym
      ensures Widen(XorS(v, w)) == XorR(Widen(v), Widen(w))
    {
      WidenLinear(v, w);
    }
  }

  lemma WidenLinear(v: Sym, w: Sym)
    ensures Widen(v ^ w) == Widen(v) ^ Widen(w)
  {
  }

  lemma ShiftAdditive()
    ensures LinearCode.Additive(Shift, XorR, XorR) && LinearCode.Additive(Top, XorR, XorS)
  {
    forall c: Register
      ensures LinearCode.Adds(Shift, XorR, XorR, c) && LinearCode.Adds(Top, XorR, XorS, c)
    {
      ShiftAdds(c);
    }
  }

  lemma WidenAdditive()
    ensures LinearCode.Additive(Widen, XorS, XorR)
  {
    forall v: Sym
      ensures LinearCode.Adds(Widen, XorS, XorR, v)
    {
      WidenAdds(v);
    }
  }

  lemma StepComposed()
    ensures LinearCode.Composed(Step, Shift, Widen, Gen, Top, XorR)
  {
  }

  lemma StepIsLinear()
    ensures LinearCode.Linear(Step, XorR, XorS)
  {
    XorRAssociative();
    XorRCommutative();
    GenAdditive();
    ShiftAdditive();
    WidenAdditive();
    StepComposed();
    LinearCode.LinearFromParts(Step, Shift, Widen, Gen, Top, XorR, XorS);
  }

  lemma XorCancels()
    ensures LinearCode.Cancels(XorR, 0) && LinearCode.Cancels(XorS, 0)
  {
  }

  /** Feeding a zero symbol is injective: no register but zero is emptied by it. */
  lemma StepZeroInjective(c: Register)
    ensures Step(c, 0) == 0 <==> c == 0
  {
  }

  lemma StepKeepsNonzero()
    ensures LinearCode.ZeroStep(Step, 0, 0)
  {
    forall c: Register
      ensures Step(c, 0) == 0 <==> c == 0
    {
      StepZeroInjective(c);
    }
  }

  /** What a register fed `k` symbols from zero can hold while nothing has been folded back. */
  predicate Fits(c: Register, k: nat) {
    if k == 0 then c == 0
    else if k == 1 then c < 0x20
    else if k == 2 then c < 0x400
    else if k == 3 then c < 0x8000
    else if k == 4 then c < 0x100000
    else if k == 5 then c < 0x2000000
    else k == 6
  }

  lemma StepFits(c: Register, k: nat, v: Sym)
    requires k < 6 && Fits(c, k)
    ensures Fits(Step(c, v), k + 1)
    ensures Step(c, v) == 0 <==> c == 0 && v == 0
  {
  }

  lemma SixSymbolsSeparate()
    ensures LinearCode.NoShortCycle(Step, 0, 0, 6)
  {
    forall c: Register, k: nat, v: Sym | k < 6 && Fits(c, k)
      ensures Fits(Step(c, v), k + 1) && (Step(c, v) == 0 <==> c == 0 && v == 0)
    {
      StepFits(c, k, v);
    }
    forall e: seq<Sym> | |e| <= 6 && LinearCode.Run(Step, 0, e) == 0
      ensures LinearCode.All(e, 0)
    {
      LinearCode.ShortRunNonzero(Step, 0, 0, Fits, 6, 0, 0, e);
    }
  }

  // ---- Checksums ----

  /** The human-readable part as symbols: high bits, a zero, low bits. */
  function HRPExpand(hrp: Text): (r: seq<Sym>)
    ensures |r| == 2 * |hrp| + 1
  {
    HighBits(hrp) + [0] + LowBits(hrp)
  }

  function HighBits(hrp: Text): (r: seq<Sym>)
    ensures |r| == |hrp|
  {
    if hrp == [] then [] else HighBits(hrp[..|hrp| - 1]) + [(hrp[|hrp| - 1] as int / 32) as bv5]
  }

  function LowBits(hrp: Text): (r: seq<Sym>)
    ensures |r| == |hrp|
  {
    if hrp == [] then [] else LowBits(hrp[..|hrp| - 1]) + [(hrp[|hrp| - 1] as int % 32) as bv5]
  }

  method ComputeHRPExpand(hrp: Text) returns (ret: seq<Sym>)
    ensures ret == HRPExpand(hrp)
  {
    ret := ExpandHigh(hrp);
    ret := ret + [0];
    var low := ExpandLow(hrp);
    ret := ret + low;
  }

  method ExpandHigh(hrp: Text) returns (ret: seq<Sym>)
    ensures ret == HighBits(hrp)
  {
    ret := [];
    for i := 0 to |hrp|
      invariant ret == HighBits(hrp[..i])
    {
      assert hrp[..i + 1][..i] == hrp[..i];
      ret := ret + [(hrp[i] as int / 32) as bv5];
    }
    assert hrp[..|hrp|] == hrp;
  }

  method ExpandLow(hrp: Text) returns (ret: seq<Sym>)
    ensures ret == LowBits(hrp)
  {
    ret := [];
    for i := 0 to |hrp|
      invariant ret == LowBits(hrp[..i])
    {
      assert hrp[..i + 1][..i] == hrp[..i];
      ret := ret + [(hrp[i] as int % 32) as bv5];
    }
    assert hrp[..|hrp|] == hrp;
  }

  predicate VerifyChecksum(hrp: Text, data: seq<Sym>) {
    Polymod(HRPExpand(hrp) + data) == 1
  }

  const SIX_ZEROS: seq<Sym> := [0, 0, 0, 0, 0, 0]

  function Drop(p: Register): Register {
    p >> 5
  }

  function Low(p: Register): Sym {
    (p & 31) as bv5
  }

  /** The six symbols of a register, most significant first. */
  function Split(p: Register): (s: seq<Sym>)
    ensures |s| == 6
  {
    LinearCode.Digits(Drop, Low, p, 6)
  }

  function CreateChecksum(hrp: Text, data: seq<Sym>): (s: seq<Sym>)
    ensures |s| == 6
  {
    Split(Polymod(HRPExpand(hrp) + data + SIX_ZEROS) ^ 1)
  }

  /** The low symbol of a register is put back by one step from the rest of it. */
  lemma SplitStep(p: Register)
    ensures Step(Drop(p), Low(p)) == p
  {
  }

  lemma DropFits(p: Register, n: nat)
    requires n > 0 && Fits(p, n)
    ensures Fits(Drop(p), n - 1)
  {
  }

  lemma RunSplit(p: Register)
    ensures Run(0, Split(p)) == p
  {
    forall q: Register
      ensures Step(Drop(q), Low(q)) == q
    {
      SplitStep(q);
    }
    forall q: Register, n: nat | n > 0 && Fits(q, n)
      ensures Fits(Drop(q), n - 1)
    {
      DropFits(q, n);
    }
    LinearCode.RunDigits(Step, Drop, Low, 0, Fits, p, 6);
  }

  lemma XorTwice(a: Register)
    ensures XorR(a, XorR(a, 1)) == 1
    ensures XorR(a, 0) == a
  {
  }

  lemma XorZeros(s: seq<Sym>)
    requires |s| == 6
    ensures LinearCode.Zip(XorS, SIX_ZEROS, s) == s
  {
    forall i | 0 <= i < 6
      ensures LinearCode.Zip(XorS, SIX_ZEROS, s)[i] == s[i]
    {
      assert SIX_ZEROS[i] == 0;
      ZeroXor(s[i]);
    }
  }

  lemma ZeroXor(a: Sym)
    ensures XorS(0, a) == a
  {
  }

  /** A created checksum always verifies. */
  lemma ChecksumVerifies(hrp: Text, data: seq<Sym>)
    ensures VerifyChecksum(hrp, data + CreateChecksum(hrp, data))
  {
    var prefix := HRPExpand(hrp) + data;
    var s := CreateChecksum(hrp, data);
    var c := Polymod(prefix);
    var tail := Run(c, SIX_ZEROS);
    LinearCode.RunAppend(Step, 1, prefix, SIX_ZEROS);
    LinearCode.RunAppend(Step, 1, prefix, s);
    assert HRPExpand(hrp) + (data + s) == prefix + s;
    StepIsLinear();
    LinearCode.RunLinear(Step, XorR, XorS, c, 0, SIX_ZEROS, s);
    XorZeros(s);
    RunSplit(XorR(tail, 1));
    XorTwice(c);
    XorTwice(tail);
  }

  /** Two data parts of equal length that differ only inside six consecutive symbols never both verify. */
  lemma BurstDetected(hrp: Text, a: seq<Sym>, b: seq<Sym>, start: nat)
    requires |a| == |b| && a != b
    requires LinearCode.DifferWithin(a, b, start, 6)
    ensures !(VerifyChecksum(hrp, a) && VerifyChecksum(hrp, b))
  {
    LinearCode.RunAppend(Step, 1, HRPExpand(hrp), a);
    LinearCode.RunAppend(Step, 1, HRPExpand(hrp), b);
    StepIsLinear();
    XorCancels();
    StepKeepsNonzero();
    SixSymbolsSeparate();
    LinearCode.BurstChangesRegister(Step, XorR, XorS, 0, 0, 6, Run(1, HRPExpand(hrp)), a, b, start);
  }

  /** Only the created checksum verifies. */
  lemma ChecksumUnique(hrp: Text, data: seq<Sym>, check: seq<Sym>)
    requires |check| == 6 && VerifyChecksum(hrp, data + check)
    ensures check == CreateChecksum(hrp, data)
  {
    var s := CreateChecksum(hrp, data);
    ChecksumVerifies(hrp, data);
    if check != s {
      var a, b := data + check, data + s;
      assert a[|data|..] == check && b[|data|..] == s;
      BurstDetected(hrp, a, b, |data|);
    }
  }
}
