// The alphabet and the first valid string of BIP173, which fix the tables and the generator words.
module Bech32Vector {
  import opened Hex
  import opened Bech32
  import opened Bech32Text
  import LinearCode

  const CHARSET := "qpzry9x8gf2tvdw0s3jn54khce6mua7l"

  /** Symbol by symbol, the alphabet of BIP173. */
  lemma Alphabet(s: Sym)
    ensures CharOf(s) == CHARSET[s as int]
  {
  }

  lemma OneStep(c: Register, vs: seq<Sym>, next: Register)
    requires vs != [] && Step(c, vs[0]) == next
    ensures Run(c, vs) == Run(next, vs[1..])
  {
  }

  lemma EarlySteps()
    ensures Step(0x1, 3) == 0x23 && Step(0x23, 0) == 0x460 && Step(0x460, 1) == 0x8c01
  {
  }

  lemma LateSteps()
    ensures Step(0x8c01, 10) == 0x11802a && Step(0x11802a, 28) == 0x230055c && Step(0x230055c, 25) == 0x3d6afc2b
    ensures Step(0x3d6afc2b, 31) == 0x2f84386 && Step(0x2f84386, 20) == 0x24622766 && Step(0x24622766, 31) == 0x1
  {
  }

  lemma RunsToOne(vs: seq<Sym>)
    requires vs == [3, 0, 1, 10, 28, 25, 31, 20, 31]
    ensures Run(1, vs) == 1
  {
    EarlySteps();
    LateSteps();
    OneStep(0x1, vs, 0x23);
    OneStep(0x23, vs[1..], 0x460);
    OneStep(0x460, vs[2..], 0x8c01);
    assert vs[1..][1..] == vs[2..] && vs[2..][1..] == vs[3..];
    OneStep(0x8c01, vs[3..], 0x11802a);
    OneStep(0x11802a, vs[4..], 0x230055c);
    OneStep(0x230055c, vs[5..], 0x3d6afc2b);
    assert vs[3..][1..] == vs[4..] && vs[4..][1..] == vs[5..] && vs[5..][1..] == vs[6..];
    OneStep(0x3d6afc2b, vs[6..], 0x2f84386);
    OneStep(0x2f84386, vs[7..], 0x24622766);
    OneStep(0x24622766, vs[8..], 0x1);
    assert vs[6..][1..] == vs[7..] && vs[7..][1..] == vs[8..] && vs[8..][1..] == [];
  }

  lemma OneCharacter(hrp: Text)
    requires |hrp| == 1 && hrp[0] == 'a'
    ensures HRPExpand(hrp) == [3, 0, 1]
  {
    assert hrp[..0] == [];
    assert HighBits(hrp) == [] + [3] && LowBits(hrp) == [] + [1];
  }

  lemma ChecksumOf(hrp: Text, check: seq<Sym>)
    requires |hrp| == 1 && hrp[0] == 'a' && check == [10, 28, 25, 31, 20, 31]
    ensures CreateChecksum(hrp, []) == check
  {
    OneCharacter(hrp);
    assert [] + check == check;
    RunsToOne([3, 0, 1] + check);
    ChecksumUnique(hrp, [], check);
  }

  lemma NoDataUnder(hrp: Text)
    requires |hrp| == 1 && hrp[0] == 'a'
    ensures Encoded(hrp, []) == hrp + ['1'] + "2uel5l"
  {
    var check: seq<Sym> := [10, 28, 25, 31, 20, 31];
    ChecksumOf(hrp, check);
    assert [] + check == check;
    SixChars(check);
  }

  /** BIP173's first valid string, "A12UEL5L": no data under the prefix "a". */
  lemma FirstValidString()
    ensures Encoded("a", []) == "a12uel5l"
  {
    NoDataUnder("a");
  }

  lemma SixChars(check: seq<Sym>)
    requires check == [10, 28, 25, 31, 20, 31]
    ensures CharsOf(check) == "2uel5l"
  {
    forall i | 0 <= i < 6
      ensures CharsOf(check)[i] == "2uel5l"[i]
    {
      Alphabet(check[i]);
    }
  }
}
