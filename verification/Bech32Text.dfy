// Bech32 strings: encoding, decoding and SegWit addresses (BIP173).
module Bech32Text {
  import opened Hex
  import opened Bech32
  import opened BitRegroup

  function LowerText(t: Text): (r: Text)
    ensures |r| == |t|
    ensures forall i :: 0 <= i < |t| ==> r[i] == Lower(t[i])
  {
    if t == [] then [] else [Lower(t[0])] + LowerText(t[1..])
  }

  function UpperText(t: Text): (r: Text)
    ensures |r| == |t|
    ensures forall i :: 0 <= i < |t| ==> r[i] == Upper(t[i])
  {
    if t == [] then [] else [Upper(t[0])] + UpperText(t[1..])
  }

  function CharsOf(data: seq<Sym>): (t: Text)
    ensures |t| == |data|
    ensures forall i :: 0 <= i < |t| ==> t[i] == CharOf(data[i])
  {
    if data == [] then [] else CharsOf(data[..|data| - 1]) + [CharOf(data[|data| - 1])]
  }

  /** Every character must be in the alphabet. */
  function SymsOf(t: Text): (data: Option<seq<Sym>>)
    ensures data.Some? <==> forall i :: 0 <= i < |t| ==> SymOf(t[i]).Some?
    ensures data.Some? ==> |data.value| == |t| && forall i :: 0 <= i < |t| ==> SymOf(t[i]) == Some(data.value[i])
  {
    if t == [] then Some([])
    else
      match (SymsOf(t[..|t| - 1]), SymOf(t[|t| - 1]))
      case (Some(d), Some(s)) => Some(d + [s])
      case _ => None
  }

  /** Index of the last '1', or -1. */
  function LastOne(t: Text): (pos: int)
    ensures -1 <= pos < |t|
    ensures pos >= 0 ==> t[pos] == '1'
    ensures forall i :: pos < i < |t| ==> t[i] != '1'
  {
    if t == [] then -1 else if t[|t| - 1] == '1' then |t| - 1 else LastOne(t[..|t| - 1])
  }

  function Encoded(hrp: Text, data: seq<Sym>): Text {
    Joined(hrp, CharsOf(data + CreateChecksum(hrp, data)))
  }

  datatype Parts = Parts(hrp: Text, data: seq<Sym>)

  /** Too long, mixed case, no separator in place, a stray character or a bad checksum is an error. */
  function Decoded(bech: Text): Option<Parts> {
    var lower := LowerText(bech);
    var pos := LastOne(lower);
    if |bech| > 90 then None
    else if bech != lower && bech != UpperText(bech) then None
    else if pos < 1 || pos + 7 > |bech| then None
    else Checked(lower[..pos], lower[pos + 1..])
  }

  /** The two parts on either side of the separator. */
  function Checked(hrp: Text, chars: Text): Option<Parts>
    requires |chars| >= 6
  {
    match SymsOf(chars)
    case None => None
    case Some(data) => if VerifyChecksum(hrp, data) then Some(Parts(hrp, data[..|data| - 6])) else None
  }

  method Encode(hrp: Text, data: seq<Sym>) returns (result: Text)
    ensures result == Encoded(hrp, data)
  {
    var combined := data + CreateChecksum(hrp, data);
    var chars := EncodeSymbols(combined);
    result := hrp + ['1'] + chars;
  }

  method EncodeSymbols(symbols: seq<Sym>) returns (chars: Text)
    ensures chars == CharsOf(symbols)
  {
    chars := [];
    for i := 0 to |symbols|
      invariant chars == CharsOf(symbols[..i])
    {
      assert symbols[..i + 1][..i] == symbols[..i];
      chars := chars + [CharOf(symbols[i])];
    }
    assert symbols[..|symbols|] == symbols;
  }

  method DecodeSymbols(dataStr: Text) returns (r: Option<seq<Sym>>)
    ensures r == SymsOf(dataStr)
  {
    var data: seq<Sym> := [];
    for i := 0 to |dataStr|
      invariant SymsOf(dataStr[..i]) == Some(data)
    {
      assert dataStr[..i + 1][..i] == dataStr[..i];
      match SymOf(dataStr[i]) {
        case None => return None;
        case Some(s) => data := data + [s];
      }
    }
    assert dataStr[..|dataStr|] == dataStr;
    r := Some(data);
  }

  method Decode(bech: Text) returns (r: Option<Parts>)
    ensures r == Decoded(bech)
  {
    r := DecodeAs(bech, LowerText(bech), UpperText(bech));
  }

  method DecodeAs(bech: Text, lower: Text, upper: Text) returns (r: Option<Parts>)
    requires |lower| == |bech|
    ensures var pos := LastOne(lower);
            r == if |bech| > 90 || (bech != lower && bech != upper) || pos < 1 || pos + 7 > |bech| then None
                 else Checked(lower[..pos], lower[pos + 1..])
  {
    if |bech| > 90 || (bech != lower && bech != upper) {
      return None;
    }
    var pos := LastOne(lower);
    if pos < 1 || pos + 7 > |bech| {
      return None;
    }
    r := Check(lower[..pos], lower[pos + 1..]);
  }

  method Check(hrp: Text, chars: Text) returns (r: Option<Parts>)
    requires |chars| >= 6
    ensures r == Checked(hrp, chars)
  {
    var data := DecodeSymbols(chars);
    if data.None? || !VerifyChecksum(hrp, data.value) {
      return None;
    }
    r := Some(Parts(hrp, data.value[..|data.value| - 6]));
  }

  lemma LowerIsIdempotent(t: Text)
    ensures LowerText(LowerText(t)) == LowerText(t)
  {
  }

  lemma SymsOfChars(data: seq<Sym>)
    ensures SymsOf(CharsOf(data)) == Some(data)
  {
    var t := CharsOf(data);
    forall i | 0 <= i < |t|
      ensures SymOf(t[i]) == Some(data[i])
    {
      AlphabetRoundTrip(data[i]);
    }
    assert SymsOf(t).value == data;
  }

  lemma CharsOfSyms(t: Text)
    requires SymsOf(t).Some?
    ensures CharsOf(SymsOf(t).value) == t
  {
    forall i | 0 <= i < |t|
      ensures CharOf(SymsOf(t).value[i]) == t[i]
    {
      AlphabetInverse(t[i]);
    }
  }

  predicate PlainLower(t: Text) {
    forall i :: 0 <= i < |t| ==> t[i] != '1' && Lower(t[i]) == t[i]
  }

  lemma CharsArePlainLower(data: seq<Sym>)
    ensures PlainLower(CharsOf(data))
  {
    forall i | 0 <= i < |data|
      ensures CharsOf(data)[i] != '1' && Lower(CharsOf(data)[i]) == CharsOf(data)[i]
    {
      AlphabetRoundTrip(data[i]);
    }
  }

  function Joined(hrp: Text, chars: Text): (t: Text)
    ensures |t| == |hrp| + 1 + |chars|
    ensures t[..|hrp|] == hrp && t[|hrp|] == '1' && t[|hrp| + 1..] == chars
  {
    hrp + ['1'] + chars
  }

  lemma JoinedIsLower(hrp: Text, chars: Text)
    requires LowerText(hrp) == hrp && PlainLower(chars)
    ensures LowerText(Joined(hrp, chars)) == Joined(hrp, chars)
  {
    LowerConcat(hrp, ['1']);
    LowerConcat(hrp + ['1'], chars);
    LowerOfPlain(chars);
    LowerOfPlain1();
  }

  /** Before plain characters, the last '1' is the separator. */
  lemma SeparatorFound(hrp: Text, chars: Text)
    requires PlainLower(chars)
    ensures LastOne(Joined(hrp, chars)) == |hrp|
  {
    var t := Joined(hrp, chars);
    forall i | |hrp| < i < |t|
      ensures t[i] != '1'
    {
      assert t[i] == t[|hrp| + 1..][i - |hrp| - 1];
    }
    LastOneAt(t, |hrp|);
  }

  lemma LowerOfPlain(t: Text)
    requires PlainLower(t)
    ensures LowerText(t) == t
  {
  }

  lemma LowerOfPlain1()
    ensures LowerText(['1']) == ['1']
  {
  }

  lemma LowerConcat(a: Text, b: Text)
    ensures LowerText(a + b) == LowerText(a) + LowerText(b)
  {
  }

  lemma LastOneAt(t: Text, k: nat)
    requires k < |t| && t[k] == '1' && forall i :: k < i < |t| ==> t[i] != '1'
    ensures LastOne(t) == k
  {
  }

  /** Symbols behind a separator come back, less the checksum, exactly when the string is well formed and verifies. */
  lemma SymbolsDecode(hrp: Text, symbols: seq<Sym>)
    requires |symbols| >= 6
    ensures Decoded(Joined(hrp, CharsOf(symbols))) == Some(Parts(hrp, symbols[..|symbols| - 6]))
       <==> |hrp| >= 1 && |hrp| + |symbols| + 1 <= 90 && LowerText(hrp) == hrp && VerifyChecksum(hrp, symbols)
  {
    var chars := CharsOf(symbols);
    var bech := Joined(hrp, chars);
    if LowerText(hrp) == hrp {
      CharsArePlainLower(symbols);
      JoinedIsLower(hrp, chars);
      SeparatorFound(hrp, chars);
      SymsOfChars(symbols);
    } else {
      LowerIsIdempotent(bech);
    }
  }

  /** A string comes back as the parts it was made from exactly when the human-readable part is non-empty and
      holds no upper-case letter, and the string is at most 90 characters. */
  lemma EncodeDecode(hrp: Text, data: seq<Sym>)
    ensures Decoded(Encoded(hrp, data)) == Some(Parts(hrp, data))
       <==> |hrp| >= 1 && |hrp| + |data| + 7 <= 90 && LowerText(hrp) == hrp
  {
    var symbols := data + CreateChecksum(hrp, data);
    assert symbols[..|symbols| - 6] == data;
    SymbolsDecode(hrp, symbols);
    ChecksumVerifies(hrp, data);
  }

  /** Whatever decodes is, in lower case, the encoding of what it decodes to. */
  lemma DecodeEncode(bech: Text)
    requires Decoded(bech).Some?
    ensures var p := Decoded(bech).value; Encoded(p.hrp, p.data) == LowerText(bech)
  {
    var p := Decoded(bech).value;
    var tail := DecodedFrom(bech, p);
    ChecksumIsCreated(p.hrp, p.data, SymsOf(tail).value);
    CharsOfSyms(tail);
  }

  /** The text behind the separator is symbols, all but the last six the data, and they verify. */
  lemma DecodedFrom(bech: Text, p: Parts) returns (tail: Text)
    requires Decoded(bech) == Some(p)
    ensures LowerText(bech) == Joined(p.hrp, tail) && SymsOf(tail).Some? && |tail| >= 6
    ensures p.data == SymsOf(tail).value[..|tail| - 6] && VerifyChecksum(p.hrp, SymsOf(tail).value)
  {
    var lower := LowerText(bech);
    var pos := LastOne(lower);
    tail := lower[pos + 1..];
    assert lower == lower[..pos] + [lower[pos]] + tail;
  }

  lemma ChecksumIsCreated(hrp: Text, data: seq<Sym>, symbols: seq<Sym>)
    requires |symbols| >= 6 && data == symbols[..|symbols| - 6] && VerifyChecksum(hrp, symbols)
    ensures symbols == data + CreateChecksum(hrp, data)
  {
    var check := symbols[|symbols| - 6..];
    assert symbols == data + check;
    ChecksumUnique(hrp, data, check);
  }

  // ---- SegWit addresses ----

  function Ints(data: seq<Sym>): (r: seq<nat>)
    ensures |r| == |data| && forall i :: 0 <= i < |r| ==> r[i] == data[i] as nat
  {
    if data == [] then [] else [data[0] as nat] + Ints(data[1..])
  }

  datatype WitnessProgram = WitnessProgram(version: nat, program: seq<nat>)

  /** The witness version and program of an address, for one network's human-readable part. */
  function DecodedAddress(address: Text, expectedHRP: Text): Option<WitnessProgram> {
    match Decoded(address)
    case None => None
    case Some(p) =>
      if p.hrp != expectedHRP || |p.data| < 1 then None
      else
        match Converted(Ints(p.data[1..]), 5, 8, false)
        case None => None
        case Some(program) =>
          if p.data[0] == 0 && |program| != 20 && |program| != 32 then None
          else Some(WitnessProgram(p.data[0] as nat, program))
  }

  /** Symbols for regrouped bits. */
  function Symbols(groups: seq<nat>): (r: seq<Sym>)
    requires AllBelow(groups, 32)
    ensures |r| == |groups| && forall i :: 0 <= i < |r| ==> r[i] == groups[i] as bv5
  {
    if groups == [] then [] else [groups[0] as bv5] + Symbols(groups[1..])
  }

  lemma SymbolValue(v: nat)
    requires v < 32
    ensures (v as bv5) as nat == v
  {
  }

  lemma SymbolsRoundTrip(groups: seq<nat>)
    requires AllBelow(groups, 32)
    ensures Ints(Symbols(groups)) == groups
  {
    forall i | 0 <= i < |groups|
      ensures Ints(Symbols(groups))[i] == groups[i]
    {
      SymbolValue(groups[i]);
    }
  }

  /** An address made from a witness version and a program of bytes decodes to them. */
  lemma AddressRoundTrip(hrp: Text, version: Sym, program: seq<nat>)
    requires AllBelow(program, 256)
    requires |hrp| >= 1 && LowerText(hrp) == hrp
    requires |hrp| + 1 + |PaddedGroups(Stream(program, 8), 5)| + 7 <= 90
    requires version == 0 ==> |program| == 20 || |program| == 32
    ensures var groups := PaddedGroups(Stream(program, 8), 5);
            && AllBelow(groups, 32)
            && DecodedAddress(Encoded(hrp, [version] + Symbols(groups)), hrp)
            == Some(WitnessProgram(version as nat, program))
  {
    ByteAndSymbolSizes();
    var groups := PaddedGroups(Stream(program, 8), 5);
    var k := PaddedStream(Stream(program, 8), 5);
    var syms := Symbols(groups);
    EncodeDecode(hrp, [version] + syms);
    SymbolsRoundTrip(groups);
    RegroupRoundTrip(program, 8, 5);
    AddressOfParts(Encoded(hrp, [version] + syms), hrp, version, syms, program);
  }

  lemma AddressOfParts(address: Text, hrp: Text, version: Sym, syms: seq<Sym>, program: seq<nat>)
    requires Decoded(address) == Some(Parts(hrp, [version] + syms))
    requires Converted(Ints(syms), 5, 8, false) == Some(program)
    requires version == 0 ==> |program| == 20 || |program| == 32
    ensures DecodedAddress(address, hrp) == Some(WitnessProgram(version as nat, program))
  {
    var data := [version] + syms;
    assert data[1..] == syms && data[0] == version;
  }

  lemma ByteAndSymbolSizes()
    ensures Pow2(8) == 256 && Pow2(5) == 32
  {
  }
}
