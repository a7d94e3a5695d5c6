// The coinbase transaction: built in two halves around the extranonces, put together again from a share, and given its witness
// for the block.
module Coinbase {
  import opened Bytes
  import opened Hex
  import opened Transaction

  // ---- The height push ----

  /** The digits of a number, least significant first, with none to spare. */
  function Digits(h: nat): (d: seq<byte>)
    ensures h > 0 ==> d != []
  {
    if h == 0 then [] else [h % 256] + Digits(h / 256)
  }

  /** A top bit would read as a sign, so a byte goes above it. */
  function Unsigned(d: seq<byte>): seq<byte>
    requires d != []
  {
    if d[|d| - 1] >= 0x80 then d + [0] else d
  }

  function HeightPush(height: int): (b: seq<byte>)
    requires height < 0x8000_0000_0000_0000
    ensures |b| <= 10
  {
    if height <= 0 then [1, 0]
    else
      DigitsLength(height, 8);
      var d := Unsigned(Digits(height));
      [|d|] + d
  }

  lemma {:induction false} DigitsLength(h: nat, k: nat)
    requires k <= 8 && h < Pow256(k)
    ensures |Digits(h)| <= k
    decreases k
  {
    Widths();
    if h > 0 {
      DigitsLength(h / 256, k - 1);
    }
  }

  method SerializeHeight(height: int) returns (b: seq<byte>)
    requires height < 0x8000_0000_0000_0000
    ensures b == HeightPush(height)
  {
    if height <= 0 {
      return [1, 0];
    }
    b := DigitsOf(height);
    if b[|b| - 1] >= 0x80 {
      b := b + [0];
    }
    assert b == HeightPush(height)[1..];
    b := [|b|] + b;
  }

  method DigitsOf(height: nat) returns (b: seq<byte>)
    ensures b == Digits(height)
  {
    var h := height;
    b := [];
    while h > 0
      invariant Digits(height) == b + Digits(h)
    {
      assert b + ([h % 256] + Digits(h / 256)) == (b + [h % 256]) + Digits(h / 256);
      b := b + [h % 256];
      h := h / 256;
    }
  }

  /** A script number: little-endian, the top bit its sign. */
  function ScriptNumber(b: seq<byte>): int {
    if b == [] then 0
    else
      var n := |b| - 1;
      if b[n] < 0x80 then FromLE(b) else 0 - (FromLE(b[..n] + [b[n] - 0x80]) as int)
  }

  /** The height at the front of a scriptSig, as BIP34 has it: a length and that many bytes. */
  function ReadHeight(script: seq<byte>): Option<(int, seq<byte>)> {
    if script == [] then None
    else
      match Take(script[1..], script[0])
      case None => None
      case Some((b, rest)) => Some((ScriptNumber(b), rest))
  }

  lemma {:induction false} DigitsValue(h: nat)
    ensures FromLE(Digits(h)) == h && FromLE(Digits(h) + [0]) == h
  {
    if h > 0 {
      DigitsValue(h / 256);
      assert (Digits(h) + [0])[1..] == Digits(h / 256) + [0];
    }
  }

  /** The height is read back from the front of any scriptSig; one below zero reads as zero. */
  lemma HeightRoundTrip(height: int, rest: seq<byte>)
    requires height < 0x8000_0000_0000_0000
    ensures ReadHeight(HeightPush(height) + rest) == Some((if height < 0 then 0 else height, rest))
  {
    var push := HeightPush(height);
    assert (push + rest)[1..] == push[1..] + rest;
    TakeBack(push[1..], rest);
    if height > 0 {
      DigitsValue(height);
    } else {
      assert push[1..] == [0] && [0][1..] == [];
    }
  }

  lemma {:induction false} LastDigit(h: nat)
    requires h > 0
    ensures Digits(h)[|Digits(h)| - 1] > 0
  {
    if h >= 256 {
      LastDigit(h / 256);
    }
  }

  /** The push of a positive height has no byte it could do without. */
  lemma HeightMinimal(height: int)
    requires 0 < height < 0x8000_0000_0000_0000
    ensures var push := HeightPush(height);
            |push| >= 2 && (push[|push| - 1] == 0 ==> |push| > 2 && push[|push| - 2] >= 0x80)
  {
    LastDigit(height);
  }

  // ---- The two halves ----

  function Blank(n: nat): (z: seq<byte>)
    ensures |z| == n && forall i :: 0 <= i < n ==> z[i] == 0
  {
    seq(n, _ => 0)
  }

  datatype CoinbaseOutput = CoinbaseOutput(value: int, script: seq<byte>)

  const FINAL: seq<byte> := [0xFF, 0xFF, 0xFF, 0xFF]

  function Serialized(o: CoinbaseOutput): seq<byte>
    requires |o.script| < MAX_COUNT
  {
    LE(o.value % MAX_COUNT, 8) + SerializeVarInt(|o.script|) + o.script
  }

  predicate Lengths(outputs: seq<CoinbaseOutput>) {
    |outputs| < MAX_COUNT && forall o :: o in outputs ==> |o.script| < MAX_COUNT
  }

  /** The bytes before the extranonces. */
  function Head(height: int, text: seq<byte>, reserved: nat): seq<byte>
    requires height < 0x8000_0000_0000_0000 && |text| + reserved + 10 < MAX_COUNT
  {
    var push := HeightPush(height);
    LE(1, 4) + [1] + Blank(32) + FINAL + SerializeVarInt(|push| + |text| + reserved) + push + text
  }

  function SerializedAll(outputs: seq<CoinbaseOutput>): seq<byte>
    requires forall o :: o in outputs ==> |o.script| < MAX_COUNT
  {
    if outputs == [] then [] else SerializedAll(outputs[..|outputs| - 1]) + Serialized(outputs[|outputs| - 1])
  }

  /** The bytes after the extranonces. */
  function Tail(outputs: seq<CoinbaseOutput>): seq<byte>
    requires Lengths(outputs)
  {
    FINAL + SerializeVarInt(|outputs|) + SerializedAll(outputs) + Blank(4)
  }

  function HeadText(height: int, text: seq<byte>, reserved: nat): string
    requires height < 0x8000_0000_0000_0000 && |text| + reserved + 10 < MAX_COUNT
  {
    Encode(Head(height, text, reserved))
  }

  function TailText(outputs: seq<CoinbaseOutput>): string
    requires Lengths(outputs)
  {
    Encode(Tail(outputs))
  }

  method BuildCoinbaseParts(height: int, text: seq<byte>, size1: nat, size2: nat, outputs: seq<CoinbaseOutput>)
    returns (coinb1: string, coinb2: string)
    requires height < 0x8000_0000_0000_0000 && |text| + size1 + size2 + 10 < MAX_COUNT && Lengths(outputs)
    ensures coinb1 == HeadText(height, text, size1 + size2) && coinb2 == TailText(outputs)
  {
    coinb1 := BuildHead(height, text, size1 + size2);
    coinb2 := BuildTail(outputs);
  }

  method BuildHead(height: int, text: seq<byte>, reserved: nat) returns (coinb1: string)
    requires height < 0x8000_0000_0000_0000 && |text| + reserved + 10 < MAX_COUNT
    ensures coinb1 == HeadText(height, text, reserved)
  {
    var heightBytes := SerializeHeight(height);
    var b := LE(1, 4) + [1] + Blank(32) + FINAL;
    b := b + SerializeVarInt(|heightBytes| + |text| + reserved) + heightBytes + text;
    coinb1 := Encode(b);
  }

  method BuildTail(outputs: seq<CoinbaseOutput>) returns (coinb2: string)
    requires Lengths(outputs)
    ensures coinb2 == TailText(outputs)
  {
    var b := FINAL + SerializeVarInt(|outputs|);
    var body := SerializeOutputs(outputs);
    b := b + body + Blank(4);
    coinb2 := Encode(b);
  }

  method SerializeOutputs(outputs: seq<CoinbaseOutput>) returns (b: seq<byte>)
    requires Lengths(outputs)
    ensures b == SerializedAll(outputs)
  {
    b := [];
    for i := 0 to |outputs|
      invariant b == SerializedAll(outputs[..i])
    {
      assert outputs[..i + 1][..i] == outputs[..i];
      var out := LE(outputs[i].value % MAX_COUNT, 8) + SerializeVarInt(|outputs[i].script|) + outputs[i].script;
      b := b + out;
    }
    assert outputs[..|outputs|] == outputs;
  }

  function AssembleCoinbase(coinb1: string, extraNonce1: string, extraNonce2: string, coinb2: string): Option<seq<byte>> {
    Decode(coinb1 + extraNonce1 + extraNonce2 + coinb2)
  }

  // ---- What the halves make ----

  /** An output as the transaction carries it, the value in 64 bits. */
  function Carried(o: CoinbaseOutput): (r: Output)
    requires |o.script| < MAX_COUNT
    ensures OutputFits(r)
  {
    Output(o.value % MAX_COUNT, o.script)
  }

  function CarriedAll(outputs: seq<CoinbaseOutput>): (r: seq<Output>)
    requires Lengths(outputs)
    ensures |r| == |outputs| && forall i :: 0 <= i < |r| ==> r[i] == Carried(outputs[i])
  {
    seq(|outputs|, (i: nat) requires i < |outputs| => Carried(outputs[i]))
  }

  /** The transaction meant: one input from nowhere with the given scriptSig, and the outputs. */
  function CoinbaseTx(script: seq<byte>, outputs: seq<CoinbaseOutput>): (tx: Tx)
    requires |script| < MAX_COUNT && Lengths(outputs)
    ensures Fits(tx)
  {
    Tx(1, [Input(Blank(32), 0xFFFF_FFFF, script, 0xFFFF_FFFF)], CarriedAll(outputs), None, 0)
  }

  lemma Constants()
    ensures LE(0xFFFF_FFFF, 4) == FINAL && LE(0, 4) == Blank(4)
  {
    LEInverse(FINAL);
    assert FromLE(FINAL) == 0xFFFF_FFFF by {
      assert FINAL[1..] == [0xFF, 0xFF, 0xFF] && [0xFF, 0xFF, 0xFF][1..] == [0xFF, 0xFF];
      assert [0xFF, 0xFF][1..] == [0xFF] && [0xFF][1..] == [];
    }
    LEInverse(Blank(4));
    assert FromLE(Blank(4)) == 0 by { BlankIsZero(4); }
  }

  lemma {:induction false} BlankIsZero(n: nat)
    ensures FromLE(Blank(n)) == 0
  {
    if n > 0 {
      BlankIsZero(n - 1);
      assert Blank(n)[1..] == Blank(n - 1);
    }
  }

  lemma {:induction false} WriteManyEnds<T>(xs: seq<T>, item: T --> seq<byte>)
    requires xs != [] && forall x :: x in xs ==> item.requires(x)
    ensures WriteMany(xs, item) == WriteMany(xs[..|xs| - 1], item) + item(xs[|xs| - 1])
    decreases |xs|
  {
    var n := |xs| - 1;
    if n == 0 {
      assert WriteMany(xs[1..], item) == [] && WriteMany(xs[..0], item) == [];
    } else {
      WriteManyEnds(xs[1..], item);
      var middle := xs[1..][..n - 1];
      assert xs[..n][1..] == middle && xs[..n][0] == xs[0];
      assert item(xs[0]) + (WriteMany(middle, item) + item(xs[n])) == item(xs[0]) + WriteMany(middle, item) + item(xs[n]);
    }
  }

  lemma {:induction false} OutputsWritten(outputs: seq<CoinbaseOutput>)
    requires Lengths(outputs)
    ensures WriteMany(CarriedAll(outputs), WriteOutput) == SerializedAll(outputs)
    decreases |outputs|
  {
    if outputs == [] {
    } else {
      var n := |outputs| - 1;
      OutputsWritten(outputs[..n]);
      WriteManyEnds(CarriedAll(outputs), WriteOutput);
      assert CarriedAll(outputs)[..n] == CarriedAll(outputs[..n]);
      assert WriteOutput(Carried(outputs[n])) == Serialized(outputs[n]);
    }
  }

  /** The two halves around extranonces of the reserved size are the bytes of one transaction. */
  lemma HalvesWritten(height: int, text: seq<byte>, nonces: seq<byte>, outputs: seq<CoinbaseOutput>)
    requires height < 0x8000_0000_0000_0000 && |text| + |nonces| + 10 < MAX_COUNT && Lengths(outputs)
    ensures Head(height, text, |nonces|) + nonces + Tail(outputs)
         == WriteTx(CoinbaseTx(HeightPush(height) + text + nonces, outputs))
  {
    var script := HeightPush(height) + text;
    var tx := CoinbaseTx(script + nonces, outputs);
    Constants();
    OutputsWritten(outputs);
    var input := WriteInput(tx.inputs[0]);
    assert WriteMany(tx.inputs, WriteInput) == input + [];
    HalvesRegroup(LE(1, 4), Blank(32), FINAL, SerializeVarInt(|script| + |nonces|), HeightPush(height), text, nonces,
                  SerializeVarInt(|outputs|), SerializedAll(outputs), Blank(4));
  }

  lemma HalvesRegroup(v: seq<byte>, z: seq<byte>, f: seq<byte>, n: seq<byte>, h: seq<byte>, t: seq<byte>, x: seq<byte>,
                      c: seq<byte>, o: seq<byte>, l: seq<byte>)
    ensures (v + [1] + z + f + n + h + t) + x + (f + c + o + l)
         == v + ([] + (([1] + ((z + f + (n + (h + t + x)) + f) + [])) + ((c + o) + ([] + l))))
  {
    var inner := z + f + (n + (h + t + x)) + f;
    assert inner + [] == inner;
    assert [] + l == l;
    assert (v + [1] + z + f + n + h + t) + x == v + ([1] + (z + f + (n + (h + t + x))));
    assert (v + ([1] + (z + f + (n + (h + t + x))))) + (f + c + o + l) == v + (([1] + inner) + ((c + o) + l));
  }

  /** What is assembled from extranonces of the reserved sizes. */
  lemma AssembledIs(height: int, text: seq<byte>, nonces: seq<byte>, reserved: nat, outputs: seq<CoinbaseOutput>,
                    en1: string, en2: string, x1: seq<byte>, x2: seq<byte>)
    requires height < 0x8000_0000_0000_0000 && |text| + reserved + 10 < MAX_COUNT && Lengths(outputs)
    requires Decode(en1) == Some(x1) && Decode(en2) == Some(x2) && nonces == x1 + x2 && |nonces| == reserved
    ensures AssembleCoinbase(HeadText(height, text, reserved), en1, en2, TailText(outputs))
         == Some(WriteTx(CoinbaseTx(HeightPush(height) + text + nonces, outputs)))
  {
    HalvesWritten(height, text, nonces, outputs);
    Glued(Head(height, text, |nonces|), Tail(outputs), en1, en2, x1, x2,
          WriteTx(CoinbaseTx(HeightPush(height) + text + nonces, outputs)));
  }

  /** For every height, text and output list, and extranonces that together fill the space reserved, the assembled coinbase is
      one transaction with exactly the declared scriptSig and outputs, and nothing after it. */
  lemma AssembledParses(height: int, text: seq<byte>, nonces: seq<byte>, reserved: nat, outputs: seq<CoinbaseOutput>,
                        en1: string, en2: string, x1: seq<byte>, x2: seq<byte>)
    requires height < 0x8000_0000_0000_0000 && |text| + reserved + 10 < MAX_COUNT && Lengths(outputs)
    requires Decode(en1) == Some(x1) && Decode(en2) == Some(x2) && nonces == x1 + x2 && |nonces| == reserved
    ensures var cb := AssembleCoinbase(HeadText(height, text, reserved), en1, en2, TailText(outputs));
            cb.Some? && Parse(cb.value) == Some(CoinbaseTx(HeightPush(height) + text + nonces, outputs))
  {
    AssembledIs(height, text, nonces, reserved, outputs, en1, en2, x1, x2);
    ReadsBack(AssembleCoinbase(HeadText(height, text, reserved), en1, en2, TailText(outputs)),
              CoinbaseTx(HeightPush(height) + text + nonces, outputs));
  }

  lemma ReadsBack(cb: Option<seq<byte>>, tx: Tx)
    requires Fits(tx) && cb == Some(WriteTx(tx))
    ensures Parse(cb.value) == Some(tx)
  {
    ParseWritten(tx);
  }

  lemma Glued(head: seq<byte>, tail: seq<byte>, en1: string, en2: string, x1: seq<byte>, x2: seq<byte>, whole: seq<byte>)
    requires Decode(en1) == Some(x1) && Decode(en2) == Some(x2) && head + (x1 + x2) + tail == whole
    ensures AssembleCoinbase(Encode(head), en1, en2, Encode(tail)) == Some(whole)
  {
    HalvesDecode(head, tail, en1, en2, x1, x2);
  }

  lemma HalvesDecode(head: seq<byte>, tail: seq<byte>, en1: string, en2: string, x1: seq<byte>, x2: seq<byte>)
    requires Decode(en1) == Some(x1) && Decode(en2) == Some(x2)
    ensures AssembleCoinbase(Encode(head), en1, en2, Encode(tail)) == Some(head + (x1 + x2) + tail)
  {
    RoundTrip(head);
    RoundTrip(tail);
    FourDecode(Encode(head), en1, en2, Encode(tail), head, x1, x2, tail);
    Assoc(head, x1, x2);
  }

  lemma FourDecode(a: string, b: string, c: string, d: string, x: seq<byte>, y: seq<byte>, z: seq<byte>, w: seq<byte>)
    requires Decode(a) == Some(x) && Decode(b) == Some(y) && Decode(c) == Some(z) && Decode(d) == Some(w)
    ensures Decode(a + b + c + d) == Some(x + y + z + w)
  {
    DecodeConcat(a, b);
    DecodeConcat(a + b, c);
    DecodeConcat(a + b + c, d);
  }

  /** Every share of a job carries the job's height. */
  lemma HeightInShare(height: int, text: seq<byte>, nonces: seq<byte>, outputs: seq<CoinbaseOutput>)
    requires height < 0x8000_0000_0000_0000 && |text| + |nonces| + 10 < MAX_COUNT && Lengths(outputs)
    ensures var tx := Parse(Head(height, text, |nonces|) + nonces + Tail(outputs));
            && tx.Some? && |tx.value.inputs| == 1
            && ReadHeight(tx.value.inputs[0].scriptSig) == Some((if height < 0 then 0 else height, text + nonces))
  {
    HalvesWritten(height, text, nonces, outputs);
    ParseWritten(CoinbaseTx(HeightPush(height) + text + nonces, outputs));
    Assoc(HeightPush(height), text, nonces);
    HeightRoundTrip(height, text + nonces);
  }

  // ---- The witness form ----

  const RESERVED: seq<byte> := Blank(32)

  /** Marker and flag behind the version, one stack of one reserved value before the lock time. */
  function AddWitnessData(cb: seq<byte>): (r: seq<byte>) {
    if |cb| < 10 then cb
    else cb[..4] + [0, 1] + cb[4..|cb| - 4] + [1] + [0x20] + Blank(32) + cb[|cb| - 4..]
  }

  lemma PlainBytes(tx: Tx)
    requires Fits(tx) && tx.stacks.None?
    ensures WriteTx(tx)
            == LE(tx.version, 4) + (WriteList(tx.inputs, WriteInput) + WriteList(tx.outputs, WriteOutput)) + LE(tx.locktime, 4)
  {
    var v, l := LE(tx.version, 4), LE(tx.locktime, 4);
    var i, o := WriteList(tx.inputs, WriteInput), WriteList(tx.outputs, WriteOutput);
    assert [] + l == l && [] + (i + (o + l)) == i + (o + l);
  }

  lemma WitnessAdded(tx: Tx)
    requires Fits(tx) && |tx.inputs| == 1 && tx.stacks.None?
    ensures var whole := tx.(stacks := Some([[RESERVED]])); Fits(whole) && AddWitnessData(WriteTx(tx)) == WriteTx(whole)
  {
    var v, l := LE(tx.version, 4), LE(tx.locktime, 4);
    var i, o := WriteList(tx.inputs, WriteInput), WriteList(tx.outputs, WriteOutput);
    PlainBytes(tx);
    InputLong(tx.inputs);
    WitnessBytes(v, i + o, l);
    StackWritten();
    WitnessRegroup(v, i, o, [1] + [0x20] + Blank(32), l);
  }

  /** For any transaction of one input, the result is the same transaction with its witness: the fields, and so the bytes the
      transaction ID is taken from, are unchanged. */
  lemma WitnessForm(tx: Tx)
    requires Fits(tx) && |tx.inputs| == 1 && tx.stacks.None?
    ensures var whole := tx.(stacks := Some([[RESERVED]]));
            && Fits(whole) && AddWitnessData(WriteTx(tx)) == WriteTx(whole) && Parse(WriteTx(whole)) == Some(whole)
            && WriteTx(whole.(stacks := None)) == WriteTx(tx)
  {
    var whole := tx.(stacks := Some([[RESERVED]]));
    assert whole.(stacks := None) == tx;
    WitnessAdded(tx);
    ParseWritten(whole);
  }

  lemma WitnessBytes(v: seq<byte>, middle: seq<byte>, l: seq<byte>)
    requires |v| == 4 && |middle| >= 2 && |l| == 4
    ensures AddWitnessData(v + middle + l) == v + [0, 1] + middle + ([1] + [0x20] + Blank(32)) + l
  {
    var cb := v + middle + l;
    assert cb[..4] == v && cb[4..|cb| - 4] == middle && cb[|cb| - 4..] == l;
    assert v + [0, 1] + middle + [1] + [0x20] + Blank(32) + l == v + [0, 1] + middle + ([1] + [0x20] + Blank(32)) + l;
  }

  lemma WitnessRegroup(v: seq<byte>, i: seq<byte>, o: seq<byte>, w: seq<byte>, l: seq<byte>)
    ensures v + [0, 1] + (i + o) + w + l == v + ([0, 1] + (i + (o + (w + l))))
  {
    assert i + o + (w + l) == i + (o + (w + l));
  }

  lemma InputLong(inputs: seq<Input>)
    requires |inputs| == 1 && InputFits(inputs[0])
    ensures |WriteList(inputs, WriteInput)| >= 40
  {
    assert WriteMany(inputs, WriteInput) == WriteInput(inputs[0]) + WriteMany(inputs[1..], WriteInput);
  }

  lemma StackWritten()
    ensures StackFits([RESERVED]) && WriteMany([[RESERVED]], WriteStack) == [1] + [0x20] + Blank(32)
  {
    assert WriteMany([RESERVED], WriteBytes) == WriteBytes(RESERVED) + WriteMany([RESERVED][1..], WriteBytes);
    assert StackFits([RESERVED]);
    assert WriteMany([[RESERVED]], WriteStack) == WriteStack([RESERVED]) + WriteMany([[RESERVED]][1..], WriteStack);
    assert WriteStack([RESERVED]) == [1] + WriteBytes(RESERVED);
    assert WriteBytes(RESERVED) == [0x20] + Blank(32);
  }
}
