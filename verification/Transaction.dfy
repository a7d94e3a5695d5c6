// Transactions on the wire: a reader for the format of BIP144, a writer, and their round trip.
module Transaction {
  import opened Bytes
  import opened Hex

  const MAX_COUNT := 0x1_0000_0000_0000_0000

  datatype Input = Input(prevHash: seq<byte>, prevIndex: nat, scriptSig: seq<byte>, sequence: nat)

  datatype Output = Output(value: nat, script: seq<byte>)

  /** A transaction; the witness has one stack for each input, when there is one. */
  datatype Tx = Tx(version: nat, inputs: seq<Input>, outputs: seq<Output>, stacks: Option<seq<seq<seq<byte>>>>, locktime: nat)

  // ---- Counts ----

  /** The variable-length form of a 64-bit number. */
  function SerializeVarInt(n: nat): (b: seq<byte>)
    requires n < MAX_COUNT
    ensures |b| > 0
  {
    if n < 0xFD then [n]
    else if n <= 0xFFFF then [0xFD] + LE(n, 2)
    else if n <= 0xFFFF_FFFF then [0xFE] + LE(n, 4)
    else [0xFF] + LE(n, 8)
  }

  /** The number at the front of some data and how many bytes it took; a number cut short reads as 0. */
  function ReadVarInt(data: seq<byte>): (r: (nat, nat)) {
    if data == [] then (0, 0)
    else if data[0] < 0xFD then (data[0], 1)
    else if data[0] == 0xFD then if |data| < 3 then (0, 1) else (FromLE(data[1..3]), 3)
    else if data[0] == 0xFE then if |data| < 5 then (0, 1) else (FromLE(data[1..5]), 5)
    else if |data| < 9 then (0, 1)
    else (FromLE(data[1..9]), 9)
  }

  lemma Widths()
    ensures Pow256(2) == 0x1_0000 && Pow256(4) == 0x1_0000_0000 && Pow256(8) == MAX_COUNT
  {
    assert Pow256(1) == 256 && Pow256(3) == 0x100_0000 && Pow256(5) == 0x100_0000_0000;
    assert Pow256(6) == 0x1_0000_0000_0000 && Pow256(7) == 0x100_0000_0000_0000;
  }

  lemma LEBack(n: nat, k: nat)
    requires n < Pow256(k)
    ensures FromLE(LE(n, k)) == n
  {
    LERoundTrip(n, k);
  }

  /** Reading back gives the number and its width, whatever follows. */
  lemma VarIntRoundTrip(n: nat, rest: seq<byte>)
    requires n < MAX_COUNT
    ensures ReadVarInt(SerializeVarInt(n) + rest) == (n, |SerializeVarInt(n)|)
  {
    Widths();
    var b := SerializeVarInt(n);
    if n >= 0xFD {
      var k := |b| - 1;
      LEBack(n, k);
      assert (b + rest)[1..k + 1] == LE(n, k);
    }
  }

  // ---- The reader ----

  type Read<T> = Option<(T, seq<byte>)>

  function Take(d: seq<byte>, n: nat): (r: Read<seq<byte>>)
    ensures r.Some? ==> |r.value.0| == n
  {
    if |d| < n then None else Some((d[..n], d[n..]))
  }

  function ReadNumber(d: seq<byte>, k: nat): Read<nat> {
    match Take(d, k)
    case None => None
    case Some((b, rest)) => Some((FromLE(b), rest))
  }

  function ReadCount(d: seq<byte>): Read<nat> {
    if d == [] then None
    else if d[0] < 0xFD then Some((d[0], d[1..]))
    else ReadNumber(d[1..], if d[0] == 0xFD then 2 else if d[0] == 0xFE then 4 else 8)
  }

  /** The two readers agree: the same number and width when it is all there, and 0 when it is cut short. */
  lemma ReadersAgree(d: seq<byte>)
    ensures match ReadCount(d)
            case None => ReadVarInt(d).0 == 0
            case Some((n, rest)) => ReadVarInt(d) == (n, |d| - |rest|)
  {
    if d != [] && d[0] >= 0xFD {
      var k := if d[0] == 0xFD then 2 else if d[0] == 0xFE then 4 else 8;
      if |d| >= k + 1 {
        assert d[1..][..k] == d[1..k + 1];
      }
    }
  }

  /** A byte string behind its length. */
  function ReadBytes(d: seq<byte>): Read<seq<byte>> {
    match ReadCount(d)
    case None => None
    case Some((n, rest)) => Take(rest, n)
  }

  function ReadInput(d: seq<byte>): Read<Input> {
    match Take(d, 32)
    case None => None
    case Some((hash, d1)) =>
      match ReadNumber(d1, 4)
      case None => None
      case Some((index, d2)) =>
        match ReadBytes(d2)
        case None => None
        case Some((script, d3)) =>
          match ReadNumber(d3, 4)
          case None => None
          case Some((sequence, d4)) => Some((Input(hash, index, script, sequence), d4))
  }

  function ReadOutput(d: seq<byte>): Read<Output> {
    match ReadNumber(d, 8)
    case None => None
    case Some((value, d1)) =>
      match ReadBytes(d1)
      case None => None
      case Some((script, d2)) => Some((Output(value, script), d2))
  }

  /** `n` items one after the other. */
  function ReadMany<T>(n: nat, d: seq<byte>, item: seq<byte> -> Read<T>): (r: Read<seq<T>>)
    ensures r.Some? ==> |r.value.0| == n
    decreases n
  {
    if n == 0 then Some(([], d))
    else
      match item(d)
      case None => None
      case Some((x, d1)) =>
        match ReadMany(n - 1, d1, item)
        case None => None
        case Some((xs, d2)) => Some(([x] + xs, d2))
  }

  /** Items behind their count. */
  function ReadList<T>(d: seq<byte>, item: seq<byte> -> Read<T>): Read<seq<T>> {
    match ReadCount(d)
    case None => None
    case Some((n, rest)) => ReadMany(n, rest, item)
  }

  function ReadStack(d: seq<byte>): Read<seq<seq<byte>>> {
    ReadList(d, ReadBytes)
  }

  function ReadWitness(marked: bool, inputs: nat, d: seq<byte>): Read<Option<seq<seq<seq<byte>>>>> {
    if !marked then Some((None, d))
    else
      match ReadMany(inputs, d, ReadStack)
      case None => None
      case Some((w, rest)) => Some((Some(w), rest))
  }

  /** The marker and flag, whose place no input count of 0 can take. */
  predicate Marked(d: seq<byte>) {
    |d| >= 2 && d[0] == 0 && d[1] == 1
  }

  /** The transaction at the front of some data. */
  function ReadTx(d: seq<byte>): Read<Tx> {
    match ReadNumber(d, 4)
    case None => None
    case Some((version, d1)) =>
      var marked := Marked(d1);
      match ReadList(if marked then d1[2..] else d1, ReadInput)
      case None => None
      case Some((inputs, d2)) =>
        match ReadList(d2, ReadOutput)
        case None => None
        case Some((outputs, d3)) =>
          match ReadWitness(marked, |inputs|, d3)
          case None => None
          case Some((stacks, d4)) =>
            match ReadNumber(d4, 4)
            case None => None
            case Some((locktime, d5)) => Some((Tx(version, inputs, outputs, stacks, locktime), d5))
  }

  /** The transaction some data is. */
  function Parse(d: seq<byte>): Option<Tx> {
    match ReadTx(d)
    case None => None
    case Some((tx, rest)) => if rest == [] then Some(tx) else None
  }

  // ---- The writer ----

  function WriteBytes(b: seq<byte>): seq<byte>
    requires |b| < MAX_COUNT
  {
    SerializeVarInt(|b|) + b
  }

  function WriteInput(i: Input): seq<byte>
    requires InputFits(i)
  {
    i.prevHash + LE(i.prevIndex, 4) + WriteBytes(i.scriptSig) + LE(i.sequence, 4)
  }

  function WriteOutput(o: Output): seq<byte>
    requires OutputFits(o)
  {
    LE(o.value, 8) + WriteBytes(o.script)
  }

  function WriteMany<T>(xs: seq<T>, item: T --> seq<byte>): seq<byte>
    requires forall x :: x in xs ==> item.requires(x)
  {
    if xs == [] then [] else item(xs[0]) + WriteMany(xs[1..], item)
  }

  function WriteList<T>(xs: seq<T>, item: T --> seq<byte>): seq<byte>
    requires |xs| < MAX_COUNT && forall x :: x in xs ==> item.requires(x)
  {
    SerializeVarInt(|xs|) + WriteMany(xs, item)
  }

  function WriteStack(stack: seq<seq<byte>>): seq<byte>
    requires StackFits(stack)
  {
    WriteList(stack, WriteBytes)
  }

  function WriteTx(tx: Tx): seq<byte>
    requires Fits(tx)
  {
    LE(tx.version, 4)
    + ((if tx.stacks.Some? then [0, 1] else [])
       + (WriteList(tx.inputs, WriteInput)
          + (WriteList(tx.outputs, WriteOutput)
             + ((if tx.stacks.Some? then WriteMany(tx.stacks.value, WriteStack) else [])
                + LE(tx.locktime, 4)))))
  }

  // Numbers within their fields.

  predicate InputFits(i: Input) {
    && |i.prevHash| == 32 && i.prevIndex < 0x1_0000_0000 && |i.scriptSig| < MAX_COUNT && i.sequence < 0x1_0000_0000
  }

  predicate OutputFits(o: Output) {
    o.value < MAX_COUNT && |o.script| < MAX_COUNT
  }

  predicate StackFits(stack: seq<seq<byte>>) {
    |stack| < MAX_COUNT && forall b :: b in stack ==> |b| < MAX_COUNT
  }

  predicate Fits(tx: Tx) {
    && tx.version < 0x1_0000_0000 && tx.locktime < 0x1_0000_0000
    && 0 < |tx.inputs| < MAX_COUNT && (forall i :: i in tx.inputs ==> InputFits(i))
    && |tx.outputs| < MAX_COUNT && (forall o :: o in tx.outputs ==> OutputFits(o))
    && (tx.stacks.Some? ==>
          |tx.stacks.value| == |tx.inputs| && forall stack :: stack in tx.stacks.value ==> StackFits(stack))
  }

  // ---- The round trip ----

  lemma TakeBack(b: seq<byte>, rest: seq<byte>)
    ensures Take(b + rest, |b|) == Some((b, rest))
  {
    assert (b + rest)[..|b|] == b && (b + rest)[|b|..] == rest;
  }

  lemma NumberBack(n: nat, k: nat, rest: seq<byte>)
    requires n < Pow256(k)
    ensures ReadNumber(LE(n, k) + rest, k) == Some((n, rest))
  {
    TakeBack(LE(n, k), rest);
    LEBack(n, k);
  }

  lemma CountBack(n: nat, rest: seq<byte>)
    requires n < MAX_COUNT
    ensures ReadCount(SerializeVarInt(n) + rest) == Some((n, rest))
  {
    Widths();
    var b := SerializeVarInt(n);
    if n < 0xFD {
      assert (b + rest)[1..] == rest;
    } else {
      var k := |b| - 1;
      assert (b + rest)[1..] == LE(n, k) + rest;
      NumberBack(n, k, rest);
    }
  }

  lemma BytesBack(b: seq<byte>, rest: seq<byte>)
    requires |b| < MAX_COUNT
    ensures ReadBytes(WriteBytes(b) + rest) == Some((b, rest))
  {
    assert WriteBytes(b) + rest == SerializeVarInt(|b|) + (b + rest);
    CountBack(|b|, b + rest);
    TakeBack(b, rest);
  }

  lemma InputBack(i: Input, rest: seq<byte>)
    requires InputFits(i)
    ensures ReadInput(WriteInput(i) + rest) == Some((i, rest))
  {
    Widths();
    var d3 := LE(i.sequence, 4) + rest;
    var d2 := WriteBytes(i.scriptSig) + d3;
    var d1 := LE(i.prevIndex, 4) + d2;
    assert WriteInput(i) + rest == i.prevHash + d1;
    TakeBack(i.prevHash, d1);
    NumberBack(i.prevIndex, 4, d2);
    BytesBack(i.scriptSig, d3);
    NumberBack(i.sequence, 4, rest);
  }

  lemma OutputBack(o: Output, rest: seq<byte>)
    requires OutputFits(o)
    ensures ReadOutput(WriteOutput(o) + rest) == Some((o, rest))
  {
    Widths();
    assert WriteOutput(o) + rest == LE(o.value, 8) + (WriteBytes(o.script) + rest);
    NumberBack(o.value, 8, WriteBytes(o.script) + rest);
    BytesBack(o.script, rest);
  }

  /** What reads one item back reads many back. */
  ghost predicate Backs<T(!new)>(write: T --> seq<byte>, read: seq<byte> -> Read<T>) {
    forall x, rest | write.requires(x) :: read(write(x) + rest) == Some((x, rest))
  }

  lemma {:induction false} ManyBack<T(!new)>(xs: seq<T>, write: T --> seq<byte>, read: seq<byte> -> Read<T>, rest: seq<byte>)
    requires Backs(write, read) && forall x :: x in xs ==> write.requires(x)
    ensures ReadMany(|xs|, WriteMany(xs, write) + rest, read) == Some((xs, rest))
  {
    if xs == [] {
      assert WriteMany(xs, write) + rest == rest;
    } else {
      var more := WriteMany(xs[1..], write) + rest;
      assert WriteMany(xs, write) + rest == write(xs[0]) + more;
      ManyBack(xs[1..], write, read, rest);
      assert [xs[0]] + xs[1..] == xs;
    }
  }

  lemma ListBack<T(!new)>(xs: seq<T>, write: T --> seq<byte>, read: seq<byte> -> Read<T>, rest: seq<byte>)
    requires Backs(write, read) && |xs| < MAX_COUNT && forall x :: x in xs ==> write.requires(x)
    ensures ReadList(WriteList(xs, write) + rest, read) == Some((xs, rest))
  {
    assert WriteList(xs, write) + rest == SerializeVarInt(|xs|) + (WriteMany(xs, write) + rest);
    CountBack(|xs|, WriteMany(xs, write) + rest);
    ManyBack(xs, write, read, rest);
  }

  lemma ItemsBack()
    ensures Backs(WriteInput, ReadInput) && Backs(WriteOutput, ReadOutput)
    ensures Backs(WriteBytes, ReadBytes)
  {
    forall i, rest | InputFits(i)
      ensures ReadInput(WriteInput(i) + rest) == Some((i, rest))
    {
      InputBack(i, rest);
    }
    forall o, rest | OutputFits(o)
      ensures ReadOutput(WriteOutput(o) + rest) == Some((o, rest))
    {
      OutputBack(o, rest);
    }
    forall b: seq<byte>, rest | |b| < MAX_COUNT
      ensures ReadBytes(WriteBytes(b) + rest) == Some((b, rest))
    {
      BytesBack(b, rest);
    }
  }

  lemma StacksBack()
    ensures Backs(WriteStack, ReadStack)
  {
    ItemsBack();
    forall stack, rest | StackFits(stack)
      ensures ReadStack(WriteStack(stack) + rest) == Some((stack, rest))
    {
      ListBack(stack, WriteBytes, ReadBytes, rest);
    }
  }

  lemma WitnessBack(w: Option<seq<seq<seq<byte>>>>, inputs: nat, rest: seq<byte>)
    requires w.Some? ==> |w.value| == inputs && forall stack :: stack in w.value ==> StackFits(stack)
    ensures ReadWitness(w.Some?, inputs, (if w.Some? then WriteMany(w.value, WriteStack) else []) + rest) == Some((w, rest))
  {
    if w.Some? {
      StacksBack();
      ManyBack(w.value, WriteStack, ReadStack, rest);
    } else {
      assert [] + rest == rest;
    }
  }

  /** Where the input count stands, no marker can be seen without one. */
  lemma MarkerShows(marked: bool, inputs: seq<Input>, rest: seq<byte>)
    requires 0 < |inputs| < MAX_COUNT && forall i :: i in inputs ==> InputFits(i)
    ensures var d := (if marked then [0, 1] else []) + (WriteList(inputs, WriteInput) + rest);
            && Marked(d) == marked
            && (if marked then d[2..] else d) == WriteList(inputs, WriteInput) + rest
  {
    var list := WriteList(inputs, WriteInput);
    assert list[0] == SerializeVarInt(|inputs|)[0] != 0;
    assert [] + (list + rest) == list + rest;
    assert ([0, 1] + (list + rest))[2..] == list + rest;
  }

  /** Every transaction is read back whole from its bytes, with or without a witness, whatever follows it. */
  lemma TxRoundTrip(tx: Tx, rest: seq<byte>)
    requires Fits(tx)
    ensures ReadTx(WriteTx(tx) + rest) == Some((tx, rest))
  {
    Widths();
    ItemsBack();
    var d5 := LE(tx.locktime, 4) + rest;
    var d4 := (if tx.stacks.Some? then WriteMany(tx.stacks.value, WriteStack) else []) + d5;
    var d3 := WriteList(tx.outputs, WriteOutput) + d4;
    var d2 := WriteList(tx.inputs, WriteInput) + d3;
    var d1 := (if tx.stacks.Some? then [0, 1] else []) + d2;
    Nested(tx, rest);
    NumberBack(tx.version, 4, d1);
    MarkerShows(tx.stacks.Some?, tx.inputs, d3);
    ListBack(tx.inputs, WriteInput, ReadInput, d3);
    ListBack(tx.outputs, WriteOutput, ReadOutput, d4);
    WitnessBack(tx.stacks, |tx.inputs|, d5);
    NumberBack(tx.locktime, 4, rest);
  }

  lemma Nested(tx: Tx, rest: seq<byte>)
    requires Fits(tx)
    ensures WriteTx(tx) + rest
         == LE(tx.version, 4)
            + ((if tx.stacks.Some? then [0, 1] else [])
               + (WriteList(tx.inputs, WriteInput)
                  + (WriteList(tx.outputs, WriteOutput)
                     + ((if tx.stacks.Some? then WriteMany(tx.stacks.value, WriteStack) else [])
                        + (LE(tx.locktime, 4) + rest)))))
  {
    var v, m, i := LE(tx.version, 4), (if tx.stacks.Some? then [0, 1] else []), WriteList(tx.inputs, WriteInput);
    var o, w := WriteList(tx.outputs, WriteOutput), (if tx.stacks.Some? then WriteMany(tx.stacks.value, WriteStack) else []);
    FiveThenRest(v, m, i, o, w, LE(tx.locktime, 4), rest);
  }

  lemma FiveThenRest(v: seq<byte>, m: seq<byte>, i: seq<byte>, o: seq<byte>, w: seq<byte>, l: seq<byte>, rest: seq<byte>)
    ensures v + (m + (i + (o + (w + l)))) + rest == v + (m + (i + (o + (w + (l + rest)))))
  {
    assert (w + l) + rest == w + (l + rest);
    assert (o + (w + l)) + rest == o + ((w + l) + rest);
    assert (i + (o + (w + l))) + rest == i + ((o + (w + l)) + rest);
    assert (m + (i + (o + (w + l)))) + rest == m + ((i + (o + (w + l))) + rest);
  }

  lemma ParseWritten(tx: Tx)
    requires Fits(tx)
    ensures Parse(WriteTx(tx)) == Some(tx)
  {
    TxRoundTrip(tx, []);
    assert WriteTx(tx) + [] == WriteTx(tx);
  }
}
