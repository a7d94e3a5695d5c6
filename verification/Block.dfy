// The block handed to the node: header, transaction count, the share's coinbase with its witness, the template's transactions.
module Block {
  import opened Bytes
  import opened Hex
  import opened Transaction
  import opened Coinbase

  /** The bytes of some hex texts, one after the other; None when one is no hex. */
  function Joined(texts: seq<string>): Option<seq<byte>> {
    if texts == [] then Some([])
    else
      match (Joined(texts[..|texts| - 1]), Decode(texts[|texts| - 1]))
      case (Some(front), Some(last)) => Some(front + last)
      case _ => None
  }

  function CoinbasePart(cb: seq<byte>, commitment: string): seq<byte> {
    if commitment != "" then AddWitnessData(cb) else cb
  }

  method BuildBlock(header: seq<byte>, coinbaseTx: seq<byte>, commitment: string, transactions: seq<string>)
    returns (r: Option<string>)
    requires |transactions| + 1 < MAX_COUNT
    ensures r == match Joined(transactions)
                 case None => None
                 case Some(rest) =>
                   Some(Encode(header + SerializeVarInt(|transactions| + 1) + CoinbasePart(coinbaseTx, commitment) + rest))
  {
    var cb := coinbaseTx;
    if commitment != "" {
      cb := AddWitnessData(cb);
    }
    var front := header + SerializeVarInt(|transactions| + 1) + cb;
    var rest := [];
    for i := 0 to |transactions|
      invariant Joined(transactions[..i]) == Some(rest)
    {
      assert transactions[..i + 1][..i] == transactions[..i];
      var data := Decode(transactions[i]);
      if data.None? {
        JoinedFails(transactions, i + 1);
        return None;
      }
      rest := rest + data.value;
    }
    assert transactions[..|transactions|] == transactions;
    r := Hexed(front + rest);
  }

  method Hexed(b: seq<byte>) returns (r: Option<string>)
    ensures r == Some(Encode(b))
  {
    r := Some(Encode(b));
  }

  lemma {:induction false} JoinedFails(texts: seq<string>, k: nat)
    requires k <= |texts| && Joined(texts[..k]).None?
    ensures Joined(texts).None?
  {
    if k == |texts| {
      assert texts[..k] == texts;
    } else {
      var n := |texts| - 1;
      assert texts[..n][..k] == texts[..k];
      JoinedFails(texts[..n], k);
    }
  }

  /** What a node reads in a block: the header, how many transactions, the first of them, and the rest. */
  function ReadBlock(header: nat, block: seq<byte>): Option<(seq<byte>, nat, Tx, seq<byte>)> {
    match Take(block, header)
    case None => None
    case Some((h, d1)) =>
      match ReadCount(d1)
      case None => None
      case Some((n, d2)) =>
        match ReadTx(d2)
        case None => None
        case Some((tx, rest)) => Some((h, n, tx, rest))
  }

  /** A block reads as the share's header, one transaction more than the template's, the share's own coinbase - with a witness
      exactly when the template commits to one - and the template's transactions. */
  lemma BlockReads(header: seq<byte>, tx: Tx, commitment: string, count: nat, rest: seq<byte>)
    requires count < MAX_COUNT && Fits(tx) && |tx.inputs| == 1 && tx.stacks.None?
    ensures var block := header + SerializeVarInt(count) + CoinbasePart(WriteTx(tx), commitment) + rest;
            var carried := if commitment != "" then tx.(stacks := Some([[RESERVED]])) else tx;
            ReadBlock(|header|, block) == Some((header, count, carried, rest))
  {
    var carried := if commitment != "" then tx.(stacks := Some([[RESERVED]])) else tx;
    WitnessForm(tx);
    Reads(header, count, carried, rest, CoinbasePart(WriteTx(tx), commitment));
  }

  lemma Reads(header: seq<byte>, count: nat, tx: Tx, rest: seq<byte>, cb: seq<byte>)
    requires count < MAX_COUNT && Fits(tx) && cb == WriteTx(tx)
    ensures ReadBlock(|header|, header + SerializeVarInt(count) + cb + rest) == Some((header, count, tx, rest))
  {
    Nest(header, SerializeVarInt(count), cb, rest);
    TakeBack(header, SerializeVarInt(count) + (cb + rest));
    CountBack(count, cb + rest);
    TxRoundTrip(tx, rest);
  }

  lemma Nest<T>(a: seq<T>, b: seq<T>, c: seq<T>, d: seq<T>)
    ensures a + b + c + d == a + (b + (c + d))
  {
  }
}
