// The job IDs a mesh hands to miners: a prefix chosen at start, and a counter every connection shares.
module JobIds {
  import opened Hex

  /** A number in hex, with no leading zero. */
  function HexText(n: nat): (s: string)
    ensures s != ""
  {
    if n < 16 then [DIGITS[n]] else HexText(n / 16) + [DIGITS[n % 16]]
  }

  function JobId(epoch: string, n: nat): (id: string)
    ensures id != ""
  {
    epoch + HexText(n)
  }

  lemma {:induction false} HexTextValue(n: nat)
    ensures Value(HexText(n)) == Some(n)
  {
    DigitOf(n % 16);
    var s := HexText(n);
    if n < 16 {
      assert s[..0] == "";
    } else {
      HexTextValue(n / 16);
      OneMoreDigit(HexText(n / 16), n / 16, n % 16);
    }
  }

  lemma OneMoreDigit(s: string, hi: nat, lo: nat)
    requires Value(s) == Some(hi) && lo < 16
    ensures Value(s + [DIGITS[lo]]) == Some(16 * hi + lo)
  {
    DigitOf(lo);
    assert (s + [DIGITS[lo]])[..|s|] == s;
  }

  /** No two numbers of one start share an ID, and no ID is shared with another start of the engine. */
  lemma JobIdsDiffer(e1: string, n1: nat, e2: string, n2: nat)
    requires |e1| == |e2|
    ensures JobId(e1, n1) == JobId(e2, n2) <==> e1 == e2 && n1 == n2
  {
    if JobId(e1, n1) == JobId(e2, n2) {
      assert JobId(e1, n1)[..|e1|] == e1 && JobId(e2, n2)[..|e2|] == e2;
      assert JobId(e1, n1)[|e1|..] == HexText(n1) && JobId(e2, n2)[|e2|..] == HexText(n2);
      HexTextValue(n1);
      HexTextValue(n2);
    }
  }
}
