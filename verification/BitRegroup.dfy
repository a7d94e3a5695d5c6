// ConvertBits: regrouping a bit stream, with an accumulator that wraps at 64 bits.
module BitRegroup {
  import opened Arith
  import Bytes
  import opened Hex

  function Pow2(n: nat): (p: nat)
    ensures p >= 1
  {
    if n == 0 then 1 else 2 * Pow2(n - 1)
  }

  /** The `w` low-order bits of v, most significant first. */
  function Bits(v: nat, w: nat): (b: seq<bool>)
    ensures |b| == w
  {
    if w == 0 then [] else Bits(v / 2, w - 1) + [v % 2 == 1]
  }

  function Num(b: seq<bool>): nat {
    if b == [] then 0 else 2 * Num(b[..|b| - 1]) + (if b[|b| - 1] then 1 else 0)
  }

  function Stream(data: seq<nat>, w: nat): (s: seq<bool>) {
    if data == [] then [] else Stream(data[..|data| - 1], w) + Bits(data[|data| - 1], w)
  }

  /** Consecutive groups of `w` bits; an incomplete last group is dropped. */
  function Groups(s: seq<bool>, w: nat): (g: seq<nat>)
    requires w > 0
  {
    if |s| < w then [] else [Num(s[..w])] + Groups(s[w..], w)
  }

  function Falses(n: nat): (z: seq<bool>)
    ensures |z| == n && forall i :: 0 <= i < n ==> !z[i]
  {
    if n == 0 then [] else [false] + Falses(n - 1)
  }

  /** The bits left over once every complete group has been taken. */
  function Rest(s: seq<bool>, w: nat): (r: seq<bool>)
    requires w > 0
    ensures |r| < w && |r| <= |s|
  {
    if |s| < w then s else Rest(s[w..], w)
  }

  predicate AllBelow(data: seq<nat>, bound: nat) {
    forall i :: 0 <= i < |data| ==> data[i] < bound
  }

  /** Every group, the incomplete last one filled up with zeros. */
  function PaddedGroups(s: seq<bool>, w: nat): (g: seq<nat>)
    requires w > 0
  {
    var rest := Rest(s, w);
    Groups(s, w) + if rest == [] then [] else [Num(rest + Falses(w - |rest|))]
  }

  /** What ConvertBits computes, as a statement about the bit stream. */
  function Converted(data: seq<nat>, fromBits: nat, toBits: nat, pad: bool): Option<seq<nat>>
    requires toBits > 0
  {
    var s := Stream(data, fromBits);
    var rest := Rest(s, toBits);
    if !AllBelow(data, Pow2(fromBits)) then None
    else if pad then
      Some(PaddedGroups(s, toBits))
    else if |rest| >= fromBits || rest != Falses(|rest|) then None
    else Some(Groups(s, toBits))
  }

  // ---- Numbers and bits ----

  lemma {:induction false} NumBound(b: seq<bool>)
    ensures Num(b) < Pow2(|b|)
  {
    if b != [] {
      NumBound(b[..|b| - 1]);
    }
  }

  lemma {:induction false} NumConcat(a: seq<bool>, b: seq<bool>)
    ensures Num(a + b) == Num(a) * Pow2(|b|) + Num(b)
    decreases |b|
  {
    if b == [] {
      assert a + b == a;
    } else {
      var n := |b| - 1;
      NumConcat(a, b[..n]);
      assert (a + b)[..|a| + n] == a + b[..n];
      DoubleStep(Num(a), Pow2(n), Num(b[..n]));
    }
  }

  lemma DoubleStep(x: nat, p: nat, y: nat)
    ensures 2 * (x * p + y) == x * (2 * p) + 2 * y
  {
  }

  lemma {:induction false} NumOfBits(v: nat, w: nat)
    requires v < Pow2(w)
    ensures Num(Bits(v, w)) == v
  {
    if w > 0 {
      NumOfBits(v / 2, w - 1);
      assert Bits(v, w)[..w - 1] == Bits(v / 2, w - 1);
    }
  }

  lemma {:induction false} BitsOfNum(b: seq<bool>)
    ensures Bits(Num(b), |b|) == b
  {
    if b != [] {
      var n := |b| - 1;
      BitsOfNum(b[..n]);
      assert Num(b) / 2 == Num(b[..n]);
      assert b == b[..n] + [b[n]];
    }
  }

  lemma {:induction false} NumFalses(b: seq<bool>)
    ensures Num(b) == 0 <==> b == Falses(|b|)
  {
    if b != [] {
      var n := |b| - 1;
      NumFalses(b[..n]);
      if b == Falses(|b|) {
        assert b[..n] == Falses(n);
      }
    }
  }

  // ---- Streams and groups ----

  lemma {:induction false} GroupsSplit(s: seq<bool>, w: nat)
    requires w > 0
    ensures Stream(Groups(s, w), w) + Rest(s, w) == s
    decreases |s|
  {
    if |s| >= w {
      GroupsSplit(s[w..], w);
      StreamCons(Num(s[..w]), Groups(s[w..], w), w);
      BitsOfNum(s[..w]);
      Rejoin(s, w, Stream(Groups(s[w..], w), w), Rest(s[w..], w));
    }
  }

  lemma Rejoin(s: seq<bool>, w: nat, middle: seq<bool>, end: seq<bool>)
    requires w <= |s| && s[w..] == middle + end
    ensures s[..w] + middle + end == s
  {
  }

  lemma {:induction false} StreamCons(v: nat, data: seq<nat>, w: nat)
    ensures Stream([v] + data, w) == Bits(v, w) + Stream(data, w)
  {
    var all := [v] + data;
    if data == [] {
      assert all[..0] == [];
    } else {
      var n := |data| - 1;
      StreamCons(v, data[..n], w);
      assert all[..n + 1] == [v] + data[..n];
    }
  }

  lemma GroupsCons(v: nat, s: seq<bool>, w: nat)
    requires w > 0 && v < Pow2(w)
    ensures Groups(Bits(v, w) + s, w) == [v] + Groups(s, w)
    ensures Rest(Bits(v, w) + s, w) == Rest(s, w)
  {
    NumOfBits(v, w);
    var t := Bits(v, w) + s;
    assert t[..w] == Bits(v, w) && t[w..] == s;
  }

  lemma {:induction false} GroupsOfStream(data: seq<nat>, rest: seq<bool>, w: nat)
    requires w > 0 && |rest| < w && AllBelow(data, Pow2(w))
    ensures Groups(Stream(data, w) + rest, w) == data
    ensures Rest(Stream(data, w) + rest, w) == rest
  {
    if data == [] {
      assert Stream(data, w) + rest == rest;
    } else {
      var v, more := data[0], data[1..];
      GroupsOfStream(more, rest, w);
      assert data == [v] + more;
      StreamCons(v, more, w);
      Bytes.Assoc(Bits(v, w), Stream(more, w), rest);
      GroupsCons(v, Stream(more, w) + rest, w);
    }
  }

  lemma {:induction false} GroupsBelow(s: seq<bool>, w: nat)
    requires w > 0
    ensures AllBelow(Groups(s, w), Pow2(w))
    decreases |s|
  {
    if |s| >= w {
      NumBound(s[..w]);
      GroupsBelow(s[w..], w);
    }
  }

  /** Padded groups carry the whole stream, followed by fewer than `w` zeros. */
  lemma PaddedStream(s: seq<bool>, w: nat) returns (k: nat)
    requires w > 0
    ensures k < w && Stream(PaddedGroups(s, w), w) == s + Falses(k)
    ensures AllBelow(PaddedGroups(s, w), Pow2(w))
  {
    var g, rest := Groups(s, w), Rest(s, w);
    GroupsSplit(s, w);
    GroupsBelow(s, w);
    if rest == [] {
      k := 0;
      assert PaddedGroups(s, w) == g;
      assert Stream(g, w) + rest == s + Falses(0);
    } else {
      k := w - |rest|;
      assert PaddedGroups(s, w) == g + [Num(rest + Falses(k))];
      LastPadded(g, rest, w, k);
    }
  }

  lemma LastPadded(g: seq<nat>, rest: seq<bool>, w: nat, k: nat)
    requires |rest| + k == w && AllBelow(g, Pow2(w))
    ensures Stream(g + [Num(rest + Falses(k))], w) == Stream(g, w) + rest + Falses(k)
    ensures AllBelow(g + [Num(rest + Falses(k))], Pow2(w))
  {
    NumBound(rest + Falses(k));
    StreamSnoc(g, rest + Falses(k), w);
    assert Stream(g, w) + (rest + Falses(k)) == Stream(g, w) + rest + Falses(k);
  }

  lemma StreamSnoc(g: seq<nat>, last: seq<bool>, w: nat)
    requires |last| == w
    ensures Stream(g + [Num(last)], w) == Stream(g, w) + last
  {
    BitsOfNum(last);
    var out := g + [Num(last)];
    assert out[..|g|] == g;
  }

  /** Regrouping into smaller groups with padding and back without loses nothing. */
  lemma RegroupRoundTrip(data: seq<nat>, wide: nat, narrow: nat)
    requires 0 < narrow <= wide && AllBelow(data, Pow2(wide))
    ensures var out := Converted(data, wide, narrow, true);
            out.Some? && Converted(out.value, narrow, wide, false) == Some(data)
  {
    var k := PaddedStream(Stream(data, wide), narrow);
    GroupsOfStream(data, Falses(k), wide);
  }

  /** Whatever the unpadded conversion accepts, the padded one gives back. */
  lemma RegroupInverse(data: seq<nat>, narrow: nat, wide: nat)
    requires 0 < narrow <= wide
    requires Converted(data, narrow, wide, false).Some?
    ensures Converted(Converted(data, narrow, wide, false).value, wide, narrow, true) == Some(data)
  {
    var s := Stream(data, narrow);
    var out := Converted(data, narrow, wide, false).value;
    var rest := Rest(s, wide);
    GroupsSplit(s, wide);
    GroupsBelow(s, wide);
    var k := PaddedStream(Stream(out, wide), narrow);
    var back := PaddedGroups(Stream(out, wide), narrow);
    StreamLength(data, narrow);
    StreamLength(back, narrow);
    SameLength(|Stream(out, wide)|, |rest|, k, narrow, |data|, |back|);
    assert Stream(back, narrow) == s;
    GroupsOfStream(data, [], narrow);
    GroupsOfStream(back, [], narrow);
    assert s + [] == s;
  }

  lemma {:induction false} StreamLength(data: seq<nat>, w: nat)
    ensures |Stream(data, w)| == w * |data|
  {
    if data != [] {
      StreamLength(data[..|data| - 1], w);
      MulPlus(w, |data| - 1, 1);
    }
  }

  lemma SameLength(n: nat, r: nat, k: nat, w: nat, a: nat, b: nat)
    requires r < w && k < w && n + r == w * a && n + k == w * b
    ensures r == k
  {
    if a < b {
      MulLess(a, b, w);
    } else if b < a {
      MulLess(b, a, w);
    }
  }

  // ---- The loop ----

  const WORD: int := 0x1_0000_0000_0000_0000

  /** A 64-bit signed integer after overflow. */
  function Wrap64(x: int): (r: int)
    ensures -WORD / 2 <= r < WORD / 2
  {
    (x + WORD / 2) % WORD - WORD / 2
  }

  lemma {:induction false} Pow2Add(a: nat, b: nat)
    ensures Pow2(a + b) == Pow2(a) * Pow2(b)
  {
    if a > 0 {
      Pow2Add(a - 1, b);
      assert 2 * (Pow2(a - 1) * Pow2(b)) == 2 * Pow2(a - 1) * Pow2(b);
    }
  }

  lemma WordIsPow2()
    ensures Pow2(64) == WORD
  {
    assert Pow2(8) == 256;
    Doubles(8, 256);
    Doubles(16, 0x1_0000);
    Doubles(32, 0x1_0000_0000);
  }

  lemma Doubles(n: nat, p: nat)
    requires Pow2(n) == p
    ensures Pow2(n + n) == p * p
  {
    Pow2Add(n, n);
  }

  /** Wrapping at 64 bits does not disturb the low 64 bits. */
  lemma WrapKeepsLowBits(x: int, k: nat)
    requires k <= 64
    ensures Wrap64(x) % Pow2(k) == x % Pow2(k)
  {
    var h, m := Pow2(64 - k), Pow2(k);
    assert h * m == WORD by {
      WordIsPow2();
      Pow2Add(64 - k, k);
    }
    var t := (x + WORD / 2) / WORD;
    assert Wrap64(x) == x - WORD * t;
    MulAssoc(m, h, t);
    ModMinusMultiple(x, m, h * t);
  }

  lemma AppendMod(acc: int, low: nat, m: nat, e: nat, p: nat, shifted: int, value: nat)
    requires m > 0 && e > 0 && p == m * e > 0 && acc % m == low
    requires shifted % p == acc * e % p
    requires low * e + value < p
    ensures (shifted + value) % p == low * e + value
  {
    ModScale(acc, m, e);
    ModPlus(shifted, p, value);
  }

  lemma NumAppend(pending: seq<bool>, value: nat, w: nat)
    requires value < Pow2(w)
    ensures Num(pending + Bits(value, w)) == Num(pending) * Pow2(w) + value
  {
    NumOfBits(value, w);
    NumConcat(pending, Bits(value, w));
  }

  lemma NumBoundAs(b: seq<bool>, n: nat)
    requires |b| == n
    ensures Num(b) < Pow2(n)
  {
    NumBound(b);
  }

  /** Shifting a value in appends its bits to the pending ones. */
  lemma ShiftIn(acc: int, pending: seq<bool>, value: nat, w: nat)
    requires |pending| + w <= 64 && value < Pow2(w)
    requires acc % Pow2(|pending|) == Num(pending)
    ensures (Wrap64(acc * Pow2(w)) + value) % Pow2(|pending| + w) == Num(pending + Bits(value, w))
  {
    var n := |pending|;
    NumAppend(pending, value, w);
    NumBoundAs(pending + Bits(value, w), n + w);
    Pow2Add(n, w);
    WrapKeepsLowBits(acc * Pow2(w), n + w);
    AppendMod(acc, Num(pending), Pow2(n), Pow2(w), Pow2(n + w), Wrap64(acc * Pow2(w)), value);
  }

  /** Taking the top group off the pending bits. */
  lemma ShiftOut(acc: int, pending: seq<bool>, w: nat)
    requires w <= |pending| && acc % Pow2(|pending|) == Num(pending)
    ensures acc / Pow2(|pending| - w) % Pow2(w) == Num(pending[..w])
    ensures acc % Pow2(|pending| - w) == Num(pending[w..])
  {
    var n := |pending| - w;
    var a, b := Num(pending[..w]), Num(pending[w..]);
    assert Num(pending) == a * Pow2(n) + b by {
      assert pending == pending[..w] + pending[w..];
      NumConcat(pending[..w], pending[w..]);
    }
    NumBound(pending[..w]);
    NumBound(pending[w..]);
    Pow2Add(n, w);
    TopAndRest(acc, Pow2(n), Pow2(w), a, b);
  }

  lemma TopAndRest(acc: int, m: nat, e: nat, a: nat, b: nat)
    requires a < e && b < m && m * e > 0 && acc % (m * e) == a * m + b
    ensures acc / m % e == a && acc % m == b
  {
    assert a * m == m * a;
    ModSplit(acc, m, e, a, b);
  }

  /** Padding shifts the leftover bits up to the top of one more group. */
  lemma ShiftPad(acc: int, rest: seq<bool>, w: nat)
    requires |rest| < w <= 64 && acc % Pow2(|rest|) == Num(rest)
    ensures Wrap64(acc * Pow2(w - |rest|)) % Pow2(w) == Num(rest + Falses(w - |rest|))
  {
    var k := w - |rest|;
    NumFalses(Falses(k));
    NumBound(Falses(k));
    BitsOfNum(Falses(k));
    ShiftIn(acc, rest, 0, k);
  }

  lemma {:induction false} GroupsStep(s: seq<bool>, w: nat, more: seq<bool>)
    requires w > 0
    ensures Groups(s + more, w) == Groups(s, w) + Groups(Rest(s, w) + more, w)
    ensures Rest(s + more, w) == Rest(Rest(s, w) + more, w)
    decreases |s|
  {
    if |s| >= w {
      GroupsStep(s[w..], w, more);
      var t := s + more;
      assert t[..w] == s[..w] && t[w..] == s[w..] + more;
      InFront(Num(s[..w]), Groups(s[w..], w), Groups(Rest(s, w) + more, w));
    }
  }

  lemma InFront(x: nat, a: seq<nat>, b: seq<nat>)
    ensures [x] + (a + b) == [x] + a + b
  {
  }

  /** The inner loop: emit complete groups until fewer than `toBits` bits are pending. */
  method Drain(acc: int, bits: nat, toBits: nat, ghost pending: seq<bool>) returns (out: seq<nat>, left: nat)
    requires toBits > 0 && bits == |pending| && acc % Pow2(bits) == Num(pending)
    ensures out == Groups(pending, toBits)
    ensures left == |Rest(pending, toBits)| && acc % Pow2(left) == Num(Rest(pending, toBits))
  {
    out, left := [], bits;
    ghost var p := pending;
    while left >= toBits
      invariant left == |p| && acc % Pow2(left) == Num(p)
      invariant out + Groups(p, toBits) == Groups(pending, toBits)
      invariant Rest(p, toBits) == Rest(pending, toBits)
    {
      ShiftOut(acc, p, toBits);
      left := left - toBits;
      out := out + [acc / Pow2(left) % Pow2(toBits)];
      p := p[toBits..];
    }
    assert out + [] == out;
  }

  predicate NonNegative(data: seq<int>) {
    forall i :: 0 <= i < |data| ==> data[i] >= 0
  }

  /** After the last value: pad the leftover bits, or insist that they are short and zero. */
  method Finish(acc: int, bits: nat, ret: seq<nat>, fromBits: nat, toBits: nat, pad: bool, ghost rest: seq<bool>)
    returns (r: Option<seq<nat>>)
    requires |rest| == bits < toBits <= 64 && acc % Pow2(bits) == Num(rest)
    ensures r == if pad then Some(ret + if rest == [] then [] else [Num(rest + Falses(toBits - bits))])
                 else if bits >= fromBits || rest != Falses(bits) then None
                 else Some(ret)
  {
    ghost var k := toBits - bits;
    var top := Wrap64(acc * Pow2(toBits - bits)) % Pow2(toBits);
    assert top == Num(rest + Falses(k)) by { ShiftPad(acc, rest, toBits); }
    assert top == 0 <==> rest == Falses(bits) by {
      NumFalses(rest + Falses(k));
      PaddedZero(rest, k);
    }
    assert ret + [] == ret;
    if pad {
      r := Some(if bits > 0 then ret + [top] else ret);
    } else if bits >= fromBits || top != 0 {
      r := None;
    } else {
      r := Some(ret);
    }
  }

  /** One value shifted in, and the groups that makes shifted out. */
  method Feed(acc: int, bits: nat, value: nat, fromBits: nat, toBits: nat, ghost pending: seq<bool>)
    returns (fed: int, out: seq<nat>, left: nat)
    requires toBits > 0 && fromBits + toBits <= 64 && value < Pow2(fromBits)
    requires bits == |pending| < toBits && acc % Pow2(bits) == Num(pending)
    ensures var all := pending + Bits(value, fromBits);
            && out == Groups(all, toBits)
            && left == |Rest(all, toBits)| && fed % Pow2(left) == Num(Rest(all, toBits))
  {
    ShiftIn(acc, pending, value, fromBits);
    fed := Wrap64(acc * Pow2(fromBits)) + value;
    out, left := Drain(fed, bits + fromBits, toBits, pending + Bits(value, fromBits));
  }

  /** The loop's state after some values: the complete groups, and the bits left over at the bottom of the accumulator. */
  ghost predicate After(seen: seq<nat>, fromBits: nat, toBits: nat, acc: int, bits: nat, ret: seq<nat>)
    requires toBits > 0
  {
    var s := Stream(seen, fromBits);
    && AllBelow(seen, Pow2(fromBits)) && ret == Groups(s, toBits)
    && bits == |Rest(s, toBits)| && acc % Pow2(bits) == Num(Rest(s, toBits))
  }

  lemma AfterOne(seen: seq<nat>, fromBits: nat, toBits: nat, ret: seq<nat>, value: nat, out: seq<nat>, acc: int, bits: nat)
    requires toBits > 0 && AllBelow(seen, Pow2(fromBits)) && value < Pow2(fromBits)
    requires ret == Groups(Stream(seen, fromBits), toBits)
    requires var all := Rest(Stream(seen, fromBits), toBits) + Bits(value, fromBits);
             out == Groups(all, toBits) && bits == |Rest(all, toBits)| && acc % Pow2(bits) == Num(Rest(all, toBits))
    ensures After(seen + [value], fromBits, toBits, acc, bits, ret + out)
  {
    var next := seen + [value];
    assert next[..|seen|] == seen;
    GroupsStep(Stream(seen, fromBits), toBits, Bits(value, fromBits));
  }

  /** The loop over the values; it stops at one out of range. */
  method FeedAll(data: seq<int>, fromBits: nat, toBits: nat) returns (ok: bool, acc: int, bits: nat, ret: seq<nat>)
    requires fromBits > 0 && toBits > 0 && fromBits + toBits <= 64
    ensures ok ==> NonNegative(data) && After(data, fromBits, toBits, acc, bits, ret)
    ensures !ok && NonNegative(data) ==> !AllBelow(data, Pow2(fromBits))
  {
    acc, bits, ret := 0, 0, [];
    ghost var seen: seq<nat> := [];
    for i := 0 to |data|
      invariant seen == data[..i] && After(seen, fromBits, toBits, acc, bits, ret)
    {
      var value := data[i];
      if value < 0 || value >= Pow2(fromBits) {
        ok := false;
        return;
      }
      var out;
      acc, out, bits := Feed(acc, bits, value, fromBits, toBits, Rest(Stream(seen, fromBits), toBits));
      AfterOne(seen, fromBits, toBits, ret, value, out, acc, bits);
      ret := ret + out;
      seen := seen + [value as nat];
    }
    assert seen == data;
    ok := true;
  }

  method ConvertBits(data: seq<int>, fromBits: nat, toBits: nat, pad: bool) returns (r: Option<seq<nat>>)
    requires fromBits > 0 && toBits > 0 && fromBits + toBits <= 64
    ensures !NonNegative(data) ==> r == None
    ensures NonNegative(data) ==> r == Converted(data, fromBits, toBits, pad)
  {
    var ok, acc, bits, ret := FeedAll(data, fromBits, toBits);
    if !ok {
      return None;
    }
    r := Finish(acc, bits, ret, fromBits, toBits, pad, Rest(Stream(data, fromBits), toBits));
  }

  lemma PaddedZero(rest: seq<bool>, k: nat)
    ensures rest + Falses(k) == Falses(|rest| + k) <==> rest == Falses(|rest|)
  {
    if rest + Falses(k) == Falses(|rest| + k) {
      assert forall i :: 0 <= i < |rest| ==> rest[i] == (rest + Falses(k))[i];
    }
  }
}
