// Registers fed one symbol at a time by a step that is linear in both arguments.
module LinearCode {
  function Run<R, S>(step: (R, S) -> R, c: R, vs: seq<S>): R
    decreases |vs|
  {
    if vs == [] then c else Run(step, step(c, vs[0]), vs[1..])
  }

  function Zip<S>(xor: (S, S) -> S, a: seq<S>, b: seq<S>): (r: seq<S>)
    requires |a| == |b|
    ensures |r| == |a|
    ensures forall i :: 0 <= i < |a| ==> r[i] == xor(a[i], b[i])
  {
    if a == [] then [] else [xor(a[0], b[0])] + Zip(xor, a[1..], b[1..])
  }

  predicate All<S(==)>(e: seq<S>, zero: S) {
    forall i :: 0 <= i < |e| ==> e[i] == zero
  }

  ghost predicate Linear<R(!new), S(!new)>(step: (R, S) -> R, xorR: (R, R) -> R, xorS: (S, S) -> S) {
    forall c, d, v, w :: step(xorR(c, d), xorS(v, w)) == xorR(step(c, v), step(d, w))
  }

  // ---- Where linearity comes from ----

  ghost predicate Associative<T(!new)>(op: (T, T) -> T) {
    forall a, b, c :: op(op(a, b), c) == op(a, op(b, c))
  }

  ghost predicate Commutative<T(!new)>(op: (T, T) -> T) {
    forall a, b :: op(a, b) == op(b, a)
  }

  /** The function respects the addition of one element to any other. */
  ghost predicate Adds<S(!new), R>(f: S -> R, opS: (S, S) -> S, opR: (R, R) -> R, k: S) {
    forall x :: f(opS(k, x)) == opR(f(k), f(x))
  }

  ghost predicate Additive<S(!new), R>(f: S -> R, opS: (S, S) -> S, opR: (R, R) -> R) {
    forall k :: Adds(f, opS, opR, k)
  }

  function Total<S>(op: (S, S) -> S, ks: seq<S>): S
    requires ks != []
  {
    if |ks| == 1 then ks[0] else op(Total(op, ks[..|ks| - 1]), ks[|ks| - 1])
  }

  lemma BothAdd<S(!new), R(!new)>(f: S -> R, opS: (S, S) -> S, opR: (R, R) -> R, k: S, l: S)
    requires Associative(opS) && Associative(opR) && Adds(f, opS, opR, k) && Adds(f, opS, opR, l)
    ensures Adds(f, opS, opR, opS(k, l))
  {
    forall x
      ensures f(opS(opS(k, l), x)) == opR(f(opS(k, l)), f(x))
    {
      assert opS(opS(k, l), x) == opS(k, opS(l, x));
      assert opR(opR(f(k), f(l)), f(x)) == opR(f(k), opR(f(l), f(x)));
    }
  }

  /** What respects the addition of some elements respects that of their total. */
  lemma {:induction false} TotalAdds<S(!new), R(!new)>(f: S -> R, opS: (S, S) -> S, opR: (R, R) -> R, ks: seq<S>)
    requires Associative(opS) && Associative(opR) && ks != []
    requires forall i :: 0 <= i < |ks| ==> Adds(f, opS, opR, ks[i])
    ensures Adds(f, opS, opR, Total(opS, ks))
  {
    if |ks| > 1 {
      var n := |ks| - 1;
      TotalAdds(f, opS, opR, ks[..n]);
      BothAdd(f, opS, opR, Total(opS, ks[..n]), ks[n]);
    }
  }

  lemma Exchange<R(!new)>(op: (R, R) -> R, a: R, b: R, c: R, d: R)
    requires Associative(op) && Commutative(op)
    ensures op(op(a, b), op(c, d)) == op(op(a, c), op(b, d))
  {
    assert op(op(a, b), op(c, d)) == op(a, op(b, op(c, d)));
    assert op(b, op(c, d)) == op(op(b, c), d) == op(op(c, b), d) == op(c, op(b, d));
    assert op(a, op(c, op(b, d))) == op(op(a, c), op(b, d));
  }

  /** A register moved on, a symbol taken in, and what was moved out folded back. */
  ghost predicate Composed<R(!new), S(!new)>(step: (R, S) -> R, shift: R -> R, widen: S -> R, gen: S -> R, top: R -> S,
                                             opR: (R, R) -> R)
  {
    forall c, v :: step(c, v) == opR(opR(shift(c), widen(v)), gen(top(c)))
  }

  /** Such a step is linear when its parts are additive. */
  lemma LinearFromParts<R(!new), S(!new)>(step: (R, S) -> R, shift: R -> R, widen: S -> R, gen: S -> R, top: R -> S,
                                          opR: (R, R) -> R, opS: (S, S) -> S)
    requires Associative(opR) && Commutative(opR) && Composed(step, shift, widen, gen, top, opR)
    requires Additive(shift, opR, opR) && Additive(widen, opS, opR) && Additive(gen, opS, opR) && Additive(top, opR, opS)
    ensures Linear(step, opR, opS)
  {
    forall c, d, v, w
      ensures step(opR(c, d), opS(v, w)) == opR(step(c, v), step(d, w))
    {
      assert Adds(shift, opR, opR, c) && Adds(widen, opS, opR, v) && Adds(top, opR, opS, c) && Adds(gen, opS, opR, top(c));
      assert gen(top(opR(c, d))) == opR(gen(top(c)), gen(top(d)));
      Exchange(opR, shift(c), shift(d), widen(v), widen(w));
      Exchange(opR, opR(shift(c), widen(v)), opR(shift(d), widen(w)), gen(top(c)), gen(top(d)));
    }
  }

  // ---- Runs ----

  /** Zero means equal under exclusive or. */
  ghost predicate Cancels<T(!new)>(xor: (T, T) -> T, zero: T) {
    forall a, b :: xor(a, b) == zero <==> a == b
  }

  /** Feeding the zero symbol keeps a register zero exactly when it was. */
  ghost predicate ZeroStep<R(!new), S>(step: (R, S) -> R, zeroR: R, zeroS: S) {
    forall c :: step(c, zeroS) == zeroR <==> c == zeroR
  }

  /** No run of at most `burst` symbols returns a zero register to zero, but for the all-zero run. */
  ghost predicate NoShortCycle<R(!new), S(!new)>(step: (R, S) -> R, zeroR: R, zeroS: S, burst: nat) {
    forall e :: |e| <= burst && Run(step, zeroR, e) == zeroR ==> All(e, zeroS)
  }

  lemma {:induction false} RunLinear<R(!new), S(!new)>(step: (R, S) -> R, xorR: (R, R) -> R, xorS: (S, S) -> S,
                                                       c: R, d: R, a: seq<S>, b: seq<S>)
    requires Linear(step, xorR, xorS) && |a| == |b|
    ensures Run(step, xorR(c, d), Zip(xorS, a, b)) == xorR(Run(step, c, a), Run(step, d, b))
    decreases |a|
  {
    if a != [] {
      RunLinear(step, xorR, xorS, step(c, a[0]), step(d, b[0]), a[1..], b[1..]);
    }
  }

  lemma {:induction false} RunAppend<R, S>(step: (R, S) -> R, c: R, a: seq<S>, b: seq<S>)
    ensures Run(step, c, a + b) == Run(step, Run(step, c, a), b)
    decreases |a|
  {
    if a == [] {
      assert a + b == b;
    } else {
      RunAppend(step, step(c, a[0]), a[1..], b);
      assert (a + b)[1..] == a[1..] + b;
    }
  }

  lemma {:induction false} RunZeros<R(!new), S>(step: (R, S) -> R, zeroR: R, zeroS: S, c: R, e: seq<S>)
    requires ZeroStep(step, zeroR, zeroS) && All(e, zeroS)
    ensures Run(step, c, e) == zeroR <==> c == zeroR
    decreases |e|
  {
    if e != [] {
      RunZeros(step, zeroR, zeroS, step(c, zeroS), e[1..]);
    }
  }

  predicate DifferWithin<S(==)>(a: seq<S>, b: seq<S>, start: nat, width: nat)
    requires |a| == |b|
  {
    forall i :: 0 <= i < |a| && a[i] != b[i] ==> start <= i < start + width
  }

  /** A run that is zero outside a short window, and not inside it, takes the zero register elsewhere. */
  lemma BurstNonzero<R(!new), S(!new)>(step: (R, S) -> R, zeroR: R, zeroS: S, burst: nat, e: seq<S>, start: nat, i: nat)
    requires ZeroStep(step, zeroR, zeroS) && NoShortCycle(step, zeroR, zeroS, burst)
    requires start <= i < |e| && i < start + burst && e[i] != zeroS
    requires forall j :: 0 <= j < |e| && e[j] != zeroS ==> start <= j < start + burst
    ensures Run(step, zeroR, e) != zeroR
  {
    var stop := if start + burst <= |e| then start + burst else |e|;
    var before, window, after := e[..start], e[start..stop], e[stop..];
    assert e == (before + window) + after;
    RunAppend(step, zeroR, before + window, after);
    RunAppend(step, zeroR, before, window);
    RunZeros(step, zeroR, zeroS, zeroR, before);
    assert window[i - start] != zeroS;
    assert !All(window, zeroS);
    RunZeros(step, zeroR, zeroS, Run(step, zeroR, window), after);
  }

  /** From one register, runs that differ only inside a short window end in different registers. */
  lemma BurstChangesRegister<R(!new), S(!new)>(step: (R, S) -> R, xorR: (R, R) -> R, xorS: (S, S) -> S,
                                               zeroR: R, zeroS: S, burst: nat,
                                               c: R, a: seq<S>, b: seq<S>, start: nat)
    requires Linear(step, xorR, xorS) && Cancels(xorR, zeroR) && Cancels(xorS, zeroS)
    requires ZeroStep(step, zeroR, zeroS) && NoShortCycle(step, zeroR, zeroS, burst)
    requires |a| == |b| && a != b && DifferWithin(a, b, start, burst)
    ensures Run(step, c, a) != Run(step, c, b)
  {
    var e := Zip(xorS, a, b);
    RunLinear(step, xorR, xorS, c, c, a, b);
    assert xorR(c, c) == zeroR;
    var i :| 0 <= i < |a| && a[i] != b[i];
    ZipWithin(xorS, zeroS, a, b, start, burst);
    BurstNonzero(step, zeroR, zeroS, burst, e, start, i);
    assert xorR(Run(step, c, a), Run(step, c, b)) != zeroR;
  }

  /** The combination of two runs is zero exactly where they agree. */
  lemma ZipWithin<S(!new)>(xorS: (S, S) -> S, zeroS: S, a: seq<S>, b: seq<S>, start: nat, burst: nat)
    requires Cancels(xorS, zeroS) && |a| == |b| && DifferWithin(a, b, start, burst)
    ensures forall j :: 0 <= j < |a| ==> (Zip(xorS, a, b)[j] != zeroS <==> a[j] != b[j])
    ensures forall j :: 0 <= j < |a| && Zip(xorS, a, b)[j] != zeroS ==> start <= j < start + burst
  {
  }

  /** When `fits(c, k)` bounds what k symbols can leave behind, runs of up to `burst` symbols have no short cycle. */
  lemma {:induction false} ShortRunNonzero<R(!new), S(!new)>(step: (R, S) -> R, zeroR: R, zeroS: S, fits: (R, nat) -> bool,
                                                             burst: nat, c: R, k: nat, e: seq<S>)
    requires forall c, k: nat, v {:trigger fits(c, k), step(c, v)} :: k < burst && fits(c, k) ==>
               fits(step(c, v), k + 1) && (step(c, v) == zeroR <==> c == zeroR && v == zeroS)
    requires k + |e| <= burst && fits(c, k)
    ensures Run(step, c, e) == zeroR <==> c == zeroR && All(e, zeroS)
    decreases |e|
  {
    if e != [] {
      ShortRunNonzero(step, zeroR, zeroS, fits, burst, step(c, e[0]), k + 1, e[1..]);
      assert e == [e[0]] + e[1..];
    }
  }

  /** The digits that `drop` and `low` take off a register, last one first. */
  function Digits<R, S>(drop: R -> R, low: R -> S, p: R, n: nat): (s: seq<S>)
    ensures |s| == n
  {
    if n == 0 then [] else Digits(drop, low, drop(p), n - 1) + [low(p)]
  }

  /** Feeding a register's digits to the zero register rebuilds it. */
  lemma {:induction false} RunDigits<R(!new), S(!new)>(step: (R, S) -> R, drop: R -> R, low: R -> S, zeroR: R,
                                                       fits: (R, nat) -> bool, p: R, n: nat)
    requires forall p {:trigger drop(p)} :: step(drop(p), low(p)) == p
    requires forall p, n: nat {:trigger fits(p, n)} :: n > 0 && fits(p, n) ==> fits(drop(p), n - 1)
    requires forall p :: fits(p, 0) ==> p == zeroR
    requires fits(p, n)
    ensures Run(step, zeroR, Digits(drop, low, p, n)) == p
    decreases n
  {
    if n > 0 {
      RunDigits(step, drop, low, zeroR, fits, drop(p), n - 1);
      RunAppend(step, zeroR, Digits(drop, low, drop(p), n - 1), [low(p)]);
    }
  }
}
