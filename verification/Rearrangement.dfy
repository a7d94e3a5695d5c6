// A rearrangement inequality: where pairing the larger with the smaller costs less, the opposed order costs least.
module Rearrangement {

  /** The cost of putting each x with its h. */
  function Sum(cost: (real, real) -> real, h: seq<real>, x: seq<real>): real
    requires |h| == |x|
  {
    if h == [] then 0.0 else Sum(cost, h[..|h| - 1], x[..|x| - 1]) + cost(h[|h| - 1], x[|x| - 1])
  }

  /** Of two ways to pair two factors, putting the larger with the smaller costs less. */
  ghost predicate Crossing(cost: (real, real) -> real) {
    forall a, b, p, q :: a > b && p > q ==> cost(a, q) + cost(b, p) < cost(a, p) + cost(b, q)
  }

  lemma ProductsCross(cost: (real, real) -> real)
    requires forall a, b :: cost(a, b) == a * b
    ensures Crossing(cost)
  {
    forall a: real, b: real, p: real, q: real | a > b && p > q
      ensures cost(a, q) + cost(b, p) < cost(a, p) + cost(b, q)
    {
      ProductCrosses(a, b, p, q);
    }
  }

  lemma ProductCrosses(a: real, b: real, p: real, q: real)
    requires a > b && p > q
    ensures a * q + b * p < a * p + b * q
  {
    assert (a - b) * (p - q) > 0.0;
    assert (a - b) * (p - q) == a * (p - q) - b * (p - q);
  }

  /** A larger h never meets a larger x. */
  ghost predicate Opposed(h: seq<real>, x: seq<real>)
    requires |h| == |x|
  {
    forall i, j :: 0 <= i < |h| && 0 <= j < |h| && h[i] > h[j] ==> x[i] <= x[j]
  }

  function Without<T>(s: seq<T>, k: nat): (r: seq<T>)
    requires k < |s|
    ensures |r| == |s| - 1
  {
    s[..k] + s[k + 1..]
  }

  lemma WithoutCounts<T>(s: seq<T>, k: nat)
    requires k < |s|
    ensures multiset(s) == multiset(Without(s, k)) + multiset{s[k]}
  {
    assert s == s[..k] + [s[k]] + s[k + 1..];
  }

  lemma {:induction false} SumWithout(cost: (real, real) -> real, h: seq<real>, x: seq<real>, k: nat)
    requires |h| == |x| && k < |h|
    ensures Sum(cost, h, x) == Sum(cost, Without(h, k), Without(x, k)) + cost(h[k], x[k])
  {
    var n := |h| - 1;
    if k == n {
      assert Without(h, k) == h[..n] && Without(x, k) == x[..n];
    } else {
      SumWithout(cost, h[..n], x[..n], k);
      assert Without(h, k)[..n - 1] == Without(h[..n], k);
      assert Without(x, k)[..n - 1] == Without(x[..n], k);
    }
  }

  /** Rewriting one factor changes one term. */
  lemma SumUpdate(cost: (real, real) -> real, h: seq<real>, x: seq<real>, k: nat, v: real)
    requires |h| == |x| && k < |h|
    ensures Sum(cost, h, x[k := v]) == Sum(cost, h, x) - cost(h[k], x[k]) + cost(h[k], v)
  {
    SumWithout(cost, h, x, k);
    SumWithout(cost, h, x[k := v], k);
    assert Without(x[k := v], k) == Without(x, k);
  }

  function Swapped<T>(x: seq<T>, i: nat, j: nat): (r: seq<T>)
    requires i < |x| && j < |x|
    ensures |r| == |x|
  {
    x[i := x[j]][j := x[i]]
  }

  lemma SwapKeeps<T>(x: seq<T>, i: nat, j: nat)
    requires i < |x| && j < |x|
    ensures multiset(Swapped(x, i, j)) == multiset(x)
  {
  }

  /** What exchanging two factors does to the sum. */
  lemma SwapMoves(cost: (real, real) -> real, h: seq<real>, x: seq<real>, i: nat, j: nat)
    requires |h| == |x| && i < |x| && j < |x| && i != j
    ensures Sum(cost, h, Swapped(x, i, j))
         == Sum(cost, h, x) - cost(h[i], x[i]) - cost(h[j], x[j]) + cost(h[i], x[j]) + cost(h[j], x[i])
  {
    SumUpdate(cost, h, x, i, x[j]);
    SumUpdate(cost, h, x[i := x[j]], j, x[i]);
  }

  /** Moving the smallest factor to the largest h never costs more. */
  lemma SwapHelps(cost: (real, real) -> real, h: seq<real>, x: seq<real>, i: nat, j: nat)
    requires |h| == |x| && i < |x| && j < |x| && h[j] <= h[i] && x[j] <= x[i] && Crossing(cost)
    ensures Sum(cost, h, Swapped(x, i, j)) <= Sum(cost, h, x)
  {
    if i == j || x[i] == x[j] {
      assert Swapped(x, i, j) == x;
    } else {
      SwapMoves(cost, h, x, i, j);
    }
  }

  /** The place with the largest h and, among those, the smallest x. */
  lemma {:induction false} Extreme(h: seq<real>, x: seq<real>) returns (k: nat)
    requires |h| == |x| > 0 && Opposed(h, x)
    ensures k < |h| && forall j :: 0 <= j < |h| ==> h[j] <= h[k] && x[k] <= x[j]
  {
    var n := |h| - 1;
    k := n;
    if n > 0 {
      var m := Extreme(h[..n], x[..n]);
      if h[m] > h[n] || (h[m] == h[n] && x[m] <= x[n]) {
        k := m;
      }
    }
  }

  /** The opposed order has the least sum of all orders. */
  lemma {:induction false} OpposedIsLeast(cost: (real, real) -> real, h: seq<real>, x: seq<real>, y: seq<real>)
    requires |h| == |x| == |y| && multiset(x) == multiset(y) && Opposed(h, x) && Crossing(cost)
    ensures Sum(cost, h, x) <= Sum(cost, h, y)
    decreases |h|
  {
    if h == [] {
    } else {
      var k := Extreme(h, x);
      var z := Fronted(cost, h, x, y, k);
      OpposedWithout(h, x, k);
      OpposedIsLeast(cost, Without(h, k), Without(x, k), Without(z, k));
      SumWithout(cost, h, x, k);
      SumWithout(cost, h, z, k);
    }
  }

  lemma OpposedWithout(h: seq<real>, x: seq<real>, k: nat)
    requires |h| == |x| && k < |h| && Opposed(h, x)
    ensures Opposed(Without(h, k), Without(x, k))
  {
    forall i, j | 0 <= i < |h| - 1 && 0 <= j < |h| - 1 && Without(h, k)[i] > Without(h, k)[j]
      ensures Without(x, k)[i] <= Without(x, k)[j]
    {
      var p, q := if i < k then i else i + 1, if j < k then j else j + 1;
      assert h[p] > h[q];
    }
  }

  /** Any other order of the same factors can be given the extreme one in its place without costing more. */
  lemma Fronted(cost: (real, real) -> real, h: seq<real>, x: seq<real>, y: seq<real>, k: nat) returns (z: seq<real>)
    requires |h| == |x| == |y| && multiset(x) == multiset(y) && Crossing(cost)
    requires k < |h| && forall j :: 0 <= j < |h| ==> h[j] <= h[k] && x[k] <= x[j]
    ensures |z| == |y| && z[k] == x[k] && Sum(cost, h, z) <= Sum(cost, h, y)
    ensures multiset(Without(x, k)) == multiset(Without(z, k))
  {
    assert x[k] in multiset(y);
    var l: nat :| l < |y| && y[l] == x[k];
    assert y[k] in multiset(x);
    z := Swapped(y, k, l);
    SwapKeeps(y, k, l);
    SwapHelps(cost, h, y, k, l);
    SameRest(x, z, k);
  }

  lemma SameRest<T>(x: seq<T>, z: seq<T>, k: nat)
    requires k < |x| && k < |z| && x[k] == z[k] && multiset(x) == multiset(z)
    ensures multiset(Without(x, k)) == multiset(Without(z, k))
  {
    WithoutCounts(x, k);
    WithoutCounts(z, k);
    assert multiset(Without(x, k)) == multiset(x) - multiset{x[k]};
    assert multiset(Without(z, k)) == multiset(z) - multiset{z[k]};
  }

  /** Any other order can be improved by one exchange. */
  lemma NotOpposedImproves(cost: (real, real) -> real, h: seq<real>, x: seq<real>) returns (i: nat, j: nat)
    requires |h| == |x| && !Opposed(h, x) && Crossing(cost)
    ensures i < |h| && j < |h| && Sum(cost, h, Swapped(x, i, j)) < Sum(cost, h, x)
  {
    i, j :| 0 <= i < |h| && 0 <= j < |h| && h[i] > h[j] && x[i] > x[j];
    SwapMoves(cost, h, x, i, j);
  }
}
