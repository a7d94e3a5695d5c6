// Bytes and their fixed-width integer encodings, shared by every wire format below.
module Bytes {
  import opened Arith

  type byte = x: int | 0 <= x < 256

  function Pow256(k: nat): (p: nat)
    ensures p >= 1
  {
    if k == 0 then 1 else 256 * Pow256(k - 1)
  }

  /** The `k` low-order bytes of `n`, least significant first. */
  function LE(n: nat, k: nat): (b: seq<byte>)
    ensures |b| == k
  {
    if k == 0 then [] else [n % 256] + LE(n / 256, k - 1)
  }

  /** The number a little-endian byte string stands for. */
  function FromLE(b: seq<byte>): nat {
    if b == [] then 0 else b[0] + 256 * FromLE(b[1..])
  }

  /** The number a big-endian byte string stands for. */
  function FromBE(b: seq<byte>): nat {
    if b == [] then 0 else FromBE(b[..|b| - 1]) * 256 + b[|b| - 1]
  }

  function Zeros(n: nat): (z: seq<byte>)
    ensures |z| == n
    ensures forall i :: 0 <= i < n ==> z[i] == 0
  {
    if n == 0 then [] else [0] + Zeros(n - 1)
  }

  function Reverse<T>(s: seq<T>): (r: seq<T>)
    ensures |r| == |s|
    ensures forall i :: 0 <= i < |s| ==> r[i] == s[|s| - 1 - i]
  {
    if s == [] then [] else Reverse(s[1..]) + [s[0]]
  }

  lemma {:induction false} LERoundTrip(n: nat, k: nat)
    ensures FromLE(LE(n, k)) == n % Pow256(k)
  {
    if k == 0 {
    } else {
      LERoundTrip(n / 256, k - 1);
      var p := Pow256(k - 1);
      assert LE(n, k)[1..] == LE(n / 256, k - 1);
      DivModStep(n, p);
    }
  }

  lemma DivModStep(n: nat, p: nat)
    requires p >= 1
    ensures n % (256 * p) == n % 256 + 256 * ((n / 256) % p)
  {
    var q, r := n / 256, n % 256;
    MulAssoc(256, p, q / p);
    MulAtLeast(256, p - q % p);
    DivModUnique(n, 256 * p, q / p, r + 256 * (q % p));
  }

  lemma {:induction false} FromLEBound(b: seq<byte>)
    ensures FromLE(b) < Pow256(|b|)
  {
    if b == [] {
    } else {
      FromLEBound(b[1..]);
    }
  }

  /** A byte string is the encoding of its own value. */
  lemma {:induction false} LEInverse(b: seq<byte>)
    ensures LE(FromLE(b), |b|) == b
  {
    if b == [] {
    } else {
      LEInverse(b[1..]);
      DivModUnique(FromLE(b), 256, FromLE(b[1..]), b[0]);
    }
  }

  lemma {:induction false} FromBEReverse(b: seq<byte>)
    ensures FromBE(Reverse(b)) == FromLE(b)
  {
    if b == [] {
    } else {
      FromBEReverse(b[1..]);
      var r := Reverse(b);
      assert r[..|r| - 1] == Reverse(b[1..]);
    }
  }

  lemma Assoc<T>(a: seq<T>, b: seq<T>, c: seq<T>)
    ensures a + b + c == a + (b + c)
  {
  }

  lemma ReverseTwice<T>(s: seq<T>)
    ensures Reverse(Reverse(s)) == s
  {
  }
}
