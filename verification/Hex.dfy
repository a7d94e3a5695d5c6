// Hexadecimal text, the form job fields take on the V1 side.
module Hex {
  import opened Bytes

  datatype Option<+T> = None | Some(value: T)

  function Digit(c: char): (v: Option<nat>)
    ensures v.Some? ==> v.value < 16
  {
    if '0' <= c <= '9' then Some(c as nat - '0' as nat)
    else if 'a' <= c <= 'f' then Some(c as nat - 'a' as nat + 10)
    else if 'A' <= c <= 'F' then Some(c as nat - 'A' as nat + 10)
    else None
  }

  const DIGITS := "0123456789abcdef"

  function Encode(b: seq<byte>): (s: string)
    ensures |s| == 2 * |b|
  {
    if b == [] then "" else [DIGITS[b[0] / 16], DIGITS[b[0] % 16]] + Encode(b[1..])
  }

  /** An odd length or a character that is no hex digit is an error. */
  function Decode(s: string): (b: Option<seq<byte>>)
    ensures b.Some? ==> |s| == 2 * |b.value|
  {
    if s == "" then Some([])
    else if |s| == 1 then None
    else
      match (Digit(s[0]), Digit(s[1]), Decode(s[2..]))
      case (Some(hi), Some(lo), Some(rest)) => Some([16 * hi + lo] + rest)
      case _ => None
  }

  lemma {:induction false} RoundTrip(b: seq<byte>)
    ensures Decode(Encode(b)) == Some(b)
  {
    if b != [] {
      RoundTrip(b[1..]);
      ByteDigits(b[0]);
      var s := Encode(b);
      assert s[2..] == Encode(b[1..]);
      assert s[0] == DIGITS[b[0] / 16] && s[1] == DIGITS[b[0] % 16];
      assert b == [b[0]] + b[1..];
    }
  }

  lemma ByteDigits(x: byte)
    ensures Digit(DIGITS[x / 16]) == Some(x / 16) && Digit(DIGITS[x % 16]) == Some(x % 16)
    ensures 16 * (x / 16) + x % 16 == x
  {
    DigitOf(x / 16);
    DigitOf(x % 16);
  }

  lemma DigitOf(v: nat)
    requires v < 16
    ensures Digit(DIGITS[v]) == Some(v)
  {
  }

  /** The byte two hex digits stand for. */
  function ByteOf(a: char, b: char): Option<byte> {
    match (Digit(a), Digit(b))
    case (Some(hi), Some(lo)) => Some(16 * hi + lo)
    case _ => None
  }

  lemma DecodeStep(s: string)
    requires |s| >= 2
    ensures Decode(s) == match (ByteOf(s[0], s[1]), Decode(s[2..]))
                         case (Some(b), Some(rest)) => Some([b] + rest)
                         case _ => None
  {
  }

  /** Decoding is a homomorphism, so a coinbase may be glued together before or after it is decoded. */
  lemma {:induction false} DecodeConcat(a: string, b: string)
    requires Decode(a).Some?
    ensures Decode(a + b) == match Decode(b) case None => None case Some(y) => Some(Decode(a).value + y)
  {
    if a == "" {
      assert a + b == b;
      assert Decode(b).Some? ==> [] + Decode(b).value == Decode(b).value;
    } else {
      DecodeConcat(a[2..], b);
      DecodeStep(a);
      DecodeStep(a + b);
      assert (a + b)[2..] == a[2..] + b;
      if Decode(b).Some? {
        Assoc([ByteOf(a[0], a[1]).value], Decode(a[2..]).value, Decode(b).value);
      }
    }
  }

  /** The number a run of hex digits stands for. */
  function Value(s: string): Option<nat> {
    if s == "" then Some(0)
    else
      match (Value(s[..|s| - 1]), Digit(s[|s| - 1]))
      case (Some(hi), Some(lo)) => Some(16 * hi + lo)
      case _ => None
  }

  /** Reading a string as a number agrees with decoding its bytes and reading them big-endian. */
  lemma {:induction false} ValueIsBigEndian(s: string)
    requires Decode(s).Some?
    ensures Value(s) == Some(FromBE(Decode(s).value))
    decreases |s|
  {
    if s != "" {
      var n := |s|;
      var front, last := s[..n - 2], s[n - 2..];
      DecodePrefix(s, n - 2);
      ValueIsBigEndian(front);
      assert s[..n - 1][..n - 2] == front;
      var b := Decode(s).value;
      assert last[2..] == "";
      assert b[..|b| - 1] == Decode(front).value;
    }
  }

  lemma {:induction false} DecodePrefix(s: string, k: nat)
    requires Decode(s).Some? && k <= |s| && k % 2 == 0
    ensures Decode(s[..k]).Some? && Decode(s[k..]).Some?
    ensures Decode(s).value == Decode(s[..k]).value + Decode(s[k..]).value
  {
    PrefixDecodes(s, k);
    assert s[..k] + s[k..] == s;
    DecodeConcat(s[..k], s[k..]);
  }

  lemma {:induction false} PrefixDecodes(s: string, k: nat)
    requires Decode(s).Some? && k <= |s| && k % 2 == 0
    ensures Decode(s[..k]).Some?
  {
    if k > 0 {
      PrefixDecodes(s[2..], k - 2);
      DecodeStep(s);
      DecodeStep(s[..k]);
      assert s[..k][2..] == s[2..][..k - 2];
    }
  }
}
