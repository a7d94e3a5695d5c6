// Base58: the digit-by-digit encoder of authority keys and the big-integer decoder of addresses.
module Base58 {
  import opened Arith
  import opened Bytes
  import opened Hex
  import opened Merkle
  import opened Target

  type Digit58 = x: nat | x < 58

  /** The alphabet: digits and letters without 0, I, O and l. */
  function CharOf(d: Digit58): char {
    if d < 9 then ('1' as int + d) as char
    else if d < 17 then ('A' as int + d - 9) as char
    else if d < 22 then ('J' as int + d - 17) as char
    else if d < 33 then ('P' as int + d - 22) as char
    else if d < 44 then ('a' as int + d - 33) as char
    else ('m' as int + d - 44) as char
  }

  function IndexOf(c: char): (d: Option<Digit58>) {
    if '1' <= c <= '9' then Some(c as int - '1' as int)
    else if 'A' <= c <= 'H' then Some(c as int - 'A' as int + 9)
    else if 'J' <= c <= 'N' then Some(c as int - 'J' as int + 17)
    else if 'P' <= c <= 'Z' then Some(c as int - 'P' as int + 22)
    else if 'a' <= c <= 'k' then Some(c as int - 'a' as int + 33)
    else if 'm' <= c <= 'z' then Some(c as int - 'm' as int + 44)
    else None
  }

  lemma AlphabetRoundTrip(d: Digit58)
    ensures IndexOf(CharOf(d)) == Some(d)
  {
  }

  /** The alphabet is the digits, capitals and small letters in order, without the four that are easily mistaken. */
  lemma AlphabetInOrder(d: Digit58, e: Digit58, c: char)
    ensures d < e ==> CharOf(d) < CharOf(e)
    ensures IndexOf(c).Some? <==>
              ('0' <= c <= '9' || 'A' <= c <= 'Z' || 'a' <= c <= 'z') && c !in {'0', 'O', 'I', 'l'}
  {
  }

  lemma AlphabetInverse(c: char)
    requires IndexOf(c).Some?
    ensures CharOf(IndexOf(c).value) == c
  {
  }

  // ---- Digits, least significant first ----

  function Value58(d: seq<Digit58>): nat {
    if d == [] then 0 else d[0] + 58 * Value58(d[1..])
  }

  /** The digits of a number, none for zero. */
  function Digits58(n: nat): (d: seq<Digit58>) {
    if n == 0 then [] else [n % 58] + Digits58(n / 58)
  }

  /** One byte shifted in: every digit times 256, carries passed up, new digits for what is left over. */
  function MulAdd(d: seq<Digit58>, carry: nat): seq<Digit58> {
    if d == [] then Digits58(carry)
    else
      var c: nat := carry + 256 * (d[0] as nat);
      [c % 58] + MulAdd(d[1..], c / 58)
  }

  lemma {:induction false} Digits58Value(n: nat)
    ensures Value58(Digits58(n)) == n
  {
    if n > 0 {
      Digits58Value(n / 58);
    }
  }

  lemma {:induction false} MulAddValue(d: seq<Digit58>, carry: nat)
    ensures Value58(MulAdd(d, carry)) == 256 * Value58(d) + carry
  {
    if d == [] {
      Digits58Value(carry);
    } else {
      var c: nat := carry + 256 * (d[0] as nat);
      MulAddValue(d[1..], c / 58);
    }
  }

  /** No zero in the top place, but for the single digit the encoder starts from. */
  predicate Canonical(d: seq<Digit58>) {
    d == [0] || (d != [] && d[|d| - 1] > 0)
  }

  lemma {:induction false} MulAddTop(d: seq<Digit58>, carry: nat)
    requires d != [] && d[|d| - 1] > 0
    ensures var r := MulAdd(d, carry); r != [] && r[|r| - 1] > 0
  {
    var c: nat := carry + 256 * (d[0] as nat);
    if |d| == 1 {
      assert c / 58 > 0;
      Digits58Top(c / 58);
    } else {
      MulAddTop(d[1..], c / 58);
    }
  }

  lemma {:induction false} Digits58Top(n: nat)
    requires n > 0
    ensures var r := Digits58(n); r != [] && r[|r| - 1] > 0
  {
    if n / 58 > 0 {
      Digits58Top(n / 58);
    }
  }

  lemma MulAddCanonical(d: seq<Digit58>, b: byte)
    requires Canonical(d)
    ensures Canonical(MulAdd(d, b))
  {
    if d == [0] {
      assert MulAdd(d, b) == [b % 58] + Digits58(b / 58);
      if b / 58 > 0 {
        Digits58Top(b / 58);
      }
    } else {
      MulAddTop(d, b);
    }
  }

  /** Without a zero on top, the digits are determined by their value. */
  lemma {:induction false} CanonicalDigits(d: seq<Digit58>)
    requires d == [] || d[|d| - 1] > 0
    ensures Digits58(Value58(d)) == d
  {
    if d != [] {
      CanonicalDigits(d[1..]);
      DivModUnique(Value58(d), 58, Value58(d[1..]), d[0]);
    }
  }

  // ---- Encoding ----

  function LeadingZeroBytes(b: seq<byte>): (n: nat)
    ensures n <= |b|
  {
    if b == [] || b[0] != 0 then 0 else 1 + LeadingZeroBytes(b[1..])
  }

  function Ones(n: nat): (s: string)
    ensures |s| == n && forall i :: 0 <= i < n ==> s[i] == '1'
  {
    if n == 0 then "" else ['1'] + Ones(n - 1)
  }

  function Chars(d: seq<Digit58>): (s: string)
    ensures |s| == |d|
  {
    if d == [] then "" else Chars(d[1..]) + [CharOf(d[0])]
  }

  /** The digits the encoder is left with. */
  function EncoderDigits(b: seq<byte>): (d: seq<Digit58>) {
    if b == [] then [0] else MulAdd(EncoderDigits(b[..|b| - 1]), b[|b| - 1])
  }

  function Encoded(b: seq<byte>): string {
    Ones(LeadingZeroBytes(b)) + Chars(EncoderDigits(b))
  }

  lemma {:induction false} EncoderDigitsValue(b: seq<byte>)
    ensures Value58(EncoderDigits(b)) == FromBE(b) && Canonical(EncoderDigits(b))
  {
    if b == [] {
      assert [0][1..] == [];
    } else {
      EncoderDigitsValue(b[..|b| - 1]);
      MulAddValue(EncoderDigits(b[..|b| - 1]), b[|b| - 1]);
      MulAddCanonical(EncoderDigits(b[..|b| - 1]), b[|b| - 1]);
    }
  }

  /** The digits grown by what the last carry still holds. */
  method AppendCarry(start: seq<Digit58>, leftOver: nat) returns (digits: seq<Digit58>)
    ensures digits == start + Digits58(leftOver)
  {
    digits := start;
    var carry := leftOver;
    while carry > 0
      invariant digits + Digits58(carry) == start + Digits58(leftOver)
    {
      digits := digits + [carry % 58];
      carry := carry / 58;
    }
    assert digits + [] == digits;
  }

  lemma MulAddStep(done: seq<Digit58>, left: seq<Digit58>, carry: nat, low: Digit58, high: nat)
    requires left != []
    requires var c: nat := carry + 256 * (left[0] as nat); low == c % 58 && high == c / 58
    ensures done + MulAdd(left, carry) == done + [low] + MulAdd(left[1..], high)
  {
  }

  method SplitCarry(digit: Digit58, carry: nat) returns (low: Digit58, high: nat)
    ensures var c: nat := carry + 256 * (digit as nat); low == c % 58 && high == c / 58
  {
    var c: nat := carry + 256 * (digit as nat);
    low, high := c % 58, c / 58;
  }

  lemma NextSet(digits: seq<Digit58>, done: seq<Digit58>, left: seq<Digit58>, x: Digit58)
    requires left != [] && digits == done + left
    ensures digits[|done| := x] == done + [x] + left[1..]
  {
  }

  /** One pass of the inner loops over the digit array, growing it for the final carry. */
  method ShiftInByte(start: seq<Digit58>, b: byte) returns (digits: seq<Digit58>)
    ensures digits == MulAdd(start, b)
  {
    var carry;
    digits, carry := ShiftDigits(start, b);
    digits := AppendCarry(digits, carry);
  }

  lemma AllDone(done: seq<Digit58>, carry: nat)
    ensures done + MulAdd([], carry) == done + Digits58(carry)
  {
  }

  method ShiftDigits(start: seq<Digit58>, b: byte) returns (digits: seq<Digit58>, carry: nat)
    ensures digits + Digits58(carry) == MulAdd(start, b)
  {
    digits, carry := start, b;
    var i := 0;
    ghost var done: seq<Digit58>, left := [], start;
    while i < |digits|
      invariant i == |done| && digits == done + left
      invariant done + MulAdd(left, carry) == MulAdd(start, b)
    {
      var low, high := SplitCarry(digits[i], carry);
      MulAddStep(done, left, carry, low, high);
      NextSet(digits, done, left, low);
      digits := digits[i := low];
      done, left := done + [low], left[1..];
      carry := high;
      i := i + 1;
    }
    AllDone(done, carry);
    assert left == [] && done == digits;
  }

  /** The encoder loop: bytes in, then a '1' for each leading zero byte, then the digits from the top down. */
  method Encode(full: seq<byte>) returns (result: string)
    ensures result == Encoded(full)
  {
    var digits: seq<Digit58> := [0];
    for k := 0 to |full|
      invariant digits == EncoderDigits(full[..k])
    {
      assert full[..k + 1][..k] == full[..k];
      digits := ShiftInByte(digits, full[k]);
    }
    assert full[..|full|] == full;
    var ones := LeadingOnesOf(full);
    var chars := WriteDigits(digits);
    result := ones + chars;
  }

  method LeadingOnesOf(full: seq<byte>) returns (ones: string)
    ensures ones == Ones(LeadingZeroBytes(full))
  {
    ones := "";
    var z := 0;
    while z < |full| && full[z] == 0
      invariant 0 <= z <= |full| && ones == Ones(z)
      invariant z + LeadingZeroBytes(full[z..]) == LeadingZeroBytes(full)
    {
      assert full[z..][1..] == full[z + 1..];
      OnesEnd(z);
      ones := ones + ['1'];
      z := z + 1;
    }
  }

  method WriteDigits(digits: seq<Digit58>) returns (chars: string)
    ensures chars == Chars(digits)
  {
    chars := "";
    var i := |digits|;
    while i > 0
      invariant 0 <= i <= |digits| && chars == Chars(digits[i..])
    {
      i := i - 1;
      assert digits[i..][1..] == digits[i + 1..];
      chars := chars + [CharOf(digits[i])];
    }
    assert digits[0..] == digits;
  }

  lemma {:induction false} OnesEnd(n: nat)
    ensures Ones(n) + ['1'] == Ones(n + 1)
  {
    if n > 0 {
      OnesEnd(n - 1);
    }
  }

  // ---- Decoding ----

  /** The number a string stands for; None if some character is outside the alphabet. */
  function NumberOf(s: string): Option<nat> {
    if s == "" then Some(0)
    else
      match (NumberOf(s[..|s| - 1]), IndexOf(s[|s| - 1]))
      case (Some(n), Some(d)) => Some(n * 58 + d)
      case _ => None
  }

  function LeadingOnes(s: string): (n: nat)
    ensures n <= |s|
  {
    if s == "" || s[0] != '1' then 0 else 1 + LeadingOnes(s[1..])
  }

  function Decoded(s: string): Option<seq<byte>> {
    if s == "" then None
    else match NumberOf(s) case Some(n) => Some(Zeros(LeadingOnes(s)) + MinimalBE(n)) case None => None
  }

  method Decode(s: string) returns (r: Option<seq<byte>>)
    ensures r == Decoded(s)
  {
    if |s| == 0 {
      return None;
    }
    var result: nat := 0;
    for k := 0 to |s|
      invariant NumberOf(s[..k]) == Some(result)
    {
      assert s[..k + 1][..k] == s[..k];
      match IndexOf(s[k]) {
        case None =>
          NumberOfPrefix(s, k + 1);
          return None;
        case Some(d) => result := result * 58 + d;
      }
    }
    assert s[..|s|] == s;
    var leadingZeros := 0;
    while leadingZeros < |s| && s[leadingZeros] == '1'
      invariant 0 <= leadingZeros <= |s|
      invariant leadingZeros + LeadingOnes(s[leadingZeros..]) == LeadingOnes(s)
    {
      assert s[leadingZeros..][1..] == s[leadingZeros + 1..];
      leadingZeros := leadingZeros + 1;
    }
    r := Some(Zeros(leadingZeros) + MinimalBE(result));
  }

  lemma {:induction false} NumberOfPrefix(s: string, k: nat)
    requires k <= |s| && NumberOf(s[..k]).None?
    ensures NumberOf(s).None?
    decreases |s|
  {
    if k < |s| {
      assert s[..|s| - 1][..k] == s[..k];
      NumberOfPrefix(s[..|s| - 1], k);
    } else {
      assert s[..k] == s;
    }
  }

  // ---- Round trips ----

  lemma {:induction false} NumberOfChars(d: seq<Digit58>)
    ensures NumberOf(Chars(d)) == Some(Value58(d))
  {
    if d != [] {
      NumberOfChars(d[1..]);
      AlphabetRoundTrip(d[0]);
      var s := Chars(d);
      assert s[..|s| - 1] == Chars(d[1..]);
    }
  }

  lemma {:induction false} NumberOfOnes(n: nat, s: string)
    ensures NumberOf(Ones(n) + s) == NumberOf(s)
    decreases n + |s|
  {
    if s == "" {
      if n > 0 {
        OnesEnd(n - 1);
        var t := Ones(n) + s;
        assert t[..|t| - 1] == Ones(n - 1) + "";
        NumberOfOnes(n - 1, "");
      }
    } else {
      var t := Ones(n) + s;
      assert t[..|t| - 1] == Ones(n) + s[..|s| - 1];
      NumberOfOnes(n, s[..|s| - 1]);
    }
  }

  lemma {:induction false} LeadingOnesSplit(n: nat, s: string)
    requires s == "" || s[0] != '1'
    ensures LeadingOnes(Ones(n) + s) == n
    decreases n
  {
    if n > 0 {
      LeadingOnesSplit(n - 1, s);
      assert (Ones(n) + s)[1..] == Ones(n - 1) + s;
    } else {
      assert Ones(0) + s == s;
    }
  }

  lemma {:induction false} LeadingZerosSplit(b: seq<byte>)
    ensures var z := LeadingZeroBytes(b);
            b == Zeros(z) + b[z..] && (z < |b| ==> b[z] != 0)
  {
    if b != [] && b[0] == 0 {
      LeadingZerosSplit(b[1..]);
      var z := LeadingZeroBytes(b[1..]);
      assert b[1..][z..] == b[z + 1..];
    }
  }

  /** The shortest bytes of a number are the ones without a leading zero. */
  lemma {:induction false} MinimalBEUnique(b: seq<byte>)
    requires b != [] ==> b[0] > 0
    ensures MinimalBE(FromBE(b)) == b
    ensures b != [] ==> FromBE(b) > 0
  {
    if |b| > 0 {
      var front := b[..|b| - 1];
      MinimalBEUnique(front);
      DivModUnique(FromBE(b), 256, FromBE(front), b[|b| - 1]);
    }
  }

  predicate HasNonZero(b: seq<byte>) {
    exists i :: 0 <= i < |b| && b[i] != 0
  }

  lemma CharsTop(d: seq<Digit58>)
    requires d != []
    ensures Chars(d)[0] == CharOf(d[|d| - 1])
  {
  }

  lemma OneIsZero(d: Digit58)
    ensures CharOf(d) == '1' <==> d == 0
  {
  }

  /** Ones before another character decode to as many zero bytes and the number. */
  lemma DecodedIs(z: nat, s: string, v: nat)
    requires s != "" && s[0] != '1' && NumberOf(s) == Some(v)
    ensures Decoded(Ones(z) + s) == Some(Zeros(z) + MinimalBE(v))
  {
    NumberOfOnes(z, s);
    LeadingOnesSplit(z, s);
  }

  /** Ones alone decode to as many zero bytes. */
  lemma OnesDecoded(n: nat)
    requires n > 0
    ensures Decoded(Ones(n)) == Some(Zeros(n))
  {
    NumberOfOnes(n, "");
    LeadingOnesSplit(n, "");
    assert Ones(n) + "" == Ones(n);
    assert Zeros(n) + [] == Zeros(n);
  }

  lemma DigitsDecoded(z: nat, d: seq<Digit58>)
    requires Canonical(d) && Value58(d) > 0
    ensures Decoded(Ones(z) + Chars(d)) == Some(Zeros(z) + MinimalBE(Value58(d)))
  {
    NumberOfChars(d);
    CharsTop(d);
    OneIsZero(d[|d| - 1]);
    assert d != [0];
    DecodedIs(z, Chars(d), Value58(d));
  }

  /** A byte string survives encoding and decoding exactly when it holds a non-zero byte. */
  lemma EncodeDecode(b: seq<byte>)
    ensures Decoded(Encoded(b)) == Some(b) <==> HasNonZero(b)
  {
    var z := LeadingZeroBytes(b);
    var rest := b[z..];
    LeadingZerosSplit(b);
    EncoderDigitsValue(b);
    LeadingZeros(z, rest);
    MinimalBEUnique(rest);
    if rest != [] {
      assert b[z] != 0;
      DigitsDecoded(z, EncoderDigits(b));
    } else {
      assert forall i :: 0 <= i < |b| ==> b[i] == Zeros(z)[i];
      CanonicalZero(EncoderDigits(b));
      OnesEnd(z);
      assert Encoded(b) == Ones(z) + ['1'];
      OnesDecoded(z + 1);
    }
  }

  lemma CanonicalZero(d: seq<Digit58>)
    requires Canonical(d) && Value58(d) == 0
    ensures d == [0]
  {
    if d != [0] {
      CanonicalDigits(d);
    }
  }

  /** The digits of a string, least significant first. */
  function DigitsOf(s: string): (d: seq<Digit58>)
    requires NumberOf(s).Some?
    ensures |d| == |s|
  {
    if s == "" then [] else [IndexOf(s[|s| - 1]).value] + DigitsOf(s[..|s| - 1])
  }

  lemma {:induction false} DigitsOfString(s: string)
    requires NumberOf(s).Some?
    ensures Chars(DigitsOf(s)) == s
    ensures Value58(DigitsOf(s)) == NumberOf(s).value
    ensures s != "" ==> IndexOf(s[0]) == Some(DigitsOf(s)[|s| - 1])
  {
    if s != "" {
      var front := s[..|s| - 1];
      DigitsOfString(front);
      AlphabetInverse(s[|s| - 1]);
      assert DigitsOf(s)[1..] == DigitsOf(front);
      assert s == front + [s[|s| - 1]];
    }
  }

  lemma {:induction false} OnesSplit(s: string)
    ensures var n := LeadingOnes(s); s == Ones(n) + s[n..] && (n < |s| ==> s[n] != '1')
  {
    if s != "" && s[0] == '1' {
      OnesSplit(s[1..]);
      var n := LeadingOnes(s[1..]);
      assert s[1..][n..] == s[n + 1..];
    }
  }

  lemma {:induction false} LeadingZeroBytesOf(z: nat, b: seq<byte>)
    requires b == [] || b[0] != 0
    ensures LeadingZeroBytes(Zeros(z) + b) == z
  {
    if z > 0 {
      LeadingZeroBytesOf(z - 1, b);
      assert (Zeros(z) + b)[1..] == Zeros(z - 1) + b;
    } else {
      assert Zeros(0) + b == b;
    }
  }

  /** Only ones: the bytes are one zero short of what would encode to as many. */
  lemma OnesEncoded(n: nat)
    ensures |Encoded(Zeros(n) + MinimalBE(0))| > n
  {
    var b := Zeros(n) + MinimalBE(0);
    MinimalBEValue(0);
    LeadingZeroBytesOf(n, []);
    assert b == Zeros(n) + [];
    LeadingZeros(n, []);
    EncoderDigitsValue(b);
  }

  /** Ones before another character: the zeros and the digits are those of the string. */
  lemma TailEncoded(n: nat, tail: string)
    requires tail != "" && tail[0] != '1' && NumberOf(tail).Some?
    ensures Encoded(Zeros(n) + MinimalBE(NumberOf(tail).value)) == Ones(n) + tail
  {
    var v := NumberOf(tail).value;
    var raw := MinimalBE(v);
    var b := Zeros(n) + raw;
    MinimalBEValue(v);
    LeadingZeros(n, raw);
    EncoderDigitsValue(b);
    DigitsOfString(tail);
    var t := DigitsOf(tail);
    AlphabetInverse(tail[0]);
    OneIsZero(t[|t| - 1]);
    CanonicalDigits(t);
    assert v > 0;
    LeadingZeroBytesOf(n, raw);
    CanonicalDigits(EncoderDigits(b));
  }

  /** A valid string survives decoding and encoding exactly when it holds a character other than '1'. */
  lemma DecodeEncode(s: string)
    requires Decoded(s).Some?
    ensures Encoded(Decoded(s).value) == s <==> exists i :: 0 <= i < |s| && s[i] != '1'
  {
    var n := LeadingOnes(s);
    var tail := s[n..];
    OnesSplit(s);
    NumberOfOnes(n, tail);
    if tail == "" {
      assert forall i :: 0 <= i < |s| ==> s[i] == Ones(n)[i];
      OnesEncoded(n);
    } else {
      assert s[n] != '1';
      TailEncoded(n, tail);
    }
  }

  // ---- Check codes ----

  datatype Payload = Payload(version: byte, data: seq<byte>)

  /** A string too short, or whose last four bytes are not the checksum of the rest, is an error. */
  function CheckDecoded(sha: Sha256d, address: string): Option<Payload> {
    match Decoded(address)
    case None => None
    case Some(b) =>
      if |b| < 5 then None
      else
        var payload := b[..|b| - 4];
        if sha(payload)[..4] != b[|b| - 4..] then None else Some(Payload(payload[0], payload[1..]))
  }

  /** A text check-decodes to a version and data exactly when it decodes to them with the first four bytes of their hash behind. */
  lemma CheckDecodedIff(sha: Sha256d, address: string, version: byte, data: seq<byte>)
    ensures CheckDecoded(sha, address) == Some(Payload(version, data))
       <==> Decoded(address) == Some([version] + data + sha([version] + data)[..4])
  {
    var body := [version] + data;
    var full := body + sha(body)[..4];
    if Decoded(address) == Some(full) {
      assert full[..|full| - 4] == body && full[|full| - 4..] == sha(body)[..4];
      assert body[1..] == data;
    }
    if CheckDecoded(sha, address) == Some(Payload(version, data)) {
      var b := Decoded(address).value;
      var front := b[..|b| - 4];
      assert front == [front[0]] + front[1..];
      assert b == front + b[|b| - 4..];
    }
  }

  /** An authority key under its version prefix 0x01 0x00, with its checksum. */
  function AuthorityKeyText(sha: Sha256d, key: Hash): string {
    var payload: seq<byte> := [1, 0] + key;
    Encoded(payload + sha(payload)[..4])
  }

  lemma AuthorityKeyDecodes(sha: Sha256d, key: Hash)
    ensures CheckDecoded(sha, AuthorityKeyText(sha, key)) == Some(Payload(1, [0] + key))
  {
    var payload: seq<byte> := [1, 0] + key;
    var full := payload + sha(payload)[..4];
    assert full[0] == 1;
    EncodeDecode(full);
    assert full[..|full| - 4] == payload && full[|full| - 4..] == sha(payload)[..4];
    assert payload[1..] == [0] + key;
  }
}
