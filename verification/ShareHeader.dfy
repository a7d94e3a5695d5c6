// The 80-byte header a share is judged by: built from hex job fields on the V1 side,
// from an adapted binary template on the SV2 side.
module ShareHeader {
  import opened Bytes
  import opened Hex
  import opened Merkle
  import opened Target

  // ---- Byte order of the previous block hash ----

  /** Each complete 4-byte word reversed; bytes of an incomplete last word are left zero. */
  function SwapWords(s: seq<byte>): (r: seq<byte>)
    ensures |r| == |s|
  {
    if |s| < 4 then Zeros(|s|) else [s[3], s[2], s[1], s[0]] + SwapWords(s[4..])
  }

  lemma {:induction false} SwapWordsTwice(s: seq<byte>)
    requires |s| % 4 == 0
    ensures SwapWords(SwapWords(s)) == s
  {
    if |s| >= 4 {
      SwapWordsTwice(s[4..]);
      assert SwapWords(s)[4..] == SwapWords(s[4..]);
    }
  }

  lemma {:induction false} SwapWordsAppend(s: seq<byte>, t: seq<byte>)
    requires |s| % 4 == 0
    ensures SwapWords(s + t) == SwapWords(s) + SwapWords(t)
  {
    if s == [] {
      assert s + t == t;
    } else {
      SwapWordsAppend(s[4..], t);
      var u := s + t;
      assert u[4..] == s[4..] + t;
      assert u[0] == s[0] && u[1] == s[1] && u[2] == s[2] && u[3] == s[3];
      var w: seq<byte> := [s[3], s[2], s[1], s[0]];
      assert w + (SwapWords(s[4..]) + SwapWords(t)) == w + SwapWords(s[4..]) + SwapWords(t);
    }
  }

  lemma SwapNextWord(was: seq<byte>, now: seq<byte>, i: nat)
    requires i + 4 <= |was| && i % 4 == 0
    requires now == SwapWords(was[..i]) + was[i..]
    ensures now[..i] + SwapWords(now[i..i + 4]) + now[i + 4..] == SwapWords(was[..i + 4]) + was[i + 4..]
  {
    SwapWordsAppend(was[..i], was[i..i + 4]);
    assert was[..i + 4] == was[..i] + was[i..i + 4];
    assert |SwapWords(was[..i])| == i;
    assert now[..i] == SwapWords(was[..i]);
    assert now[i..] == was[i..];
    assert now[i..i + 4] == now[i..][..4] == was[i..][..4] == was[i..i + 4];
    assert now[i + 4..] == now[i..][4..] == was[i..][4..] == was[i + 4..];
  }

  /** Mirrors the array in place. */
  method ReverseInPlace(data: array<byte>)
    modifies data
    ensures data[..] == Reverse(old(data[..]))
  {
    var n := data.Length;
    for i := 0 to n / 2
      invariant forall k :: 0 <= k < i ==> data[k] == old(data[n - 1 - k]) && data[n - 1 - k] == old(data[k])
      invariant forall k :: i <= k < n - i ==> data[k] == old(data[k])
    {
      data[i], data[n - 1 - i] := data[n - 1 - i], data[i];
    }
  }

  method SwapWord(data: array<byte>, i: nat)
    requires i + 4 <= data.Length
    modifies data
    ensures var was := old(data[..]);
            data[..] == was[..i] + SwapWords(was[i..i + 4]) + was[i + 4..]
  {
    ghost var was := data[..];
    OneWord(was[i..i + 4]);
    data[i], data[i + 3] := data[i + 3], data[i];
    data[i + 1], data[i + 2] := data[i + 2], data[i + 1];
    WordReplaced(was, data[..], i);
  }

  lemma OneWord(w: seq<byte>)
    requires |w| == 4
    ensures SwapWords(w) == [w[3], w[2], w[1], w[0]]
  {
    assert w[4..] == [];
  }

  lemma WordReplaced(was: seq<byte>, now: seq<byte>, i: nat)
    requires |was| == |now| && i + 4 <= |was|
    requires forall k :: 0 <= k < |was| && !(i <= k < i + 4) ==> now[k] == was[k]
    requires now[i] == was[i + 3] && now[i + 1] == was[i + 2] && now[i + 2] == was[i + 1] && now[i + 3] == was[i]
    ensures now == was[..i] + SwapWords(was[i..i + 4]) + was[i + 4..]
  {
    OneWord(was[i..i + 4]);
  }

  /** Mirrors each 4-byte word in place. */
  method SwapWordsInPlace(data: array<byte>)
    requires data.Length % 4 == 0
    modifies data
    ensures data[..] == SwapWords(old(data[..]))
  {
    ghost var was := data[..];
    var i := 0;
    ghost var left := data.Length / 4;
    assert was[..0] == [] && SwapWords([]) == [];
    while i < data.Length
      invariant i + 4 * left == data.Length && left >= 0 && i % 4 == 0
      invariant data[..] == SwapWords(was[..i]) + was[i..]
    {
      ghost var now := data[..];
      SwapNextWord(was, now, i);
      SwapWord(data, i);
      i, left := i + 4, left - 1;
    }
    assert was[..i] == was && was[i..] == [];
  }

  /** A 32-byte hash from display order to the order V1 sends it in. */
  method SwapHashBytes(data: array<byte>)
    requires data.Length == 32
    modifies data
    ensures data[..] == SwapWords(Reverse(old(data[..])))
  {
    ReverseInPlace(data);
    SwapWordsInPlace(data);
  }

  /** The previous hash as V1 sends it; text that is not a 32-byte hash passes through untouched. */
  function SwapHashEndianness(display: string): string {
    match Decode(display)
    case Some(b) => if |b| == 32 then Encode(SwapWords(Reverse(b))) else display
    case None => display
  }

  /** What the V1 validator puts in the header for that text. */
  function SwapEndianWords(text: string): seq<byte> {
    match Decode(text) case Some(b) => SwapWords(b) case None => []
  }

  /** What SV2 puts in the header. */
  function PrevHashFromHex(display: string): Option<Hash> {
    match Decode(display)
    case Some(b) => if |b| == 32 then Some(Reverse(b)) else None
    case None => None
  }

  /** The V1 word swap is undone exactly: both protocols end with the plain byte reversal. */
  lemma PrevHashFormsAgree(display: string)
    requires PrevHashFromHex(display).Some?
    ensures SwapEndianWords(SwapHashEndianness(display)) == PrevHashFromHex(display).value
  {
    var b := Decode(display).value;
    RoundTrip(SwapWords(Reverse(b)));
    SwapWordsTwice(Reverse(b));
  }

  // ---- The V1 header ----

  datatype V1Job = V1Job(prevHash: string, coinb1: string, coinb2: string, branches: seq<string>,
                         version: string, nbits: string)

  datatype V1Share = V1Share(extraNonce2: string, nTime: string, nonce: string, versionBits: string)

  datatype HeaderResult = Header(bytes: seq<byte>) | MalformedRequest | InvalidJob

  /** Bitwise exclusive or of the low `k` bits. */
  function Xor(a: nat, b: nat, k: nat): (r: nat) {
    if k == 0 then 0 else (a + b) % 2 + 2 * Xor(a / 2, b / 2, k - 1)
  }

  /** Bits a share does not carry, or that are not four bytes of hex, leave the version alone. */
  function FinalVersion(base: nat, versionBits: string): nat {
    match Decode(versionBits)
    case Some(v) => if |v| == 4 then Xor(base, FromBE(v), 32) else base
    case None => base
  }

  function Bit(n: nat, i: nat): nat {
    if i == 0 then n % 2 else Bit(n / 2, i - 1)
  }

  lemma {:induction false} XorBits(a: nat, b: nat, k: nat, i: nat)
    requires i < k
    ensures Bit(Xor(a, b, k), i) == (Bit(a, i) + Bit(b, i)) % 2
  {
    if i > 0 {
      XorBits(a / 2, b / 2, k - 1, i - 1);
    }
  }

  lemma {:induction false} XorFits(a: nat, b: nat, k: nat)
    ensures Xor(a, b, k) < Pow2(k)
  {
    if k > 0 {
      XorFits(a / 2, b / 2, k - 1);
    }
  }

  /** A rolled version has each of its 32 bits flipped exactly where the share says so. */
  lemma VersionRolls(base: nat, versionBits: string, i: nat)
    requires Decode(versionBits).Some? && |Decode(versionBits).value| == 4 && i < 32
    ensures FinalVersion(base, versionBits) < Pow2(32)
    ensures Bit(FinalVersion(base, versionBits), i) == (Bit(base, i) + Bit(FromBE(Decode(versionBits).value), i)) % 2
  {
    XorBits(base, FromBE(Decode(versionBits).value), 32, i);
    XorFits(base, FromBE(Decode(versionBits).value), 32);
  }

  /** A copy into a 32-byte buffer: longer branches are cut, shorter ones padded with zeros. */
  function To32(b: seq<byte>): Hash {
    (b + Zeros(32))[..32]
  }

  /** Branches that are not hex are skipped. */
  function DecodedBranches(branches: seq<string>): (hs: seq<Hash>) {
    if branches == [] then []
    else
      match Decode(branches[0])
      case Some(b) => [To32(b)] + DecodedBranches(branches[1..])
      case None => DecodedBranches(branches[1..])
  }

  predicate Is4Bytes(s: string) {
    Decode(s).Some? && |Decode(s).value| == 4
  }

  /** The checks in the order they are made, and the header when all pass. */
  function V1Header(sha: Sha256d, job: V1Job, extraNonce1: string, share: V1Share): HeaderResult {
    var coinbase := Decode(job.coinb1 + extraNonce1 + share.extraNonce2 + job.coinb2);
    if coinbase.None? then MalformedRequest
    else if !Is4Bytes(job.version) then InvalidJob
    else if !Is4Bytes(share.nTime) then MalformedRequest
    else if !Is4Bytes(job.nbits) then InvalidJob
    else if !Is4Bytes(share.nonce) then MalformedRequest
    else Header(LE(FinalVersion(FromBE(Decode(job.version).value), share.versionBits), 4)
                + SwapEndianWords(job.prevHash)
                + Fold(sha, sha(coinbase.value), DecodedBranches(job.branches))
                + LE(FromBE(Decode(share.nTime).value), 4)
                + LE(FromBE(Decode(job.nbits).value), 4)
                + LE(FromBE(Decode(share.nonce).value), 4))
  }

  /** The branches folded over a leaf, one after the other. */
  method FoldBranches(sha: Sha256d, leaf: Hash, branches: seq<string>) returns (root: Hash)
    ensures root == Fold(sha, leaf, DecodedBranches(branches))
  {
    root := leaf;
    for i := 0 to |branches|
      invariant Fold(sha, root, DecodedBranches(branches[i..])) == Fold(sha, leaf, DecodedBranches(branches))
    {
      var b := Decode(branches[i]);
      ghost var left := branches[i..];
      assert left[0] == branches[i] && left[1..] == branches[i + 1..];
      if b.Some? {
        root := Pair(sha, root, To32(b.value));
        ghost var hs := DecodedBranches(left);
        assert hs[0] == To32(b.value) && hs[1..] == DecodedBranches(left[1..]);
      }
    }
  }

  /** ValidateShare's header, appended field by field. */
  method BuildV1Header(sha: Sha256d, job: V1Job, extraNonce1: string, share: V1Share) returns (r: HeaderResult)
    ensures r == V1Header(sha, job, extraNonce1, share)
  {
    var coinbase := Decode(job.coinb1 + extraNonce1 + share.extraNonce2 + job.coinb2);
    if coinbase.None? {
      return MalformedRequest;
    }
    var root := FoldBranches(sha, sha(coinbase.value), job.branches);
    var version := Decode(job.version);
    if version.None? || |version.value| != 4 {
      return InvalidJob;
    }
    var header := LE(FinalVersion(FromBE(version.value), share.versionBits), 4);
    header := header + SwapEndianWords(job.prevHash);
    header := header + root;
    var nTime := Decode(share.nTime);
    if nTime.None? || |nTime.value| != 4 {
      return MalformedRequest;
    }
    header := header + LE(FromBE(nTime.value), 4);
    var bits := Decode(job.nbits);
    if bits.None? || |bits.value| != 4 {
      return InvalidJob;
    }
    header := header + LE(FromBE(bits.value), 4);
    var nonce := Decode(share.nonce);
    if nonce.None? || |nonce.value| != 4 {
      return MalformedRequest;
    }
    header := header + LE(FromBE(nonce.value), 4);
    r := Header(header);
  }

  // ---- The SV2 template and header ----

  datatype V1JobSource = V1JobSource(prevBlockHash: string, coinb1: string, coinb2: string, branches: seq<string>,
                                     version: string, nBits: string, nTime: string, height: nat, extraNonce2Size: nat)

  datatype JobTemplate = JobTemplate(jobID: nat, prevHash: Hash, coinbase1: seq<byte>, coinbase2: seq<byte>,
                                     merkleBranch: seq<Hash>, version: nat, nBits: nat, nTime: nat, height: nat,
                                     extraNonce2Size: nat)

  /** Every branch must be exactly 32 bytes of hex. */
  function BranchFromHex(branches: seq<string>): Option<seq<Hash>> {
    if branches == [] then Some([])
    else
      match (Decode(branches[0]), BranchFromHex(branches[1..]))
      case (Some(b), Some(rest)) => if |b| == 32 then Some([b] + rest) else None
      case _ => None
  }

  /** Hex digits read as a number, truncated to 32 bits. */
  function HexToUint32(s: string): Option<nat> {
    if s == "" then None
    else match Value(s) case Some(v) => Some(v % 0x1_0000_0000) case None => None
  }

  /** The job ID is assigned later, when the template is broadcast. */
  function BuildTemplateFromV1Job(src: V1JobSource): Option<JobTemplate> {
    match (PrevHashFromHex(src.prevBlockHash), Decode(src.coinb1), Decode(src.coinb2), BranchFromHex(src.branches),
           HexToUint32(src.version), HexToUint32(src.nBits), HexToUint32(src.nTime))
    case (Some(prevHash), Some(cb1), Some(cb2), Some(branch), Some(version), Some(nBits), Some(nTime)) =>
      Some(JobTemplate(0, prevHash, cb1, cb2, branch, version, nBits, nTime, src.height, src.extraNonce2Size))
    case _ => None
  }

  function BuildHeader(version: nat, prevHash: Hash, root: Hash, nTime: nat, nBits: nat, nonce: nat): (h: seq<byte>)
    ensures |h| == 80
  {
    LE(version, 4) + prevHash + root + LE(nTime, 4) + LE(nBits, 4) + LE(nonce, 4)
  }

  lemma LEBack(n: nat)
    requires n < 0x1_0000_0000
    ensures FromLE(LE(n, 4)) == n
  {
    LERoundTrip(n, 4);
    assert Pow256(1) == 256 && Pow256(2) == 0x1_0000 && Pow256(3) == 0x100_0000 && Pow256(4) == 0x1_0000_0000;
  }

  /** Every field reads back from its place in the header. */
  lemma HeaderReads(version: nat, prevHash: Hash, root: Hash, nTime: nat, nBits: nat, nonce: nat)
    requires version < 0x1_0000_0000 && nTime < 0x1_0000_0000 && nBits < 0x1_0000_0000 && nonce < 0x1_0000_0000
    ensures var h := BuildHeader(version, prevHash, root, nTime, nBits, nonce);
            && FromLE(h[..4]) == version && h[4..36] == prevHash && h[36..68] == root
            && FromLE(h[68..72]) == nTime && FromLE(h[72..76]) == nBits && FromLE(h[76..]) == nonce
  {
    LEBack(version);
    LEBack(nTime);
    LEBack(nBits);
    LEBack(nonce);
    var h := BuildHeader(version, prevHash, root, nTime, nBits, nonce);
    assert h[..4] == LE(version, 4) && h[68..72] == LE(nTime, 4) && h[72..76] == LE(nBits, 4) && h[76..] == LE(nonce, 4);
  }

  /** The root of a share on an SV2 channel: the coinbase halves around the channel's and the miner's extranonce. */
  function Sv2Root(sha: Sha256d, t: JobTemplate, en1: seq<byte>, en2: seq<byte>): Hash {
    Fold(sha, sha(t.coinbase1 + en1 + en2 + t.coinbase2), t.merkleBranch)
  }

  lemma {:induction false} BranchesAgree(branches: seq<string>)
    requires BranchFromHex(branches).Some?
    ensures DecodedBranches(branches) == BranchFromHex(branches).value
  {
    if branches != [] {
      BranchesAgree(branches[1..]);
      var b := Decode(branches[0]).value;
      assert (b + Zeros(32))[..32] == b;
    }
  }

  lemma Uint32OfHex(s: string)
    requires Is4Bytes(s)
    ensures HexToUint32(s) == Some(FromBE(Decode(s).value))
  {
    ValueIsBigEndian(s);
    FourBytesBound(Decode(s).value);
  }

  lemma FourBytesBound(b: seq<byte>)
    requires |b| == 4
    ensures FromBE(b) < 0x1_0000_0000
  {
    var r := Reverse(b);
    ReverseTwice(b);
    FromBEReverse(r);
    FromLEBound(r);
    assert Pow256(1) == 256;
    assert Pow256(2) == 0x1_0000;
    assert Pow256(3) == 0x100_0000;
    assert Pow256(4) == 0x1_0000_0000;
  }

  lemma CoinbaseDecodes(cb1: string, en1: string, en2: string, cb2: string)
    requires Decode(cb1).Some? && Decode(en1).Some? && Decode(en2).Some? && Decode(cb2).Some?
    ensures Decode(cb1 + en1 + en2 + cb2)
         == Some(Decode(cb1).value + Decode(en1).value + Decode(en2).value + Decode(cb2).value)
  {
    DecodeConcat(cb1, en1);
    DecodeConcat(cb1 + en1, en2);
    DecodeConcat(cb1 + en1 + en2, cb2);
  }

  /** The job fields V1 miners are sent, for the same source SV2 adapts. */
  function V1JobOf(src: V1JobSource): V1Job {
    V1Job(SwapHashEndianness(src.prevBlockHash), src.coinb1, src.coinb2, src.branches, src.version, src.nBits)
  }

  /** The same work submitted over V1 and over SV2 is hashed from the same 80 bytes. */
  lemma HeadersAgree(sha: Sha256d, src: V1JobSource, en1: string, share: V1Share)
    requires BuildTemplateFromV1Job(src).Some?
    requires Is4Bytes(src.version) && Is4Bytes(src.nBits)
    requires Decode(en1).Some? && Decode(share.extraNonce2).Some?
    requires Is4Bytes(share.nTime) && Is4Bytes(share.nonce)
    ensures V1Header(sha, V1JobOf(src), en1, share)
         == (var t := BuildTemplateFromV1Job(src).value;
             Header(BuildHeader(FinalVersion(t.version, share.versionBits), t.prevHash,
                                Sv2Root(sha, t, Decode(en1).value, Decode(share.extraNonce2).value),
                                FromBE(Decode(share.nTime).value), t.nBits, FromBE(Decode(share.nonce).value))))
  {
    PrevHashFormsAgree(src.prevBlockHash);
    BranchesAgree(src.branches);
    Uint32OfHex(src.version);
    Uint32OfHex(src.nBits);
    CoinbaseDecodes(src.coinb1, en1, share.extraNonce2, src.coinb2);
  }

  // ---- Verdicts ----

  /** A header hash as the number compared with targets. */
  function HashNumber(hash: Hash): nat {
    FromBE(Reverse(hash))
  }

  predicate V1MeetsDifficulty(hash: Hash, difficulty: real) {
    HashNumber(hash) <= V1DifficultyToTarget(difficulty)
  }

  predicate V1MeetsBlock(hash: Hash, nBits: nat)
    requires nBits < 0x1_0000_0000
  {
    HashNumber(hash) <= CompactToBig(nBits)
  }

  /** A zero hash is reported with difficulty zero. */
  function ShareDifficulty(hash: Hash): real {
    if HashNumber(hash) == 0 then 0.0 else DIFF1 as real / HashNumber(hash) as real
  }

  datatype ShareResult = ShareResult(hash: Hash, difficulty: real, meetsPool: bool, meetsBlock: bool)

  /** SV2's verdict; a pool target that is not 32 bytes is an error. */
  function Sv2ValidateShare(sha: Sha256d, version: nat, prevHash: Hash, root: Hash, nTime: nat, nBits: nat, nonce: nat,
                            poolTarget: seq<byte>): Option<ShareResult>
    requires nBits < 0x1_0000_0000
  {
    if |poolTarget| != 32 then None
    else
      var hash := sha(BuildHeader(version, prevHash, root, nTime, nBits, nonce));
      Some(ShareResult(hash, ShareDifficulty(hash), HashNumber(hash) <= BytesToTarget(poolTarget),
                       HashNumber(hash) <= NBitsToTarget(nBits)))
  }

  /** Both protocols give one header the same pool and block verdicts. */
  lemma VerdictsAgree(sha: Sha256d, version: nat, prevHash: Hash, root: Hash, nTime: nat, nBits: nat, nonce: nat,
                      difficulty: real)
    requires nBits < 0x1_0000_0000
    requires difficulty > 0.0 && Sv2DifficultyToTarget(difficulty) < Pow256(32)
    ensures var target := TargetToBytes(Sv2DifficultyToTarget(difficulty));
            && target.Some?
            && var r := Sv2ValidateShare(sha, version, prevHash, root, nTime, nBits, nonce, target.value);
            && r.Some?
            && r.value.hash == sha(BuildHeader(version, prevHash, root, nTime, nBits, nonce))
            && r.value.meetsPool == V1MeetsDifficulty(r.value.hash, difficulty)
            && (nBits / SIGN_BIT % 2 == 0 ==> r.value.meetsBlock == V1MeetsBlock(r.value.hash, nBits))
  {
    TargetBytesRoundTrip(Sv2DifficultyToTarget(difficulty));
    CompactReadingsAgree(nBits);
  }

  /** Whether a share clears a difficulty, asked by target (V1's grace) or by its own difficulty (SV2's grace):
      the answers agree exactly for a hash that is not zero. */
  lemma GraceTestsAgree(hash: Hash, difficulty: real)
    requires difficulty > 0.0
    ensures (ShareDifficulty(hash) >= difficulty) == V1MeetsDifficulty(hash, difficulty) <==> HashNumber(hash) != 0
  {
    var h := HashNumber(hash);
    WithinQuotient(h, DIFF1, difficulty);
    if h > 0 {
      RatioAtLeast(DIFF1 as real, h as real, difficulty);
    }
  }

  lemma RatioAtLeast(n: real, h: real, d: real)
    requires h > 0.0
    ensures n / h >= d <==> h * d <= n
  {
    MulDiv(n, h);
    if n / h >= d {
      ScaleLe(d, n / h, h);
    } else {
      ScaleLt(n / h, d, h);
    }
    assert h * d == d * h;
  }
}
