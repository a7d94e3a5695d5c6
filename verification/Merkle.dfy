// Merkle roots: the whole-tree computation and the branch list handed to miners.
module Merkle {
  import opened Bytes

  type Hash = h: seq<byte> | |h| == 32 witness Zeros(32)

  const ZERO_HASH: Hash := Zeros(32)

  /** Double SHA-256 is any function with 32-byte results; every theorem below holds for all of them. */
  type Sha256d = seq<byte> -> Hash

  function Pair(sha: Sha256d, a: Hash, b: Hash): Hash {
    sha(a + b)
  }

  /** One level up: neighbours are combined and an odd last hash is combined with itself. */
  function NextLevel(sha: Sha256d, level: seq<Hash>): (up: seq<Hash>)
    ensures |up| == (|level| + 1) / 2
  {
    if level == [] then []
    else if |level| == 1 then [Pair(sha, level[0], level[0])]
    else [Pair(sha, level[0], level[1])] + NextLevel(sha, level[2..])
  }

  function Root(sha: Sha256d, hashes: seq<Hash>): Hash
    decreases |hashes|
  {
    if hashes == [] then ZERO_HASH
    else if |hashes| == 1 then hashes[0]
    else Root(sha, NextLevel(sha, hashes))
  }

  /** The sibling met at each level by the hash that starts at index 0. */
  function Branches(sha: Sha256d, level: seq<Hash>): seq<Hash>
    decreases |level|
  {
    if |level| <= 1 then [] else [level[1]] + Branches(sha, NextLevel(sha, level))
  }

  function Fold(sha: Sha256d, leaf: Hash, branches: seq<Hash>): Hash
    decreases |branches|
  {
    if branches == [] then leaf else Fold(sha, Pair(sha, leaf, branches[0]), branches[1..])
  }

  /** Folding the branches built around any placeholder gives the root of the real tree. */
  lemma {:induction false} BranchesFoldToRoot(sha: Sha256d, coinbase: Hash, placeholder: Hash, txs: seq<Hash>)
    ensures Fold(sha, coinbase, Branches(sha, [placeholder] + txs)) == Root(sha, [coinbase] + txs)
    decreases |txs|
  {
    var actual, staged := [coinbase] + txs, [placeholder] + txs;
    if txs == [] {
    } else {
      var up := NextLevel(sha, txs[1..]);
      var left := Pair(sha, coinbase, txs[0]);
      assert actual[2..] == txs[1..] && staged[2..] == txs[1..];
      assert NextLevel(sha, actual) == [left] + up;
      assert NextLevel(sha, staged) == [Pair(sha, placeholder, txs[0])] + up;
      BranchesFoldToRoot(sha, left, Pair(sha, placeholder, txs[0]), up);
      assert Branches(sha, staged) == [txs[0]] + Branches(sha, NextLevel(sha, staged));
    }
  }

  /** The number of branches is the depth of the tree, so a miner folds once per level. */
  lemma {:induction false} BranchCount(sha: Sha256d, level: seq<Hash>, depth: nat)
    requires level != []
    requires Pow2(depth) >= |level|
    ensures |Branches(sha, level)| <= depth
    decreases |level|
  {
    if |level| > 1 {
      BranchCount(sha, NextLevel(sha, level), depth - 1);
    }
  }

  function Pow2(n: nat): nat {
    if n == 0 then 1 else 2 * Pow2(n - 1)
  }

  lemma {:induction false} NextLevelAt(sha: Sha256d, level: seq<Hash>, i: nat)
    requires i < (|level| + 1) / 2
    ensures NextLevel(sha, level)[i]
         == Pair(sha, level[2 * i], if 2 * i + 1 < |level| then level[2 * i + 1] else level[2 * i])
  {
    if |level| >= 2 && i > 0 {
      NextLevelAt(sha, level[2..], i - 1);
    }
  }

  /** One level of the root computation: an odd level is first padded with a copy of its last hash. */
  method NextLevelByPadding(sha: Sha256d, hashes: seq<Hash>) returns (next: seq<Hash>)
    requires hashes != []
    ensures next == NextLevel(sha, hashes)
  {
    var level := hashes;
    if |level| % 2 != 0 {
      level := level + [level[|level| - 1]];
    }
    next := PairUp(sha, hashes, level);
  }

  /** The hashes of a level of even length taken two at a time. */
  method PairUp(sha: Sha256d, hashes: seq<Hash>, level: seq<Hash>) returns (next: seq<Hash>)
    requires hashes != [] && level == (if |hashes| % 2 == 0 then hashes else hashes + [hashes[|hashes| - 1]])
    ensures next == NextLevel(sha, hashes)
  {
    next := [];
    var i := 0;
    ghost var k := 0;
    while i < |level|
      invariant i == 2 * k && i <= |level|
      invariant next == NextLevel(sha, hashes)[..k]
    {
      NextLevelAt(sha, hashes, k);
      next := next + [Pair(sha, level[i], level[i + 1])];
      i := i + 2;
      k := k + 1;
    }
  }

  /** One level of the branch computation: the right neighbour is looked up, an odd last hash standing in for it. */
  method NextLevelByIndex(sha: Sha256d, level: seq<Hash>) returns (next: seq<Hash>)
    ensures next == NextLevel(sha, level)
  {
    var nextLen := (|level| + 1) / 2;
    next := [];
    for i := 0 to nextLen
      invariant next == NextLevel(sha, level)[..i]
    {
      NextLevelAt(sha, level, i);
      var right := if 2 * i + 1 < |level| then level[2 * i + 1] else level[2 * i];
      next := next + [Pair(sha, level[2 * i], right)];
    }
  }

  /** Root of a full list of transaction hashes, the coinbase first. */
  method MerkleRoot(sha: Sha256d, hashes: seq<Hash>) returns (root: Hash)
    ensures root == Root(sha, hashes)
  {
    if |hashes| == 0 {
      return ZERO_HASH;
    }
    var level := hashes;
    while |level| > 1
      invariant level != []
      invariant Root(sha, level) == Root(sha, hashes)
      decreases |level|
    {
      level := NextLevelByPadding(sha, level);
    }
    root := level[0];
  }

  /** The branch list for a job, computed with zeros standing in for the coinbase hash. */
  method ComputeStratumMerkleBranches(sha: Sha256d, txs: seq<Hash>) returns (result: seq<Hash>)
    ensures result == Branches(sha, [ZERO_HASH] + txs)
    ensures forall coinbase: Hash :: Fold(sha, coinbase, result) == Root(sha, [coinbase] + txs)
  {
    var level: seq<Hash> := [ZERO_HASH] + txs;
    result := [];
    while |level| > 1
      invariant level != []
      invariant result + Branches(sha, level) == Branches(sha, [ZERO_HASH] + txs)
      decreases |level|
    {
      result := result + [level[1]];
      level := NextLevelByIndex(sha, level);
    }
    assert result == result + Branches(sha, level);
    forall coinbase: Hash
      ensures Fold(sha, coinbase, result) == Root(sha, [coinbase] + txs)
    {
      BranchesFoldToRoot(sha, coinbase, ZERO_HASH, txs);
    }
  }

  /** The fold a miner, the V1 validator and the SV2 validator all perform. */
  method ComputeMerkleRootFromBranches(sha: Sha256d, coinbase: Hash, branches: seq<Hash>) returns (root: Hash)
    ensures root == Fold(sha, coinbase, branches)
  {
    root := coinbase;
    for i := 0 to |branches|
      invariant Fold(sha, root, branches[i..]) == Fold(sha, coinbase, branches)
    {
      assert branches[i..][1..] == branches[i + 1..];
      root := Pair(sha, root, branches[i]);
    }
  }
}
