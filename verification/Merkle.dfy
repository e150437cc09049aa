/**
 Merkle trees over a given pair hash: the tree builder, the iterative root, proof
 generation and proof checking. Every one of them duplicates the last node of an odd
 level. The functions describe levels as sequences of hashes; the methods build them the
 way the source does.
 */
module Merkle {
  import opened Common

  type PairHash = (Hash, Hash) -> Hash

  /** The number of nodes on the level above one of n nodes. */
  function Half(n: nat): nat {
    (n + 1) / 2
  }

  /** The node at position i of a level whose last node stands in for a missing partner. */
  function At(level: seq<Hash>, i: nat): Hash
    requires level != [] && i <= |level|
  {
    if i < |level| then level[i] else level[|level| - 1]
  }

  /** The two children of node k of the level above. */
  function PairAt(level: seq<Hash>, k: nat): (Hash, Hash)
    requires k < Half(|level|)
  {
    (At(level, 2 * k), At(level, 2 * k + 1))
  }

  /** The level above: node k hashes nodes 2k and 2k + 1. */
  function Parents(hp: PairHash, level: seq<Hash>): (r: seq<Hash>)
    ensures |r| == Half(|level|)
  {
    seq(Half(|level|), k requires 0 <= k < Half(|level|) => hp(PairAt(level, k).0, PairAt(level, k).1))
  }

  lemma ParentAt(hp: PairHash, level: seq<Hash>, k: nat)
    requires k < Half(|level|)
    ensures Parents(hp, level)[k] == hp(PairAt(level, k).0, PairAt(level, k).1)
  {
  }

  /** A node and the sibling proof generation picks are the two children of the node above. */
  lemma ChildrenOf(hp: PairHash, level: seq<Hash>, index: nat)
    requires index < |level| && |level| > 1
    ensures index / 2 < Half(|level|)
    ensures index % 2 == 0 ==> Parents(hp, level)[index / 2] == hp(level[index], At(level, index + 1))
    ensures index % 2 == 1 ==> Parents(hp, level)[index / 2] == hp(At(level, index - 1), level[index])
  {
    ParentAt(hp, level, index / 2);
    assert index == 2 * (index / 2) + index % 2;
  }

  /** The root of a non-empty list of leaf hashes. */
  function Root(hp: PairHash, leaves: seq<Hash>): Hash
    requires leaves != []
    decreases |leaves|
  {
    if |leaves| == 1 then leaves[0] else Root(hp, Parents(hp, leaves))
  }

  /** The number of levels above the leaves. */
  function Levels(n: nat): nat {
    if n <= 1 then 0 else 1 + Levels(Half(n))
  }

  datatype Proof = Proof(index: int, leaf: Hash, hashes: seq<Hash>, flags: seq<bool>)

  /** The hash obtained by combining a leaf with its siblings; a flag says the sibling is on the right. */
  function Climb(hp: PairHash, leaf: Hash, hashes: seq<Hash>, flags: seq<bool>): Hash
    requires |hashes| <= |flags|
    decreases |hashes|
  {
    if hashes == [] then leaf
    else Climb(hp, if flags[0] then hp(leaf, hashes[0]) else hp(hashes[0], leaf), hashes[1..], flags[1..])
  }

  // ------------------------------------------------------------------ the builder

  /** A node of the built tree. */
  datatype Tree = Leaf(hash: Hash) | Inner(left: Tree, right: Tree, hash: Hash)

  function HashesOf(nodes: seq<Tree>): seq<Hash> {
    seq(|nodes|, k requires 0 <= k < |nodes| => nodes[k].hash)
  }

  /** Every inner node carries the hash of its children's hashes. */
  predicate WellHashed(hp: PairHash, t: Tree) {
    t.Leaf? || (t.hash == hp(t.left.hash, t.right.hash) && WellHashed(hp, t.left) && WellHashed(hp, t.right))
  }

  /** The recursive builder; an empty level has no root. */
  method BuildTree(hp: PairHash, level: seq<Tree>) returns (root: Option<Tree>)
    requires forall t :: t in level ==> WellHashed(hp, t)
    ensures root.None? <==> level == []
    ensures root.Some? ==> WellHashed(hp, root.value) && root.value.hash == Root(hp, HashesOf(level))
    decreases |level|
  {
    if |level| == 0 { return None; }
    if |level| == 1 { return Some(level[0]); }
    var nodes := level;
    if |nodes| % 2 == 1 {
      nodes := nodes + [nodes[|nodes| - 1]];
    }
    var parents: seq<Tree> := [];
    var i := 0;
    while i < |nodes|
      invariant i % 2 == 0 && 0 <= i <= |nodes| && |parents| == i / 2
      invariant forall k :: 0 <= k < |parents| ==> WellHashed(hp, parents[k])
      invariant forall k :: 0 <= k < |parents| ==> parents[k].hash == Parents(hp, HashesOf(level))[k]
    {
      ParentAt(hp, HashesOf(level), i / 2);
      parents := parents + [Inner(nodes[i], nodes[i + 1], hp(nodes[i].hash, nodes[i + 1].hash))];
      i := i + 2;
    }
    assert HashesOf(parents) == Parents(hp, HashesOf(level));
    root := BuildTree(hp, parents);
  }

  /** An even level from its padded form: a loop over pairs, as in the root and in proof generation. */
  method NextLevel(hp: PairHash, padded: seq<Hash>, ghost level: seq<Hash>) returns (parents: seq<Hash>)
    requires level != []
    requires padded == if |level| % 2 == 1 then level + [level[|level| - 1]] else level
    ensures parents == Parents(hp, level)
  {
    parents := [];
    var i := 0;
    while i < |padded|
      invariant i % 2 == 0 && 0 <= i <= |padded| && |parents| == i / 2
      invariant forall k :: 0 <= k < |parents| ==> parents[k] == Parents(hp, level)[k]
    {
      ParentAt(hp, level, i / 2);
      parents := parents + [hp(padded[i], padded[i + 1])];
      i := i + 2;
    }
  }

  /** The iterative root used for block headers; the empty list has the zero hash. */
  method CalculateMerkleRoot(hp: PairHash, txHashes: seq<Hash>) returns (root: Hash)
    ensures txHashes == [] ==> root == ZERO_HASH
    ensures txHashes != [] ==> root == Root(hp, txHashes)
  {
    if |txHashes| == 0 { return ZERO_HASH; }
    var hashes := txHashes;
    while |hashes| > 1
      invariant hashes != [] && Root(hp, hashes) == Root(hp, txHashes)
      decreases |hashes|
    {
      var level := hashes;
      if |hashes| % 2 == 1 {
        hashes := hashes + [hashes[|hashes| - 1]];
      }
      hashes := NextLevel(hp, hashes, level);
    }
    root := hashes[0];
  }

  // ------------------------------------------------------------------ proofs

  /** The partner of node i, which is node i itself when i is the last of an odd level. */
  function SiblingOf(level: seq<Hash>, i: nat): Hash
    requires i < |level|
  {
    At(level, if i % 2 == 0 then i + 1 else i - 1)
  }

  /** The siblings met on the way from leaf index to the root, and on which side they stand. */
  function Siblings(hp: PairHash, leaves: seq<Hash>, index: nat): seq<Hash>
    requires index < |leaves|
    decreases |leaves|
  {
    if |leaves| == 1 then []
    else [SiblingOf(leaves, index)] + Siblings(hp, Parents(hp, leaves), index / 2)
  }

  function Sides(n: nat, index: nat): seq<bool>
    requires index < n
  {
    if n == 1 then [] else [index % 2 == 0] + Sides(Half(n), index / 2)
  }

  /** Climbing along a leaf's siblings ends at the root. */
  lemma {:induction false} SiblingsLeadToRoot(hp: PairHash, leaves: seq<Hash>, index: nat)
    requires index < |leaves|
    ensures |Siblings(hp, leaves, index)| == |Sides(|leaves|, index)| == Levels(|leaves|)
    ensures Climb(hp, leaves[index], Siblings(hp, leaves, index), Sides(|leaves|, index)) == Root(hp, leaves)
    decreases |leaves|
  {
    if |leaves| > 1 {
      ChildrenOf(hp, leaves, index);
      hide Parents, At;
      SiblingsLeadToRoot(hp, Parents(hp, leaves), index / 2);
      assert Siblings(hp, leaves, index)[1..] == Siblings(hp, Parents(hp, leaves), index / 2);
      assert Sides(|leaves|, index)[1..] == Sides(Half(|leaves|), index / 2);
    }
  }

  /** One turn of the proof loop moves one sibling and one flag from what is left to what is written. */
  lemma OneLevelUp(hp: PairHash, hashes: seq<Hash>, flags: seq<bool>, level: seq<Hash>, at: nat)
    requires at < |level| && |level| > 1
    ensures hashes + Siblings(hp, level, at) ==
      hashes + [SiblingOf(level, at)] + Siblings(hp, Parents(hp, level), at / 2)
    ensures flags + Sides(|level|, at) == flags + [at % 2 == 0] + Sides(Half(|level|), at / 2)
    ensures at / 2 < Half(|level|) < |level|
  {
    hide Parents, At, SiblingOf;
    Associative(hashes, [SiblingOf(level, at)], Siblings(hp, Parents(hp, level), at / 2));
    Associative(flags, [at % 2 == 0], Sides(Half(|level|), at / 2));
  }

  lemma Associative<T>(a: seq<T>, b: seq<T>, c: seq<T>)
    ensures a + (b + c) == a + b + c
  {
  }

  lemma SiblingInPaddedLevel(level: seq<Hash>, at: nat)
    requires at < |level| && |level| > 1
    ensures var padded := if |level| % 2 == 1 then level + [level[|level| - 1]] else level;
      if at % 2 == 0 then at + 1 < |padded| && padded[at + 1] == SiblingOf(level, at)
      else padded[at - 1] == SiblingOf(level, at)
  {
  }

  lemma RootHasNoSiblings(hp: PairHash, level: seq<Hash>)
    requires |level| == 1
    ensures Siblings(hp, level, 0) == [] && Sides(1, 0) == []
  {
  }

  /** Proof generation walks up level by level; an index out of range is an error. */
  method GetProof(hp: PairHash, leaves: seq<Hash>, index: int) returns (proof: Option<Proof>)
    ensures proof.Some? <==> 0 <= index < |leaves|
    ensures proof.Some? ==>
      proof.value == Proof(index, leaves[index], Siblings(hp, leaves, index), Sides(|leaves|, index))
  {
    hide Siblings, Sides, Parents, SiblingOf, At;
    if index < 0 || index >= |leaves| { return None; }
    var hashes: seq<Hash>, flags: seq<bool> := [], [];
    var currentLevel := leaves;
    var at: nat := index;
    while |currentLevel| > 1
      invariant at < |currentLevel|
      invariant hashes + Siblings(hp, currentLevel, at) == Siblings(hp, leaves, index)
      invariant flags + Sides(|currentLevel|, at) == Sides(|leaves|, index)
      decreases |currentLevel|
    {
      var level := currentLevel;
      OneLevelUp(hp, hashes, flags, level, at);
      SiblingInPaddedLevel(level, at);
      if |currentLevel| % 2 == 1 {
        currentLevel := currentLevel + [currentLevel[|currentLevel| - 1]];
      }
      if at % 2 == 0 {
        hashes := hashes + [currentLevel[at + 1]];
        flags := flags + [true];
      } else {
        hashes := hashes + [currentLevel[at - 1]];
        flags := flags + [false];
      }
      var parentLevel := NextLevel(hp, currentLevel, level);
      currentLevel := parentLevel;
      at := at / 2;
    }
    RootHasNoSiblings(hp, currentLevel);
    proof := Some(Proof(index, leaves[index], hashes, flags));
  }

  /** None is the panic of a flag list that is shorter than the hash list. */
  function Check(hp: PairHash, proof: Proof, root: Hash): Option<bool> {
    if |proof.hashes| > |proof.flags| then None
    else Some(Climb(hp, proof.leaf, proof.hashes, proof.flags) == root)
  }

  method Verify(hp: PairHash, proof: Proof, root: Hash) returns (r: Option<bool>)
    ensures r == Check(hp, proof, root)
  {
    var hash := proof.leaf;
    for i := 0 to |proof.hashes|
      invariant i <= |proof.flags|
      invariant |proof.hashes| <= |proof.flags| ==>
        Climb(hp, hash, proof.hashes[i..], proof.flags[i..]) == Climb(hp, proof.leaf, proof.hashes, proof.flags)
    {
      if i >= |proof.flags| { return None; }
      if |proof.hashes| <= |proof.flags| {
        assert proof.hashes[i..][1..] == proof.hashes[i + 1..];
        assert proof.flags[i..][1..] == proof.flags[i + 1..];
      }
      if proof.flags[i] {
        hash := hp(hash, proof.hashes[i]);
      } else {
        hash := hp(proof.hashes[i], hash);
      }
    }
    return Some(hash == root);
  }

  /** Completeness: what GetProof returns for any leaf of any tree is accepted against the root. */
  lemma GeneratedProofsVerify(hp: PairHash, leaves: seq<Hash>, index: nat)
    requires index < |leaves|
    ensures var proof := Proof(index, leaves[index], Siblings(hp, leaves, index), Sides(|leaves|, index));
      Check(hp, proof, Root(hp, leaves)) == Some(true)
  {
    SiblingsLeadToRoot(hp, leaves, index);
  }

  /**
   Which side is which: the left child is hashed first, a last node of an odd level is its
   own right partner, and a flag puts the sibling on the right.
   */
  lemma SmallTrees(hp: PairHash, a: Hash, b: Hash, c: Hash)
    ensures Root(hp, [a]) == a && Root(hp, [a, b]) == hp(a, b) && Root(hp, [a, b, c]) == hp(hp(a, b), hp(c, c))
    ensures Siblings(hp, [a, b], 0) == [b] && Sides(2, 0) == [true]
    ensures Siblings(hp, [a, b], 1) == [a] && Sides(2, 1) == [false]
    ensures Climb(hp, a, [b], [true]) == hp(a, b) && Climb(hp, b, [a], [false]) == hp(a, b)
  {
    ParentsOfTwo(hp, a, b);
    ParentsOfTwo(hp, hp(a, b), hp(c, c));
    ParentAt(hp, [a, b, c], 0);
    ParentAt(hp, [a, b, c], 1);
    assert Parents(hp, [a, b, c]) == [hp(a, b), hp(c, c)];
    hide Parents;
    assert Root(hp, [hp(a, b), hp(c, c)]) == Root(hp, [hp(hp(a, b), hp(c, c))]);
    assert Climb(hp, hp(a, b), [], []) == hp(a, b);
    assert [b][1..] == [] && [a][1..] == [] && [true][1..] == [] && [false][1..] == [];
  }

  lemma ParentsOfTwo(hp: PairHash, a: Hash, b: Hash)
    ensures Parents(hp, [a, b]) == [hp(a, b)]
  {
    ParentAt(hp, [a, b], 0);
    assert |Parents(hp, [a, b])| == 1;
  }

  /** The level m steps above the leaves. */
  function LevelAbove(hp: PairHash, leaves: seq<Hash>, m: nat): (r: seq<Hash>)
    requires leaves != []
    ensures r != []
  {
    if m == 0 then leaves else Parents(hp, LevelAbove(hp, leaves, m - 1))
  }

  lemma {:induction false} LevelsAbove(hp: PairHash, leaves: seq<Hash>, m: nat)
    requires leaves != [] && m <= Levels(|leaves|)
    ensures Root(hp, LevelAbove(hp, leaves, m)) == Root(hp, leaves)
    ensures Levels(|LevelAbove(hp, leaves, m)|) == Levels(|leaves|) - m
  {
    if m > 0 { LevelsAbove(hp, leaves, m - 1); }
  }

  /**
   Soundness needs the length of the proof: for every inner node of the tree there is a
   shorter proof that carries the node as its leaf and is accepted against the same root.
   */
  lemma InnerNodesVerify(hp: PairHash, leaves: seq<Hash>, m: nat, k: nat)
    requires leaves != [] && m <= Levels(|leaves|) && k < |LevelAbove(hp, leaves, m)|
    ensures var level := LevelAbove(hp, leaves, m);
      var proof := Proof(k, level[k], Siblings(hp, level, k), Sides(|level|, k));
      |proof.hashes| == Levels(|leaves|) - m && Check(hp, proof, Root(hp, leaves)) == Some(true)
  {
    LevelsAbove(hp, leaves, m);
    SiblingsLeadToRoot(hp, LevelAbove(hp, leaves, m), k);
  }

  // ------------------------------------------------------------------ binding

  /** The pairs hashed to build the level above. */
  ghost function LevelPairs(level: seq<Hash>): set<(Hash, Hash)> {
    set k | 0 <= k < Half(|level|) :: PairAt(level, k)
  }

  /** The pairs hashed on the way from a level to its root. */
  ghost function TreePairs(hp: PairHash, leaves: seq<Hash>): set<(Hash, Hash)>
    decreases |leaves|
  {
    if |leaves| <= 1 then {}
    else LevelPairs(leaves) + TreePairs(hp, Parents(hp, leaves))
  }

  lemma PairIsHashed(hp: PairHash, level: seq<Hash>, k: nat)
    requires |level| > 1 && k < Half(|level|)
    ensures PairAt(level, k) in TreePairs(hp, level)
    ensures hp(PairAt(level, k).0, PairAt(level, k).1) == Parents(hp, level)[k]
  {
    ParentAt(hp, level, k);
    hide Parents, At, PairAt;
    assert PairAt(level, k) in LevelPairs(level);
  }

  /** The pairs hashed when a proof is checked. */
  ghost function ClimbPairs(hp: PairHash, leaf: Hash, hashes: seq<Hash>, flags: seq<bool>): set<(Hash, Hash)>
    requires |hashes| <= |flags|
    decreases |hashes|
  {
    if hashes == [] then {}
    else
      var pair := if flags[0] then (leaf, hashes[0]) else (hashes[0], leaf);
      {pair} + ClimbPairs(hp, hp(pair.0, pair.1), hashes[1..], flags[1..])
  }

  /** No two different pairs of u have the same hash. */
  ghost predicate NoPairCollision(hp: PairHash, u: set<(Hash, Hash)>) {
    forall p, q :: p in u && q in u && hp(p.0, p.1) == hp(q.0, q.1) ==> p == q
  }

  /** The leaf position that the flags spell in a tree of n leaves, duplicates folded back onto their original. */
  function Position(n: nat, flags: seq<bool>): (p: nat)
    requires n >= 1 && |flags| >= Levels(n)
    ensures p < n
  {
    if n == 1 then 0
    else
      var child := 2 * Position(Half(n), flags[1..]) + if flags[0] then 0 else 1;
      if child < n then child else n - 1
  }

  /**
   Soundness: a proof with as many hashes as the tree has levels that verifies against the
   root carries the leaf at the position its flags spell; spare flags are never looked at.
   */
  lemma {:induction false} VerifiedLeafIsInTree(hp: PairHash, leaves: seq<Hash>, proof: Proof, u: set<(Hash, Hash)>)
    requires leaves != [] && |proof.hashes| == Levels(|leaves|)
    requires Check(hp, proof, Root(hp, leaves)) == Some(true)
    requires TreePairs(hp, leaves) <= u && ClimbPairs(hp, proof.leaf, proof.hashes, proof.flags) <= u
    requires NoPairCollision(hp, u)
    ensures proof.leaf == leaves[Position(|leaves|, proof.flags)]
    decreases |leaves|
  {
    if |leaves| > 1 {
      var pair := if proof.flags[0] then (proof.leaf, proof.hashes[0]) else (proof.hashes[0], proof.leaf);
      var above := Proof(proof.index, hp(pair.0, pair.1), proof.hashes[1..], proof.flags[1..]);
      var k := Position(Half(|leaves|), proof.flags[1..]);
      PairIsHashed(hp, leaves, k);
      hide Parents;
      assert Check(hp, above, Root(hp, Parents(hp, leaves))) == Some(true);
      VerifiedLeafIsInTree(hp, Parents(hp, leaves), above, u);
      assert PairAt(leaves, k) in u && pair in u;
    }
  }

  /** The proof GetProof makes for an index spells that index. */
  lemma {:induction false} SidesSpellTheIndex(n: nat, index: nat)
    requires index < n
    ensures |Sides(n, index)| == Levels(n) && Position(n, Sides(n, index)) == index
    decreases n
  {
    if n > 1 {
      SidesSpellTheIndex(Half(n), index / 2);
      assert Sides(n, index)[1..] == Sides(Half(n), index / 2);
    }
  }

  /** Binding: lists of equal length with equal roots are equal. */
  lemma {:induction false} RootBindsLeaves(hp: PairHash, xs: seq<Hash>, ys: seq<Hash>, u: set<(Hash, Hash)>)
    requires xs != [] && |xs| == |ys| && Root(hp, xs) == Root(hp, ys)
    requires TreePairs(hp, xs) <= u && TreePairs(hp, ys) <= u && NoPairCollision(hp, u)
    ensures xs == ys
    decreases |xs|
  {
    if |xs| > 1 {
      assert TreePairs(hp, Parents(hp, xs)) <= u && TreePairs(hp, Parents(hp, ys)) <= u;
      hide TreePairs, NoPairCollision, Parents;
      RootBindsLeaves(hp, Parents(hp, xs), Parents(hp, ys), u);
      forall k | 0 <= k < Half(|xs|)
        ensures PairAt(xs, k) == PairAt(ys, k)
      {
        ChildrenAgree(hp, xs, ys, k, u);
      }
      PairsDetermineLevel(xs, ys);
    }
  }

  lemma PairsDetermineLevel(xs: seq<Hash>, ys: seq<Hash>)
    requires |xs| == |ys|
    requires forall k :: 0 <= k < Half(|xs|) ==> PairAt(xs, k) == PairAt(ys, k)
    ensures xs == ys
  {
    forall i | 0 <= i < |xs|
      ensures xs[i] == ys[i]
    {
      assert PairAt(xs, i / 2) == PairAt(ys, i / 2);
      assert i == 2 * (i / 2) || i == 2 * (i / 2) + 1;
    }
  }

  /** Levels with equal parents have equal nodes below each parent. */
  lemma ChildrenAgree(hp: PairHash, xs: seq<Hash>, ys: seq<Hash>, k: nat, u: set<(Hash, Hash)>)
    requires |xs| == |ys| > 1 && k < Half(|xs|) && Parents(hp, xs) == Parents(hp, ys)
    requires TreePairs(hp, xs) <= u && TreePairs(hp, ys) <= u && NoPairCollision(hp, u)
    ensures PairAt(xs, k) == PairAt(ys, k)
  {
    PairIsHashed(hp, xs, k);
    PairIsHashed(hp, ys, k);
    hide Parents, TreePairs, At;
    assert PairAt(xs, k) in u && PairAt(ys, k) in u;
  }

  /** Equal length is needed: a list of odd length has the root of the list with its last leaf repeated. */
  lemma PaddedListHasSameRoot(hp: PairHash, leaves: seq<Hash>)
    requires |leaves| % 2 == 1 && |leaves| > 1
    ensures Root(hp, leaves) == Root(hp, leaves + [leaves[|leaves| - 1]])
  {
    var padded := leaves + [leaves[|leaves| - 1]];
    hide Parents, At, PairAt;
    forall k | 0 <= k < Half(|leaves|)
      ensures Parents(hp, leaves)[k] == Parents(hp, padded)[k]
    {
      ParentAt(hp, leaves, k);
      ParentAt(hp, padded, k);
      PaddingKeepsPairs(leaves, k);
    }
    assert Parents(hp, leaves) == Parents(hp, padded);
  }

  lemma PaddingKeepsPairs(level: seq<Hash>, k: nat)
    requires |level| % 2 == 1 && k < Half(|level|)
    ensures var padded := level + [level[|level| - 1]];
      Half(|padded|) == Half(|level|) && PairAt(level, k) == PairAt(padded, k)
  {
  }
}
