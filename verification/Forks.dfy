/**
 The search for the common ancestor of the chain's tip and a new head, over parent
 pointers in the block store, and the depth limit of a reorganization.
 */
module Forks {
  import opened Common
  import opened Encoding
  import opened BlockStore
  import Chain

  /** The pointer the walks follow; a missing block and one of height 0 have none. */
  function Parent(d: Disk, h: Hash): Option<Hash> {
    match GetBlock(d, h)
    case None => None
    case Some(b) => if b.header.height == 0 then None else Some(b.header.prevHash)
  }

  /** A stored parent has a smaller height than its child. */
  ghost predicate HeightsFall(d: Disk) {
    forall h :: Parent(d, h).Some? && GetBlock(d, Parent(d, h).value).Some? ==>
      GetBlock(d, Parent(d, h).value).value.header.height < GetBlock(d, h).value.header.height
  }

  /** The termination measure of both walks. */
  function Rank(d: Disk, h: Hash): nat {
    if GetBlock(d, h).Some? then GetBlock(d, h).value.header.height + 1 else 0
  }

  /** A hash followed by its ancestors, up to the first that is missing or has height 0. */
  ghost function Path(d: Disk, h: Hash): (r: seq<Hash>)
    requires HeightsFall(d)
    ensures r != [] && r[0] == h
    decreases Rank(d, h)
  {
    if Parent(d, h).None? then [h] else [h] + Path(d, Parent(d, h).value)
  }

  /** The rest of a path is the path of its first element. */
  lemma {:induction false} PathFrom(d: Disk, h: Hash, i: nat)
    requires HeightsFall(d) && i < |Path(d, h)|
    ensures Path(d, h)[i..] == Path(d, Path(d, h)[i])
    decreases i
  {
    if i > 0 {
      PathFrom(d, Parent(d, h).value, i - 1);
      assert Path(d, h)[i..] == Path(d, Parent(d, h).value)[i - 1..];
    }
  }

  /** Ranks fall along a path, so no hash occurs twice. */
  lemma {:induction false} PathFalls(d: Disk, h: Hash, i: nat)
    requires HeightsFall(d) && 0 < i < |Path(d, h)|
    ensures Rank(d, Path(d, h)[i]) < Rank(d, h)
    decreases i
  {
    var p := Parent(d, h).value;
    assert Rank(d, p) < Rank(d, h);
    assert Path(d, h)[i] == Path(d, p)[i - 1];
    if i > 1 { PathFalls(d, p, i - 1); }
  }

  lemma PathIsDistinct(d: Disk, h: Hash)
    requires HeightsFall(d)
    ensures Distinct(Path(d, h))
  {
    var p := Path(d, h);
    hide Path, Rank, HeightsFall;
    forall i, j | 0 <= i < j < |p|
      ensures p[i] != p[j]
    {
      PathFrom(d, h, i);
      PathFalls(d, p[i], j - i);
      assert p[i..][j - i] == p[j];
    }
  }

  /** Paths that meet are the same from there on. */
  lemma PathsMerge(d: Disk, g: Hash, h: Hash, i: nat, j: nat)
    requires HeightsFall(d) && i < |Path(d, g)| && j < |Path(d, h)| && Path(d, g)[i] == Path(d, h)[j]
    ensures Path(d, g)[i..] == Path(d, h)[j..]
  {
    PathFrom(d, g, i);
    PathFrom(d, h, j);
  }

  ghost predicate Meet(d: Disk, g: Hash, h: Hash)
    requires HeightsFall(d)
  {
    exists x :: x in Path(d, g) && x in Path(d, h)
  }

  /** The hashes on the path of one head that are not on the path of another. */
  ghost function Abandoned(d: Disk, tip: Hash, head: Hash): set<Hash>
    requires HeightsFall(d)
  {
    Elems(Path(d, tip)) - Elems(Path(d, head))
  }

  /** Hash number i of the tip's path is the first that is also on the other path. */
  ghost predicate FirstCommon(d: Disk, tip: Hash, head: Hash, i: nat)
    requires HeightsFall(d)
  {
    && i < |Path(d, tip)|
    && Path(d, tip)[i] in Path(d, head)
    && forall k :: 0 <= k < i ==> Path(d, tip)[k] !in Path(d, head)
  }

  /** What lies above the first common hash is exactly what a reorganization abandons. */
  lemma AboveTheAncestor(d: Disk, tip: Hash, head: Hash, i: nat)
    requires HeightsFall(d) && FirstCommon(d, tip, head, i)
    ensures Elems(Path(d, tip)[..i]) == Abandoned(d, tip, head)
    ensures |Abandoned(d, tip, head)| == i
  {
    var p, q := Path(d, tip), Path(d, head);
    var j :| 0 <= j < |q| && q[j] == p[i];
    PathsMerge(d, tip, head, i, j);
    PathIsDistinct(d, tip);
    hide Path, HeightsFall;
    DistinctCount(p[..i]);
    forall k | i <= k < |p|
      ensures p[k] in q
    {
      assert p[k] == p[i..][k - i] == q[j..][k - i];
    }
  }

  /** The search is symmetric: the first common hash of one path is the first common hash of the other. */
  lemma AncestorIsSymmetric(d: Disk, tip: Hash, head: Hash, i: nat, j: nat)
    requires HeightsFall(d) && FirstCommon(d, tip, head, i) && FirstCommon(d, head, tip, j)
    ensures Path(d, tip)[i] == Path(d, head)[j]
  {
    var p, q := Path(d, tip), Path(d, head);
    var i' :| 0 <= i' < |p| && p[i'] == q[j];
    var j' :| 0 <= j' < |q| && q[j'] == p[i];
    PathsMerge(d, tip, head, i', j);
    PathsMerge(d, tip, head, i, j');
    hide Path, HeightsFall;
    assert i <= i' && j <= j';
    assert |p| - i == |q| - j' && |p| - i' == |q| - j;
  }

  datatype Ancestor = Ancestor(hash: Hash, oldChain: seq<Hash>, newChain: seq<Hash>)

  /** Two walks: the whole path of the new head, then the tip's path up to the first hash on it. */
  method FindCommonAncestor(bc: Chain.Blockchain, newHead: Hash) returns (r: Option<Ancestor>)
    requires HeightsFall(bc.storage.data)
    ensures r.Some? <==> Meet(bc.storage.data, bc.latestHash, newHead)
    ensures r.Some? ==>
      var d, tip := bc.storage.data, bc.latestHash;
      && r.value.newChain == Path(d, newHead)
      && FirstCommon(d, tip, newHead, |r.value.oldChain|)
      && r.value.oldChain == Path(d, tip)[..|r.value.oldChain|]
      && r.value.hash == Path(d, tip)[|r.value.oldChain|]
  {
    hide Path, HeightsFall, Rank, GetBlock, FirstCommon, Meet;
    ghost var d := bc.storage.data;
    var newChain := [newHead];
    var current := newHead;
    while true
      invariant newChain != [] && newChain[|newChain| - 1] == current
      invariant newChain[..|newChain| - 1] + Path(d, current) == Path(d, newHead)
      decreases Rank(d, current)
    {
      var block := GetBlock(bc.storage.data, current);
      if block.None? || block.value.header.height == 0 {
        PathEnds(d, current);
        EndOfChain(newChain);
        break;
      }
      WalkOn(d, newChain, current);
      current := block.value.header.prevHash;
      newChain := newChain + [current];
    }
    assert newChain == Path(d, newHead);

    var oldChain: seq<Hash> := [];
    var tip := bc.latestHash;
    current := tip;
    while true
      invariant oldChain + Path(d, current) == Path(d, tip)
      invariant forall k :: 0 <= k < |oldChain| ==> oldChain[k] !in newChain
      decreases Rank(d, current)
    {
      var found := Contains(newChain, current);
      if found {
        CommonFound(d, oldChain, current, tip, newHead);
        return Some(Ancestor(current, oldChain, newChain));
      }
      var block := GetBlock(bc.storage.data, current);
      if block.None? || block.value.header.height == 0 {
        PathEnds(d, current);
        NothingCommon(d, oldChain + [current], tip, newHead);
        return None;
      }
      StepOn(d, oldChain, current);
      oldChain := oldChain + [current];
      current := block.value.header.prevHash;
    }
    assert false;
  }

  /** A path goes on with the path of the parent, which has a smaller rank. */
  lemma PathUnfolds(d: Disk, h: Hash)
    requires HeightsFall(d) && Parent(d, h).Some?
    ensures var next := Parent(d, h).value;
      Path(d, h) == [h] + Path(d, next) && Rank(d, next) < Rank(d, h)
  {
    hide GetBlock;
  }

  lemma WalkOn(d: Disk, chain: seq<Hash>, current: Hash)
    requires HeightsFall(d) && Parent(d, current).Some? && chain != [] && chain[|chain| - 1] == current
    ensures var next := Parent(d, current).value;
      chain[..|chain| - 1] + Path(d, current) == (chain + [next])[..|chain|] + Path(d, next)
      && Rank(d, next) < Rank(d, current)
  {
    hide Path, HeightsFall, Rank, Parent;
    PathUnfolds(d, current);
  }

  lemma StepOn(d: Disk, chain: seq<Hash>, current: Hash)
    requires HeightsFall(d) && Parent(d, current).Some?
    ensures var next := Parent(d, current).value;
      chain + Path(d, current) == chain + [current] + Path(d, next) && Rank(d, next) < Rank(d, current)
  {
    hide Path, HeightsFall, Rank, Parent;
    PathUnfolds(d, current);
  }

  lemma CommonFound(d: Disk, chain: seq<Hash>, current: Hash, tip: Hash, head: Hash)
    requires HeightsFall(d) && chain + Path(d, current) == Path(d, tip) && current in Path(d, head)
    requires forall k :: 0 <= k < |chain| ==> chain[k] !in Path(d, head)
    ensures FirstCommon(d, tip, head, |chain|) && Meet(d, tip, head)
    ensures Path(d, tip)[|chain|] == current && chain == Path(d, tip)[..|chain|]
  {
    assert Path(d, tip)[|chain|] == current;
  }

  lemma NothingCommon(d: Disk, chain: seq<Hash>, tip: Hash, head: Hash)
    requires HeightsFall(d) && chain == Path(d, tip)
    requires forall k :: 0 <= k < |chain| ==> chain[k] !in Path(d, head)
    ensures !Meet(d, tip, head)
  {
  }

  lemma EndOfChain(chain: seq<Hash>)
    requires chain != []
    ensures chain[..|chain| - 1] + [chain[|chain| - 1]] == chain
  {
  }

  lemma PathEnds(d: Disk, current: Hash)
    requires HeightsFall(d) && Parent(d, current).None?
    ensures Path(d, current) == [current]
  {
  }

  datatype Reorganization = Accepted | NoCommonAncestor | TooDeep(depth: nat)

  /** A head is accepted exactly if its path meets the tip's and at most limit blocks are abandoned. */
  method HandleReorganization(bc: Chain.Blockchain, newHead: Hash, reorgLimit: int) returns (r: Reorganization)
    requires HeightsFall(bc.storage.data)
    ensures r.NoCommonAncestor? <==> !Meet(bc.storage.data, bc.latestHash, newHead)
    ensures var abandoned := |Abandoned(bc.storage.data, bc.latestHash, newHead)|;
      Meet(bc.storage.data, bc.latestHash, newHead) ==>
        r == if abandoned > reorgLimit then TooDeep(abandoned) else Accepted
  {
    var found := FindCommonAncestor(bc, newHead);
    if found.None? { return NoCommonAncestor; }
    AboveTheAncestor(bc.storage.data, bc.latestHash, newHead, |found.value.oldChain|);
    if |found.value.oldChain| > reorgLimit { return TooDeep(|found.value.oldChain|); }
    return Accepted;
  }

  // ------------------------------------------------------------------ stores the chain produces

  /** Blocks are stored under their own hash, and above height 1 the parent is stored one below. */
  ghost predicate Rooted(d: Disk) {
    forall h :: GetBlock(d, h).Some? ==>
      var b := GetBlock(d, h).value.header;
      && b.hash == h
      && (b.height > 1 ==> GetBlock(d, b.prevHash).Some? && GetBlock(d, b.prevHash).value.header.height == b.height - 1)
  }

  lemma AppendKeepsRooted(env: Chain.Env, s: Chain.State, b: Block, heightWorks: bool)
    requires Chain.Good(env, s) && Rooted(s.disk) && Chain.Validate(env, s, b).None?
    ensures Rooted(Chain.Add(env, s, b, true, heightWorks).0.disk)
  {
    var d := Chain.Add(env, s, b, true, heightWorks).0.disk;
    forall h | GetBlock(d, h).Some?
      ensures var g := GetBlock(d, h).value.header;
        && g.hash == h
        && (g.height > 1 ==>
              GetBlock(d, g.prevHash).Some? && GetBlock(d, g.prevHash).value.header.height == g.height - 1)
    {
      Chain.AppendReads(env, s, b, heightWorks, h);
      Chain.AppendReads(env, s, b, heightWorks, GetBlock(d, h).value.header.prevHash);
      if b.header.height > 1 { ParentOfNext(env, s, b); }
      hide Chain.Validate, Chain.Add, GetBlock;
    }
  }

  /** The parent of a valid block above height 1 is the stored tip. */
  lemma ParentOfNext(env: Chain.Env, s: Chain.State, b: Block)
    requires Chain.Good(env, s) && Rooted(s.disk) && Chain.Validate(env, s, b).None? && b.header.height > 1
    ensures var parent := GetBlock(s.disk, b.header.prevHash);
      parent.Some? && parent.value.header.height == b.header.height - 1
  {
    hide GetBlock, BlockAt, Rooted, Chain.CheckTransactions;
    Chain.NextHeight(s.latestHeight);
    assert Chain.Resolves(env, s.disk, s.latestHeight);
    BlockByHash(s.disk, s.latestHeight);
  }

  /** Every store that a run of appends, failures and crashes produces is rooted. */
  lemma {:induction false} RunKeepsRooted(env: Chain.Env, ops: seq<Chain.Op>)
    ensures Rooted(Chain.Run(env, Chain.Fresh(), ops).disk)
  {
    if ops != [] {
      var before := Chain.Run(env, Chain.Fresh(), ops[..|ops| - 1]);
      RunKeepsRooted(env, ops[..|ops| - 1]);
      Chain.RunKeepsChain(env, ops[..|ops| - 1]);
      hide Rooted, Chain.Good, Chain.Validate;
      match ops[|ops| - 1]
      case CrashAndReopen =>
      case Append(b, batchWorks, heightWorks) =>
        if Chain.Validate(env, before, b).None? && batchWorks { AppendKeepsRooted(env, before, b, heightWorks); }
    }
  }

  /** No block of height 1 names a stored block above height 0 as its parent, which validation does not check. */
  ghost predicate FirstBlocksAreRoots(d: Disk) {
    forall h :: GetBlock(d, h).Some? && GetBlock(d, h).value.header.height == 1 ==>
      Rank(d, GetBlock(d, h).value.header.prevHash) <= 1
  }

  /** On every store the chain produces, the search's assumption holds exactly when that is so. */
  lemma RunStoresFall(env: Chain.Env, ops: seq<Chain.Op>)
    ensures var d := Chain.Run(env, Chain.Fresh(), ops).disk;
      HeightsFall(d) <==> FirstBlocksAreRoots(d)
  {
    RunKeepsRooted(env, ops);
    var d := Chain.Run(env, Chain.Fresh(), ops).disk;
    hide GetBlock, Chain.Run;
    if HeightsFall(d) {
      forall h | GetBlock(d, h).Some? && GetBlock(d, h).value.header.height == 1
        ensures Rank(d, GetBlock(d, h).value.header.prevHash) <= 1
      {
        assert Parent(d, h).Some?;
      }
    }
  }

  /** A second first block that names the one before it as its parent violates the assumption. */
  lemma SecondFirstBlock(env: Chain.Env, s: Chain.State, b: Block, c: Block)
    requires b.header.height == c.header.height == 1 && c.header.prevHash == b.header.hash
    requires Chain.Validate(env, s, b).None?
    requires Chain.Validate(env, Chain.Add(env, s, b, true, false).0, c).None?
    ensures !HeightsFall(Chain.Add(env, Chain.Add(env, s, b, true, false).0, c, true, true).0.disk)
  {
    var u := Chain.Add(env, s, b, true, false).0;
    var d := Chain.Add(env, u, c, true, true).0.disk;
    Chain.AppendReads(env, s, b, false, b.header.hash);
    Chain.AppendReads(env, u, c, true, c.header.hash);
    Chain.AppendReads(env, u, c, true, b.header.hash);
    hide GetBlock, Chain.Validate, Chain.Add;
    assert Parent(d, c.header.hash) == Some(b.header.hash);
  }

  function FirstBlock(hash: Hash, prevHash: Hash): Block {
    Block(BlockHeader(hash, prevHash, 0, ZERO_HASH, ZERO_ADDRESS, [], 0, 1, 0), [])
  }

  /**
   A run whose store violates the assumption: the height write of a first block is lost, and
   a second first block that names it as its parent is appended.
   */
  lemma FirstBlocksCanClimb() returns (env: Chain.Env, ops: seq<Chain.Op>)
    ensures !HeightsFall(Chain.Run(env, Chain.Fresh(), ops).disk)
  {
    var x, y := Hash([1] + Zeros(31)), Hash([2] + Zeros(31));
    assert x.bytes[0] != y.bytes[0];
    var b, c := FirstBlock(x, ZERO_HASH), FirstBlock(y, x);
    assert x.bytes[0] != ZERO_HASH.bytes[0];
    if HeaderBody(b.header) == HeaderBody(c.header) {
      HeaderBodyInjective(b.header, c.header);
      assert false;
    }
    var first := HeaderBody(b.header);
    env := Chain.Env((body: Bytes) => if body == first then x else y, (p, q) => p, _ => true, _ => true, 0, 0);
    ops := [Chain.Append(b, true, false), Chain.Append(c, true, true)];
    assert ops[..1] == [ops[0]] && ops[..0] == [];
    var s := Chain.Fresh();
    hide HeaderBody;
    FirstBlockIsValid(env, s, b);
    var u := Chain.Add(env, s, b, true, false).0;
    Chain.AppendReads(env, s, b, false, y);
    FirstBlockIsValid(env, u, c);
    SecondFirstBlock(env, s, b, c);
    RunOfTwo(env, s, ops);
  }

  lemma FirstBlockIsValid(env: Chain.Env, s: Chain.State, b: Block)
    requires s.latestHeight == 0 && b == FirstBlock(b.header.hash, b.header.prevHash)
    requires GetBlock(s.disk, b.header.hash).None? && env.keccak(HeaderBody(b.header)) == b.header.hash
    requires env.maxBlockSize == 0 && env.maxTxPerBlock == 0
    ensures Chain.Validate(env, s, b).None?
  {
    hide HeaderBody, GetBlock;
  }

  lemma RunOfTwo(env: Chain.Env, s: Chain.State, ops: seq<Chain.Op>)
    requires |ops| == 2
    ensures Chain.Run(env, s, ops) == Chain.Apply(env, Chain.Apply(env, s, ops[0]), ops[1])
  {
    hide Chain.Apply;
    assert ops[..1] == [ops[0]] && [ops[0]][..0] == [];
    assert Chain.Run(env, s, [ops[0]]) == Chain.Apply(env, s, ops[0]);
  }

  /** From its tip down to height 1, the path of a good chain is its blocks by height. */
  lemma {:induction false} TipPathIsTheChain(env: Chain.Env, s: Chain.State, n: u64, i: nat)
    requires Chain.Good(env, s) && Rooted(s.disk) && HeightsFall(s.disk) && i < n <= s.latestHeight
    ensures BlockAt(s.disk, n).Some? && BlockAt(s.disk, n - i).Some?
    ensures var p := Path(s.disk, BlockAt(s.disk, n).value.header.hash);
      i < |p| && p[i] == BlockAt(s.disk, n - i).value.header.hash
    decreases i
  {
    hide BlockAt, Rooted, HeightsFall, Path, Parent, GetBlock, Chain.Good;
    GoodAt(env, s, n);
    if i > 0 {
      GoodAt(env, s, n - 1);
      TipPathIsTheChain(env, s, n - 1, i - 1);
      PathOfChild(env, s.disk, n);
    }
  }

  lemma GoodAt(env: Chain.Env, s: Chain.State, n: u64)
    requires Chain.Good(env, s) && 1 <= n <= s.latestHeight
    ensures Chain.Resolves(env, s.disk, n) && Chain.Linked(s.disk, n)
  {
  }

  lemma PathOfChild(env: Chain.Env, d: Disk, n: u64)
    requires Rooted(d) && HeightsFall(d) && n > 1
    requires Chain.Resolves(env, d, n) && Chain.Resolves(env, d, n - 1) && Chain.Linked(d, n)
    ensures var h, g := BlockAt(d, n).value.header.hash, BlockAt(d, n - 1).value.header.hash;
      Path(d, h) == [h] + Path(d, g)
  {
    BlockByHash(d, n);
    hide BlockAt, GetBlock;
  }

  lemma BlockByHash(d: Disk, n: u64)
    requires Rooted(d) && BlockAt(d, n).Some?
    ensures GetBlock(d, BlockAt(d, n).value.header.hash) == BlockAt(d, n)
  {
    hide GetBlock;
  }
}
