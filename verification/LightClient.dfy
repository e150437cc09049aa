/**
 The light client: a window of linked headers kept in two maps, its eviction loop, and
 inclusion proofs checked against a stored header.
 */
module LightClient {
  import opened Common
  import opened Encoding
  import Merkle
  import Chain
  import BlockStore

  datatype Config = Config(
    maxHeaders: int,
    verifySignatures: bool,
    keccak: Bytes -> Hash,
    signatureOk: BlockHeader -> bool)

  datatype State = State(
    headers: map<u64, BlockHeader>,
    hashToHeight: map<Hash, u64>,
    latestHeight: u64,
    latestHash: Hash)

  datatype Error = AlreadyExists | Conflict | NoParent | InvalidLink | InvalidHash | InvalidSignature

  const EMPTY := State(map[], map[], 0, ZERO_HASH)

  function CalculateHash(c: Config, h: BlockHeader): Hash {
    c.keccak(HeaderBody(h))
  }

  /** The checks of an offered header, in the source's order. */
  function Validate(c: Config, s: State, h: BlockHeader): Option<Error> {
    if h.height in s.headers then
      if s.headers[h.height].hash == h.hash then Some(AlreadyExists) else Some(Conflict)
    else if h.height > 0 && h.height - 1 !in s.headers then Some(NoParent)
    else if h.height > 0 && h.prevHash != s.headers[h.height - 1].hash then Some(InvalidLink)
    else if CalculateHash(c, h) != h.hash then Some(InvalidHash)
    else if c.verifySignatures && |h.signature| > 0 && !c.signatureOk(h) then Some(InvalidSignature)
    else None
  }

  function Insert(s: State, h: BlockHeader): State {
    State(
      s.headers[h.height := h],
      s.hashToHeight[h.hash := h.height],
      if h.height > s.latestHeight then h.height else s.latestHeight,
      if h.height > s.latestHeight then h.hash else s.latestHash)
  }

  function Delete(s: State, n: u64): State
    requires n in s.headers
  {
    s.(headers := s.headers - {n}, hashToHeight := s.hashToHeight - {s.headers[n].hash})
  }

  /** Removes up to toRemove headers, lowest first, from height on and below the latest. */
  function EvictFrom(s: State, height: nat, toRemove: int): State
    decreases s.latestHeight - height
  {
    if toRemove <= 0 || height >= s.latestHeight then s
    else if height in s.headers then EvictFrom(Delete(s, height), height + 1, toRemove - 1)
    else EvictFrom(s, height + 1, toRemove)
  }

  function Evict(c: Config, s: State): State {
    EvictFrom(s, 1, |s.headers| - c.maxHeaders)
  }

  function Add(c: Config, s: State, h: BlockHeader): (State, Option<Error>) {
    if Validate(c, s, h).Some? then (s, Validate(c, s, h)) else (Evict(c, Insert(s, h)), None)
  }

  // ------------------------------------------------------------------ the window

  /** Exactly height 0 and the heights from lo to the latest are stored. */
  ghost predicate Window(s: State, lo: int) {
    && 1 <= lo <= Max(s.latestHeight, 1)
    && forall n: u64 :: n in s.headers <==> n == 0 || lo <= n <= s.latestHeight
  }

  /** A header has the hash of its fields and, if that is asked for, a signature that is missing or passes. */
  ghost predicate Genuine(c: Config, h: BlockHeader) {
    && c.keccak(HeaderBody(h)) == h.hash
    && (c.verifySignatures ==> h.signature == [] || c.signatureOk(h))
  }

  /** Every stored header is genuine and stored under its own height. */
  ghost predicate Sound(c: Config, s: State) {
    forall n: u64 :: n in s.headers ==> s.headers[n].height == n && Genuine(c, s.headers[n])
  }

  /** Stored headers of consecutive heights are linked. */
  ghost predicate Linked(s: State) {
    forall n: u64 :: n in s.headers && n > 0 && n - 1 in s.headers ==> s.headers[n].prevHash == s.headers[n - 1].hash
  }

  /** The hash index is the exact inverse of the height index. */
  ghost predicate Inverse(s: State) {
    && (forall n: u64 :: n in s.headers ==>
          s.headers[n].hash in s.hashToHeight && s.hashToHeight[s.headers[n].hash] == n)
    && (forall h :: h in s.hashToHeight ==>
          s.hashToHeight[h] in s.headers && s.headers[s.hashToHeight[h]].hash == h)
  }

  /** The hash inputs of all stored headers are among u. */
  ghost predicate Within(s: State, u: set<Bytes>) {
    forall n: u64 :: n in s.headers ==> HeaderBody(s.headers[n]) in u
  }

  ghost predicate Consistent(c: Config, s: State, u: set<Bytes>) {
    Sound(c, s) && Linked(s) && Inverse(s) && Within(s, u)
  }

  ghost predicate TipIsLatest(s: State) {
    s.latestHash ==
      if s.latestHeight > 0 && s.latestHeight in s.headers then s.headers[s.latestHeight].hash else ZERO_HASH
  }

  /** A window that starts above height 1 is full. */
  ghost predicate Sized(c: Config, s: State, lo: int) {
    |s.headers| <= Max(c.maxHeaders, 2) && (lo > 1 ==> |s.headers| == Max(c.maxHeaders, 2))
  }

  ghost predicate GoodFrom(c: Config, s: State, u: set<Bytes>, lo: int) {
    Window(s, lo) && Consistent(c, s, u) && TipIsLatest(s) && Sized(c, s, lo)
  }

  /** What every reachable state is: empty, or height 0 and one linked range that ends at the latest height. */
  ghost predicate Good(c: Config, s: State, u: set<Bytes>) {
    s == EMPTY || exists lo: int :: GoodFrom(c, s, u, lo)
  }

  function Range(lo: nat, hi: int): (r: set<u64>)
    requires hi < TWO_64
    ensures forall n: u64 :: n in r <==> lo <= n <= hi
    decreases hi - lo
  {
    if lo > hi then {} else Range(lo, hi - 1) + {hi}
  }

  lemma {:induction false} RangeSize(lo: nat, hi: int)
    requires hi < TWO_64
    ensures |Range(lo, hi)| == if lo <= hi then hi - lo + 1 else 0
    decreases hi - lo
  {
    if lo <= hi {
      RangeSize(lo, hi - 1);
      assert Range(lo, hi) == Range(lo, hi - 1) + {hi};
    } else {
      assert Range(lo, hi) == {};
    }
  }

  lemma WindowSize(s: State, lo: int)
    requires Window(s, lo)
    ensures |s.headers| == if lo <= s.latestHeight then s.latestHeight - lo + 2 else 1
  {
    RangeSize(lo, s.latestHeight);
    assert s.headers.Keys == {0} + Range(lo, s.latestHeight);
    assert |s.headers| == |s.headers.Keys|;
  }

  /** Deleting keeps consistency: nothing stored is changed and the two maps shrink together. */
  lemma DeleteKeepsConsistent(c: Config, s: State, n: u64, u: set<Bytes>)
    requires Consistent(c, s, u) && n in s.headers
    ensures Consistent(c, Delete(s, n), u)
  {
    hide CalculateHash, HeaderBody;
    DeleteKeepsInverse(s, n);
    hide Inverse;
    DeleteKeepsSound(c, s, n, u);
  }

  lemma DeleteKeepsInverse(s: State, n: u64)
    requires Inverse(s) && n in s.headers
    ensures Inverse(Delete(s, n))
  {
  }

  lemma DeleteKeepsSound(c: Config, s: State, n: u64, u: set<Bytes>)
    requires Sound(c, s) && Linked(s) && Within(s, u) && n in s.headers
    ensures Sound(c, Delete(s, n)) && Linked(Delete(s, n)) && Within(Delete(s, n), u)
  {
    hide CalculateHash, HeaderBody, Genuine;
  }

  lemma DeleteKeepsTip(s: State, n: u64)
    requires TipIsLatest(s) && n in s.headers && n < s.latestHeight
    ensures TipIsLatest(Delete(s, n)) && Delete(s, n).latestHeight == s.latestHeight
  {
  }

  /** Eviction keeps consistency and never removes the latest header. */
  lemma {:induction false} EvictKeepsConsistent(c: Config, s: State, height: nat, k: int, u: set<Bytes>)
    requires Consistent(c, s, u) && TipIsLatest(s)
    ensures Consistent(c, EvictFrom(s, height, k), u) && TipIsLatest(EvictFrom(s, height, k))
    decreases s.latestHeight - height
  {
    hide Consistent, TipIsLatest, Delete;
    if k > 0 && height < s.latestHeight {
      if height in s.headers {
        DeleteKeepsConsistent(c, s, height, u);
        DeleteKeepsTip(s, height);
        EvictKeepsConsistent(c, Delete(s, height), height + 1, k - 1, u);
      } else {
        EvictKeepsConsistent(c, s, height + 1, k, u);
      }
    }
  }

  /** The lower end of a window after evicting k of its headers. */
  function Raised(lo: int, latest: int, k: int): int {
    if k <= 0 || lo >= latest then lo else if lo + k <= latest then lo + k else latest
  }

  /** Evicting from a window raises its lower end by the number removed, but never past the latest. */
  lemma {:induction false} EvictRaisesWindow(s: State, lo: int, k: int)
    requires Window(s, lo)
    ensures EvictFrom(s, lo, k).latestHeight == s.latestHeight
    ensures Window(EvictFrom(s, lo, k), Raised(lo, s.latestHeight, k))
    decreases s.latestHeight - lo
  {
    if k > 0 && lo < s.latestHeight {
      EvictRaisesWindow(Delete(s, lo), lo + 1, k - 1);
    }
  }

  lemma {:induction false} EvictSkipsGap(s: State, low: int, high: int, k: int)
    requires 0 <= low <= high <= s.latestHeight
    requires forall n: u64 :: low <= n < high ==> n !in s.headers
    ensures EvictFrom(s, low, k) == EvictFrom(s, high, k)
    decreases high - low
  {
    if low < high { EvictSkipsGap(s, low + 1, high, k); }
  }

  /**
   A header is accepted exactly if its height is free, its parent is stored and named, and
   it is genuine. Of the refusals, a height that is taken comes first, and the hash says which.
   */
  lemma AcceptedExactlyIfLinkedAndGenuine(c: Config, s: State, h: BlockHeader)
    ensures Add(c, s, h).1.None? <==>
      && h.height !in s.headers
      && (h.height > 0 ==> h.height - 1 in s.headers && s.headers[h.height - 1].hash == h.prevHash)
      && Genuine(c, h)
    ensures Add(c, s, h).1.Some? ==> Add(c, s, h).0 == s
    ensures Add(c, s, h).1 == Some(AlreadyExists) <==> h.height in s.headers && s.headers[h.height].hash == h.hash
    ensures Add(c, s, h).1 == Some(Conflict) <==> h.height in s.headers && s.headers[h.height].hash != h.hash
  {
    hide HeaderBody, Evict, Insert;
  }

  /** What a refusal says is so. */
  lemma RefusalsTellTheTruth(c: Config, s: State, h: BlockHeader, error: Error)
    requires Validate(c, s, h) == Some(error)
    ensures match error
      case AlreadyExists => h.height in s.headers && s.headers[h.height].hash == h.hash
      case Conflict => h.height in s.headers && s.headers[h.height].hash != h.hash
      case NoParent => h.height > 0 && h.height - 1 !in s.headers
      case InvalidLink => h.height > 0 && h.height - 1 in s.headers && s.headers[h.height - 1].hash != h.prevHash
      case InvalidHash => c.keccak(HeaderBody(h)) != h.hash
      case InvalidSignature => c.verifySignatures && h.signature != [] && !c.signatureOk(h)
  {
    hide HeaderBody;
  }

  lemma ValidIsLinked(c: Config, s: State, h: BlockHeader)
    requires Validate(c, s, h).None?
    ensures h.height !in s.headers
    ensures h.height > 0 ==> h.height - 1 in s.headers && h.prevHash == s.headers[h.height - 1].hash
  {
    hide HeaderBody;
  }

  lemma ValidIsGenuine(c: Config, s: State, h: BlockHeader)
    requires Validate(c, s, h).None?
    ensures Genuine(c, h)
  {
    hide HeaderBody;
  }

  /** A header that passes validation is new to both maps. */
  lemma NewHeaderHasNewHash(c: Config, s: State, h: BlockHeader, u: set<Bytes>)
    requires Consistent(c, s, u) && Validate(c, s, h).None?
    requires HeaderBody(h) in u && CollisionFree(c.keccak, u)
    ensures h.hash !in s.hashToHeight
  {
    if h.hash in s.hashToHeight {
      var n := s.hashToHeight[h.hash];
      var g := s.headers[n];
      hide HeaderBody;
      HeaderBodyInjective(g, h);
      assert false;
    }
  }

  /** Storing a valid header keeps consistency. */
  lemma InsertKeepsConsistent(c: Config, s: State, h: BlockHeader, u: set<Bytes>)
    requires Consistent(c, s, u) && Validate(c, s, h).None? && h.hash !in s.hashToHeight && HeaderBody(h) in u
    requires h.height + 1 < TWO_64 ==> h.height + 1 !in s.headers
    ensures Consistent(c, Insert(s, h), u)
  {
    hide CalculateHash, HeaderBody;
    InsertKeepsInverse(s, h);
    hide Inverse;
    InsertKeepsSound(c, s, h, u);
  }

  lemma InsertKeepsInverse(s: State, h: BlockHeader)
    requires Inverse(s) && h.height !in s.headers && h.hash !in s.hashToHeight
    ensures Inverse(Insert(s, h))
  {
  }

  lemma InsertKeepsSound(c: Config, s: State, h: BlockHeader, u: set<Bytes>)
    requires Sound(c, s) && Linked(s) && Within(s, u) && Validate(c, s, h).None? && HeaderBody(h) in u
    requires h.height + 1 < TWO_64 ==> h.height + 1 !in s.headers
    ensures Sound(c, Insert(s, h)) && Linked(Insert(s, h)) && Within(Insert(s, h), u)
  {
    hide CalculateHash, HeaderBody, Genuine;
    ValidIsGenuine(c, s, h);
    ValidIsLinked(c, s, h);
    hide Validate;
  }

  /** A valid header fits only on top of the window or, when height 1 was evicted, at height 1. */
  lemma PlaceOfValidHeader(c: Config, s: State, h: BlockHeader, lo: int)
    requires Window(s, lo) && Validate(c, s, h).None?
    ensures h.height == s.latestHeight + 1 || h.height == 1 < lo
  {
    hide CalculateHash;
  }

  lemma InsertThenDelete(s: State, h: BlockHeader)
    requires h.height !in s.headers && h.hash !in s.hashToHeight && h.height <= s.latestHeight
    ensures Delete(Insert(s, h), h.height) == s
    ensures |Insert(s, h).headers| == |s.headers| + 1
  {
    assert Delete(Insert(s, h), h.height).headers == s.headers;
    assert Delete(Insert(s, h), h.height).hashToHeight == s.hashToHeight;
  }

  /** Evicting what a full window with height 1 put back is over gives the window again. */
  lemma EvictTakesHeightOneBack(c: Config, s: State, t: State, lo: int)
    requires Window(s, lo) && Sized(c, s, lo) && 1 < lo
    requires 1 in t.headers && t.latestHeight == s.latestHeight && Delete(t, 1) == s && |t.headers| == |s.headers| + 1
    ensures Evict(c, t) == s
  {
    WindowSize(s, lo);
    var k := |t.headers| - c.maxHeaders;
    assert EvictFrom(t, 1, k) == EvictFrom(s, 2, k - 1);
    EvictSkipsGap(s, 2, lo, k - 1);
  }

  /**
   An evicted height 1 that is offered again is accepted and at once evicted: the
   state is left exactly as it was.
   */
  lemma ReofferedHeightIsForgotten(c: Config, s: State, h: BlockHeader, u: set<Bytes>, lo: int)
    requires GoodFrom(c, s, u, lo) && Validate(c, s, h).None? && h.height != s.latestHeight + 1
    requires HeaderBody(h) in u && CollisionFree(c.keccak, u)
    ensures h.height == 1 < lo
    ensures Add(c, s, h).0 == s
  {
    hide HeaderBody, CalculateHash, Window, Consistent, Sized, Delete, Insert, Evict, TipIsLatest;
    NewHeaderHasNewHash(c, s, h, u);
    PlaceOfValidHeader(c, s, h, lo);
    LowerEndIsBelowLatest(s, lo);
    InsertThenDelete(s, h);
    InsertEffect(s, h);
    EvictTakesHeightOneBack(c, s, Insert(s, h), lo);
  }

  lemma LowerEndIsBelowLatest(s: State, lo: int)
    requires Window(s, lo) && 1 < lo
    ensures lo <= s.latestHeight
  {
  }

  lemma InsertEffect(s: State, h: BlockHeader)
    ensures h.height in Insert(s, h).headers
    ensures Insert(s, h).latestHeight == Max(s.latestHeight, h.height)
  {
  }

  lemma InsertOnTop(s: State, h: BlockHeader, lo: int)
    requires Window(s, lo) && h.height == s.latestHeight + 1
    ensures Window(Insert(s, h), lo) && TipIsLatest(Insert(s, h))
    ensures h.height + 1 < TWO_64 ==> h.height + 1 !in s.headers
  {
  }

  /** A window that has one header more than allowed is evicted down to the allowed size. */
  lemma EvictWindow(c: Config, t: State, u: set<Bytes>, lo: int) returns (lo': int)
    requires Window(t, lo) && Consistent(c, t, u) && TipIsLatest(t) && t.latestHeight > 0
    requires |t.headers| <= Max(c.maxHeaders, 2) + 1
    requires lo > 1 ==> |t.headers| == Max(c.maxHeaders, 2) + 1
    ensures GoodFrom(c, Evict(c, t), u, lo')
    ensures Evict(c, t).latestHeight == t.latestHeight
  {
    hide Consistent, TipIsLatest;
    WindowSize(t, lo);
    var k := |t.headers| - c.maxHeaders;
    lo' := Raised(lo, t.latestHeight, k);
    EvictKeepsConsistent(c, t, 1, k, u);
    EvictSkipsGap(t, 1, lo, k);
    EvictRaisesWindow(t, lo, k);
    hide Window, EvictFrom;
    WindowSize(EvictFrom(t, 1, k), lo');
  }

  /** A header on top of the window moves the window up. */
  lemma NextHeaderMovesWindow(c: Config, s: State, h: BlockHeader, u: set<Bytes>, lo: int) returns (lo': int)
    requires GoodFrom(c, s, u, lo) && Validate(c, s, h).None? && h.height == s.latestHeight + 1
    requires HeaderBody(h) in u && CollisionFree(c.keccak, u)
    ensures GoodFrom(c, Add(c, s, h).0, u, lo')
    ensures Add(c, s, h).0.latestHeight == h.height
  {
    hide HeaderBody, CalculateHash, Window, Consistent, EvictFrom, TipIsLatest, Evict;
    NewHeaderHasNewHash(c, s, h, u);
    InsertOnTop(s, h, lo);
    InsertKeepsConsistent(c, s, h, u);
    assert |Insert(s, h).headers| == |s.headers| + 1;
    lo' := EvictWindow(c, Insert(s, h), u, lo);
  }

  lemma FirstHeaderIsHeightZero(c: Config, h: BlockHeader, u: set<Bytes>)
    requires Validate(c, EMPTY, h).None? && HeaderBody(h) in u
    ensures h.height == 0 && GoodFrom(c, Add(c, EMPTY, h).0, u, 1)
  {
    hide HeaderBody;
    var t := Insert(EMPTY, h);
    assert EvictFrom(t, 1, |t.headers| - c.maxHeaders) == t;
    WindowSize(t, 1);
  }

  /** Offering any header keeps the window, whatever the outcome. */
  lemma AddKeepsWindow(c: Config, s: State, h: BlockHeader, u: set<Bytes>)
    requires Good(c, s, u) && HeaderBody(h) in u && CollisionFree(c.keccak, u)
    ensures Good(c, Add(c, s, h).0, u)
  {
    hide GoodFrom, Validate, Evict, Insert;
    if Validate(c, s, h).None? {
      if s == EMPTY {
        FirstHeaderIsHeightZero(c, h, u);
      } else {
        var lo :| GoodFrom(c, s, u, lo);
        if h.height == s.latestHeight + 1 {
          var lo' := NextHeaderMovesWindow(c, s, h, u, lo);
        } else {
          ReofferedHeightIsForgotten(c, s, h, u, lo);
        }
      }
    }
  }

  datatype Op = Offer(header: BlockHeader) | Reset

  function Apply(c: Config, s: State, op: Op): State {
    match op
    case Offer(h) => Add(c, s, h).0
    case Reset => EMPTY
  }

  function Run(c: Config, ops: seq<Op>): State {
    if ops == [] then EMPTY else Apply(c, Run(c, ops[..|ops| - 1]), ops[|ops| - 1])
  }

  /** The strings hashed for the headers offered in a run. */
  ghost function Offered(ops: seq<Op>): set<Bytes> {
    set i | 0 <= i < |ops| && ops[i].Offer? :: HeaderBody(ops[i].header)
  }

  /** After any run the stored headers are a good window. */
  lemma {:induction false} RunKeepsWindow(c: Config, ops: seq<Op>, u: set<Bytes>)
    requires Offered(ops) <= u && CollisionFree(c.keccak, u)
    ensures Good(c, Run(c, ops), u)
  {
    hide Good, Add, CollisionFree, HeaderBody;
    if ops == [] {
      EmptyIsGood(c, u);
    } else {
      var last := |ops| - 1;
      RunKeepsWindow(c, ops[..last], u);
      match ops[last]
      case Offer(h) => AddKeepsWindow(c, Run(c, ops[..last]), h, u);
      case Reset => EmptyIsGood(c, u);
    }
  }

  lemma EmptyIsGood(c: Config, u: set<Bytes>)
    ensures Good(c, EMPTY, u)
  {
  }

  /** What a caller can read off after any run. */
  lemma WindowAfterRun(c: Config, ops: seq<Op>, u: set<Bytes>)
    requires Offered(ops) <= u && CollisionFree(c.keccak, u)
    ensures var s := Run(c, ops);
      && |s.headers| <= Max(c.maxHeaders, 2)
      && Linked(s) && Inverse(s) && TipIsLatest(s) && Sound(c, s)
      && (s.headers != map[] ==> exists lo: int :: Window(s, lo))
  {
    RunKeepsWindow(c, ops, u);
  }

  // ------------------------------------------------------------------ inclusion

  datatype Verdict = Included | HeaderMissing | ProofMissing | InvalidProof | Panic

  /** The transaction hash is not compared with anything. */
  function Inclusion(hp: Merkle.PairHash, s: State, height: u64, proof: Option<Merkle.Proof>): Verdict {
    if height !in s.headers then HeaderMissing
    else if proof.None? then ProofMissing
    else match Merkle.Check(hp, proof.value, s.headers[height].merkleRoot)
      case None => Panic
      case Some(ok) => if ok then Included else InvalidProof
  }

  /** What each verdict says is so. */
  lemma VerdictsTellTheTruth(hp: Merkle.PairHash, s: State, height: u64, proof: Option<Merkle.Proof>)
    ensures var verdict := Inclusion(hp, s, height, proof);
      && (verdict == HeaderMissing <==> height !in s.headers)
      && (verdict == ProofMissing <==> height in s.headers && proof.None?)
      && (verdict == Panic <==> height in s.headers && proof.Some? && |proof.value.hashes| > |proof.value.flags|)
      && (verdict == Included <==>
            && height in s.headers && proof.Some? && |proof.value.hashes| <= |proof.value.flags|
            && Merkle.Climb(hp, proof.value.leaf, proof.value.hashes, proof.value.flags)
               == s.headers[height].merkleRoot)
  {
  }

  /**
   End to end: when the header of a block that the chain accepts is stored, the proof
   generated for any of the block's transactions is accepted.
   */
  lemma AcceptedBlocksProveTheirTransactions(env: Chain.Env, chain: Chain.State, b: BlockStore.Block, s: State, i: nat)
    requires Chain.Validate(env, chain, b).None? && i < |b.transactions|
    requires b.header.height in s.headers && s.headers[b.header.height] == b.header
    ensures var leaves := Chain.TransactionHashes(env, b.transactions);
      var proof := Merkle.Proof(i, leaves[i], Merkle.Siblings(env.pairHash, leaves, i), Merkle.Sides(|leaves|, i));
      Inclusion(env.pairHash, s, b.header.height, Some(proof)) == Included
  {
    Merkle.GeneratedProofsVerify(env.pairHash, Chain.TransactionHashes(env, b.transactions), i);
  }

  /**
   Conversely, an accepted proof of the right length for such a header carries the hash of
   the transaction at the position its flags spell.
   */
  lemma AcceptedProofsNameATransaction(
      env: Chain.Env, chain: Chain.State, b: BlockStore.Block, s: State, proof: Merkle.Proof, u: set<(Hash, Hash)>)
    requires Chain.Validate(env, chain, b).None? && b.transactions != []
    requires b.header.height in s.headers && s.headers[b.header.height] == b.header
    requires |proof.hashes| == Merkle.Levels(|b.transactions|) <= |proof.flags|
    requires Merkle.TreePairs(env.pairHash, Chain.TransactionHashes(env, b.transactions)) <= u
    requires Merkle.ClimbPairs(env.pairHash, proof.leaf, proof.hashes, proof.flags) <= u
    requires Merkle.NoPairCollision(env.pairHash, u)
    requires Inclusion(env.pairHash, s, b.header.height, Some(proof)) == Included
    ensures proof.leaf == Chain.TransactionHash(env, b.transactions[Merkle.Position(|b.transactions|, proof.flags)])
    ensures proof.leaf == b.transactions[Merkle.Position(|b.transactions|, proof.flags)].hash
  {
    Merkle.VerifiedLeafIsInTree(env.pairHash, Chain.TransactionHashes(env, b.transactions), proof, u);
    EveryTransactionWasChecked(env, chain.disk, b.transactions, 0, Merkle.Position(|b.transactions|, proof.flags));
  }

  /**
   The light client does not look at the length of a proof: for a block with several
   transactions a shorter proof that carries an inner node of the tree is accepted too.
   */
  lemma ShorterProofsAreAccepted(
      env: Chain.Env, chain: Chain.State, b: BlockStore.Block, s: State, m: nat, k: nat)
    requires Chain.Validate(env, chain, b).None? && b.transactions != []
    requires b.header.height in s.headers && s.headers[b.header.height] == b.header
    requires m <= Merkle.Levels(|b.transactions|)
    requires k < |Merkle.LevelAbove(env.pairHash, Chain.TransactionHashes(env, b.transactions), m)|
    ensures var level := Merkle.LevelAbove(env.pairHash, Chain.TransactionHashes(env, b.transactions), m);
      var proof := Merkle.Proof(
        k, level[k], Merkle.Siblings(env.pairHash, level, k), Merkle.Sides(|level|, k));
      && |proof.hashes| == Merkle.Levels(|b.transactions|) - m
      && Inclusion(env.pairHash, s, b.header.height, Some(proof)) == Included
  {
    Merkle.InnerNodesVerify(env.pairHash, Chain.TransactionHashes(env, b.transactions), m, k);
  }

  lemma {:induction false} EveryTransactionWasChecked(
      env: Chain.Env, d: BlockStore.Disk, txs: seq<Transaction>, at: nat, i: nat)
    requires at <= i < |txs| && Chain.CheckTransactions(env, d, txs, at).None?
    ensures Chain.TransactionHash(env, txs[i]) == txs[i].hash
    decreases |txs| - at
  {
    if at < i { EveryTransactionWasChecked(env, d, txs, at + 1, i); }
  }

  // ------------------------------------------------------------------ the light client as an object

  class LightClient {
    const config: Config
    var headers: map<u64, BlockHeader>
    var hashToHeight: map<Hash, u64>
    var latestHeight: u64
    var latestHash: Hash

    ghost function View(): State
      reads this
    {
      State(headers, hashToHeight, latestHeight, latestHash)
    }

    constructor (config: Config)
      ensures this.config == config && View() == EMPTY
    {
      this.config := config;
      headers := map[];
      hashToHeight := map[];
      latestHeight := 0;
      latestHash := ZERO_HASH;
    }

    method ValidateHeader(h: BlockHeader) returns (error: Option<Error>)
      ensures error == Validate(config, View(), h)
    {
      if h.height in headers {
        return Some(if headers[h.height].hash == h.hash then AlreadyExists else Conflict);
      }
      if h.height > 0 {
        if h.height - 1 !in headers { return Some(NoParent); }
      }
      if h.height > 0 {
        var parent := headers[h.height - 1];
        if h.prevHash != parent.hash { return Some(InvalidLink); }
      }
      var body := SerializeWithoutHash(h);
      if config.keccak(body) != h.hash { return Some(InvalidHash); }
      if config.verifySignatures && |h.signature| > 0 {
        if !config.signatureOk(h) { return Some(InvalidSignature); }
      }
      return None;
    }

    method AddHeader(h: BlockHeader) returns (error: Option<Error>)
      modifies this
      ensures (View(), error) == Add(config, old(View()), h)
    {
      error := ValidateHeader(h);
      if error.Some? { return; }
      headers := headers[h.height := h];
      hashToHeight := hashToHeight[h.hash := h.height];
      if h.height > latestHeight {
        latestHeight := h.height;
        latestHash := h.hash;
      }
      assert View() == Insert(old(View()), h);
      EvictOldHeaders();
    }

    /** Counts down what is still to be removed while walking up from height 1. */
    method EvictOldHeaders()
      modifies this
      ensures View() == Evict(config, old(View()))
    {
      if |headers| <= config.maxHeaders { return; }
      var toRemove := |headers| - config.maxHeaders;
      var height := 1;
      while toRemove > 0 && height < latestHeight
        invariant 1 <= height
        invariant EvictFrom(View(), height, toRemove) == Evict(config, old(View()))
        decreases latestHeight - height
      {
        ghost var before := View();
        if height in headers {
          var header := headers[height];
          headers := headers - {height};
          hashToHeight := hashToHeight - {header.hash};
          assert View() == Delete(before, height);
          toRemove := toRemove - 1;
        }
        height := height + 1;
      }
    }

    method Reset()
      modifies this
      ensures View() == EMPTY
    {
      headers := map[];
      hashToHeight := map[];
      latestHeight := 0;
      latestHash := ZERO_HASH;
    }

    method VerifyTransaction(hp: Merkle.PairHash, txHash: Hash, blockHeight: u64, proof: Option<Merkle.Proof>)
        returns (verdict: Verdict)
      ensures verdict == Inclusion(hp, View(), blockHeight, proof)
    {
      if blockHeight !in headers { return HeaderMissing; }
      if proof.None? { return ProofMissing; }
      var valid := Merkle.Verify(hp, proof.value, headers[blockHeight].merkleRoot);
      if valid.None? { return Panic; }
      return if valid.value then Included else InvalidProof;
    }
  }
}
