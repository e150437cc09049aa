/**
 The transaction pool: pending transactions by hash and by sender and nonce, and three
 heaps, one for each band of priorities, whose entries outlive their transactions.

 The time is a parameter. Signature checks and hashing are parameters of the configuration.
 */
module TxPool {
  import opened Common
  import opened Encoding
  import opened PriorityQueue

  datatype Config = Config(
    maxSize: int,
    maxTxPerAccount: int,
    maxTxLifetime: int,
    keccak: Bytes -> Hash,
    signatureOk: Transaction -> bool)

  datatype Error = AlreadyExists | PoolFull | InvalidTx

  type Accounts = map<Address, map<u64, Item>>

  datatype Pool = Pool(
    pending: map<Hash, Item>,
    all: Accounts,
    high: seq<Item>,
    normal: seq<Item>,
    low: seq<Item>)

  const EMPTY := Pool(map[], map[], [], [], [])

  // ------------------------------------------------------------------ adding

  function SenderTxs(all: Accounts, a: Address): map<u64, Item> {
    if a in all then all[a] else map[]
  }

  function CheckTx(c: Config, s: Pool, tx: Transaction): Option<Error> {
    if c.keccak(TransactionBody(tx)) != tx.hash then Some(InvalidTx)
    else if |tx.signature| > 0 && !c.signatureOk(tx) then Some(InvalidTx)
    else if |SenderTxs(s.all, tx.from)| >= c.maxTxPerAccount then Some(PoolFull)
    else None
  }

  function Enqueue(s: Pool, item: Item): Pool {
    if item.priority >= 10 then s.(high := Pushed(s.high, item))
    else if item.priority >= 5 then s.(normal := Pushed(s.normal, item))
    else s.(low := Pushed(s.low, item))
  }

  function Register(s: Pool, item: Item): Pool {
    s.(pending := s.pending[item.tx.hash := item],
       all := s.all[item.tx.from := SenderTxs(s.all, item.tx.from)[item.tx.nonce := item]])
  }

  function Admit(c: Config, s: Pool, tx: Transaction): Option<Error> {
    if tx.hash in s.pending then Some(AlreadyExists)
    else if |s.pending| >= c.maxSize then Some(PoolFull)
    else CheckTx(c, s, tx)
  }

  function Add(c: Config, s: Pool, tx: Transaction, priority: int, now: int): (Pool, Option<Error>) {
    if Admit(c, s, tx).Some? then (s, Admit(c, s, tx))
    else (Enqueue(Register(s, Item(tx, now, priority)), Item(tx, now, priority)), None)
  }

  // ------------------------------------------------------------------ removing

  /** What is left of one account's transactions. */
  function Rest(inner: map<u64, Item>, a: Address, slots: set<(Address, u64)>): map<u64, Item> {
    map n | n in inner && (a, n) !in slots :: inner[n]
  }

  /** The account index without the given slots; an account that has none left is dropped. */
  function Without(all: Accounts, slots: set<(Address, u64)>): Accounts {
    map a | a in all && Rest(all[a], a, slots) != map[] :: Rest(all[a], a, slots)
  }

  function Slot(item: Item): (Address, u64) {
    (item.tx.from, item.tx.nonce)
  }

  function Slots(s: Pool, gone: set<Hash>): set<(Address, u64)> {
    set h | h in gone && h in s.pending :: Slot(s.pending[h])
  }

  /** Removes transactions from both indexes; their heap entries stay. */
  function Forget(s: Pool, gone: set<Hash>): Pool {
    s.(pending := s.pending - gone,
       all := Without(s.all, Slots(s, gone)))
  }

  function Remove(s: Pool, h: Hash): Pool {
    if h in s.pending then Forget(s, {h}) else s
  }

  function Expired(c: Config, s: Pool, now: int): set<Hash> {
    set h | h in s.pending && now - s.pending[h].addedAt > c.maxTxLifetime
  }

  function Cleanup(c: Config, s: Pool, now: int): Pool {
    Forget(s, Expired(c, s, now))
  }

  // ------------------------------------------------------------------ draining

  /** Pops up to room entries whose hash is in live, dropping the others on the way. */
  function Drain(q: seq<Item>, live: set<Hash>, room: int): (seq<Item>, seq<Item>)
    decreases |q|
  {
    if q == [] || room <= 0 then ([], q)
    else
      var (item, rest) := Popped(q);
      if item.tx.hash in live then
        var (taken, left) := Drain(rest, live, room - 1);
        ([item] + taken, left)
      else
        Drain(rest, live, room)
  }

  function Txs(items: seq<Item>): (r: seq<Transaction>)
    ensures |r| == |items|
  {
    seq(|items|, i requires 0 <= i < |items| => items[i].tx)
  }

  lemma TxsConcat(p: seq<Item>, q: seq<Item>)
    ensures Txs(p + q) == Txs(p) + Txs(q)
  {
  }

  lemma TxsOfThree(a: seq<Item>, b: seq<Item>, c: seq<Item>)
    ensures [] + Txs(a) + Txs(b) + Txs(c) == Txs(a + b + c)
  {
  }

  /** The entries handed out, best band first, and the pool left. A negative max is a panic in the source. */
  function GetPending(s: Pool, max: nat): (seq<Item>, Pool) {
    var live := s.pending.Keys;
    var (a, high) := Drain(s.high, live, max);
    var (b, normal) := Drain(s.normal, live, max - |a|);
    var (c, low) := Drain(s.low, live, max - |a| - |b|);
    (a + b + c, s.(high := high, normal := normal, low := low))
  }

  lemma DrainStep(q: seq<Item>, live: set<Hash>, room: int)
    requires q != [] && room > 0
    ensures var (item, rest) := Popped(q);
      if item.tx.hash in live then
        Drain(q, live, room).0 == [item] + Drain(rest, live, room - 1).0 &&
        Drain(q, live, room).1 == Drain(rest, live, room - 1).1
      else Drain(q, live, room) == Drain(rest, live, room)
  {
    hide Popped;
  }

  lemma DrainEnds(q: seq<Item>, live: set<Hash>, room: int)
    requires q == [] || room <= 0
    ensures Drain(q, live, room) == ([], q)
  {
  }

  lemma OneTx(item: Item)
    ensures Txs([item]) == [item.tx]
  {
  }

  lemma BandByBand(s: Pool, max: nat)
    ensures var (out, t) := GetPending(s, max);
      var a := Drain(s.high, s.pending.Keys, max);
      var b := Drain(s.normal, s.pending.Keys, max - |a.0|);
      var c := Drain(s.low, s.pending.Keys, max - |a.0| - |b.0|);
      out == a.0 + b.0 + c.0 && t == Pool(s.pending, s.all, a.1, b.1, c.1)
  {
    hide Drain;
  }

  // ------------------------------------------------------------------ live entries

  /** The entries whose transaction is still pending. */
  function Live(q: seq<Item>, live: set<Hash>): seq<Item> {
    if q == [] then []
    else (if q[0].tx.hash in live then [q[0]] else []) + Live(q[1..], live)
  }

  lemma {:induction false} LiveCount(q: seq<Item>, live: set<Hash>, x: Item)
    ensures multiset(Live(q, live))[x] == if x.tx.hash in live then multiset(q)[x] else 0
  {
    if q != [] {
      LiveCount(q[1..], live, x);
      assert q == [q[0]] + q[1..];
    }
  }

  lemma {:induction false} LiveConcat(p: seq<Item>, q: seq<Item>, live: set<Hash>)
    ensures Live(p + q, live) == Live(p, live) + Live(q, live)
  {
    if p == [] {
      assert p + q == q;
    } else {
      assert (p + q)[1..] == p[1..] + q;
      LiveConcat(p[1..], q, live);
    }
  }

  /** Taking one entry out takes it out of the live ones if it is live, and changes nothing else. */
  lemma LiveWithoutOne(p: seq<Item>, q: seq<Item>, x: Item, live: set<Hash>)
    requires multiset(q) == multiset(p) + multiset{x}
    ensures multiset(Live(q, live)) == multiset(Live(p, live)) + if x.tx.hash in live then multiset{x} else multiset{}
  {
    forall y: Item
      ensures multiset(Live(q, live))[y] ==
        (multiset(Live(p, live)) + if x.tx.hash in live then multiset{x} else multiset{})[y]
    {
      LiveCount(p, live, y);
      LiveCount(q, live, y);
    }
  }

  lemma InBag(q: seq<Item>, x: Item)
    ensures x in q <==> x in multiset(q)
  {
  }

  ghost predicate Sorted(items: seq<Item>) {
    forall i, j :: 0 <= i < j < |items| ==> InOrder(items[i], items[j])
  }

  ghost predicate AllBefore(xs: seq<Item>, ys: seq<Item>) {
    forall x, y :: x in xs && y in ys ==> InOrder(x, y)
  }

  /** The entries taken are the best live ones of q, in order; nothing live is lost. */
  ghost predicate DrainedBest(q: seq<Item>, live: set<Hash>, room: int, taken: seq<Item>, rest: seq<Item>) {
    && |taken| <= room && (|taken| < room ==> rest == [])
    && Sorted(taken) && AllBefore(taken, rest)
    && (forall x :: x in taken ==> x in q && x.tx.hash in live)
    && (forall x :: x in rest ==> x in q)
    && multiset(taken) + multiset(Live(rest, live)) == multiset(Live(q, live))
    && multiset(taken) + multiset(rest) <= multiset(q)
  }

  lemma PrependBest(q: seq<Item>, p: seq<Item>, x: Item, live: set<Hash>, room: int, taken: seq<Item>, rest: seq<Item>)
    requires DrainedBest(p, live, room - 1, taken, rest)
    requires multiset(q) == multiset(p) + multiset{x} && x.tx.hash in live
    requires forall y :: y in q ==> InOrder(x, y)
    ensures DrainedBest(q, live, room, [x] + taken, rest)
  {
    hide InOrder, Live;
    LiveWithoutOne(p, q, x, live);
    assert multiset([x] + taken) == multiset{x} + multiset(taken);
    forall y | y in p
      ensures y in q
    {
      InBag(p, y);
      InBag(q, y);
    }
    InBag(q, x);
  }

  lemma SkipDead(q: seq<Item>, p: seq<Item>, x: Item, live: set<Hash>, room: int, taken: seq<Item>, rest: seq<Item>)
    requires DrainedBest(p, live, room, taken, rest)
    requires multiset(q) == multiset(p) + multiset{x} && x.tx.hash !in live
    ensures DrainedBest(q, live, room, taken, rest)
  {
    hide InOrder, Live;
    LiveWithoutOne(p, q, x, live);
    forall y | y in p
      ensures y in q
    {
      InBag(p, y);
      InBag(q, y);
    }
  }

  /** Draining hands out the best live entries in order, leaves the other live ones and keeps the heap. */
  lemma {:induction false} DrainTakesBest(q: seq<Item>, live: set<Hash>, room: nat)
    requires Heap(q, |q|)
    ensures Heap(Drain(q, live, room).1, |Drain(q, live, room).1|)
    ensures DrainedBest(q, live, room, Drain(q, live, room).0, Drain(q, live, room).1)
    decreases |q|
  {
    hide Heap, InOrder, Popped, DrainedBest, Live;
    if q == [] || room == 0 {
      NothingDrained(q, live, room);
    } else {
      PopTakesBest(q);
      var (item, rest) := Popped(q);
      if item.tx.hash in live {
        DrainTakesBest(rest, live, room - 1);
        PrependBest(q, rest, item, live, room, Drain(rest, live, room - 1).0, Drain(rest, live, room - 1).1);
      } else {
        DrainTakesBest(rest, live, room);
        SkipDead(q, rest, item, live, room, Drain(rest, live, room).0, Drain(rest, live, room).1);
      }
    }
  }

  lemma NothingDrained(q: seq<Item>, live: set<Hash>, room: nat)
    requires q == [] || room == 0
    ensures DrainedBest(q, live, room, [], q)
  {
    hide Live;
  }

  // ------------------------------------------------------------------ three heaps as one queue

  /** Each heap is a heap and holds the entries of its band. */
  ghost predicate Queues(s: Pool) {
    && Heap(s.high, |s.high|) && Heap(s.normal, |s.normal|) && Heap(s.low, |s.low|)
    && (forall x :: x in s.high ==> x.priority >= 10)
    && (forall x :: x in s.normal ==> 5 <= x.priority < 10)
    && (forall x :: x in s.low ==> x.priority < 5)
  }

  function Queued(s: Pool): seq<Item> {
    s.high + s.normal + s.low
  }

  /** Items handed out in one call, in the presence of the queue before and after. */
  ghost predicate BestOf(before: seq<Item>, after: seq<Item>, live: set<Hash>, max: nat, out: seq<Item>) {
    && |out| == Min(max, |Live(before, live)|)
    && multiset(out) + multiset(Live(after, live)) == multiset(Live(before, live))
    && multiset(out) + multiset(after) <= multiset(before)
    && Sorted(out)
    && AllBefore(out, Live(after, live))
  }

  /** Two drained bands, the first better than the second, are one drained queue. */
  lemma JoinBands(p: seq<Item>, q: seq<Item>, live: set<Hash>, room: nat,
                  a: seq<Item>, p': seq<Item>, b: seq<Item>, q': seq<Item>)
    requires DrainedBest(p, live, room, a, p') && DrainedBest(q, live, room - |a|, b, q')
    requires AllBefore(p, q)
    ensures DrainedBest(p + q, live, room, a + b, p' + q')
  {
    hide InOrder, Live;
    LiveConcat(p, q, live);
    LiveConcat(p', q', live);
    assert multiset(p + q) == multiset(p) + multiset(q);
    assert multiset(p' + q') == multiset(p') + multiset(q');
    assert multiset(a + b) == multiset(a) + multiset(b);
  }

  lemma BandsAreOrdered(s: Pool)
    requires Queues(s)
    ensures AllBefore(s.high, s.normal) && AllBefore(s.high + s.normal, s.low)
  {
  }

  /** Fewer entries in the same bands, with each heap still a heap. */
  lemma FewerEntries(s: Pool, s': Pool)
    requires Queues(s)
    requires Heap(s'.high, |s'.high|) && Heap(s'.normal, |s'.normal|) && Heap(s'.low, |s'.low|)
    requires (forall x :: x in s'.high ==> x in s.high) && (forall x :: x in s'.normal ==> x in s.normal)
    requires forall x :: x in s'.low ==> x in s.low
    ensures Queues(s')
  {
    hide Heap;
  }

  /** The drains of one call, band by band. */
  lemma DrainBands(s: Pool, max: nat)
    requires Queues(s)
    ensures var (out, s') := GetPending(s, max);
      Queues(s') && DrainedBest(Queued(s), s.pending.Keys, max, out, Queued(s'))
  {
    hide Drain, Sorted, AllBefore, Live, Heap;
    var live := s.pending.Keys;
    BandsAreOrdered(s);
    var (a, high) := Drain(s.high, live, max);
    DrainTakesBest(s.high, live, max);
    var (b, normal) := Drain(s.normal, live, max - |a|);
    DrainTakesBest(s.normal, live, max - |a|);
    var (c, low) := Drain(s.low, live, max - |a| - |b|);
    DrainTakesBest(s.low, live, max - |a| - |b|);
    FewerEntries(s, GetPending(s, max).1);
    hide DrainedBest;
    JoinBands(s.high, s.normal, live, max, a, high, b, normal);
    JoinBands(s.high + s.normal, s.low, live, max, a + b, high + normal, c, low);
  }

  /** Three heaps act as one queue: a call hands out the best min(max, live) entries across all bands, in order. */
  lemma ThreeHeapsActAsOne(s: Pool, max: nat)
    requires Queues(s)
    ensures var (out, s') := GetPending(s, max);
      && Queues(s')
      && BestOf(Queued(s), Queued(s'), s.pending.Keys, max, out)
      && (forall x :: x in out ==> x.tx.hash in s.pending)
  {
    DrainBands(s, max);
    hide Queues, GetPending;
    DrainedIsBest(Queued(s), Queued(GetPending(s, max).1), s.pending.Keys, max, GetPending(s, max).0);
  }

  /** Items handed out in order from a drained queue meet the specification of one priority queue. */
  lemma DrainedIsBest(before: seq<Item>, after: seq<Item>, live: set<Hash>, max: nat, out: seq<Item>)
    requires DrainedBest(before, live, max, out, after)
    ensures BestOf(before, after, live, max, out)
  {
    hide InOrder, Sorted;
    assert |multiset(out) + multiset(Live(after, live))| == |out| + |Live(after, live)|;
    forall y | y in Live(after, live)
      ensures y in after
    {
      LiveCount(after, live, y);
      InBag(after, y);
      InBag(Live(after, live), y);
    }
  }

  // ------------------------------------------------------------------ runs

  datatype Op =
    | AddTx(tx: Transaction, priority: int, now: int)
    | Get(max: nat)
    | RemoveTx(hash: Hash)
    | CleanupExpired(now: int)

  /** A pool with the items it accepted and the items it handed out so far. */
  datatype Trace = Trace(pool: Pool, accepted: seq<Item>, handed: seq<Item>)

  function Apply(c: Config, t: Trace, op: Op): Trace {
    match op
    case AddTx(tx, priority, now) =>
      var (pool, error) := Add(c, t.pool, tx, priority, now);
      t.(pool := pool, accepted := t.accepted + if error.None? then [Item(tx, now, priority)] else [])
    case Get(max) =>
      var (out, pool) := GetPending(t.pool, max);
      t.(pool := pool, handed := t.handed + out)
    case RemoveTx(h) => t.(pool := Remove(t.pool, h))
    case CleanupExpired(now) => t.(pool := Cleanup(c, t.pool, now))
  }

  const START := Trace(EMPTY, [], [])

  function Run(c: Config, t: Trace, ops: seq<Op>): Trace {
    if ops == [] then t else Apply(c, Run(c, t, ops[..|ops| - 1]), ops[|ops| - 1])
  }

  /** Every item handed out or queued was accepted, counting repetitions, and no pending item is lost. */
  ghost predicate Conserved(t: Trace) {
    && multiset(t.handed) + multiset(Queued(t.pool)) <= multiset(t.accepted)
    && forall h :: h in t.pool.pending ==> t.pool.pending[h] in t.handed || t.pool.pending[h] in Queued(t.pool)
  }

  ghost predicate Indexed(s: Pool) {
    forall h :: h in s.pending ==> s.pending[h].tx.hash == h
  }

  /** The account index lists pending items under their sender and nonce, at most the allowed number for each sender. */
  ghost predicate AccountsGood(c: Config, s: Pool) {
    && (forall a :: a in s.all ==> 0 < |s.all[a]| <= c.maxTxPerAccount)
    && (forall a, n :: a in s.all && n in s.all[a] ==> Entry(s, a, n))
  }

  ghost predicate Entry(s: Pool, a: Address, n: u64)
    requires a in s.all && n in s.all[a]
  {
    var item := s.all[a][n];
    Slot(item) == (a, n) && item.tx.hash in s.pending && s.pending[item.tx.hash] == item
  }

  ghost predicate Good(c: Config, s: Pool) {
    Queues(s) && Indexed(s) && AccountsGood(c, s) && (s.pending == map[] || |s.pending| <= c.maxSize)
  }

  /** Enqueueing adds one entry, to the heap of its band. */
  lemma EnqueueAdds(s: Pool, x: Item)
    requires Queues(s)
    ensures Queues(Enqueue(s, x))
    ensures multiset(Queued(Enqueue(s, x))) == multiset(Queued(s)) + multiset{x}
  {
    PushAdds(s.high, x);
    PushAdds(s.normal, x);
    PushAdds(s.low, x);
    hide Heap, Pushed;
    SameItems(s.high, Pushed(s.high, x), x);
    SameItems(s.normal, Pushed(s.normal, x), x);
    SameItems(s.low, Pushed(s.low, x), x);
  }

  lemma SameItems(q: seq<Item>, p: seq<Item>, x: Item)
    requires multiset(p) == multiset(q) + multiset{x}
    ensures forall y :: y in p ==> y == x || y in q
  {
    forall y | y in p
      ensures y == x || y in q
    {
      InBag(p, y);
      InBag(q, y);
    }
  }

  lemma RegisterKeepsAccounts(c: Config, s: Pool, x: Item)
    requires Indexed(s) && AccountsGood(c, s) && x.tx.hash !in s.pending
    requires |SenderTxs(s.all, x.tx.from)| < c.maxTxPerAccount
    ensures Indexed(Register(s, x)) && AccountsGood(c, Register(s, x))
  {
    var t := Register(s, x);
    var inner := SenderTxs(s.all, x.tx.from);
    assert |inner[x.tx.nonce := x]| <= |inner| + 1;
    forall a, n | a in t.all && n in t.all[a]
      ensures Entry(t, a, n)
    {
      if (a, n) != Slot(x) { assert Entry(s, a, n); }
    }
  }

  lemma EnqueueKeepsIndexes(s: Pool, x: Item)
    ensures Enqueue(s, x).pending == s.pending && Enqueue(s, x).all == s.all
  {
  }

  lemma AddKeepsGood(c: Config, s: Pool, tx: Transaction, priority: int, now: int)
    requires Good(c, s)
    ensures Good(c, Add(c, s, tx, priority, now).0)
  {
    if Admit(c, s, tx).None? {
      var x := Item(tx, now, priority);
      hide Queues, Heap, Pushed, Enqueue, Entry;
      RegisterKeepsAccounts(c, s, x);
      RegisterKeepsQueues(s, x);
      EnqueueAdds(Register(s, x), x);
      EnqueueKeepsIndexes(Register(s, x), x);
      SameAccounts(c, Register(s, x), Enqueue(Register(s, x), x));
    }
  }

  lemma RegisterKeepsQueues(s: Pool, x: Item)
    requires Queues(s)
    ensures Queues(Register(s, x))
  {
    hide Heap;
  }

  lemma SameAccounts(c: Config, s: Pool, t: Pool)
    requires t.pending == s.pending && t.all == s.all
    ensures Indexed(s) ==> Indexed(t)
    ensures AccountsGood(c, s) ==> AccountsGood(c, t)
  {
    forall a, n | AccountsGood(c, s) && a in t.all && n in t.all[a]
      ensures Entry(t, a, n)
    {
      assert Entry(s, a, n);
    }
  }

  lemma WithoutEffect(all: Accounts, slots: set<(Address, u64)>, a: Address)
    requires a in Without(all, slots)
    ensures a in all && Without(all, slots)[a] != map[]
    ensures forall n :: n in Without(all, slots)[a] <==> n in all[a] && (a, n) !in slots
    ensures forall n :: n in Without(all, slots)[a] ==> Without(all, slots)[a][n] == all[a][n]
    ensures |Without(all, slots)[a]| <= |all[a]|
  {
    var inner := Without(all, slots)[a];
    SubsetCount(inner.Keys, all[a].Keys);
  }

  /** Forgetting pending transactions keeps both indexes consistent. */
  lemma ForgetKeepsGood(c: Config, s: Pool, gone: set<Hash>)
    requires Good(c, s)
    ensures Good(c, Forget(s, gone))
  {
    var slots := Slots(s, gone);
    var t := Forget(s, gone);
    SubsetCount(t.pending.Keys, s.pending.Keys);
    forall a | a in t.all
      ensures 0 < |t.all[a]| <= c.maxTxPerAccount
    {
      WithoutEffect(s.all, slots, a);
    }
    forall a, n | a in t.all && n in t.all[a]
      ensures Entry(t, a, n)
    {
      WithoutEffect(s.all, slots, a);
      assert Entry(s, a, n);
    }
  }

  lemma GetKeepsGood(c: Config, s: Pool, max: nat)
    requires Good(c, s)
    ensures Good(c, GetPending(s, max).1)
  {
    hide Queues, GetPending, BestOf, Indexed, AccountsGood;
    ThreeHeapsActAsOne(s, max);
    BandByBand(s, max);
    SameAccounts(c, s, GetPending(s, max).1);
  }

  /** Every operation keeps the pool good. */
  lemma ApplyKeepsGood(c: Config, t: Trace, op: Op)
    requires Good(c, t.pool)
    ensures Good(c, Apply(c, t, op).pool)
  {
    hide Good;
    match op
    case AddTx(tx, priority, now) => AddKeepsGood(c, t.pool, tx, priority, now);
    case Get(max) => GetKeepsGood(c, t.pool, max);
    case RemoveTx(h) => ForgetKeepsGood(c, t.pool, {h});
    case CleanupExpired(now) => ForgetKeepsGood(c, t.pool, Expired(c, t.pool, now));
  }

  /** What is handed out leaves the queue, what is accepted enters it, and nothing else does. */
  lemma ApplyConserves(c: Config, t: Trace, op: Op)
    requires Good(c, t.pool) && Conserved(t)
    ensures Conserved(Apply(c, t, op))
  {
    match op
    case AddTx(tx, priority, now) =>
      if Admit(c, t.pool, tx).None? { AddConserves(c, t, tx, priority, now); }
    case Get(max) => GetConserves(t, max);
    case RemoveTx(h) =>
    case CleanupExpired(now) =>
  }

  lemma AddConserves(c: Config, t: Trace, tx: Transaction, priority: int, now: int)
    requires Good(c, t.pool) && Conserved(t) && Admit(c, t.pool, tx).None?
    ensures Conserved(Apply(c, t, AddTx(tx, priority, now)))
  {
    hide Queues, Enqueue, Admit, Indexed, AccountsGood;
    var x := Item(tx, now, priority);
    var r := Register(t.pool, x);
    var t' := Apply(c, t, AddTx(tx, priority, now));
    RegisterKeepsQueues(t.pool, x);
    EnqueueAdds(r, x);
    EnqueueKeepsIndexes(r, x);
    assert t'.pool == Enqueue(r, x) && t'.accepted == t.accepted + [x] && Queued(r) == Queued(t.pool);
    hide Queued, Register;
    forall h | h in t'.pool.pending
      ensures t'.pool.pending[h] in t'.handed || t'.pool.pending[h] in Queued(t'.pool)
    {
      InBag(Queued(t'.pool), t'.pool.pending[h]);
      PendingAfterRegister(t.pool, x, h);
      if h != tx.hash { InBag(Queued(t.pool), t.pool.pending[h]); }
    }
  }

  lemma PendingAfterRegister(s: Pool, x: Item, h: Hash)
    ensures h in Register(s, x).pending <==> h == x.tx.hash || h in s.pending
    ensures h in Register(s, x).pending ==> Register(s, x).pending[h] == if h == x.tx.hash then x else s.pending[h]
  {
  }

  lemma GetConserves(t: Trace, max: nat)
    requires Queues(t.pool) && Indexed(t.pool) && Conserved(t)
    ensures var (out, pool) := GetPending(t.pool, max);
      Conserved(t.(pool := pool, handed := t.handed + out))
  {
    var s := t.pool;
    var live := s.pending.Keys;
    var (out, s') := GetPending(s, max);
    ThreeHeapsActAsOne(s, max);
    assert s'.pending == s.pending;
    hide Queues, GetPending, Sorted, AllBefore, Queued, Live;
    forall h | h in s.pending
      ensures s.pending[h] in t.handed + out || s.pending[h] in Queued(s')
    {
      var x := s.pending[h];
      InBag(Queued(s), x);
      LiveCount(Queued(s), live, x);
      LiveCount(Queued(s'), live, x);
      InBag(out, x);
      InBag(Queued(s'), x);
    }
  }

  /** The invariant of every run. */
  lemma {:induction false} RunKeepsGood(c: Config, ops: seq<Op>)
    ensures Good(c, Run(c, START, ops).pool) && Conserved(Run(c, START, ops))
  {
    hide Good, Conserved, Apply;
    if ops == [] {
      EmptyIsGood(c);
    } else {
      RunKeepsGood(c, ops[..|ops| - 1]);
      ApplyKeepsGood(c, Run(c, START, ops[..|ops| - 1]), ops[|ops| - 1]);
      ApplyConserves(c, Run(c, START, ops[..|ops| - 1]), ops[|ops| - 1]);
    }
  }

  lemma EmptyIsGood(c: Config)
    ensures Good(c, EMPTY) && Conserved(Trace(EMPTY, [], []))
  {
  }

  /** At any point of any run, the next call hands out the best live entries in order. */
  lemma EveryCallHandsOutTheBest(c: Config, ops: seq<Op>, max: nat)
    ensures var s := Run(c, START, ops).pool;
      BestOf(Queued(s), Queued(GetPending(s, max).1), s.pending.Keys, max, GetPending(s, max).0)
  {
    RunKeepsGood(c, ops);
    ThreeHeapsActAsOne(Run(c, START, ops).pool, max);
  }

  function Hashes(items: seq<Item>): seq<Hash> {
    if items == [] then [] else [items[0].tx.hash] + Hashes(items[1..])
  }

  lemma {:induction false} HashesConcat(p: seq<Item>, q: seq<Item>)
    ensures Hashes(p + q) == Hashes(p) + Hashes(q)
  {
    if p == [] {
      assert p + q == q;
    } else {
      assert (p + q)[1..] == p[1..] + q;
      HashesConcat(p[1..], q);
    }
  }

  /** Taking one item out takes out its hash. */
  lemma WithoutOneHash(q: seq<Item>, k: nat)
    requires k < |q|
    ensures var rest := q[..k] + q[k + 1..];
      && multiset(q) == multiset{q[k]} + multiset(rest)
      && multiset(Hashes(q)) == multiset{q[k].tx.hash} + multiset(Hashes(rest))
  {
    assert q == q[..k] + [q[k]] + q[k + 1..];
    HashesConcat(q[..k], q[k + 1..]);
    HashesConcat(q[..k] + [q[k]], q[k + 1..]);
    HashesConcat(q[..k], [q[k]]);
    assert Hashes([q[k]]) == [q[k].tx.hash];
  }

  lemma NoHashes(p: seq<Item>)
    requires p == []
    ensures Hashes(p) == []
  {
  }

  lemma FewerRest<T>(a: multiset<T>, b: multiset<T>, c: multiset<T>, d: multiset<T>, x: T)
    requires a <= b && a == multiset{x} + c && b == multiset{x} + d
    ensures c <= d
  {
    forall y: T
      ensures c[y] <= d[y]
    {
      assert a[y] <= b[y];
    }
  }

  lemma FewerWhole<T>(a: multiset<T>, b: multiset<T>, c: multiset<T>, d: multiset<T>, x: T)
    requires c <= d && a == multiset{x} + c && b == multiset{x} + d
    ensures a <= b
  {
  }

  /** Fewer items have fewer hashes, counting repetitions. */
  lemma {:induction false} HashesOfFewer(p: seq<Item>, q: seq<Item>)
    requires multiset(p) <= multiset(q)
    ensures multiset(Hashes(p)) <= multiset(Hashes(q))
    decreases |p|
  {
    hide Hashes;
    if p == [] {
      NoHashes(p);
    } else {
      InBag(p, p[0]);
      InBag(q, p[0]);
      var k :| 0 <= k < |q| && q[k] == p[0];
      WithoutOneHash(p, 0);
      WithoutOneHash(q, k);
      var p', q' := p[..0] + p[1..], q[..k] + q[k + 1..];
      FewerRest(multiset(p), multiset(q), multiset(p'), multiset(q'), p[0]);
      HashesOfFewer(p', q');
      FewerWhole(multiset(Hashes(p)), multiset(Hashes(q)), multiset(Hashes(p')), multiset(Hashes(q')), p[0].tx.hash);
    }
  }

  /** In every run, no hash is handed out more often than the pool accepted it. */
  lemma HandedOutAtMostAsOftenAsAccepted(c: Config, ops: seq<Op>, h: Hash)
    ensures multiset(Hashes(Run(c, START, ops).handed))[h] <= multiset(Hashes(Run(c, START, ops).accepted))[h]
  {
    RunKeepsGood(c, ops);
    HashesOfFewer(Run(c, START, ops).handed, Run(c, START, ops).accepted);
  }

  // ------------------------------------------------------------------ what is admitted, and how long it stays

  /**
   A transaction is admitted exactly if it is new, the pool has room, its hash is right, its
   signature is missing or passes, and its sender has room. Of the refusals, one that is
   pending already comes first and a full pool second.
   */
  lemma AdmittedExactly(c: Config, s: Pool, tx: Transaction, priority: int, now: int)
    ensures var (s', error) := Add(c, s, tx, priority, now);
      var genuine := c.keccak(TransactionBody(tx)) == tx.hash && (tx.signature == [] || c.signatureOk(tx));
      var crowded := (if tx.from in s.all then |s.all[tx.from]| else 0) >= c.maxTxPerAccount;
      && (error.None? <==> tx.hash !in s.pending && |s.pending| < c.maxSize && genuine && !crowded)
      && (error == Some(AlreadyExists) <==> tx.hash in s.pending)
      && (error == Some(InvalidTx) <==> tx.hash !in s.pending && |s.pending| < c.maxSize && !genuine)
      && (error.Some? ==> s' == s)
      && (error.None? ==> s'.pending == s.pending[tx.hash := Item(tx, now, priority)])
  {
    hide TransactionBody, Pushed;
  }

  /** Every item that a run accepted has the right hash and a signature that is missing or passes. */
  lemma {:induction false} AcceptedAreGenuine(c: Config, ops: seq<Op>, x: Item)
    requires x in Run(c, START, ops).accepted
    ensures c.keccak(TransactionBody(x.tx)) == x.tx.hash && (x.tx.signature == [] || c.signatureOk(x.tx))
  {
    if ops != [] {
      var t, op := Run(c, START, ops[..|ops| - 1]), ops[|ops| - 1];
      if x in t.accepted {
        AcceptedAreGenuine(c, ops[..|ops| - 1], x);
      } else {
        AdmittedExactly(c, t.pool, op.tx, op.priority, op.now);
      }
    }
  }

  /** After a clean-up exactly those are pending that were and are not older than the lifetime, with the same item. */
  lemma CleanupKeepsTheYoung(c: Config, s: Pool, now: int, h: Hash)
    ensures var s' := Cleanup(c, s, now);
      && (h in s'.pending <==> h in s.pending && now - s.pending[h].addedAt <= c.maxTxLifetime)
      && (h in s'.pending ==> s'.pending[h] == s.pending[h])
  {
    hide Without;
  }

  /** A removal takes out exactly the one hash. */
  lemma RemovalTakesOne(s: Pool, g: Hash, h: Hash)
    ensures h in Remove(s, g).pending <==> h in s.pending && h != g
    ensures h in Remove(s, g).pending ==> Remove(s, g).pending[h] == s.pending[h]
  {
    hide Without;
  }

  /** The operation takes the hash of an item that was added at the given time out of the pool. */
  predicate Ends(c: Config, op: Op, h: Hash, addedAt: int) {
    match op
    case RemoveTx(g) => g == h
    case CleanupExpired(now) => now - addedAt > c.maxTxLifetime
    case _ => false
  }

  /** The operation adds a transaction of this hash and the pool accepts it. */
  predicate Accepts(c: Config, t: Trace, op: Op, h: Hash) {
    op.AddTx? && op.tx.hash == h && Add(c, t.pool, op.tx, op.priority, op.now).1.None?
  }

  /** What one operation does to the pending transaction of one hash. */
  lemma PendingAfter(c: Config, t: Trace, op: Op, h: Hash)
    ensures var before, after := t.pool.pending, Apply(c, t, op).pool.pending;
      && (h in after <==> Accepts(c, t, op, h) || (h in before && !Ends(c, op, h, before[h].addedAt)))
      && (h in after ==>
            after[h] == if Accepts(c, t, op, h) then Item(op.tx, op.now, op.priority) else before[h])
      && (Accepts(c, t, op, h) ==> h !in before)
  {
    match op
    case AddTx(tx, priority, now) =>
      AdmittedExactly(c, t.pool, tx, priority, now);
      hide Add;
    case Get(max) => BandByBand(t.pool, max);
    case RemoveTx(g) =>
      RemovalTakesOne(t.pool, g, h);
      hide Remove;
    case CleanupExpired(now) =>
      CleanupKeepsTheYoung(c, t.pool, now, h);
      hide Cleanup;
  }

  /** The account index lists a transaction of this sender and nonce. */
  predicate Listed(s: Pool, a: Address, n: u64) {
    a in s.all && n in s.all[a]
  }

  /** The operation ends a pending transaction of this sender and nonce. */
  ghost predicate EndsSlot(c: Config, s: Pool, op: Op, a: Address, n: u64) {
    exists h :: h in s.pending && Ends(c, op, h, s.pending[h].addedAt) && Slot(s.pending[h]) == (a, n)
  }

  /** What one operation does to the account index: it lists what is accepted and drops the slots of what ends. */
  lemma ListedAfter(c: Config, t: Trace, op: Op, a: Address, n: u64)
    requires Good(c, t.pool)
    ensures var before, after := t.pool, Apply(c, t, op).pool;
      Listed(after, a, n) <==>
        (op.AddTx? && op.tx.from == a && op.tx.nonce == n && Accepts(c, t, op, op.tx.hash)) ||
        (Listed(before, a, n) && !EndsSlot(c, before, op, a, n))
  {
    var s := t.pool;
    match op
    case AddTx(tx, priority, now) =>
      if Admit(c, s, tx).None? { EnqueueKeepsIndexes(Register(s, Item(tx, now, priority)), Item(tx, now, priority)); }
      hide Good, Enqueue, Admit;
    case Get(max) => BandByBand(s, max);
    case RemoveTx(g) =>
      AccountsAreNotEmpty(c, s);
      if g in s.pending {
        ForgetDrops(s, {g}, a, n);
      }
      hide Good, Forget;
    case CleanupExpired(now) =>
      AccountsAreNotEmpty(c, s);
      ForgetDrops(s, Expired(c, s, now), a, n);
      hide Good, Forget;
  }

  lemma ForgetDrops(s: Pool, gone: set<Hash>, a: Address, n: u64)
    ensures Listed(Forget(s, gone), a, n) <==>
      Listed(s, a, n) && !exists h :: h in gone && h in s.pending && Slot(s.pending[h]) == (a, n)
  {
    if Listed(s, a, n) {
      var rest := Rest(s.all[a], a, Slots(s, gone));
      assert n in rest <==> (a, n) !in Slots(s, gone);
    }
  }

  /**
   A pending transaction stays pending, as the same item, through every later run that
   neither removes its hash nor cleans up when it is older than the lifetime.
   */
  lemma {:induction false} StaysPending(c: Config, t: Trace, ops: seq<Op>, h: Hash)
    requires h in t.pool.pending
    requires forall i :: 0 <= i < |ops| ==> !Ends(c, ops[i], h, t.pool.pending[h].addedAt)
    ensures h in Run(c, t, ops).pool.pending && Run(c, t, ops).pool.pending[h] == t.pool.pending[h]
  {
    hide Apply, Ends, Accepts;
    if ops != [] {
      var u := Run(c, t, ops[..|ops| - 1]);
      StaysPending(c, t, ops[..|ops| - 1], h);
      PendingAfter(c, u, ops[|ops| - 1], h);
    }
  }

  /**
   A transaction accepted at some point of a run, with the time of its acceptance, is pending
   at the end if nothing later removes its hash or cleans up past its lifetime.
   */
  lemma AcceptedStaysPending(c: Config, before: seq<Op>, op: Op, after: seq<Op>)
    requires op.AddTx? && Accepts(c, Run(c, START, before), op, op.tx.hash)
    requires forall i :: 0 <= i < |after| ==> after[i] != RemoveTx(op.tx.hash)
    requires forall i :: 0 <= i < |after| && after[i].CleanupExpired? ==> after[i].now <= op.now + c.maxTxLifetime
    ensures var pending := Run(c, Apply(c, Run(c, START, before), op), after).pool.pending;
      op.tx.hash in pending && pending[op.tx.hash] == Item(op.tx, op.now, op.priority)
  {
    var t := Run(c, START, before);
    PendingAfter(c, t, op, op.tx.hash);
    hide Run, Accepts, Apply;
    StaysPending(c, Apply(c, t, op), after, op.tx.hash);
  }

  /** No item of this hash is handed out. */
  ghost predicate NotHandedOut(items: seq<Item>, h: Hash) {
    forall x :: x in items ==> x.tx.hash != h
  }

  /**
   A hash that is not pending is neither pending nor handed out in any later run until a
   transaction of this hash is accepted.
   */
  lemma {:induction false} GoneUntilAccepted(c: Config, t: Trace, ops: seq<Op>, h: Hash) returns (more: seq<Item>)
    requires Good(c, t.pool) && h !in t.pool.pending
    requires forall i :: 0 <= i < |ops| ==> !Accepts(c, Run(c, t, ops[..i]), ops[i], h)
    ensures Good(c, Run(c, t, ops).pool) && h !in Run(c, t, ops).pool.pending
    ensures Run(c, t, ops).handed == t.handed + more && NotHandedOut(more, h)
  {
    hide Good, Accepts, Ends, Apply;
    more := [];
    if ops != [] {
      var last := |ops| - 1;
      forall i | 0 <= i < last
        ensures !Accepts(c, Run(c, t, ops[..last][..i]), ops[..last][i], h)
      {
        assert ops[..last][..i] == ops[..i];
      }
      more := GoneUntilAccepted(c, t, ops[..last], h);
      var u := Run(c, t, ops[..last]);
      PendingAfter(c, u, ops[last], h);
      ApplyKeepsGood(c, u, ops[last]);
      var out := HandedBy(c, u, ops[last], h);
      assert t.handed + more + out == t.handed + (more + out);
      more := more + out;
    }
  }

  lemma HandedBy(c: Config, t: Trace, op: Op, h: Hash) returns (out: seq<Item>)
    requires Good(c, t.pool) && h !in t.pool.pending
    ensures Apply(c, t, op).handed == t.handed + out && NotHandedOut(out, h)
  {
    out := [];
    if op.Get? {
      ThreeHeapsActAsOne(t.pool, op.max);
      out := GetPending(t.pool, op.max).0;
      hide GetPending, Queues, BestOf;
    }
  }

  /**
   After a removal of a hash, or a clean-up when its transaction is older than the lifetime,
   the hash is not handed out until it is accepted again.
   */
  lemma EndedIsNotHandedOut(c: Config, before: seq<Op>, op: Op, after: seq<Op>, h: Hash) returns (more: seq<Item>)
    requires var t := Run(c, START, before);
      op == RemoveTx(h) ||
      (h in t.pool.pending && op.CleanupExpired? && op.now - t.pool.pending[h].addedAt > c.maxTxLifetime)
    requires var u := Apply(c, Run(c, START, before), op);
      forall i :: 0 <= i < |after| ==> !Accepts(c, Run(c, u, after[..i]), after[i], h)
    ensures Run(c, Apply(c, Run(c, START, before), op), after).handed == Run(c, START, before).handed + more
    ensures NotHandedOut(more, h)
  {
    var t := Run(c, START, before);
    RunKeepsGood(c, before);
    ApplyKeepsGood(c, t, op);
    PendingAfter(c, t, op, h);
    assert Apply(c, t, op).handed == t.handed;
    hide Good, Run, Accepts, Apply;
    more := GoneUntilAccepted(c, Apply(c, t, op), after, h);
  }

  // ------------------------------------------------------------------ the pool as an object

  class TxPool {
    const config: Config
    var pending: map<Hash, Item>
    var all: Accounts
    const highPriority: Queue
    const normalQueue: Queue
    const lowPriority: Queue

    ghost function View(): Pool
      reads this, highPriority, normalQueue, lowPriority
    {
      Pool(pending, all, highPriority.items, normalQueue.items, lowPriority.items)
    }

    ghost predicate Valid()
      reads this, highPriority, normalQueue, lowPriority
    {
      && highPriority != normalQueue && highPriority != lowPriority && normalQueue != lowPriority
      && Good(config, View())
    }

    constructor (config: Config)
      ensures this.config == config && View() == EMPTY && Valid()
      ensures fresh(highPriority) && fresh(normalQueue) && fresh(lowPriority)
    {
      this.config := config;
      pending := map[];
      all := map[];
      highPriority := new Queue();
      normalQueue := new Queue();
      lowPriority := new Queue();
      new;
      EmptyIsGood(config);
    }

    method ValidateTx(tx: Transaction) returns (error: Option<Error>)
      ensures error == CheckTx(config, View(), tx)
    {
      var body := SerializeTransaction(tx);
      if config.keccak(body) != tx.hash { return Some(InvalidTx); }
      if |tx.signature| > 0 {
        if !config.signatureOk(tx) { return Some(InvalidTx); }
      }
      var senderTxs := if tx.from in all then all[tx.from] else map[];
      if |senderTxs| >= config.maxTxPerAccount { return Some(PoolFull); }
      return None;
    }

    method AddTx(tx: Transaction, priority: int, now: int) returns (error: Option<Error>)
      requires Valid()
      modifies this, highPriority, normalQueue, lowPriority
      ensures Valid()
      ensures (View(), error) == Add(config, old(View()), tx, priority, now)
    {
      hide Good, Pushed;
      AddKeepsGood(config, View(), tx, priority, now);
      if tx.hash in pending { return Some(AlreadyExists); }
      if |pending| >= config.maxSize { return Some(PoolFull); }
      var invalid := ValidateTx(tx);
      if invalid.Some? { return invalid; }
      var item := Item(tx, now, priority);
      pending := pending[tx.hash := item];
      var senderTxs := if tx.from in all then all[tx.from] else map[];
      all := all[tx.from := senderTxs[tx.nonce := item]];
      assert View() == Register(old(View()), item);
      if priority >= 10 {
        highPriority.Push(item);
      } else if priority >= 5 {
        normalQueue.Push(item);
      } else {
        lowPriority.Push(item);
      }
      return None;
    }

    /** The loop that is run on each heap in turn. */
    method DrainQueue(q: Queue, txs: seq<Transaction>, max: int, ghost room: int)
        returns (more: seq<Transaction>, ghost taken: seq<Item>)
      requires room == max - |txs|
      modifies q
      ensures (taken, q.items) == Drain(old(q.items), pending.Keys, room)
      ensures more == txs + Txs(taken)
    {
      hide Drain, Popped, Txs;
      more := txs;
      taken := [];
      while |q.items| > 0 && |more| < max
        invariant more == txs + Txs(taken) && |more| == |txs| + |taken|
        invariant Drain(old(q.items), pending.Keys, room).0 == taken + Drain(q.items, pending.Keys, max - |more|).0
        invariant Drain(old(q.items), pending.Keys, room).1 == Drain(q.items, pending.Keys, max - |more|).1
        decreases |q.items|
      {
        DrainStep(q.items, pending.Keys, max - |more|);
        var item := q.Pop();
        if item.tx.hash in pending {
          TxsConcat(taken, [item]);
          OneTx(item);
          more := more + [item.tx];
          taken := taken + [item];
        }
      }
      DrainEnds(q.items, pending.Keys, max - |more|);
      assert taken + [] == taken;
    }

    /** Hands out transactions from the best band down; a negative max panics in the source. */
    method GetPendingTxs(max: nat) returns (txs: seq<Transaction>)
      requires Valid()
      modifies highPriority, normalQueue, lowPriority
      ensures Valid()
      ensures txs == Txs(GetPending(old(View()), max).0) && View() == GetPending(old(View()), max).1
    {
      hide Good, Drain, Txs, GetPending;
      ghost var before := View();
      GetKeepsGood(config, before, max);
      BandByBand(before, max);
      ghost var a, b, c;
      txs, a := DrainQueue(highPriority, [], max, max);
      assert normalQueue.items == before.normal && lowPriority.items == before.low;
      txs, b := DrainQueue(normalQueue, txs, max, max - |a|);
      assert lowPriority.items == before.low;
      txs, c := DrainQueue(lowPriority, txs, max, max - |a| - |b|);
      TxsOfThree(a, b, c);
      assert View() == GetPending(before, max).1;
    }

    method RemoveTx(hash: Hash)
      requires Valid()
      modifies this
      ensures Valid()
      ensures View() == Remove(old(View()), hash)
    {
      ForgetKeepsGood(config, View(), {hash});
      if hash !in pending { return; }
      ForgetOne(hash);
    }

    /** Deletes one pending transaction from both indexes. */
    method ForgetOne(hash: Hash)
      requires hash in pending
      requires forall a :: a in all ==> all[a] != map[]
      modifies this
      ensures View() == Forget(old(View()), {hash})
    {
      var item := pending[hash];
      WithoutOne(all, item);
      assert Slots(View(), {hash}) == {Slot(item)};
      pending := pending - {hash};
      if item.tx.from in all {
        var senderTxs := all[item.tx.from] - {item.tx.nonce};
        if |senderTxs| == 0 {
          all := all - {item.tx.from};
        } else {
          all := all[item.tx.from := senderTxs];
        }
      }
    }

    /** Visits the pending transactions in any order and deletes the expired ones. */
    method CleanupExpired(now: int)
      requires Valid()
      modifies this
      ensures Valid()
      ensures View() == Cleanup(config, old(View()), now)
    {
      hide Good, Without;
      ghost var before := View();
      ghost var gone: set<Hash> := {};
      var keys := pending.Keys;
      AccountsAreNotEmpty(config, before);
      NothingForgotten(before);
      while keys != {}
        invariant keys <= pending.Keys && keys !! gone && gone <= before.pending.Keys
        invariant forall g :: g in gone <==> g in Expired(config, before, now) && g !in keys
        invariant View() == Forget(before, gone) && Good(config, View())
        decreases keys
      {
        var h :| h in keys;
        keys := keys - {h};
        assert pending[h] == before.pending[h];
        if now - pending[h].addedAt > config.maxTxLifetime {
          AccountsAreNotEmpty(config, View());
          ForgetKeepsGood(config, View(), {h});
          ForgetOneMore(before, gone, h);
          ForgetOne(h);
          gone := gone + {h};
        }
      }
      assert gone == Expired(config, before, now);
    }
  }

  lemma AccountsAreNotEmpty(c: Config, s: Pool)
    requires Good(c, s)
    ensures forall a :: a in s.all ==> s.all[a] != map[]
  {
  }

  lemma NothingForgotten(s: Pool)
    requires forall a :: a in s.all ==> s.all[a] != map[]
    ensures Forget(s, {}) == s
  {
    forall a | a in s.all
      ensures Rest(s.all[a], a, {}) == s.all[a]
    {
    }
    assert Slots(s, {}) == {};
    assert Without(s.all, {}) == s.all;
  }

  lemma ForgetOneMore(s: Pool, gone: set<Hash>, h: Hash)
    requires gone <= s.pending.Keys && h in s.pending && h !in gone
    ensures Forget(Forget(s, gone), {h}) == Forget(s, gone + {h})
  {
    var t := Forget(s, gone);
    assert Slots(t, {h}) == {Slot(s.pending[h])};
    assert Slots(s, gone + {h}) == Slots(s, gone) + {Slot(s.pending[h])};
    assert t.pending - {h} == s.pending - (gone + {h});
    WithoutMore(s.all, Slots(s, gone), Slots(t, {h}));
  }

  lemma WithoutMore(all: Accounts, p: set<(Address, u64)>, q: set<(Address, u64)>)
    ensures Without(Without(all, p), q) == Without(all, p + q)
  {
    forall a | a in all
      ensures Rest(Rest(all[a], a, p), a, q) == Rest(all[a], a, p + q)
      ensures Rest(all[a], a, p) == map[] ==> Rest(all[a], a, p + q) == map[]
    {
      forall n | n in all[a] && (a, n) !in p + q
        ensures n in Rest(all[a], a, p)
      {
      }
    }
    hide Rest;
  }

  /** Deleting one slot the way the source does. */
  lemma WithoutOne(all: Accounts, item: Item)
    requires forall a :: a in all ==> all[a] != map[]
    ensures var (a, n) := Slot(item);
      Without(all, {(a, n)}) ==
        if a !in all then all
        else if |all[a] - {n}| == 0 then all - {a}
        else all[a := all[a] - {n}]
  {
    forall a | a in all
      ensures Rest(all[a], a, {Slot(item)}) == if a == item.tx.from then all[a] - {item.tx.nonce} else all[a]
    {
    }
    hide Rest;
  }
}
