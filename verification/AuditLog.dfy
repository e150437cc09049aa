/**
 The audit log: a chain of records linked by hashes, anchored to block heights in batches
 that carry a Merkle root.

 The hash of a record covers its identifier, time, previous hash and event hash; the
 fields that anchoring sets are not covered.
 */
module AuditLog {
  import opened Common
  import Merkle

  datatype Event = Event(id: string, entityId: string, timestamp: i64, details: string)

  datatype Record = Record(
    id: string,
    timestamp: i64,
    prevHash: Hash,
    eventHash: Hash,
    event: Event,
    merkleRoot: Hash,
    blockHeight: u64)

  /** The fields of a record that its hash covers. */
  datatype Body = Body(id: string, timestamp: i64, prevHash: Hash, eventHash: Hash)

  datatype Hashing = Hashing(record: Body -> Hash, event: Event -> Hash, pair: Merkle.PairHash)

  datatype Log = Log(records: seq<Record>, lastHash: Hash)

  const EMPTY := Log([], ZERO_HASH)

  function BodyOf(r: Record): Body {
    Body(r.id, r.timestamp, r.prevHash, r.eventHash)
  }

  function RecordHash(h: Hashing, r: Record): Hash {
    h.record(BodyOf(r))
  }

  predicate ValidEvent(e: Event) {
    e.id != "" && e.entityId != "" && e.timestamp != 0
  }

  function Append(h: Hashing, log: Log, e: Event, id: string, now: i64): Log {
    var r := Record(id, now, log.lastHash, h.event(e), e, ZERO_HASH, 0);
    Log(log.records + [r], RecordHash(h, r))
  }

  /** The records that are not anchored yet, in order. */
  function Unanchored(records: seq<Record>): seq<Record> {
    if records == [] then []
    else
      var last := records[|records| - 1];
      Unanchored(records[..|records| - 1]) + if last.blockHeight == 0 then [last] else []
  }

  function Hashes(h: Hashing, records: seq<Record>): (r: seq<Hash>)
    ensures |r| == |records|
    ensures forall i :: 0 <= i < |records| ==> r[i] == RecordHash(h, records[i])
  {
    if records == [] then []
    else Hashes(h, records[..|records| - 1]) + [RecordHash(h, records[|records| - 1])]
  }

  function BatchRoot(h: Hashing, batch: seq<Record>): Hash {
    if batch == [] then ZERO_HASH else Merkle.Root(h.pair, Hashes(h, batch))
  }

  function Mark(r: Record, height: u64, root: Hash): Record {
    if r.blockHeight == 0 then r.(blockHeight := height, merkleRoot := root) else r
  }

  function Marked(records: seq<Record>, height: u64, root: Hash): (r: seq<Record>)
    ensures |r| == |records|
  {
    seq(|records|, i requires 0 <= i < |records| => Mark(records[i], height, root))
  }

  /** Anchoring at height 0 sets the root but leaves the records unanchored. */
  function Anchor(h: Hashing, log: Log, height: u64): Log {
    var batch := Unanchored(log.records);
    if batch == [] then log else log.(records := Marked(log.records, height, BatchRoot(h, batch)))
  }

  // ------------------------------------------------------------------ runs

  datatype Op = RecordEvent(event: Event, id: string, now: i64) | AnchorAt(height: u64)

  function Apply(h: Hashing, log: Log, op: Op): Log {
    match op
    case RecordEvent(e, id, now) => if ValidEvent(e) then Append(h, log, e, id, now) else log
    case AnchorAt(height) => Anchor(h, log, height)
  }

  function Run(h: Hashing, log: Log, ops: seq<Op>): Log {
    if ops == [] then log else Apply(h, Run(h, log, ops[..|ops| - 1]), ops[|ops| - 1])
  }

  // ------------------------------------------------------------------ the chain

  /** The hash that record number i has to name as its predecessor's. */
  function HashBefore(h: Hashing, records: seq<Record>, i: nat): Hash
    requires i <= |records|
  {
    if i == 0 then ZERO_HASH else RecordHash(h, records[i - 1])
  }

  /** Each record names the hash of the one before and holds its event's hash; the last hash is the last record's. */
  ghost predicate Chained(h: Hashing, log: Log) {
    && (forall i :: 0 <= i < |log.records| ==> log.records[i].prevHash == HashBefore(h, log.records, i))
    && (forall i :: 0 <= i < |log.records| ==> log.records[i].eventHash == h.event(log.records[i].event))
    && log.lastHash == HashBefore(h, log.records, |log.records|)
  }

  lemma AppendKeepsChain(h: Hashing, log: Log, e: Event, id: string, now: i64)
    requires Chained(h, log)
    ensures Chained(h, Append(h, log, e, id, now))
  {
    hide RecordHash, HashBefore;
    var log' := Append(h, log, e, id, now);
    var n := |log.records|;
    assert log'.records[..n] == log.records;
    forall i | 0 <= i <= n
      ensures HashBefore(h, log'.records, i) == HashBefore(h, log.records, i)
    {
      HashBeforeInPrefix(h, log.records, log'.records, i);
    }
    assert forall i :: 0 <= i < n ==> log'.records[i] == log.records[i];
    LastHash(h, log'.records);
  }

  lemma LastHash(h: Hashing, records: seq<Record>)
    requires records != []
    ensures HashBefore(h, records, |records|) == RecordHash(h, records[|records| - 1])
  {
  }

  lemma HashBeforeInPrefix(h: Hashing, records: seq<Record>, longer: seq<Record>, i: nat)
    requires i <= |records| <= |longer| && longer[..|records|] == records
    ensures HashBefore(h, longer, i) == HashBefore(h, records, i)
  {
    hide RecordHash;
    if i > 0 { assert longer[..|records|][i - 1] == longer[i - 1]; }
  }

  /** Anchoring changes no hashed field and no event. */
  lemma AnchorEffect(h: Hashing, log: Log, height: u64, i: nat)
    requires i < |log.records|
    ensures var log' := Anchor(h, log, height);
      && |log'.records| == |log.records| && log'.lastHash == log.lastHash
      && BodyOf(log'.records[i]) == BodyOf(log.records[i])
      && log'.records[i].event == log.records[i].event
  {
    hide Unanchored, BatchRoot;
  }

  lemma AnchorKeepsHash(h: Hashing, log: Log, height: u64, i: nat)
    requires i <= |log.records| == |Anchor(h, log, height).records|
    ensures HashBefore(h, Anchor(h, log, height).records, i) == HashBefore(h, log.records, i)
  {
    hide Anchor;
    if i > 0 { AnchorEffect(h, log, height, i - 1); }
  }

  /** Anchoring, at any height, never breaks the chain. */
  lemma AnchorKeepsChain(h: Hashing, log: Log, height: u64)
    requires Chained(h, log)
    ensures Chained(h, Anchor(h, log, height))
  {
    if log.records == [] { return; }
    hide Anchor, HashBefore;
    AnchorEffect(h, log, height, 0);
    var log' := Anchor(h, log, height);
    forall i | 0 <= i < |log.records|
      ensures log'.records[i].prevHash == HashBefore(h, log'.records, i)
      ensures log'.records[i].eventHash == h.event(log'.records[i].event)
    {
      AnchorEffect(h, log, height, i);
      AnchorKeepsHash(h, log, height, i);
      assert BodyOf(log'.records[i]).prevHash == log.records[i].prevHash;
      assert BodyOf(log'.records[i]).eventHash == log.records[i].eventHash;
    }
    AnchorKeepsHash(h, log, height, |log.records|);
  }

  // ------------------------------------------------------------------ what is recorded

  /** What was given to be recorded: the event, the record's identifier and its time. */
  datatype Given = Given(event: Event, id: string, now: i64)

  /** The events that a run records: those with an identifier, an entity and a time. */
  function GivenIn(ops: seq<Op>): seq<Given> {
    if ops == [] then []
    else
      var op := ops[|ops| - 1];
      GivenIn(ops[..|ops| - 1]) +
      if op.RecordEvent? && |op.event.id| > 0 && |op.event.entityId| > 0 && op.event.timestamp != 0 then
        [Given(op.event, op.id, op.now)]
      else []
  }

  /** What the records of a log say was given. */
  function GivenTo(records: seq<Record>): (r: seq<Given>)
    ensures |r| == |records|
  {
    seq(|records|, i requires 0 <= i < |records| => Given(records[i].event, records[i].id, records[i].timestamp))
  }

  /**
   After any run the records tell exactly what the run recorded, in order: every valid event
   as it was given, with the identifier and time of its record, and nothing else.
   */
  lemma {:induction false} RecordsTellTheRun(h: Hashing, ops: seq<Op>)
    ensures GivenTo(Run(h, EMPTY, ops).records) == GivenIn(ops)
  {
    if ops != [] {
      RecordsTellTheRun(h, ops[..|ops| - 1]);
      OperationTells(h, Run(h, EMPTY, ops[..|ops| - 1]), ops[|ops| - 1]);
      hide Apply, GivenTo;
    }
  }

  lemma OperationTells(h: Hashing, log: Log, op: Op)
    ensures GivenTo(Apply(h, log, op).records) == GivenTo(log.records) +
      if op.RecordEvent? && |op.event.id| > 0 && |op.event.entityId| > 0 && op.event.timestamp != 0 then
        [Given(op.event, op.id, op.now)]
      else []
  {
    hide Unanchored, BatchRoot, RecordHash;
  }

  /** Anchoring gives every record that was not anchored the height it was called with, and no other. */
  lemma AnchoredAtTheHeight(h: Hashing, log: Log, height: u64, i: nat)
    requires i < |log.records|
    ensures |Anchor(h, log, height).records| == |log.records|
    ensures Anchor(h, log, height).records[i].blockHeight ==
      if log.records[i].blockHeight == 0 then height else log.records[i].blockHeight
  {
    if log.records[i].blockHeight == 0 { SomeUnanchored(log.records, i); }
    hide Unanchored, BatchRoot;
  }

  lemma {:induction false} SomeUnanchored(records: seq<Record>, i: nat)
    requires i < |records| && records[i].blockHeight == 0
    ensures Unanchored(records) != []
  {
    if i < |records| - 1 { SomeUnanchored(records[..|records| - 1], i); }
  }

  // ------------------------------------------------------------------ batches

  function EndOf(cuts: seq<nat>): nat {
    if cuts == [] then 0 else cuts[|cuts| - 1]
  }

  function StartOf(cuts: seq<nat>, j: nat): nat
    requires j < |cuts|
  {
    if j == 0 then 0 else cuts[j - 1]
  }

  /** Batch number j: a non-empty stretch of records anchored at one height with the root of their hashes. */
  ghost predicate Batch(h: Hashing, records: seq<Record>, cuts: seq<nat>, j: nat)
    requires j < |cuts|
  {
    && StartOf(cuts, j) < cuts[j] <= |records|
    && var batch := records[StartOf(cuts, j)..cuts[j]];
      batch[0].blockHeight != 0 &&
      forall i :: 0 <= i < |batch| ==>
        batch[i].blockHeight == batch[0].blockHeight && batch[i].merkleRoot == BatchRoot(h, batch)
  }

  /** The cuts split a prefix of the log into batches; what follows is not anchored. */
  ghost predicate Batched(h: Hashing, records: seq<Record>, cuts: seq<nat>) {
    && EndOf(cuts) <= |records|
    && (forall j :: 0 <= j < |cuts| ==> Batch(h, records, cuts, j))
    && (forall i :: EndOf(cuts) <= i < |records| ==> records[i].blockHeight == 0)
    && (forall i :: 0 <= i < EndOf(cuts) ==> records[i].blockHeight != 0)
  }

  /** The unanchored records are those after the last cut. */
  lemma {:induction false} UnanchoredIsSuffix(records: seq<Record>, end: nat)
    requires end <= |records|
    requires forall i :: end <= i < |records| ==> records[i].blockHeight == 0
    requires forall i :: 0 <= i < end ==> records[i].blockHeight != 0
    ensures Unanchored(records) == records[end..]
    decreases |records|
  {
    if records != [] {
      var front := records[..|records| - 1];
      UnanchoredIsSuffix(front, if end < |records| then end else end - 1);
      if end < |records| { assert records[end..] == front[end..] + [records[|records| - 1]]; }
    }
  }

  /** A batch that the new log has in common with the old one stays a batch. */
  lemma BatchStays(h: Hashing, records: seq<Record>, records': seq<Record>, cuts: seq<nat>, cuts': seq<nat>, j: nat)
    requires j < |cuts| <= |cuts'| && cuts'[..|cuts|] == cuts && Batch(h, records, cuts, j)
    requires cuts[j] <= |records'| && records'[..cuts[j]] == records[..cuts[j]]
    ensures Batch(h, records', cuts', j)
  {
    assert cuts'[j] == cuts[j] && StartOf(cuts', j) == StartOf(cuts, j) by {
      assert cuts'[..|cuts|][j] == cuts[j];
      if j > 0 { assert cuts'[..|cuts|][j - 1] == cuts[j - 1]; }
    }
    assert records'[StartOf(cuts, j)..cuts[j]] == records'[..cuts[j]][StartOf(cuts, j)..];
    assert records[StartOf(cuts, j)..cuts[j]] == records[..cuts[j]][StartOf(cuts, j)..];
  }

  lemma {:induction false} CutsIncrease(h: Hashing, records: seq<Record>, cuts: seq<nat>, j: nat)
    requires Batched(h, records, cuts) && j < |cuts|
    ensures cuts[j] <= EndOf(cuts)
    decreases |cuts| - j
  {
    if j + 1 < |cuts| {
      CutsIncrease(h, records, cuts, j + 1);
      assert Batch(h, records, cuts, j + 1);
    }
  }

  lemma AppendKeepsBatches(h: Hashing, log: Log, e: Event, id: string, now: i64, cuts: seq<nat>)
    requires Batched(h, log.records, cuts)
    ensures Batched(h, Append(h, log, e, id, now).records, cuts)
  {
    var records' := Append(h, log, e, id, now).records;
    forall j | 0 <= j < |cuts|
      ensures Batch(h, records', cuts, j)
    {
      assert Batch(h, log.records, cuts, j);
      assert cuts[..|cuts|] == cuts;
      assert records'[..cuts[j]] == log.records[..cuts[j]];
      BatchStays(h, log.records, records', cuts, cuts, j);
    }
  }

  /** Marking leaves the hashes as they are, so a root can be recomputed from marked records. */
  lemma {:induction false} MarkingKeepsHashes(h: Hashing, records: seq<Record>, height: u64, root: Hash)
    ensures Hashes(h, Marked(records, height, root)) == Hashes(h, records)
  {
    forall i | 0 <= i < |records|
      ensures Hashes(h, Marked(records, height, root))[i] == Hashes(h, records)[i]
    {
    }
  }

  /** Anchored records are left as they are and the rest is marked. */
  lemma MarkedSuffix(records: seq<Record>, end: nat, height: u64, root: Hash)
    requires end <= |records|
    requires forall i :: 0 <= i < end ==> records[i].blockHeight != 0
    ensures Marked(records, height, root)[..end] == records[..end]
    ensures Marked(records, height, root)[end..] == Marked(records[end..], height, root)
  {
  }

  lemma MarkedBatch(h: Hashing, batch: seq<Record>, height: u64)
    requires batch != [] && height != 0 && forall i :: 0 <= i < |batch| ==> batch[i].blockHeight == 0
    ensures var marked := Marked(batch, height, BatchRoot(h, batch));
      forall i :: 0 <= i < |marked| ==> marked[i].blockHeight == height && marked[i].merkleRoot == BatchRoot(h, marked)
  {
    MarkingKeepsHashes(h, batch, height, BatchRoot(h, batch));
    hide Hashes;
  }

  lemma MarkedAtZero(records: seq<Record>, root: Hash, i: nat)
    requires i < |records|
    ensures Marked(records, 0, root)[i].blockHeight == records[i].blockHeight
  {
  }

  /** Anchoring leaves the batches there are, and marks everything after them. */
  lemma AnchorIsMarking(h: Hashing, log: Log, height: u64, cuts: seq<nat>)
    requires Batched(h, log.records, cuts)
    ensures var rest := log.records[EndOf(cuts)..];
      Anchor(h, log, height).records ==
        if rest == [] then log.records else Marked(log.records, height, BatchRoot(h, rest))
  {
    hide Batch, BatchRoot, Marked;
    UnanchoredIsSuffix(log.records, EndOf(cuts));
  }

  lemma BatchesStay(h: Hashing, records: seq<Record>, records': seq<Record>, cuts: seq<nat>, cuts': seq<nat>, j: nat)
    requires Batched(h, records, cuts) && j < |cuts| <= |cuts'| && cuts'[..|cuts|] == cuts
    requires EndOf(cuts) <= |records'| && records'[..EndOf(cuts)] == records[..EndOf(cuts)]
    ensures Batch(h, records', cuts', j)
  {
    CutsIncrease(h, records, cuts, j);
    hide EndOf;
    assert Batch(h, records, cuts, j);
    assert records'[..cuts[j]] == records'[..EndOf(cuts)][..cuts[j]];
    assert records[..cuts[j]] == records[..EndOf(cuts)][..cuts[j]];
    hide Batch;
    BatchStays(h, records, records', cuts, cuts', j);
  }

  /** Anchoring at a non-zero height makes one more batch of everything unanchored. */
  lemma AnchorAddsBatch(h: Hashing, log: Log, height: u64, cuts: seq<nat>)
    requires Batched(h, log.records, cuts) && height != 0 && EndOf(cuts) < |log.records|
    ensures Batched(h, Anchor(h, log, height).records, cuts + [|log.records|])
  {
    hide Anchor, Marked, BatchRoot;
    var records, end := log.records, EndOf(cuts);
    var rest := records[end..];
    var records' := Marked(records, height, BatchRoot(h, rest));
    var cuts' := cuts + [|records|];
    AnchorIsMarking(h, log, height, cuts);
    MarkedSuffix(records, end, height, BatchRoot(h, rest));
    MarkedBatch(h, rest, height);
    assert records'[end..|records|] == records'[end..];
    forall j | 0 <= j < |cuts'|
      ensures Batch(h, records', cuts', j)
    {
      if j < |cuts| { BatchesStay(h, records, records', cuts, cuts', j); }
    }
    forall i | 0 <= i < |records|
      ensures records'[i].blockHeight != 0
    {
      if i < end {
        assert records'[..end][i] == records[..end][i];
      } else {
        assert records'[i] == records'[end..][i - end];
      }
    }
  }

  /** Anchoring at height 0, or with everything anchored, makes no batch. */
  lemma AnchorAddsNothing(h: Hashing, log: Log, height: u64, cuts: seq<nat>)
    requires Batched(h, log.records, cuts) && (height == 0 || EndOf(cuts) == |log.records|)
    ensures Batched(h, Anchor(h, log, height).records, cuts)
  {
    hide Anchor, Marked, BatchRoot;
    var records, end := log.records, EndOf(cuts);
    AnchorIsMarking(h, log, height, cuts);
    if end < |records| {
      var root := BatchRoot(h, records[end..]);
      var records' := Marked(records, 0, root);
      MarkedSuffix(records, end, 0, root);
      forall j | 0 <= j < |cuts|
        ensures Batch(h, records', cuts, j)
      {
        assert cuts[..|cuts|] == cuts;
        BatchesStay(h, records, records', cuts, cuts, j);
      }
      forall i | 0 <= i < |records|
        ensures records'[i].blockHeight == records[i].blockHeight
      {
        MarkedAtZero(records, root, i);
      }
    }
  }

  // ------------------------------------------------------------------ every run

  ghost predicate Good(h: Hashing, log: Log) {
    Chained(h, log) && exists cuts: seq<nat> :: Batched(h, log.records, cuts)
  }

  /** In every run the log is chained and its anchored records are a prefix, in batches with recomputable roots. */
  lemma {:induction false} RunKeepsLogGood(h: Hashing, ops: seq<Op>)
    ensures Good(h, Run(h, EMPTY, ops))
  {
    hide Batched, Chained, Append, Anchor;
    if ops == [] {
      EmptyIsGood(h);
    } else {
      var log := Run(h, EMPTY, ops[..|ops| - 1]);
      RunKeepsLogGood(h, ops[..|ops| - 1]);
      var cuts: seq<nat> :| Batched(h, log.records, cuts);
      match ops[|ops| - 1]
      case RecordEvent(e, id, now) =>
        AppendKeepsChain(h, log, e, id, now);
        AppendKeepsBatches(h, log, e, id, now, cuts);
      case AnchorAt(height) =>
        AnchorKeepsChain(h, log, height);
        if height != 0 && EndOf(cuts) < |log.records| {
          AnchorAddsBatch(h, log, height, cuts);
        } else {
          EndIsInLog(h, log, cuts);
          AnchorAddsNothing(h, log, height, cuts);
        }
    }
  }

  lemma EndIsInLog(h: Hashing, log: Log, cuts: seq<nat>)
    requires Batched(h, log.records, cuts)
    ensures EndOf(cuts) <= |log.records|
  {
  }

  lemma EmptyIsGood(h: Hashing)
    ensures Good(h, EMPTY)
  {
    assert Batched(h, EMPTY.records, []);
  }

  /** What may happen to a record later: nothing to its hash and event, and nothing at all once it is anchored. */
  ghost predicate Settled(r: Record, r': Record) {
    BodyOf(r') == BodyOf(r) && r'.event == r.event && (r.blockHeight != 0 ==> r' == r)
  }

  /** From any log on, every later run leaves hashed fields and events alone and never changes an anchored record. */
  lemma {:induction false} AnchoredForGood(h: Hashing, log: Log, ops: seq<Op>, i: nat)
    requires i < |log.records|
    ensures i < |Run(h, log, ops).records| && Settled(log.records[i], Run(h, log, ops).records[i])
  {
    hide Append, Anchor;
    if ops != [] {
      AnchoredForGood(h, log, ops[..|ops| - 1], i);
      OperationSettles(h, Run(h, log, ops[..|ops| - 1]), ops[|ops| - 1], i);
    }
  }

  lemma OperationSettles(h: Hashing, log: Log, op: Op, i: nat)
    requires i < |log.records|
    ensures i < |Apply(h, log, op).records| && Settled(log.records[i], Apply(h, log, op).records[i])
  {
  }

  // ------------------------------------------------------------------ tampering shows

  /** What is hashed for the records of a log. */
  ghost function Bodies(log: Log): set<Body> {
    set i | 0 <= i < |log.records| :: BodyOf(log.records[i])
  }

  /** Chained logs of one length with one last hash agree on every hashed field of every record. */
  lemma {:induction false} SameLastHashSameRecords(h: Hashing, a: Log, b: Log, n: nat, i: nat, u: set<Body>)
    requires Chained(h, a) && Chained(h, b) && |a.records| == |b.records| && i < n <= |a.records|
    requires HashBefore(h, a.records, n) == HashBefore(h, b.records, n)
    requires Bodies(a) <= u && Bodies(b) <= u && CollisionFree(h.record, u)
    ensures BodyOf(a.records[i]) == BodyOf(b.records[i])
    ensures a.records[i].id == b.records[i].id && a.records[i].timestamp == b.records[i].timestamp
    ensures a.records[i].prevHash == b.records[i].prevHash && a.records[i].eventHash == b.records[i].eventHash
    decreases n
  {
    hide Chained, Bodies, CollisionFree, HashBefore;
    LastBodies(h, a, b, n, u);
    if i < n - 1 {
      ChainLink(h, a, n - 1);
      ChainLink(h, b, n - 1);
      SameLastHashSameRecords(h, a, b, n - 1, i, u);
    }
  }

  lemma ChainLink(h: Hashing, log: Log, i: nat)
    requires Chained(h, log) && i < |log.records|
    ensures BodyOf(log.records[i]).prevHash == HashBefore(h, log.records, i)
  {
  }

  lemma LastBodies(h: Hashing, a: Log, b: Log, n: nat, u: set<Body>)
    requires 0 < n <= |a.records| && n <= |b.records|
    requires HashBefore(h, a.records, n) == HashBefore(h, b.records, n)
    requires Bodies(a) <= u && Bodies(b) <= u && CollisionFree(h.record, u)
    ensures BodyOf(a.records[n - 1]) == BodyOf(b.records[n - 1])
  {
    assert BodyOf(a.records[n - 1]) in Bodies(a) && BodyOf(b.records[n - 1]) in Bodies(b);
  }

  ghost function Events(log: Log): set<Event> {
    set i | 0 <= i < |log.records| :: log.records[i].event
  }

  /** So logs of two runs with one length and one last hash record the same events at the same places. */
  lemma SameLastHashSameEvents(h: Hashing, opsA: seq<Op>, opsB: seq<Op>, i: nat, u: set<Body>, events: set<Event>)
    requires |Run(h, EMPTY, opsA).records| == |Run(h, EMPTY, opsB).records|
    requires Run(h, EMPTY, opsA).lastHash == Run(h, EMPTY, opsB).lastHash
    requires i < |Run(h, EMPTY, opsA).records|
    requires Bodies(Run(h, EMPTY, opsA)) <= u && Bodies(Run(h, EMPTY, opsB)) <= u && CollisionFree(h.record, u)
    requires Events(Run(h, EMPTY, opsA)) <= events && Events(Run(h, EMPTY, opsB)) <= events
    requires CollisionFree(h.event, events)
    ensures BodyOf(Run(h, EMPTY, opsA).records[i]) == BodyOf(Run(h, EMPTY, opsB).records[i])
    ensures Run(h, EMPTY, opsA).records[i].event == Run(h, EMPTY, opsB).records[i].event
  {
    hide Run, Bodies, CollisionFree, Batched, HashBefore;
    var a, b := Run(h, EMPTY, opsA), Run(h, EMPTY, opsB);
    RunKeepsLogGood(h, opsA);
    RunKeepsLogGood(h, opsB);
    SameLastHashSameRecords(h, a, b, |a.records|, i, u);
    assert BodyOf(a.records[i]).eventHash == a.records[i].eventHash;
    assert BodyOf(b.records[i]).eventHash == b.records[i].eventHash;
    SameEventHash(h, a.records[i].event, b.records[i].event, a, b, i, events);
  }

  lemma SameEventHash(h: Hashing, e: Event, f: Event, a: Log, b: Log, i: nat, events: set<Event>)
    requires i < |a.records| && i < |b.records| && a.records[i].event == e && b.records[i].event == f
    requires Events(a) <= events && Events(b) <= events && CollisionFree(h.event, events) && h.event(e) == h.event(f)
    ensures e == f
  {
    assert a.records[i].event in Events(a) && b.records[i].event in Events(b);
  }

  // ------------------------------------------------------------------ the log as an object

  class AuditService {
    const hashing: Hashing
    var auditLog: seq<Record>
    var lastHash: Hash

    ghost function View(): Log
      reads this
    {
      Log(auditLog, lastHash)
    }

    constructor (hashing: Hashing)
      ensures this.hashing == hashing && View() == EMPTY
    {
      this.hashing := hashing;
      auditLog := [];
      lastHash := ZERO_HASH;
    }

    /** Fails exactly on an invalid event; the identifier and time of the record are parameters. */
    method RecordStateChange(event: Event, recordId: string, now: i64) returns (ok: bool)
      modifies this
      ensures ok == ValidEvent(event)
      ensures View() == Apply(hashing, old(View()), RecordEvent(event, recordId, now))
    {
      if event.id == "" { return false; }
      if event.entityId == "" { return false; }
      if event.timestamp == 0 { return false; }
      CreateAuditRecord(event, recordId, now);
      return true;
    }

    method CreateAuditRecord(event: Event, recordId: string, now: i64)
      modifies this
      ensures View() == Append(hashing, old(View()), event, recordId, now)
    {
      var record := Record(recordId, now, lastHash, hashing.event(event), event, ZERO_HASH, 0);
      lastHash := RecordHash(hashing, record);
      auditLog := auditLog + [record];
    }

    method CalculateMerkleRoot(records: seq<Record>) returns (root: Hash)
      ensures root == BatchRoot(hashing, records)
    {
      var hashes: seq<Hash> := [];
      for i := 0 to |records|
        invariant hashes == Hashes(hashing, records[..i])
      {
        assert records[..i + 1][..i] == records[..i];
        hashes := hashes + [RecordHash(hashing, records[i])];
      }
      assert records[..|records|] == records;
      root := Merkle.CalculateMerkleRoot(hashing.pair, hashes);
    }

    method AnchorAuditLog(blockHeight: u64)
      modifies this
      ensures View() == Anchor(hashing, old(View()), blockHeight)
    {
      if |auditLog| == 0 { return; }
      var unanchored: seq<Record> := [];
      for i := 0 to |auditLog|
        invariant unanchored == Unanchored(auditLog[..i])
      {
        assert auditLog[..i + 1][..i] == auditLog[..i];
        if auditLog[i].blockHeight == 0 {
          unanchored := unanchored + [auditLog[i]];
        }
      }
      assert auditLog[..|auditLog|] == auditLog;
      if |unanchored| == 0 { return; }
      var merkleRoot := CalculateMerkleRoot(unanchored);
      ghost var before := auditLog;
      for i := 0 to |auditLog|
        invariant |auditLog| == |before| && lastHash == old(lastHash)
        invariant forall k :: 0 <= k < i ==> auditLog[k] == Mark(before[k], blockHeight, merkleRoot)
        invariant forall k :: i <= k < |auditLog| ==> auditLog[k] == before[k]
      {
        if auditLog[i].blockHeight == 0 {
          auditLog := auditLog[i := auditLog[i].(blockHeight := blockHeight, merkleRoot := merkleRoot)];
        }
      }
      assert auditLog == Marked(before, blockHeight, merkleRoot);
    }
  }
}
