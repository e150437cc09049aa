/**
 Which overwriting of slot hashes agreement survives.

 A second pre-prepare for a sequence number replaces the slot's hash and keeps its votes.
 A policy says which changes of hash are let through on slots that have recorded commit
 votes; the engine as it is lets all through.
 */
module PbftOverwriting {
  import opened Common
  import opened Validators
  import opened Pbft
  import opened PbftSafety

  /** Accepting m would change the hash of a slot that has recorded commit votes. A node can tell before accepting. */
  predicate Overwrites(slot: Slot, m: Message) {
    slot.commits != map[] && m.hash != slot.hash
  }

  /** Accepted pre-prepares overwrite only as the policy allows. */
  ghost predicate Follows(s: System, step: Step, policy: Policy) {
    step.Deliver? && step.message.PrePrepare? && step.to in s.nodes && Accepts(s.nodes[step.to], step.message) ==>
      var slot := SlotOf(s.nodes[step.to], step.message);
      Overwrites(slot, step.message) ==> policy(slot.hash, step.message.hash)
  }

  ghost predicate FollowsAll(states: seq<System>, steps: seq<Step>, policy: Policy) {
    |states| == |steps| + 1 && forall i :: 0 <= i < |steps| ==> Follows(states[i], steps[i], policy)
  }

  /** The step makes node a commit sequence number q with hash h and hand the block over. */
  ghost predicate HandsOver(s: System, step: Step, a: Address, q: u64, h: Hash, block: BlockData) {
    && step.Deliver? && step.to == a && a in s.nodes && step.message.seqNumber == q
    && SlotOf(s.nodes[a], step.message).hash == h
    && Handle(s.nodes[a], step.message).1.deliver == Some(block)
  }

  /** In every run that follows the policy, blocks handed over for one sequence number have one hash. */
  ghost predicate AlwaysAgrees(validators: seq<Address>, policy: Policy) {
    forall states, steps, i: nat, j: nat, a, b, q: u64, h, h', block, block' ::
      (&& IsRun(states, steps, validators) && FollowsAll(states, steps, policy)
       && i < |steps| && HandsOver(states[i], steps[i], a, q, h, block)
       && j < |steps| && HandsOver(states[j], steps[j], b, q, h', block')) ==> h == h'
  }

  /** Allowed changes from x to y, one after the other. */
  ghost predicate IsPath(policy: Policy, path: seq<Hash>, x: Hash, y: Hash) {
    && path != [] && path[0] == x && path[|path| - 1] == y
    && forall i :: 0 < i < |path| ==> policy(path[i - 1], path[i])
  }

  ghost predicate Leads(policy: Policy, x: Hash, y: Hash) {
    exists path :: IsPath(policy, path, x, y)
  }

  ghost function Leading(policy: Policy): Policy {
    (x, y) => Leads(policy, x, y)
  }

  /**
   The policies that n validators can afford: none with four or more, none that leads from
   a hash to another and back with two or three, any with one.
   */
  ghost predicate Affordable(n: nat, policy: Policy) {
    if n <= 1 then true
    else if n <= 3 then forall x, y :: Leads(policy, x, y) && Leads(policy, y, x) ==> x == y
    else forall x, y :: policy(x, y) ==> x == y
  }

  // ------------------------------------------------------------------ affordable policies keep agreement

  lemma LeadsToItself(policy: Policy)
    ensures forall x :: Leads(policy, x, x)
  {
    forall x
      ensures Leads(policy, x, x)
    {
      assert IsPath(policy, [x], x, x);
    }
  }

  lemma LeadsOneFurther(policy: Policy, x: Hash, y: Hash, z: Hash)
    requires Leads(policy, x, y) && policy(y, z)
    ensures Leads(policy, x, z)
  {
    var path :| IsPath(policy, path, x, y);
    assert IsPath(policy, path + [z], x, z);
  }

  lemma {:induction false} NoChangeLeadsNowhere(policy: Policy, path: seq<Hash>, x: Hash, y: Hash)
    requires IsPath(policy, path, x, y) && forall u, v :: policy(u, v) ==> u == v
    ensures x == y
  {
    if |path| > 1 {
      var last := |path| - 1;
      assert policy(path[last - 1], path[last]);
      NoChangeLeadsNowhere(policy, path[..last], x, path[last - 1]);
    }
  }

  lemma FollowingIsGuarded(s: System, step: Step, policy: Policy)
    requires AllCoherent(s, Leading(policy)) && Enabled(s, step) && Follows(s, step, policy)
    ensures Guarded(s, step, Leading(policy))
  {
    if step.Deliver? && step.message.PrePrepare? && Accepts(s.nodes[step.to], step.message) {
      var slot, m := SlotOf(s.nodes[step.to], step.message), step.message;
      hide Accepts, Leads;
      forall v | v in slot.commits && v in s.nodes
        ensures Leads(policy, slot.commits[v], m.hash)
      {
        assert Coherent(s.nodes[step.to].slots[m.seqNumber], s.nodes.Keys, Leading(policy));
        assert Leading(policy)(slot.commits[v], slot.hash);
        if m.hash != slot.hash { LeadsOneFurther(policy, slot.commits[v], slot.hash, m.hash); }
      }
    }
  }

  /** In a run that follows the policy every recorded vote leads to its slot's hash. */
  lemma {:induction false} FollowingRunIsGuarded(
      states: seq<System>, steps: seq<Step>, validators: seq<Address>, policy: Policy, i: nat)
    requires IsRun(states, steps, validators) && FollowsAll(states, steps, policy) && i < |states|
    ensures AllCoherent(states[i], Leading(policy))
    ensures i < |steps| ==> Guarded(states[i], steps[i], Leading(policy))
  {
    hide AllCoherent, Apply, Guarded, Initial, Follows, Enabled, Leads;
    if i == 0 {
      InitiallyCoherent(states[0], validators, Leading(policy));
    } else {
      FollowingRunIsGuarded(states, steps, validators, policy, i - 1);
      LeadsToItself(policy);
      StepKeepsCoherent(states[i - 1], steps[i - 1], Leading(policy));
    }
    if i < |steps| { FollowingIsGuarded(states[i], steps[i], policy); }
  }

  /** A block handed over is decided with its hash from then on, and the sender of the last vote committed to it. */
  lemma HandingOverDecides(s: System, step: Step, a: Address, q: u64, h: Hash, block: BlockData)
    requires Enabled(s, step) && HandsOver(s, step, a, q, h, block)
    ensures HasDecided(Apply(s, step), a, q) && Decision(Apply(s, step), a, q) == h
    ensures step.message.sender in s.nodes[a].validators && SentCommit(Apply(s, step), q, step.message.sender, h)
  {
    var m := step.message;
    assert Commit(m.view, q, m.sender, h) == m;
  }

  /** With four validators or more a refusing policy keeps agreement. */
  lemma RefusingAgrees(states: seq<System>, steps: seq<Step>, validators: seq<Address>, policy: Policy,
                       i: nat, a: Address, h: Hash, block: BlockData,
                       j: nat, b: Address, h': Hash, block': BlockData, q: u64)
    requires IsRun(states, steps, validators) && FollowsAll(states, steps, policy) && i <= j < |steps|
    requires HandsOver(states[i], steps[i], a, q, h, block) && HandsOver(states[j], steps[j], b, q, h', block')
    requires |validators| >= 4 && Affordable(|validators|, policy)
    ensures h == h'
  {
    hide Apply, Guarded, Initial, FollowsAll, Enabled, HandsOver, Leads, AllCoherent;
    forall k | 0 <= k < |steps|
      ensures Guarded(states[k], steps[k], Same)
    {
      FollowingRunIsGuarded(states, steps, validators, policy, k);
      GuardedBySame(states[k], steps[k], policy);
    }
    HandingOverDecides(states[i], steps[i], a, q, h, block);
    HandingOverDecides(states[j], steps[j], b, q, h', block');
    Agreement(states, steps, validators, i + 1, a, j + 1, b, q);
  }

  lemma GuardedBySame(s: System, step: Step, policy: Policy)
    requires Guarded(s, step, Leading(policy)) && forall x, y :: policy(x, y) ==> x == y
    ensures Guarded(s, step, Same)
  {
    hide Accepts;
    forall x, y | Leading(policy)(x, y)
      ensures Same(x, y)
    {
      var path :| IsPath(policy, path, x, y);
      NoChangeLeadsNowhere(policy, path, x, y);
    }
  }

  /** With three validators or fewer nobody may be faulty and every validator votes for every decision. */
  lemma EverybodyVoted(s: System, a: Address, q: u64, validators: seq<Address>, v: Address)
    requires Inv(s, validators) && HasDecided(s, a, q) && |validators| <= 3 && v in validators
    ensures v in s.nodes && v in s.nodes[a].slots[q].commits && SentCommit(s, q, v, s.nodes[a].slots[q].commits[v])
  {
    InvAtSlot(s, a, q, validators);
    InvIsDistinct(s, validators);
    DistinctCount(validators);
    var slot, faulty := s.nodes[a].slots[q], Elems(validators) - s.nodes.Keys;
    assert |faulty| == 0 && v in Elems(validators);
    assert |slot.commits| == |slot.commits.Keys|;
    if v !in slot.commits {
      SubsetCount(slot.commits.Keys, Elems(validators) - {v});
      assert false;
    }
  }

  /** Whatever a validator ever commits to leads to the hash of every decision. */
  lemma VoteLeadsToDecision(states: seq<System>, steps: seq<Step>, validators: seq<Address>, policy: Policy,
                            i: nat, a: Address, q: u64, j: nat, v: Address, h: Hash)
    requires IsRun(states, steps, validators) && FollowsAll(states, steps, policy) && i <= j < |states|
    requires |validators| <= 3 && HasDecided(states[i], a, q) && v in validators && SentCommit(states[j], q, v, h)
    ensures Leads(policy, h, Decision(states[i], a, q))
  {
    RunKeepsInv(states, steps, validators, i);
    RunKeepsInv(states, steps, validators, j);
    FollowingRunIsGuarded(states, steps, validators, policy, i);
    MessagesStaySent(states, steps, validators, i, j);
    hide Inv, IsRun, FollowsAll, Leads, SentCommit;
    EverybodyVoted(states[i], a, q, validators, v);
    var slot := states[i].nodes[a].slots[q];
    SentCommitStays(states[i], states[j], q, v, slot.commits[v]);
    OneCommitPerNode(states[j], q, v, h, slot.commits[v], validators);
    assert Coherent(slot, states[i].nodes.Keys, Leading(policy));
    assert Leading(policy)(slot.commits[v], slot.hash);
  }

  /** What one hand-over leaves behind. */
  lemma AfterHandingOver(states: seq<System>, steps: seq<Step>, validators: seq<Address>,
                         i: nat, a: Address, q: u64, h: Hash, block: BlockData, j: nat)
    requires IsRun(states, steps, validators) && i < |steps| && i < j < |states|
    requires HandsOver(states[i], steps[i], a, q, h, block)
    ensures HasDecided(states[i + 1], a, q) && Decision(states[i + 1], a, q) == h
    ensures steps[i].Deliver? && steps[i].message.sender in validators
    ensures SentCommit(states[j], q, steps[i].message.sender, h)
  {
    RunKeepsInv(states, steps, validators, i);
    AddressesMatch(states[i], validators);
    HandingOverDecides(states[i], steps[i], a, q, h, block);
    MessagesStaySent(states, steps, validators, i + 1, j);
    hide Inv, Apply, Enabled, Initial, SentCommit;
    SentCommitStays(states[i + 1], states[j], q, steps[i].message.sender, h);
  }

  /** Three validators or fewer agree under an affordable policy. */
  lemma SmallGroupsAgree(states: seq<System>, steps: seq<Step>, validators: seq<Address>, policy: Policy,
                         i: nat, a: Address, h: Hash, block: BlockData,
                         j: nat, b: Address, h': Hash, block': BlockData, q: u64)
    requires IsRun(states, steps, validators) && FollowsAll(states, steps, policy) && i <= j < |steps|
    requires HandsOver(states[i], steps[i], a, q, h, block) && HandsOver(states[j], steps[j], b, q, h', block')
    requires |validators| <= 3 && Affordable(|validators|, policy)
    ensures h == h'
  {
    hide Inv, Initial, Enabled, Apply, FollowsAll, HandsOver, Leads, SentCommit, Affordable;
    AfterHandingOver(states, steps, validators, i, a, q, h, block, j + 1);
    AfterHandingOver(states, steps, validators, j, b, q, h', block', j + 1);
    RunKeepsInv(states, steps, validators, j + 1);
    var v, w := steps[i].message.sender, steps[j].message.sender;
    VoteLeadsToDecision(states, steps, validators, policy, i + 1, a, q, j + 1, w, h');
    VoteLeadsToDecision(states, steps, validators, policy, j + 1, b, q, j + 1, v, h);
    if |validators| == 1 {
      assert v == w && v in states[j + 1].nodes by { OnlyValidator(states[j + 1], validators, v, w); }
      OneCommitPerNode(states[j + 1], q, v, h, h', validators);
    } else {
      NoWayBack(|validators|, policy, h, h');
    }
  }

  lemma OnlyValidator(s: System, validators: seq<Address>, v: Address, w: Address)
    requires Inv(s, validators) && |validators| == 1 && v in validators && w in validators
    ensures v == w && v in s.nodes
  {
    assert v in Elems(validators) && |Elems(validators) - s.nodes.Keys| == 0;
  }

  lemma NoWayBack(n: nat, policy: Policy, x: Hash, y: Hash)
    requires 2 <= n <= 3 && Affordable(n, policy) && Leads(policy, x, y) && Leads(policy, y, x)
    ensures x == y
  {
    hide Leads;
  }

  /** Affordable policies keep agreement in every run. */
  lemma AffordablePoliciesAgree(validators: seq<Address>, policy: Policy)
    requires Affordable(|validators|, policy)
    ensures AlwaysAgrees(validators, policy)
  {
    hide Initial, Enabled, Apply, Follows, HandsOver, Leads, Affordable;
    forall states, steps, i: nat, j: nat, a, b, q: u64, h, h', block, block' |
      && IsRun(states, steps, validators) && FollowsAll(states, steps, policy)
      && i < |steps| && HandsOver(states[i], steps[i], a, q, h, block)
      && j < |steps| && HandsOver(states[j], steps[j], b, q, h', block')
      ensures h == h'
    {
      if |validators| <= 3 {
        if i <= j {
          SmallGroupsAgree(states, steps, validators, policy, i, a, h, block, j, b, h', block', q);
        } else {
          SmallGroupsAgree(states, steps, validators, policy, j, b, h', block', i, a, h, block, q);
        }
      } else if i <= j {
        RefusingAgrees(states, steps, validators, policy, i, a, h, block, j, b, h', block', q);
      } else {
        RefusingAgrees(states, steps, validators, policy, j, b, h', block', i, a, h, block, q);
      }
    }
  }

  // ------------------------------------------------------------------ a run without faults

  /**
   Two blocks proposed for one sequence number in view 0, true standing for the first, and
   the hashes on the way from the first to the second and back.
   */
  datatype Scene = Scene(
    validators: seq<Address>,
    q: u64,
    hashes: (Hash, Hash),
    blocks: (BlockData, BlockData),
    there: seq<Hash>,
    back: seq<Hash>)

  ghost predicate Fine(c: Scene) {
    Distinct(c.validators) && |c.validators| >= 2 && c.hashes.0 != c.hashes.1
  }

  /** The changes of hash that the run needs: one way, and back if there are fewer than four validators. */
  ghost predicate Allowed(c: Scene, policy: Policy) {
    && IsPath(policy, c.there, c.hashes.0, c.hashes.1)
    && (|c.validators| >= 4 || IsPath(policy, c.back, c.hashes.1, c.hashes.0))
  }

  function HashOf(c: Scene, x: bool): Hash {
    if x then c.hashes.0 else c.hashes.1
  }

  function BlockOf(c: Scene, x: bool): BlockData {
    if x then c.blocks.0 else c.blocks.1
  }

  function Proposal(c: Scene, x: bool): Message
    requires c.validators != []
  {
    PrePrepare(0, c.q, c.validators[0], HashOf(c, x), Some(BlockOf(c, x)))
  }

  function Stops(c: Scene): seq<Hash> {
    c.there + c.back
  }

  /** A pre-prepare for a hash on the way. */
  function Detour(c: Scene, h: Hash): Message
    requires c.validators != []
  {
    PrePrepare(0, c.q, c.validators[0], h, Some([]))
  }

  predicate FromPrimary(c: Scene, m: Message)
    requires c.validators != []
  {
    m.PrePrepare? && m.view == 0 && m.seqNumber == c.q && m.sender == c.validators[0] && m.block.Some?
  }

  function Vote(c: Scene, v: Address, x: bool): Message {
    Prepare(0, c.q, v, HashOf(c, x))
  }

  function Ballot(c: Scene, v: Address, x: bool): Message {
    Commit(0, c.q, v, HashOf(c, x))
  }

  function Majority(c: Scene): nat {
    Quorum(|c.validators|)
  }

  function Start(c: Scene, v: Address): Node
    requires c.validators != []
  {
    Node(v, if v == c.validators[0] then Leader else Replica, 0, c.validators, 0, map[])
  }

  function Holding(c: Scene, v: Address, slot: Slot): Node
    requires c.validators != []
  {
    Start(c, v).(slots := map[c.q := slot])
  }

  /** The slot after a pre-prepare and nothing else. */
  function Plain(c: Scene, x: bool): Slot
    requires c.validators != []
  {
    Slot(0, HashOf(c, x), Some(Proposal(c, x)), map[], map[], Idle)
  }

  /** The votes of the first k validators for block x on top of others. */
  function Counted(c: Scene, x: bool, base: map<Address, Hash>, k: nat): map<Address, Hash>
    requires k <= |c.validators|
  {
    if k == 0 then base else Counted(c, x, base, k - 1)[c.validators[k - 1] := HashOf(c, x)]
  }

  lemma {:induction false} CountedKeys(c: Scene, x: bool, base: map<Address, Hash>, k: nat)
    requires k <= |c.validators|
    ensures Counted(c, x, base, k).Keys == base.Keys + Elems(c.validators[..k])
  {
    if k > 0 {
      CountedKeys(c, x, base, k - 1);
      hide Counted;
      assert c.validators[..k] == c.validators[..k - 1] + [c.validators[k - 1]];
      OneElementMore(c.validators[..k - 1], c.validators[k - 1]);
      OneKeyMore(c, x, base, k);
      hide Elems;
    } else {
      assert Elems(c.validators[..0]) == {};
    }
  }

  lemma OneElementMore(s: seq<Address>, v: Address)
    ensures Elems(s + [v]) == Elems(s) + {v}
  {
  }

  lemma OneKeyMore(c: Scene, x: bool, base: map<Address, Hash>, k: nat)
    requires 0 < k <= |c.validators|
    ensures Counted(c, x, base, k).Keys == Counted(c, x, base, k - 1).Keys + {c.validators[k - 1]}
  {
  }

  lemma CountedSize(c: Scene, x: bool, base: map<Address, Hash>, k: nat)
    requires Distinct(c.validators) && k <= |c.validators|
    requires forall i :: 0 <= i < k ==> c.validators[i] !in base
    ensures |Counted(c, x, base, k)| == |base| + k
    ensures forall v :: v in Counted(c, x, base, k) ==> v in base || v in c.validators[..k]
  {
    var first := c.validators[..k];
    CountedKeys(c, x, base, k);
    DistinctCount(first);
    hide Counted;
    assert base.Keys !! Elems(first);
    assert |Counted(c, x, base, k)| == |Counted(c, x, base, k).Keys| && |base| == |base.Keys|;
    assert forall v :: v in Counted(c, x, base, k) ==> v in Counted(c, x, base, k).Keys;
  }

  lemma NoneCounted(c: Scene, x: bool, base: map<Address, Hash>)
    ensures Counted(c, x, base, 0) == base
  {
  }

  lemma OneMoreCounted(c: Scene, x: bool, base: map<Address, Hash>, k: nat)
    requires Distinct(c.validators) && 0 < k <= |c.validators|
    requires forall i :: 0 <= i < k ==> c.validators[i] !in base
    ensures Counted(c, x, base, k) == Counted(c, x, base, k - 1)[c.validators[k - 1] := HashOf(c, x)]
    ensures |Counted(c, x, base, k)| == |base| + k
  {
    CountedSize(c, x, base, k);
  }

  /** The slot of a node that prepared block x. */
  function Voted(c: Scene, x: bool): Slot
    requires c.validators != [] && Majority(c) - 1 <= |c.validators|
  {
    Plain(c, x).(prepares := Counted(c, x, map[], Majority(c) - 1), phase := Prepared)
  }

  // ------------------------------------------------------------------ single deliveries

  lemma TakesProposal(c: Scene, v: Address, m: Message, n: Node)
    requires Fine(c) && FromPrimary(c, m) && (n == Start(c, v) || exists slot :: n == Holding(c, v, slot))
    ensures Accepts(n, m)
    ensures Handle(n, m) ==
      (Holding(c, v, SlotOf(n, m).(prePrepare := Some(m), hash := m.hash)),
       Reply(Some(Prepare(0, c.q, v, m.hash)), None, None))
  {
    var slot := SlotOf(n, m).(prePrepare := Some(m), hash := m.hash);
    assert n.slots[c.q := slot] == map[c.q := slot];
    assert Primary(c.validators, 0) == Some(c.validators[0]);
  }

  lemma TakesVote(c: Scene, v: Address, u: Address, x: bool, slot: Slot)
    requires Fine(c) && u in c.validators && slot.prePrepare.Some? && slot.hash == HashOf(c, x) && slot.phase == Idle
    ensures var voted := slot.(prepares := slot.prepares[u := HashOf(c, x)]);
      Handle(Holding(c, v, slot), Vote(c, u, x)) ==
        if |voted.prepares| >= Majority(c) - 1 then
          (Holding(c, v, voted.(phase := Prepared)), Reply(Some(Ballot(c, v, x)), None, None))
        else (Holding(c, v, voted), Silent)
  {
    var n := Holding(c, v, slot);
    assert SlotOf(n, Vote(c, u, x)) == slot;
    assert forall t: Slot :: n.slots[c.q := t] == map[c.q := t];
  }

  lemma TakesBallot(c: Scene, v: Address, u: Address, x: bool, slot: Slot)
    requires Fine(c) && u in c.validators && slot.prePrepare == Some(Proposal(c, x)) && slot.hash == HashOf(c, x)
    requires slot.phase == Prepared
    ensures var voted := slot.(commits := slot.commits[u := HashOf(c, x)]);
      Handle(Holding(c, v, slot), Ballot(c, u, x)) ==
        if |voted.commits| >= Majority(c) then
          (Holding(c, v, voted.(phase := Committed)), Reply(None, Some(BlockOf(c, x)), None))
        else (Holding(c, v, voted), Silent)
  {
    var n := Holding(c, v, slot);
    assert n.slots[c.q] == slot;
    assert forall t: Slot :: n.slots[c.q := t] == map[c.q := t];
  }

  // ------------------------------------------------------------------ traces

  datatype Recording = Recording(states: seq<System>, steps: seq<Step>)

  /** Steps with the states around them. */
  type Trace = t: Recording | |t.states| == |t.steps| + 1 witness Recording([System(map[], {})], [])

  function Last(t: Trace): System {
    t.states[|t.steps|]
  }

  function Proposals(c: Scene): nat {
    2 + |Stops(c)|
  }

  /** A run of the scene's validators that follows the policy: proposals, then deliveries only. */
  ghost predicate Valid(t: Trace, c: Scene, policy: Policy) {
    && IsRun(t.states, t.steps, c.validators) && FollowsAll(t.states, t.steps, policy)
    && t.states[0].nodes.Keys == Elems(c.validators)
    && (forall i :: 0 <= i < |t.steps| ==> if i < Proposals(c) then t.steps[i].Propose? else t.steps[i].Deliver?)
  }

  ghost predicate Extends(t: Trace, t': Trace) {
    && |t.steps| <= |t'.steps|
    && t'.states[..|t.states|] == t.states && t'.steps[..|t.steps|] == t.steps
  }

  lemma ExtendsOn(t: Trace, t': Trace, t'': Trace)
    requires Extends(t, t') && Extends(t', t'')
    ensures Extends(t, t'')
  {
    assert t''.states[..|t.states|] == t''.states[..|t'.states|][..|t.states|];
    assert t''.steps[..|t.steps|] == t''.steps[..|t'.steps|][..|t.steps|];
  }

  /** Only node v changes, and messages stay sent. */
  ghost predicate OnlyAt(s: System, s': System, v: Address) {
    && s'.nodes.Keys == s.nodes.Keys && s.sent <= s'.sent
    && forall u :: u in s.nodes && u != v ==> s'.nodes[u] == s.nodes[u]
  }

  /** One delivery more. */
  lemma Delivered(t: Trace, c: Scene, policy: Policy, v: Address, m: Message) returns (t': Trace)
    requires Valid(t, c, policy) && v in Last(t).nodes && m in Last(t).sent && |t.steps| >= Proposals(c)
    requires Follows(Last(t), Deliver(v, m), policy)
    ensures Valid(t', c, policy) && Extends(t, t')
    ensures |t'.steps| == |t.steps| + 1 && t'.steps[|t.steps|] == Deliver(v, m)
    ensures OnlyAt(Last(t), Last(t'), v)
    ensures var (n, reply) := Handle(Last(t).nodes[v], m);
      Last(t').nodes[v] == n && (reply.broadcast.Some? ==> reply.broadcast.value in Last(t').sent)
  {
    hide Handle, Initial, Follows;
    var next := Apply(Last(t), Deliver(v, m));
    t' := Recording(t.states + [next], t.steps + [Deliver(v, m)]);
  }

  /** The scene is known to the network: its nodes and all proposals. */
  ghost predicate Open(t: Trace, c: Scene, policy: Policy) {
    && Fine(c) && Valid(t, c, policy)
    && Last(t).nodes.Keys == Elems(c.validators)
    && |t.steps| >= Proposals(c)
    && Proposal(c, true) in Last(t).sent && Proposal(c, false) in Last(t).sent
    && (forall h :: h in Stops(c) ==> Detour(c, h) in Last(t).sent)
  }

  ghost predicate Has(t: Trace, c: Scene, v: Address, slot: Slot)
    requires c.validators != []
  {
    v in Last(t).nodes && Last(t).nodes[v] == Holding(c, v, slot)
  }

  /** What one node does: the trace goes on and no other node changes. */
  ghost predicate GoesOn(t: Trace, t': Trace, c: Scene, policy: Policy, v: Address) {
    Open(t, c, policy) && Open(t', c, policy) && Extends(t, t') && OnlyAt(Last(t), Last(t'), v)
  }

  lemma GoesOnOn(t: Trace, t': Trace, t'': Trace, c: Scene, policy: Policy, v: Address)
    requires GoesOn(t, t', c, policy, v) && GoesOn(t', t'', c, policy, v)
    ensures GoesOn(t, t'', c, policy, v)
  {
    hide Valid, Fine;
    ExtendsOn(t, t', t'');
    hide Extends;
  }

  lemma StillOpen(t: Trace, t': Trace, c: Scene, policy: Policy, v: Address)
    requires GoesOn(t, t', c, policy, v)
    ensures Open(t, c, policy) && Open(t', c, policy)
  {
  }

  lemma ItExtends(t: Trace, t': Trace, c: Scene, policy: Policy, v: Address)
    requires GoesOn(t, t', c, policy, v)
    ensures Extends(t, t')
  {
  }

  /** Delivery in an open scene. */
  lemma Received(t: Trace, c: Scene, policy: Policy, v: Address, m: Message) returns (t': Trace)
    requires Open(t, c, policy) && v in Last(t).nodes && m in Last(t).sent
    requires Follows(Last(t), Deliver(v, m), policy)
    ensures GoesOn(t, t', c, policy, v) && |t'.steps| == |t.steps| + 1 && t'.steps[|t.steps|] == Deliver(v, m)
    ensures Last(t').nodes[v] == Handle(Last(t).nodes[v], m).0
    ensures var answer := Handle(Last(t).nodes[v], m).1.broadcast;
      answer.Some? ==> answer.value in Last(t').sent
  {
    hide Valid, Fine, Handle, Follows, Extends;
    t' := Delivered(t, c, policy, v, m);
  }

  /** A node takes a pre-prepare if it recorded no commit vote, the hash stays, or the policy allows the change. */
  lemma ReceivesProposal(t: Trace, c: Scene, policy: Policy, v: Address, m: Message) returns (t': Trace)
    requires Open(t, c, policy) && v in Last(t).nodes && m in Last(t).sent && FromPrimary(c, m)
    requires Last(t).nodes[v] == Start(c, v) || exists slot :: Last(t).nodes[v] == Holding(c, v, slot)
    requires var slot := SlotOf(Last(t).nodes[v], m);
      slot.commits == map[] || slot.hash == m.hash || policy(slot.hash, m.hash)
    ensures GoesOn(t, t', c, policy, v)
    ensures Has(t', c, v, SlotOf(Last(t).nodes[v], m).(prePrepare := Some(m), hash := m.hash))
    ensures Prepare(0, c.q, v, m.hash) in Last(t').sent
  {
    TakesProposal(c, v, m, Last(t).nodes[v]);
    hide Handle, Valid, Extends, OnlyAt;
    t' := Received(t, c, policy, v, m);
  }

  /** A fresh node takes both proposals, the first one last. */
  lemma ReceivesBoth(t: Trace, c: Scene, policy: Policy, v: Address) returns (t': Trace)
    requires Open(t, c, policy) && v in Last(t).nodes && Last(t).nodes[v] == Start(c, v)
    ensures GoesOn(t, t', c, policy, v) && Has(t', c, v, Plain(c, true))
    ensures Vote(c, v, true) in Last(t').sent && Vote(c, v, false) in Last(t').sent
  {
    hide Valid, Extends;
    var u := ReceivesProposal(t, c, policy, v, Proposal(c, false));
    assert SlotOf(Holding(c, v, Plain(c, false)), Proposal(c, true)) == Plain(c, false);
    t' := ReceivesProposal(u, c, policy, v, Proposal(c, true));
    GoesOnOn(t, u, t', c, policy, v);
  }

  /** A node takes the first k of the prepares it needs, which is not enough. */
  lemma {:induction false} ReceivesVotes(t: Trace, c: Scene, policy: Policy, v: Address, x: bool, k: nat)
    returns (t': Trace)
    requires Open(t, c, policy) && Has(t, c, v, Plain(c, x)) && k < Majority(c) - 1
    requires VotesSent(t, c, |c.validators|)
    ensures GoesOn(t, t', c, policy, v)
    ensures k <= |c.validators| && Has(t', c, v, Plain(c, x).(prepares := Counted(c, x, map[], k)))
  {
    hide Valid, Extends, Handle;
    if k == 0 {
      t' := t;
      NothingMore(t, c, policy, v);
    } else {
      var u := ReceivesVotes(t, c, policy, v, x, k - 1);
      var slot := Plain(c, x).(prepares := Counted(c, x, map[], k - 1));
      TakesVote(c, v, c.validators[k - 1], x, slot);
      OneMoreCounted(c, x, map[], k);
      t' := Received(u, c, policy, v, Vote(c, c.validators[k - 1], x));
      GoesOnOn(t, u, t', c, policy, v);
    }
  }

  lemma NothingMore(t: Trace, c: Scene, policy: Policy, v: Address)
    requires Open(t, c, policy)
    ensures GoesOn(t, t, c, policy, v)
  {
    hide Fine, Follows;
    assert t.states[..|t.states|] == t.states && t.steps[..|t.steps|] == t.steps;
  }

  /** The last prepare that a node needs. */
  lemma ReceivesLastVote(t: Trace, c: Scene, policy: Policy, v: Address, u: Address, x: bool, slot: Slot)
    returns (t': Trace)
    requires Open(t, c, policy) && Has(t, c, v, slot)
    requires slot.prePrepare.Some? && slot.hash == HashOf(c, x) && slot.phase == Idle
    requires u in c.validators && Vote(c, u, x) in Last(t).sent
    requires |slot.prepares[u := HashOf(c, x)]| >= Majority(c) - 1
    ensures GoesOn(t, t', c, policy, v) && Ballot(c, v, x) in Last(t').sent
    ensures Has(t', c, v, slot.(prepares := slot.prepares[u := HashOf(c, x)], phase := Prepared))
  {
    TakesVote(c, v, u, x, slot);
    hide Valid, Extends, Handle;
    t' := Received(t, c, policy, v, Vote(c, u, x));
  }

  /** A node prepares a block and commits to it. */
  lemma Prepares(t: Trace, c: Scene, policy: Policy, v: Address, x: bool) returns (t': Trace)
    requires Open(t, c, policy) && Has(t, c, v, Plain(c, x)) && Majority(c) - 1 <= |c.validators|
    requires VotesSent(t, c, |c.validators|)
    ensures GoesOn(t, t', c, policy, v) && Has(t', c, v, Voted(c, x)) && Ballot(c, v, x) in Last(t').sent
  {
    hide Valid, Extends, Handle, OnlyAt, GoesOn, Has, Counted;
    var k := Majority(c) - 1;
    var u := ReceivesVotes(t, c, policy, v, x, k - 1);
    StillOpen(t, u, c, policy, v);
    MessagesKept(t, u, c, policy, v);
    OneMoreCounted(c, x, map[], k);
    t' := ReceivesLastVote(u, c, policy, v, c.validators[k - 1], x,
                           Plain(c, x).(prepares := Counted(c, x, map[], k - 1)));
    GoesOnOn(t, u, t', c, policy, v);
  }

  /** A node records the ballots of the first k validators, which together with earlier ones are not enough. */
  lemma {:induction false} ReceivesBallots(
      t: Trace, c: Scene, policy: Policy, v: Address, x: bool, slot: Slot, k: nat) returns (t': Trace)
    requires Open(t, c, policy) && Has(t, c, v, slot) && k <= |c.validators| && |slot.commits| + k < Majority(c)
    requires slot.prePrepare == Some(Proposal(c, x)) && slot.hash == HashOf(c, x) && slot.phase == Prepared
    requires forall i :: 0 <= i < k ==>
      c.validators[i] !in slot.commits && Ballot(c, c.validators[i], x) in Last(t).sent
    ensures GoesOn(t, t', c, policy, v)
    ensures Has(t', c, v, slot.(commits := Counted(c, x, slot.commits, k)))
  {
    hide Valid, Extends, Handle, OnlyAt, GoesOn, Has, Counted;
    if k == 0 {
      t' := t;
      NothingMore(t, c, policy, v);
      NoneCounted(c, x, slot.commits);
    } else {
      var u := ReceivesBallots(t, c, policy, v, x, slot, k - 1);
      StillOpen(t, u, c, policy, v);
      MessagesKept(t, u, c, policy, v);
      OneMoreCounted(c, x, slot.commits, k);
      t' := ReceivesBallot(u, c, policy, v, c.validators[k - 1], x,
                           slot.(commits := Counted(c, x, slot.commits, k - 1)));
      GoesOnOn(t, u, t', c, policy, v);
    }
  }

  /** A ballot that does not complete the quorum is counted. */
  lemma ReceivesBallot(t: Trace, c: Scene, policy: Policy, v: Address, u: Address, x: bool, slot: Slot)
    returns (t': Trace)
    requires Open(t, c, policy) && Has(t, c, v, slot)
    requires slot.prePrepare == Some(Proposal(c, x)) && slot.hash == HashOf(c, x) && slot.phase == Prepared
    requires u in c.validators && |slot.commits[u := HashOf(c, x)]| < Majority(c) && Ballot(c, u, x) in Last(t).sent
    ensures GoesOn(t, t', c, policy, v)
    ensures Has(t', c, v, slot.(commits := slot.commits[u := HashOf(c, x)]))
  {
    TakesBallot(c, v, u, x, slot);
    hide Valid, Extends, Handle;
    t' := Received(t, c, policy, v, Ballot(c, u, x));
  }

  lemma MessagesKept(t: Trace, t': Trace, c: Scene, policy: Policy, v: Address)
    requires GoesOn(t, t', c, policy, v)
    ensures Last(t).sent <= Last(t').sent
  {
    hide Valid, Extends;
  }

  /** The ballot that completes the quorum makes the node hand the block over. */
  lemma LastBallot(t: Trace, c: Scene, policy: Policy, v: Address, u: Address, x: bool, slot: Slot) returns (t': Trace)
    requires Open(t, c, policy) && Has(t, c, v, slot)
    requires slot.prePrepare == Some(Proposal(c, x)) && slot.hash == HashOf(c, x) && slot.phase == Prepared
    requires u in c.validators && u !in slot.commits && Ballot(c, u, x) in Last(t).sent
    requires |slot.commits| + 1 == Majority(c)
    ensures GoesOn(t, t', c, policy, v) && |t.steps| < |t'.steps|
    ensures HandsOver(Last(t), t'.steps[|t.steps|], v, c.q, HashOf(c, x), BlockOf(c, x))
  {
    TakesBallot(c, v, u, x, slot);
    hide Valid, Extends, Handle, OnlyAt;
    t' := Received(t, c, policy, v, Ballot(c, u, x));
  }

  // ------------------------------------------------------------------ all nodes

  /** The trace goes on, at whatever nodes. */
  ghost predicate Later(t: Trace, t': Trace, c: Scene, policy: Policy) {
    Open(t, c, policy) && Open(t', c, policy) && Extends(t, t') && Last(t).sent <= Last(t').sent
  }

  lemma LaterOn(t: Trace, t': Trace, t'': Trace, c: Scene, policy: Policy)
    requires Later(t, t', c, policy) && Later(t', t'', c, policy)
    ensures Later(t, t'', c, policy)
  {
    hide Valid, Fine;
    ExtendsOn(t, t', t'');
    hide Extends;
  }

  lemma GoingOnIsLater(t: Trace, t': Trace, c: Scene, policy: Policy, v: Address)
    requires GoesOn(t, t', c, policy, v)
    ensures Later(t, t', c, policy)
  {
    hide Valid, Fine, Extends;
  }

  function Nodes(c: Scene): map<Address, Node>
    requires c.validators != []
  {
    map v | v in c.validators :: Start(c, v)
  }

  lemma FirstProposals(c: Scene, policy: Policy) returns (t: Trace)
    requires Fine(c)
    ensures Valid(t, c, policy) && |t.steps| == 2 && Last(t).nodes == Nodes(c)
    ensures Proposal(c, true) in Last(t).sent && Proposal(c, false) in Last(t).sent
  {
    var s := System(Nodes(c), {});
    var p := c.validators[0];
    var first, second := Propose(p, c.q, c.hashes.0, c.blocks.0), Propose(p, c.q, c.hashes.1, c.blocks.1);
    assert s.nodes.Keys == Elems(c.validators);
    assert Elems(c.validators) - s.nodes.Keys == {};
    var s' := Apply(s, first);
    t := Recording([s, s', Apply(s', second)], [first, second]);
  }

  /** One proposal more. */
  lemma Proposed(t: Trace, c: Scene, policy: Policy, h: Hash) returns (t': Trace)
    requires Fine(c) && Valid(t, c, policy) && Last(t).nodes == Nodes(c) && |t.steps| < Proposals(c)
    ensures Valid(t', c, policy) && |t'.steps| == |t.steps| + 1 && Last(t').nodes == Nodes(c)
    ensures Last(t').sent == Last(t).sent + {Detour(c, h)}
  {
    hide Initial, Handle;
    var step := Propose(c.validators[0], c.q, h, []);
    t' := Recording(t.states + [Apply(Last(t), step)], t.steps + [step]);
  }

  /** The two proposals and the first k on the way. */
  lemma {:induction false} OpeningUpTo(c: Scene, policy: Policy, k: nat) returns (t: Trace)
    requires Fine(c) && k <= |Stops(c)|
    ensures Valid(t, c, policy) && |t.steps| == 2 + k && Last(t).nodes == Nodes(c)
    ensures Proposal(c, true) in Last(t).sent && Proposal(c, false) in Last(t).sent
    ensures forall i :: 0 <= i < k ==> Detour(c, Stops(c)[i]) in Last(t).sent
  {
    hide Valid;
    if k == 0 {
      t := FirstProposals(c, policy);
    } else {
      t := OpeningUpTo(c, policy, k - 1);
      t := Proposed(t, c, policy, Stops(c)[k - 1]);
    }
  }

  /** All proposals, before anything is delivered. */
  lemma Opening(c: Scene, policy: Policy) returns (t: Trace)
    requires Fine(c)
    ensures Open(t, c, policy) && AllFresh(t, c, 0)
  {
    hide Valid;
    t := OpeningUpTo(c, policy, |Stops(c)|);
    assert Nodes(c).Keys == Elems(c.validators);
  }

  /** The nodes from lo up to hi hold this slot. */
  ghost predicate AllHave(t: Trace, c: Scene, lo: nat, hi: nat, slot: Slot)
    requires c.validators != [] && hi <= |c.validators|
  {
    forall i :: lo <= i < hi ==> Has(t, c, c.validators[i], slot)
  }

  /** The nodes from lo on have done nothing yet. */
  ghost predicate AllFresh(t: Trace, c: Scene, lo: nat)
    requires c.validators != []
  {
    forall i :: lo <= i < |c.validators| ==>
      c.validators[i] in Last(t).nodes && Last(t).nodes[c.validators[i]] == Start(c, c.validators[i])
  }

  /** The first k nodes have voted for both blocks. */
  ghost predicate VotesSent(t: Trace, c: Scene, k: nat)
    requires k <= |c.validators|
  {
    forall i :: 0 <= i < k ==>
      Vote(c, c.validators[i], true) in Last(t).sent && Vote(c, c.validators[i], false) in Last(t).sent
  }

  /** The first k nodes have committed to the first block. */
  ghost predicate BallotsSent(t: Trace, c: Scene, k: nat)
    requires k <= |c.validators|
  {
    forall i :: 0 <= i < k ==> Ballot(c, c.validators[i], true) in Last(t).sent
  }

  /** What node k does leaves the others and the messages as they were. */
  lemma OthersStay(t: Trace, t': Trace, c: Scene, policy: Policy, k: nat)
    requires k < |c.validators| && GoesOn(t, t', c, policy, c.validators[k])
    ensures forall lo: nat, hi: nat, slot ::
      hi <= |c.validators| && !(lo <= k < hi) && AllHave(t, c, lo, hi, slot) ==> AllHave(t', c, lo, hi, slot)
    ensures forall lo: nat :: k < lo && AllFresh(t, c, lo) ==> AllFresh(t', c, lo)
    ensures forall i: nat :: i <= |c.validators| && VotesSent(t, c, i) ==> VotesSent(t', c, i)
    ensures forall i: nat :: i <= |c.validators| && BallotsSent(t, c, i) ==> BallotsSent(t', c, i)
    ensures Later(t, t', c, policy)
  {
    hide Valid, Extends;
  }

  lemma OneMoreReceived(t: Trace, t': Trace, c: Scene, policy: Policy, k: nat)
    requires k < |c.validators| && GoesOn(t, t', c, policy, c.validators[k])
    requires AllFresh(t, c, k) && AllHave(t, c, 0, k, Plain(c, true)) && VotesSent(t, c, k)
    requires Has(t', c, c.validators[k], Plain(c, true))
    requires Vote(c, c.validators[k], true) in Last(t').sent && Vote(c, c.validators[k], false) in Last(t').sent
    ensures AllFresh(t', c, k + 1) && AllHave(t', c, 0, k + 1, Plain(c, true)) && VotesSent(t', c, k + 1)
  {
    hide Valid, Extends, Plain;
  }

  /** The first k nodes take both proposals and vote for both. */
  lemma {:induction false} AllReceiveBoth(t: Trace, c: Scene, policy: Policy, k: nat) returns (t': Trace)
    requires Open(t, c, policy) && k <= |c.validators| && AllFresh(t, c, 0)
    ensures Later(t, t', c, policy) && VotesSent(t', c, k)
    ensures AllHave(t', c, 0, k, Plain(c, true)) && AllFresh(t', c, k)
  {
    hide Valid, Extends, GoesOn, Plain;
    if k == 0 {
      t' := t;
      NothingMore(t, c, policy, c.validators[0]);
      GoingOnIsLater(t, t, c, policy, c.validators[0]);
    } else {
      var v := c.validators[k - 1];
      var u := AllReceiveBoth(t, c, policy, k - 1);
      assert Last(u).nodes[v] == Start(c, v);
      hide AllHave, AllFresh, VotesSent, Has;
      t' := ReceivesBoth(u, c, policy, v);
      GoingOnIsLater(u, t', c, policy, v);
      OneMoreReceived(u, t', c, policy, k - 1);
      LaterOn(t, u, t', c, policy);
    }
  }

  lemma OneMorePrepared(t: Trace, t': Trace, c: Scene, policy: Policy, k: nat)
    requires k < |c.validators| && GoesOn(t, t', c, policy, c.validators[k]) && Majority(c) - 1 <= |c.validators|
    requires AllHave(t, c, k, |c.validators|, Plain(c, true)) && AllHave(t, c, 0, k, Voted(c, true))
    requires BallotsSent(t, c, k) && VotesSent(t, c, |c.validators|)
    requires Has(t', c, c.validators[k], Voted(c, true)) && Ballot(c, c.validators[k], true) in Last(t').sent
    ensures AllHave(t', c, k + 1, |c.validators|, Plain(c, true)) && AllHave(t', c, 0, k + 1, Voted(c, true))
    ensures BallotsSent(t', c, k + 1) && VotesSent(t', c, |c.validators|)
  {
    hide Valid, Extends, Plain, Voted;
  }

  /** The first k nodes prepare the first block and commit to it. */
  lemma {:induction false} AllPrepare(t: Trace, c: Scene, policy: Policy, k: nat) returns (t': Trace)
    requires Open(t, c, policy) && k <= |c.validators| && Majority(c) - 1 <= |c.validators|
    requires VotesSent(t, c, |c.validators|) && AllHave(t, c, 0, |c.validators|, Plain(c, true))
    ensures Later(t, t', c, policy) && VotesSent(t', c, |c.validators|) && BallotsSent(t', c, k)
    ensures AllHave(t', c, 0, k, Voted(c, true)) && AllHave(t', c, k, |c.validators|, Plain(c, true))
  {
    hide Valid, Extends, GoesOn, Plain, Voted;
    if k == 0 {
      t' := t;
      NothingMore(t, c, policy, c.validators[0]);
      GoingOnIsLater(t, t, c, policy, c.validators[0]);
    } else {
      var v := c.validators[k - 1];
      var u := AllPrepare(t, c, policy, k - 1);
      assert Has(u, c, v, Plain(c, true));
      hide AllHave, BallotsSent, VotesSent, Has;
      t' := Prepares(u, c, policy, v, true);
      GoingOnIsLater(u, t', c, policy, v);
      OneMorePrepared(u, t', c, policy, k - 1);
      LaterOn(t, u, t', c, policy);
    }
  }

  // ------------------------------------------------------------------ disagreement

  /** How many nodes commit to the first block: a quorum, or all but one if that takes everybody. */
  function Committers(c: Scene): nat
    requires |c.validators| >= 2
  {
    if |c.validators| >= 4 then Majority(c) else |c.validators| - 1
  }

  lemma Sizes(c: Scene)
    requires |c.validators| >= 2
    ensures 1 <= Majority(c) - 1 <= Committers(c) < |c.validators|
    ensures |c.validators| < 4 ==> Majority(c) == |c.validators|
  {
  }

  /** The stage on which the nodes part: some committed to the first block and the last one to the second. */
  ghost predicate Parted(t: Trace, c: Scene, policy: Policy) {
    && Open(t, c, policy) && 1 <= Majority(c) - 1 <= Committers(c) < |c.validators|
    && AllHave(t, c, 0, Committers(c), Voted(c, true)) && BallotsSent(t, c, Committers(c))
    && Has(t, c, c.validators[|c.validators| - 1], Voted(c, false))
    && Ballot(c, c.validators[|c.validators| - 1], false) in Last(t).sent
  }

  lemma FlipsPlain(t: Trace, c: Scene, policy: Policy, v: Address) returns (t': Trace)
    requires Open(t, c, policy) && Has(t, c, v, Plain(c, true))
    ensures GoesOn(t, t', c, policy, v) && Has(t', c, v, Plain(c, false))
  {
    hide Valid, Extends, GoesOn;
    assert SlotOf(Holding(c, v, Plain(c, true)), Proposal(c, false)) == Plain(c, true);
    t' := ReceivesProposal(t, c, policy, v, Proposal(c, false));
  }

  /** The last node takes the second proposal again and commits to it. */
  lemma LastNodeDiffers(t: Trace, c: Scene, policy: Policy) returns (t': Trace)
    requires Open(t, c, policy) && 1 <= Majority(c) - 1 <= Committers(c) < |c.validators|
    requires VotesSent(t, c, |c.validators|) && AllHave(t, c, 0, Committers(c), Voted(c, true))
    requires BallotsSent(t, c, Committers(c)) && Has(t, c, c.validators[|c.validators| - 1], Plain(c, true))
    ensures Parted(t', c, policy)
  {
    hide Valid, Extends, GoesOn, Has, Voted, Plain, Open;
    var last := |c.validators| - 1;
    var u := FlipsPlain(t, c, policy, c.validators[last]);
    StillOpen(t, u, c, policy, c.validators[last]);
    OthersStay(t, u, c, policy, last);
    t' := Prepares(u, c, policy, c.validators[last], false);
    StillOpen(u, t', c, policy, c.validators[last]);
    OthersStay(u, t', c, policy, last);
  }

  lemma NodesPart(c: Scene, policy: Policy) returns (t: Trace)
    requires Fine(c)
    ensures Parted(t, c, policy)
  {
    hide Valid, Extends, GoesOn, Voted, Has, Plain;
    Sizes(c);
    t := Opening(c, policy);
    t := AllReceiveBoth(t, c, policy, |c.validators|);
    t := AllPrepare(t, c, policy, Committers(c));
    assert Has(t, c, c.validators[|c.validators| - 1], Plain(c, true));
    t := LastNodeDiffers(t, c, policy);
  }

  /** Somewhere on the trace node v hands block x over. */
  ghost predicate HandedOver(t: Trace, c: Scene, v: Address, x: bool) {
    exists i :: 0 <= i < |t.steps| && HandsOver(t.states[i], t.steps[i], v, c.q, HashOf(c, x), BlockOf(c, x))
  }

  lemma HandedOverStays(t: Trace, t': Trace, c: Scene, v: Address, x: bool)
    requires Extends(t, t') && HandedOver(t, c, v, x)
    ensures HandedOver(t', c, v, x)
  {
    hide HandsOver;
    var i :| 0 <= i < |t.steps| && HandsOver(t.states[i], t.steps[i], v, c.q, HashOf(c, x), BlockOf(c, x));
    assert t'.states[i] == t'.states[..|t.states|][i] && t'.steps[i] == t'.steps[..|t.steps|][i];
  }

  lemma LastHandsOver(t: Trace, t': Trace, c: Scene, v: Address, x: bool)
    requires Extends(t, t') && |t.steps| < |t'.steps|
    requires HandsOver(Last(t), t'.steps[|t.steps|], v, c.q, HashOf(c, x), BlockOf(c, x))
    ensures HandedOver(t', c, v, x)
  {
    hide HandsOver;
    assert t'.states[|t.steps|] == t'.states[..|t.states|][|t.steps|] == Last(t);
  }

  /** A node with a slot that holds earlier ballots counts those of the first k validators and then one more. */
  lemma Completes(t: Trace, c: Scene, policy: Policy, v: Address, x: bool, slot: Slot, k: nat, u: Address)
    returns (t': Trace)
    requires Open(t, c, policy) && Has(t, c, v, slot) && k <= |c.validators| && |slot.commits| + k + 1 == Majority(c)
    requires slot.prePrepare == Some(Proposal(c, x)) && slot.hash == HashOf(c, x) && slot.phase == Prepared
    requires BallotsSent(t, c, k) && (k > 0 ==> x) && forall i :: 0 <= i < k ==> c.validators[i] !in slot.commits
    requires u in c.validators && u !in slot.commits && u !in c.validators[..k] && Ballot(c, u, x) in Last(t).sent
    ensures GoesOn(t, t', c, policy, v) && HandedOver(t', c, v, x)
  {
    hide Valid, Extends, OnlyAt;
    CountedSize(c, x, slot.commits, k);
    var before := ReceivesBallots(t, c, policy, v, x, slot, k);
    MessagesKept(t, before, c, policy, v);
    t' := LastBallot(before, c, policy, v, u, x, slot.(commits := Counted(c, x, slot.commits, k)));
    LastHandsOver(before, t', c, v, x);
    GoesOnOn(t, before, t', c, policy, v);
  }

  lemma {:induction false} Wanders(
      t: Trace, c: Scene, policy: Policy, v: Address, slot: Slot, path: seq<Hash>, i: nat) returns (t': Trace, at: Slot)
    requires Open(t, c, policy) && Has(t, c, v, slot) && i < |path| && slot.hash == path[0]
    requires forall k :: 0 < k < |path| ==> policy(path[k - 1], path[k])
    requires forall h :: h in path ==> h in Stops(c)
    ensures GoesOn(t, t', c, policy, v) && Has(t', c, v, at)
    ensures at == slot.(prePrepare := at.prePrepare, hash := path[i])
  {
    hide Valid, Extends, GoesOn;
    if i == 0 {
      t', at := t, slot;
      NothingMore(t, c, policy, v);
    } else {
      var u, before := Wanders(t, c, policy, v, slot, path, i - 1);
      StillOpen(t, u, c, policy, v);
      var m := Detour(c, path[i]);
      assert path[i] in Stops(c) && SlotOf(Holding(c, v, before), m) == before && policy(path[i - 1], path[i]);
      t' := ReceivesProposal(u, c, policy, v, m);
      at := before.(prePrepare := Some(m), hash := path[i]);
      GoesOnOn(t, u, t', c, policy, v);
    }
  }

  /** A node that recorded ballots is overwritten along a path of allowed changes, up to one of the two proposals. */
  lemma Overwritten(t: Trace, c: Scene, policy: Policy, v: Address, x: bool, slot: Slot, path: seq<Hash>)
    returns (t': Trace)
    requires Open(t, c, policy) && Has(t, c, v, slot) && IsPath(policy, path, slot.hash, HashOf(c, x))
    requires forall h :: h in path ==> h in Stops(c)
    ensures GoesOn(t, t', c, policy, v)
    ensures Has(t', c, v, slot.(prePrepare := Some(Proposal(c, x)), hash := HashOf(c, x)))
    ensures Last(t).sent <= Last(t').sent
  {
    hide Valid, Extends, GoesOn;
    var u, at := Wanders(t, c, policy, v, slot, path, |path| - 1);
    StillOpen(t, u, c, policy, v);
    assert SlotOf(Holding(c, v, at), Proposal(c, x)) == at;
    t' := ReceivesProposal(u, c, policy, v, Proposal(c, x));
    GoesOnOn(t, u, t', c, policy, v);
    MessagesKept(t, t', c, policy, v);
  }

  lemma LastIsNotCounted(c: Scene, k: nat)
    requires Distinct(c.validators) && k < |c.validators|
    ensures c.validators[|c.validators| - 1] !in Counted(c, true, map[], k) && |Counted(c, true, map[], k)| == k
  {
    CountedSize(c, true, map[], k);
  }

  /** The slot of a node that recorded all but one of the votes it needs for the first block and took the second. */
  function Turned(c: Scene): Slot
    requires c.validators != [] && Majority(c) - 1 <= |c.validators|
  {
    Voted(c, true).(commits := Counted(c, true, map[], Majority(c) - 1),
                    prePrepare := Some(Proposal(c, false)), hash := HashOf(c, false))
  }

  lemma FirstNodeTurns(t: Trace, c: Scene, policy: Policy) returns (t': Trace)
    requires Parted(t, c, policy) && IsPath(policy, c.there, c.hashes.0, c.hashes.1)
    ensures GoesOn(t, t', c, policy, c.validators[0]) && Has(t', c, c.validators[0], Turned(c))
  {
    hide Valid, Extends, OnlyAt, GoesOn, Has, Counted;
    var a, k := c.validators[0], Majority(c) - 1;
    assert Has(t, c, a, Voted(c, true));
    var u := ReceivesBallots(t, c, policy, a, true, Voted(c, true), k);
    StillOpen(t, u, c, policy, a);
    t' := Overwritten(u, c, policy, a, false, Voted(c, true).(commits := Counted(c, true, map[], k)), c.there);
    GoesOnOn(t, u, t', c, policy, a);
  }

  /** The first node records votes for the first block, is overwritten, and hands the second one over. */
  lemma FirstNodeDefects(t: Trace, c: Scene, policy: Policy) returns (t': Trace)
    requires Parted(t, c, policy) && IsPath(policy, c.there, c.hashes.0, c.hashes.1)
    ensures GoesOn(t, t', c, policy, c.validators[0]) && HandedOver(t', c, c.validators[0], false)
  {
    hide Valid, Extends, OnlyAt, GoesOn, Has, Counted;
    var a, last := c.validators[0], c.validators[|c.validators| - 1];
    LastIsNotCounted(c, Majority(c) - 1);
    var w := FirstNodeTurns(t, c, policy);
    StillOpen(t, w, c, policy, a);
    MessagesKept(t, w, c, policy, a);
    t' := LastBallot(w, c, policy, a, last, false, Turned(c));
    ItExtends(w, t', c, policy, a);
    LastHandsOver(w, t', c, a, false);
    GoesOnOn(t, w, t', c, policy, a);
  }

  /** With four validators or more another node decides the first block without being overwritten. */
  lemma SecondNodeDecides(t: Trace, c: Scene, policy: Policy) returns (t': Trace)
    requires Open(t, c, policy) && |c.validators| >= 4 && Has(t, c, c.validators[1], Voted(c, true))
    requires Majority(c) < |c.validators| && BallotsSent(t, c, Majority(c))
    ensures GoesOn(t, t', c, policy, c.validators[1]) && HandedOver(t', c, c.validators[1], true)
  {
    hide Valid, Extends, OnlyAt;
    var k := Majority(c) - 1;
    t' := Completes(t, c, policy, c.validators[1], true, Voted(c, true), k, c.validators[k]);
  }

  /** Otherwise the last node records its own vote for the second block, is overwritten and hands the first over. */
  lemma LastNodeDefects(t: Trace, c: Scene, policy: Policy) returns (t': Trace)
    requires Open(t, c, policy) && IsPath(policy, c.back, c.hashes.1, c.hashes.0)
    requires 2 <= Majority(c) == |c.validators| && BallotsSent(t, c, |c.validators| - 1)
    requires Has(t, c, c.validators[|c.validators| - 1], Voted(c, false))
    requires Ballot(c, c.validators[|c.validators| - 1], false) in Last(t).sent
    ensures var last := c.validators[|c.validators| - 1];
      GoesOn(t, t', c, policy, last) && HandedOver(t', c, last, true)
  {
    hide Valid, Extends, OnlyAt, GoesOn, Has;
    var k := |c.validators| - 2;
    var z := c.validators[k + 1];
    var u := ReceivesBallot(t, c, policy, z, z, false, Voted(c, false));
    StillOpen(t, u, c, policy, z);
    MessagesKept(t, u, c, policy, z);
    var slot := Voted(c, false).(commits := map[z := HashOf(c, false)]);
    var w := Overwritten(u, c, policy, z, true, slot, c.back);
    StillOpen(u, w, c, policy, z);
    GoesOnOn(t, u, w, c, policy, z);
    var again := slot.(prePrepare := Some(Proposal(c, true)), hash := HashOf(c, true));
    t' := Completes(w, c, policy, z, true, again, k, c.validators[k]);
    GoesOnOn(t, w, t', c, policy, z);
  }

  /**
   Overwriting breaks agreement although nobody is faulty and everything is proposed
   before anything is delivered: two different nodes hand over different blocks for one
   sequence number. With four validators or more changes of hash at one node are enough;
   with two or three, changes back at another node are needed as well.
   */
  lemma OverwritingBreaksAgreement(c: Scene, policy: Policy) returns (t: Trace, other: Address)
    requires Fine(c) && Allowed(c, policy)
    ensures Valid(t, c, policy) && other in c.validators && other != c.validators[0]
    ensures HandedOver(t, c, c.validators[0], false) && HandedOver(t, c, other, true)
  {
    hide Valid, Extends, GoesOn, Has, Voted, HandedOver;
    Sizes(c);
    var start := NodesPart(c, policy);
    var u := FirstNodeDefects(start, c, policy);
    StillOpen(start, u, c, policy, c.validators[0]);
    OthersStay(start, u, c, policy, 0);
    assert Has(u, c, c.validators[|c.validators| - 1], Voted(c, false)) by { LastStays(start, u, c, policy); }
    if |c.validators| >= 4 {
      other := c.validators[1];
      assert AllHave(start, c, 1, Committers(c), Voted(c, true));
      t := SecondNodeDecides(u, c, policy);
    } else {
      other := c.validators[|c.validators| - 1];
      t := LastNodeDefects(u, c, policy);
    }
    StillOpen(u, t, c, policy, other);
    ItExtends(u, t, c, policy, other);
    HandedOverStays(u, t, c, c.validators[0], false);
  }

  lemma LastStays(t: Trace, t': Trace, c: Scene, policy: Policy)
    requires Parted(t, c, policy) && GoesOn(t, t', c, policy, c.validators[0])
    ensures Has(t', c, c.validators[|c.validators| - 1], Voted(c, false))
    ensures Ballot(c, c.validators[|c.validators| - 1], false) in Last(t').sent
  {
    hide Valid, Extends;
  }

  /** Agreement holds in every run that follows the policy if and only if the validators can afford the policy. */
  lemma AgreementExactlyWhenAffordable(validators: seq<Address>, policy: Policy)
    requires Distinct(validators)
    ensures AlwaysAgrees(validators, policy) <==> Affordable(|validators|, policy)
  {
    if Affordable(|validators|, policy) {
      AffordablePoliciesAgree(validators, policy);
    } else {
      var x, y, there, back := WayToDisagree(|validators|, policy);
      var c := Scene(validators, 0, (x, y), ([], []), there, back);
      hide Affordable;
      var t, other := OverwritingBreaksAgreement(c, policy);
      Disagree(t, c, policy, validators[0], other);
    }
  }

  lemma WayToDisagree(n: nat, policy: Policy) returns (x: Hash, y: Hash, there: seq<Hash>, back: seq<Hash>)
    requires !Affordable(n, policy)
    ensures n >= 2 && x != y && IsPath(policy, there, x, y) && (n >= 4 || IsPath(policy, back, y, x))
  {
    if n <= 3 {
      x, y :| Leads(policy, x, y) && Leads(policy, y, x) && x != y;
      there :| IsPath(policy, there, x, y);
      back :| IsPath(policy, back, y, x);
    } else {
      x, y :| policy(x, y) && x != y;
      there, back := [x, y], [];
    }
  }

  /** The engine as it is, which lets every change through, is safe with one validator only. */
  lemma EngineAgreesOnlyAlone(validators: seq<Address>)
    requires Distinct(validators)
    ensures AlwaysAgrees(validators, (x, y) => true) <==> |validators| <= 1
  {
    var policy: Policy := (x, y) => true;
    var x, y := ZERO_HASH, Hash([1] + Zeros(31));
    assert x.bytes[0] != y.bytes[0];
    assert IsPath(policy, [x, y], x, y) && IsPath(policy, [y, x], y, x);
    assert policy(x, y) && Leads(policy, x, y) && Leads(policy, y, x);
    AgreementExactlyWhenAffordable(validators, policy);
  }

  lemma Disagree(t: Trace, c: Scene, policy: Policy, a: Address, b: Address)
    requires Fine(c) && Valid(t, c, policy) && HandedOver(t, c, a, false) && HandedOver(t, c, b, true)
    ensures !AlwaysAgrees(c.validators, policy)
  {
    hide HandsOver, IsRun, FollowsAll;
    var i: nat :| i < |t.steps| && HandsOver(t.states[i], t.steps[i], a, c.q, HashOf(c, false), BlockOf(c, false));
    var j: nat :| j < |t.steps| && HandsOver(t.states[j], t.steps[j], b, c.q, HashOf(c, true), BlockOf(c, true));
  }
}
