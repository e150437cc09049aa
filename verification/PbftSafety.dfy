/**
 Agreement among engines that exchange messages through an unreliable network.

 The network is the set of messages ever sent: a message may be delivered any number of
 times, in any order, or never. Nodes outside the system's map are faulty and send
 whatever they like under their own address. A view change is an arbitrary change of the
 view, the primary's view and the role.
 */
module PbftSafety {
  import opened Common
  import opened Validators
  import opened Pbft

  datatype System = System(nodes: map<Address, Node>, sent: set<Message>)

  datatype Step =
    | Propose(proposer: Address, seqNumber: u64, hash: Hash, block: BlockData)
    | Deliver(to: Address, message: Message)
    | Forge(forged: Message)
    | ChangeView(at: Address, view: u64, primaryView: u64, role: Role)

  predicate Enabled(s: System, step: Step) {
    match step
    case Propose(p, _, _, _) => p in s.nodes && s.nodes[p].role == Leader
    case Deliver(to, m) => to in s.nodes && m in s.sent
    case Forge(m) => m.sender !in s.nodes
    case ChangeView(a, _, _, _) => a in s.nodes
  }

  function Apply(s: System, step: Step): System
    requires Enabled(s, step)
  {
    match step
    case Propose(p, q, h, b) => s.(sent := s.sent + {PrePrepare(s.nodes[p].view, q, p, h, Some(b))})
    case Deliver(to, m) =>
      var (node, reply) := Handle(s.nodes[to], m);
      System(s.nodes[to := node],
             if reply.broadcast.Some? then s.sent + {reply.broadcast.value} else s.sent)
    case Forge(m) => s.(sent := s.sent + {m})
    case ChangeView(a, v, pv, r) => s.(nodes := s.nodes[a := s.nodes[a].(view := v, primaryView := pv, role := r)])
  }

  /** Fixed validators, at most FaultTolerance of them faulty, no slot and no message yet. */
  ghost predicate Initial(s: System, validators: seq<Address>) {
    && Distinct(validators)
    && |Elems(validators) - s.nodes.Keys| <= FaultTolerance(|validators|)
    && s.sent == {}
    && forall a :: a in s.nodes ==>
         s.nodes[a].address == a && s.nodes[a].validators == validators && s.nodes[a].slots == map[]
  }

  /** states[i + 1] is what steps[i] makes of states[i]. */
  ghost predicate IsRun(states: seq<System>, steps: seq<Step>, validators: seq<Address>) {
    && |states| == |steps| + 1
    && Initial(states[0], validators)
    && forall i :: 0 <= i < |steps| ==>
         Enabled(states[i], steps[i]) && states[i + 1] == Apply(states[i], steps[i])
  }

  /** Which changes of hash are let through. */
  type Policy = (Hash, Hash) -> bool

  /** No change at all. */
  predicate Same(x: Hash, y: Hash) {
    x == y
  }

  /** The commit votes a slot remembers from correct nodes name hashes that may change to the slot's hash. */
  ghost predicate Coherent(slot: Slot, correct: set<Address>, leads: Policy) {
    forall v :: v in slot.commits && v in correct ==> leads(slot.commits[v], slot.hash)
  }

  /** The hash of the pre-prepare m is one that the recorded votes of correct nodes may change to. */
  ghost predicate Harmless(slot: Slot, m: Message, correct: set<Address>, leads: Policy) {
    forall v :: v in slot.commits && v in correct ==> leads(slot.commits[v], m.hash)
  }

  /** Whether the engine accepts the pre-prepare rather than returning an error. */
  predicate Accepts(n: Node, m: Message)
    requires m.PrePrepare?
  {
    Handle(n, m).1.error.None?
  }

  /** A step lets a pre-prepare override recorded commit votes of correct nodes only as allowed. */
  ghost predicate Guarded(s: System, step: Step, leads: Policy) {
    step.Deliver? && step.message.PrePrepare? && step.to in s.nodes && Accepts(s.nodes[step.to], step.message) ==>
      Harmless(SlotOf(s.nodes[step.to], step.message), step.message, s.nodes.Keys, leads)
  }

  /** A Commit of v for hash h and sequence number q is on the network. */
  ghost predicate SentCommit(s: System, q: u64, v: Address, h: Hash) {
    exists view :: Commit(view, q, v, h) in s.sent
  }

  /** Every commit vote remembered from a correct node was really sent. */
  ghost predicate VotesSent(s: System, q: u64, slot: Slot) {
    forall v :: v in slot.commits && v in s.nodes ==> SentCommit(s, q, v, slot.commits[v])
  }

  /** What holds of one slot of a correct node. */
  ghost predicate SlotInv(s: System, q: u64, slot: Slot, validators: seq<Address>) {
    && slot.commits.Keys <= Elems(validators)
    && VotesSent(s, q, slot)
    && (slot.phase == Committed ==> |slot.commits| >= Quorum(|validators|))
    && (slot.prePrepare.Some? ==>
          slot.prePrepare.value in s.sent && slot.prePrepare.value.PrePrepare? &&
          slot.prePrepare.value.seqNumber == q && slot.prePrepare.value.hash == slot.hash &&
          slot.prePrepare.value.sender in validators)
  }

  /** A Commit of a correct node was sent when it prepared, backed by a pre-prepare, and is its only one. */
  ghost predicate CommitInv(s: System, validators: seq<Address>) {
    && (forall m :: m in s.sent && m.Commit? && m.sender in s.nodes ==>
          && m.seqNumber in s.nodes[m.sender].slots
          && s.nodes[m.sender].slots[m.seqNumber].phase.Order() >= Prepared.Order()
          && ProposedBy(s, m.seqNumber, m.hash, validators))
    && (forall m, m' ::
          (m in s.sent && m' in s.sent && m.Commit? && m'.Commit? && m.sender in s.nodes
           && m.sender == m'.sender && m.seqNumber == m'.seqNumber) ==> m == m')
  }

  /** Some validator sent a pre-prepare of this hash for this sequence number. */
  ghost predicate ProposedBy(s: System, q: u64, h: Hash, validators: seq<Address>) {
    exists m :: m in s.sent && m.PrePrepare? && m.seqNumber == q && m.hash == h && m.sender in validators
  }

  ghost predicate Inv(s: System, validators: seq<Address>) {
    && Distinct(validators)
    && |Elems(validators) - s.nodes.Keys| <= FaultTolerance(|validators|)
    && (forall a :: a in s.nodes ==> s.nodes[a].address == a && s.nodes[a].validators == validators)
    && (forall a, q :: a in s.nodes && q in s.nodes[a].slots ==> SlotInv(s, q, s.nodes[a].slots[q], validators))
    && CommitInv(s, validators)
  }

  /** A handler touches one slot, never lowers its phase, and commits only when it prepares. */
  lemma HandlerEffect(n: Node, m: Message)
    ensures var (n', reply) := Handle(n, m);
      && n' == n.(slots := n'.slots)
      && n.slots.Keys <= n'.slots.Keys <= n.slots.Keys + {m.seqNumber}
      && (forall q :: q in n.slots && q != m.seqNumber ==> n'.slots[q] == n.slots[q])
      && (m.seqNumber in n.slots ==> n'.slots[m.seqNumber].phase.Order() >= n.slots[m.seqNumber].phase.Order())
      && (reply.broadcast.Some? ==> reply.broadcast.value.sender == n.address && !reply.broadcast.value.PrePrepare?)
      && (reply.broadcast.Some? && reply.broadcast.value.Commit? ==>
            var slot := SlotOf(n, m);
            && m.seqNumber in n'.slots && n'.slots[m.seqNumber].phase == Prepared
            && slot.phase.Order() < Prepared.Order() && slot.prePrepare.Some?
            && reply.broadcast.value == Commit(n.view, m.seqNumber, n.address, slot.hash))
  {
  }

  lemma VoteKeepsVotesSent(s: System, q: u64, slot: Slot, m: Message)
    requires VotesSent(s, q, slot) && m in s.sent && m.Commit? && m.seqNumber == q
    ensures VotesSent(s, q, slot.(commits := slot.commits[m.sender := m.hash]))
  {
    var after := slot.(commits := slot.commits[m.sender := m.hash]);
    forall v | v in after.commits && v in s.nodes
      ensures SentCommit(s, q, v, after.commits[v])
    {
      if v == m.sender {
        assert m == Commit(m.view, q, v, after.commits[v]);
      } else {
        assert after.commits[v] == slot.commits[v];
      }
    }
  }

  /** A delivered commit vote leaves its slot's invariant intact, in the network before the reply. */
  lemma CommitKeepsSlot(s: System, n: Node, m: Message, validators: seq<Address>)
    requires m.Commit? && m in s.sent && n.validators == validators && m.sender in validators
    requires m.seqNumber in n.slots && SlotInv(s, m.seqNumber, n.slots[m.seqNumber], validators)
    ensures SlotInv(s, m.seqNumber, OnCommit(n, m).0.slots[m.seqNumber], validators)
  {
    var slot, q := n.slots[m.seqNumber], m.seqNumber;
    if m.hash == slot.hash {
      var voted := slot.(commits := slot.commits[m.sender := m.hash]);
      assert VotesSent(s, q, slot);
      VoteKeepsVotesSent(s, q, slot, m);
      hide VotesSent, SentCommit;
      assert voted.commits.Keys == slot.commits.Keys + {m.sender};
      SubsetCount(slot.commits.Keys, voted.commits.Keys);
      assert |slot.commits| == |slot.commits.Keys| && |voted.commits| == |voted.commits.Keys|;
      assert SlotInv(s, q, voted, validators);
      assert OnCommit(n, m).0.slots[q] in {voted, voted.(phase := Committed)};
    }
  }

  lemma PrepareKeepsSlot(s: System, n: Node, m: Message, validators: seq<Address>)
    requires m.Prepare? && SlotInv(s, m.seqNumber, SlotOf(n, m), validators)
    ensures m.seqNumber in OnPrepare(n, m).0.slots ==>
      SlotInv(s, m.seqNumber, OnPrepare(n, m).0.slots[m.seqNumber], validators)
  {
    var slot := SlotOf(n, m);
    var n' := OnPrepare(n, m).0;
    if m.seqNumber in n'.slots {
      var slot' := n'.slots[m.seqNumber];
      assert slot' == slot.(prepares := slot'.prepares, phase := slot'.phase);
      assert slot'.phase == Committed ==> slot.phase == Committed;
    }
  }

  lemma PrePrepareKeepsSlot(s: System, n: Node, m: Message, validators: seq<Address>)
    requires m.PrePrepare? && m in s.sent && m.sender in validators
    requires SlotInv(s, m.seqNumber, SlotOf(n, m), validators)
    ensures m.seqNumber in OnPrePrepare(n, m).0.slots ==>
      SlotInv(s, m.seqNumber, OnPrePrepare(n, m).0.slots[m.seqNumber], validators)
  {
    var slot := SlotOf(n, m);
    var n' := OnPrePrepare(n, m).0;
    if m.seqNumber in n'.slots {
      assert n'.slots[m.seqNumber] in {slot, slot.(prePrepare := Some(m), hash := m.hash)};
    }
  }

  /** The slot a delivery touches keeps its invariant. */
  lemma DeliveryKeepsSlot(s: System, step: Step, validators: seq<Address>)
    requires Inv(s, validators) && step.Deliver? && Enabled(s, step)
    ensures var n', q := Handle(s.nodes[step.to], step.message).0, step.message.seqNumber;
      q in n'.slots ==> SlotInv(s, q, n'.slots[q], validators)
  {
    var n, m := s.nodes[step.to], step.message;
    assert SlotInv(s, m.seqNumber, SlotOf(n, m), validators);
    if m.sender in validators {
      match m {
        case PrePrepare(_, _, _, _, _) => PrePrepareKeepsSlot(s, n, m, validators);
        case Prepare(_, _, _, _) => PrepareKeepsSlot(s, n, m, validators);
        case Commit(_, _, _, _) => if m.seqNumber in n.slots { CommitKeepsSlot(s, n, m, validators); }
      }
    }
  }

  /** Slots are not disturbed by further messages on the network. */
  lemma MoreMessagesKeepSlot(s: System, s': System, q: u64, slot: Slot, validators: seq<Address>)
    requires SlotInv(s, q, slot, validators) && s.sent <= s'.sent && s.nodes.Keys == s'.nodes.Keys
    ensures SlotInv(s', q, slot, validators)
  {
    forall v | v in slot.commits && v in s'.nodes
      ensures SentCommit(s', q, v, slot.commits[v])
    {
      var view :| Commit(view, q, v, slot.commits[v]) in s.sent;
      assert Commit(view, q, v, slot.commits[v]) in s'.sent;
    }
  }

  lemma StepKeepsSlots(s: System, step: Step, validators: seq<Address>)
    requires Inv(s, validators) && Enabled(s, step)
    ensures var s' := Apply(s, step);
      forall a, q :: a in s'.nodes && q in s'.nodes[a].slots ==> SlotInv(s', q, s'.nodes[a].slots[q], validators)
  {
    var s' := Apply(s, step);
    StepFrame(s, step, validators);
    if step.Deliver? { HandlerEffect(s.nodes[step.to], step.message); }
    hide Handle;
    forall a, q | a in s'.nodes && q in s'.nodes[a].slots
      ensures SlotInv(s', q, s'.nodes[a].slots[q], validators)
    {
      if step.Deliver? && a == step.to && q == step.message.seqNumber {
        DeliveryKeepsSlot(s, step, validators);
        hide SlotInv;
        MoreMessagesKeepSlot(s, s', q, s'.nodes[a].slots[q], validators);
      } else {
        hide SlotInv;
        MoreMessagesKeepSlot(s, s', q, s.nodes[a].slots[q], validators);
      }
    }
  }

  /** m is a Commit its sender has just decided to send: its slot had a pre-prepare and was not prepared. */
  ghost predicate Fresh(s: System, s': System, m: Message) {
    && m.Commit? && m.sender in s.nodes && m.sender in s'.nodes
    && m.seqNumber in s.nodes[m.sender].slots && m.seqNumber in s'.nodes[m.sender].slots
    && var slot := s.nodes[m.sender].slots[m.seqNumber];
      && slot.prePrepare.Some? && slot.hash == m.hash && slot.phase.Order() < Prepared.Order()
      && s'.nodes[m.sender].slots[m.seqNumber].phase == Prepared
  }

  /** What a step may change, leaving the contents of slots aside. */
  lemma StepFrame(s: System, step: Step, validators: seq<Address>)
    requires Enabled(s, step)
    requires forall a :: a in s.nodes ==> s.nodes[a].address == a && s.nodes[a].validators == validators
    ensures var s' := Apply(s, step);
      && s'.nodes.Keys == s.nodes.Keys && s.sent <= s'.sent
      && (forall a :: a in s'.nodes ==> s'.nodes[a].address == a && s'.nodes[a].validators == validators)
      && (forall a, q :: a in s.nodes && q in s.nodes[a].slots ==>
            q in s'.nodes[a].slots && s'.nodes[a].slots[q].phase.Order() >= s.nodes[a].slots[q].phase.Order())
      && (forall m :: m in s'.sent && m !in s.sent && m.Commit? && m.sender in s.nodes ==> Fresh(s, s', m))
      && (forall m, m' :: m in s'.sent && m' in s'.sent && m !in s.sent && m' !in s.sent ==> m == m')
  {
    if step.Deliver? {
      HandlerEffect(s.nodes[step.to], step.message);
      hide Handle;
    }
  }

  lemma CommitStaysBacked(s: System, step: Step, m: Message, validators: seq<Address>)
    requires Inv(s, validators) && Enabled(s, step)
    requires var s' := Apply(s, step); m in s'.sent && m.Commit? && m.sender in s'.nodes
    ensures var s' := Apply(s, step);
      && m.seqNumber in s'.nodes[m.sender].slots
      && s'.nodes[m.sender].slots[m.seqNumber].phase.Order() >= Prepared.Order()
      && ProposedBy(s', m.seqNumber, m.hash, validators)
  {
    var s' := Apply(s, step);
    hide Apply, Enabled, SlotInv;
    StepFrame(s, step, validators);
    if m !in s.sent {
      SlotIsProposed(s, m.seqNumber, s.nodes[m.sender].slots[m.seqNumber], validators);
    }
    ProposalStays(s, s', m.seqNumber, m.hash, validators);
  }

  lemma StepKeepsCommits(s: System, step: Step, validators: seq<Address>)
    requires Inv(s, validators) && Enabled(s, step)
    ensures CommitInv(Apply(s, step), validators)
  {
    var s' := Apply(s, step);
    StepKeepsNodes(s, step);
    hide Apply, Enabled, SlotInv, ProposedBy;
    forall m | m in s'.sent && m.Commit? && m.sender in s'.nodes
      ensures m.seqNumber in s'.nodes[m.sender].slots
      ensures s'.nodes[m.sender].slots[m.seqNumber].phase.Order() >= Prepared.Order()
      ensures ProposedBy(s', m.seqNumber, m.hash, validators)
    {
      CommitStaysBacked(s, step, m, validators);
    }
    forall m, m' | m in s'.sent && m' in s'.sent && m.Commit? && m'.Commit? && m.sender in s'.nodes
                   && m.sender == m'.sender && m.seqNumber == m'.seqNumber
      ensures m == m'
    {
      CommitStaysUnique(s, step, m, m', validators);
    }
  }

  /** A fresh commit comes from a slot that had not prepared, so no earlier one exists. */
  lemma CommitStaysUnique(s: System, step: Step, m: Message, m': Message, validators: seq<Address>)
    requires Inv(s, validators) && Enabled(s, step)
    requires var sent := Apply(s, step).sent; m in sent && m' in sent
    requires m.Commit? && m'.Commit? && m.sender in s.nodes && m.sender == m'.sender && m.seqNumber == m'.seqNumber
    ensures m == m'
  {
    hide Apply, Enabled, SlotInv, ProposedBy;
    StepFrame(s, step, validators);
  }

  lemma ProposalStays(s: System, s': System, q: u64, h: Hash, validators: seq<Address>)
    requires ProposedBy(s, q, h, validators) && s.sent <= s'.sent
    ensures ProposedBy(s', q, h, validators)
  {
    var p :| p in s.sent && p.PrePrepare? && p.seqNumber == q && p.hash == h && p.sender in validators;
    assert p in s'.sent;
  }

  lemma SlotIsProposed(s: System, q: u64, slot: Slot, validators: seq<Address>)
    requires SlotInv(s, q, slot, validators) && slot.prePrepare.Some?
    ensures ProposedBy(s, q, slot.hash, validators)
  {
  }

  /** Every step keeps the invariant, whatever it overwrites. */
  lemma StepKeepsInv(s: System, step: Step, validators: seq<Address>)
    requires Inv(s, validators) && Enabled(s, step)
    ensures Inv(Apply(s, step), validators)
  {
    hide Apply, Enabled, SlotInv, CommitInv;
    StepKeepsSlots(s, step, validators);
    StepKeepsCommits(s, step, validators);
    StepFrame(s, step, validators);
  }

  lemma InitiallyInv(s: System, validators: seq<Address>)
    requires Initial(s, validators)
    ensures Inv(s, validators)
  {
  }

  lemma StepKeepsNodes(s: System, step: Step)
    requires Enabled(s, step)
    ensures Apply(s, step).nodes.Keys == s.nodes.Keys
    ensures s.sent <= Apply(s, step).sent
  {
  }

  /** The invariant holds in every run. */
  lemma {:induction false} RunKeepsInv(states: seq<System>, steps: seq<Step>, validators: seq<Address>, i: nat)
    requires IsRun(states, steps, validators) && i < |states|
    ensures Inv(states[i], validators)
  {
    hide Inv, Apply, Initial;
    if i == 0 {
      InitiallyInv(states[0], validators);
    } else {
      RunKeepsInv(states, steps, validators, i - 1);
      StepKeepsInv(states[i - 1], steps[i - 1], validators);
    }
  }

  // ------------------------------------------------------------------ where pre-prepares come from

  /** The step delivers m to node a, which accepts it from the validator whose turn it is. */
  ghost predicate AcceptedFromPrimary(s: System, step: Step, validators: seq<Address>, a: Address, m: Message) {
    && step == Deliver(a, m) && m in s.sent && a in s.nodes && m.PrePrepare? && m.block.Some?
    && m.view == s.nodes[a].view && validators != []
    && (s.nodes[a].primaryView < TWO_63 ==> m.sender == validators[s.nodes[a].primaryView % |validators|])
  }

  ghost predicate StoresPrePrepare(s: System, a: Address, q: u64, m: Message) {
    a in s.nodes && q in s.nodes[a].slots && s.nodes[a].slots[q].prePrepare == Some(m)
  }

  lemma OnlyAcceptedIsStored(s: System, step: Step, validators: seq<Address>, a: Address, q: u64, m: Message)
    requires Enabled(s, step) && (forall b :: b in s.nodes ==> s.nodes[b].validators == validators)
    requires StoresPrePrepare(Apply(s, step), a, q, m) && !StoresPrePrepare(s, a, q, m)
    ensures AcceptedFromPrimary(s, step, validators, a, m)
  {
    if step.Deliver? && step.to == a {
      var n, d := s.nodes[a], step.message;
      HandlerEffect(n, d);
      if d.PrePrepare? && d.sender in n.validators && n.primaryView < TWO_63 { PrePrepareIsAccepted(n, d); }
      if d.Prepare? { PrepareIsCounted(n, d); }
      if d.Commit? { CommitIsCounted(n, d); }
    }
  }

  /**
   In every run, the pre-prepare in a correct node's slot was accepted by that node when the
   validator that sent it was the primary of the view the node had then.
   */
  lemma {:induction false} StoredPrePreparesAreThePrimarys(
      states: seq<System>, steps: seq<Step>, validators: seq<Address>, i: nat, a: Address, q: u64, m: Message)
      returns (k: nat)
    requires IsRun(states, steps, validators) && i < |states| && StoresPrePrepare(states[i], a, q, m)
    ensures k < i && AcceptedFromPrimary(states[k], steps[k], validators, a, m)
  {
    hide Initial, Enabled, Apply, StoresPrePrepare, AcceptedFromPrimary, Inv;
    if i == 0 {
      NothingStored(states[0], validators, a, q, m);
      assert false;
    } else if StoresPrePrepare(states[i - 1], a, q, m) {
      k := StoredPrePreparesAreThePrimarys(states, steps, validators, i - 1, a, q, m);
    } else {
      RunKeepsInv(states, steps, validators, i - 1);
      AddressesMatch(states[i - 1], validators);
      k := i - 1;
      OnlyAcceptedIsStored(states[k], steps[k], validators, a, q, m);
    }
  }

  lemma NothingStored(s: System, validators: seq<Address>, a: Address, q: u64, m: Message)
    requires Initial(s, validators)
    ensures !StoresPrePrepare(s, a, q, m)
  {
  }

  // ------------------------------------------------------------------ guarded runs

  ghost predicate GuardedRun(states: seq<System>, steps: seq<Step>, leads: Policy) {
    |states| == |steps| + 1 && forall i :: 0 <= i < |steps| ==> Guarded(states[i], steps[i], leads)
  }

  /** Every slot of every correct node is coherent. */
  ghost predicate AllCoherent(s: System, leads: Policy) {
    forall a, q :: a in s.nodes && q in s.nodes[a].slots ==> Coherent(s.nodes[a].slots[q], s.nodes.Keys, leads)
  }

  lemma DeliveryKeepsCoherent(s: System, step: Step, leads: Policy)
    requires AllCoherent(s, leads) && step.Deliver? && Enabled(s, step) && Guarded(s, step, leads)
    requires forall x :: leads(x, x)
    ensures var n', q := Handle(s.nodes[step.to], step.message).0, step.message.seqNumber;
      q in n'.slots ==> Coherent(n'.slots[q], s.nodes.Keys, leads)
  {
    var n, m := s.nodes[step.to], step.message;
    var slot, n' := SlotOf(n, m), Handle(n, m).0;
    if m.seqNumber in n'.slots {
      var slot' := n'.slots[m.seqNumber];
      assert Coherent(slot, s.nodes.Keys, leads);
      if slot' != slot {
        assert m.sender in n.validators;
        match m
        case PrePrepare(_, _, _, _, _) => assert slot' == slot.(prePrepare := Some(m), hash := m.hash);
        case Prepare(_, _, _, _) => assert slot' == slot.(prepares := slot'.prepares, phase := slot'.phase);
        case Commit(_, _, _, _) =>
          assert slot' == slot.(commits := slot.commits[m.sender := m.hash], phase := slot'.phase);
      }
    }
  }

  lemma StepKeepsCoherent(s: System, step: Step, leads: Policy)
    requires AllCoherent(s, leads) && Enabled(s, step) && Guarded(s, step, leads) && forall x :: leads(x, x)
    ensures AllCoherent(Apply(s, step), leads)
  {
    var s' := Apply(s, step);
    if step.Deliver? {
      HandlerEffect(s.nodes[step.to], step.message);
      DeliveryKeepsCoherent(s, step, leads);
    }
    hide Handle, Guarded, Coherent;
    StepKeepsNodes(s, step);
    forall a, q | a in s'.nodes && q in s'.nodes[a].slots
      ensures Coherent(s'.nodes[a].slots[q], s'.nodes.Keys, leads)
    {
      if !(step.Deliver? && a == step.to && q == step.message.seqNumber) {
        assert q in s.nodes[a].slots && s'.nodes[a].slots[q] == s.nodes[a].slots[q];
      }
    }
  }

  /** In a guarded run the recorded votes stay in agreement with their slot's hash. */
  lemma {:induction false} RunKeepsCoherent(
      states: seq<System>, steps: seq<Step>, validators: seq<Address>, leads: Policy, i: nat)
    requires IsRun(states, steps, validators) && GuardedRun(states, steps, leads) && i < |states|
    requires forall x :: leads(x, x)
    ensures AllCoherent(states[i], leads)
  {
    hide AllCoherent, Apply, Guarded, Initial;
    if i == 0 {
      InitiallyCoherent(states[0], validators, leads);
    } else {
      RunKeepsCoherent(states, steps, validators, leads, i - 1);
      StepKeepsCoherent(states[i - 1], steps[i - 1], leads);
    }
  }

  lemma InitiallyCoherent(s: System, validators: seq<Address>, leads: Policy)
    requires Initial(s, validators)
    ensures AllCoherent(s, leads)
  {
  }

  lemma {:induction false} MessagesStaySent(
      states: seq<System>, steps: seq<Step>, validators: seq<Address>, i: nat, j: nat)
    requires IsRun(states, steps, validators) && i <= j < |states|
    ensures states[i].sent <= states[j].sent
    ensures states[i].nodes.Keys == states[j].nodes.Keys
    decreases j
  {
    hide Apply, Initial;
    if i < j {
      MessagesStaySent(states, steps, validators, i, j - 1);
      StepKeepsNodes(states[j - 1], steps[j - 1]);
    }
  }

  /** Node a has committed a block for sequence number q. */
  ghost predicate HasDecided(s: System, a: Address, q: u64) {
    a in s.nodes && q in s.nodes[a].slots && s.nodes[a].slots[q].phase == Committed
  }

  ghost function Decision(s: System, a: Address, q: u64): Hash
    requires HasDecided(s, a, q)
  {
    s.nodes[a].slots[q].hash
  }

  lemma InvAtSlot(s: System, a: Address, q: u64, validators: seq<Address>)
    requires Inv(s, validators) && a in s.nodes && q in s.nodes[a].slots
    ensures SlotInv(s, q, s.nodes[a].slots[q], validators)
  {
  }

  /** A decision is backed by a quorum whose correct members each sent a commit for it. */
  lemma DecisionHasQuorum(s: System, a: Address, q: u64, validators: seq<Address>) returns (voters: set<Address>)
    requires Inv(s, validators) && AllCoherent(s, Same) && HasDecided(s, a, q)
    ensures voters <= Elems(validators) && |voters| >= Quorum(|validators|)
    ensures forall v :: v in voters && v in s.nodes ==> SentCommit(s, q, v, Decision(s, a, q))
  {
    InvAtSlot(s, a, q, validators);
    assert Coherent(s.nodes[a].slots[q], s.nodes.Keys, Same);
    hide Inv;
    voters := s.nodes[a].slots[q].commits.Keys;
    assert |voters| == |s.nodes[a].slots[q].commits|;
  }

  /** A correct node never commits to two hashes of one sequence number. */
  lemma OneCommitPerNode(s: System, q: u64, v: Address, h: Hash, h': Hash, validators: seq<Address>)
    requires Inv(s, validators) && v in s.nodes && SentCommit(s, q, v, h) && SentCommit(s, q, v, h')
    ensures h == h'
    ensures ProposedBy(s, q, h, validators)
  {
    var view :| Commit(view, q, v, h) in s.sent;
    var view' :| Commit(view', q, v, h') in s.sent;
    assert Commit(view, q, v, h) == Commit(view', q, v, h');
  }

  /** More validators than may be faulty include a correct one. */
  lemma SomeCorrect(s: System, group: set<Address>, validators: seq<Address>) returns (v: Address)
    requires Inv(s, validators) && group <= Elems(validators) && |group| > FaultTolerance(|validators|)
    ensures v in group && v in s.nodes
  {
    var faulty := Elems(validators) - s.nodes.Keys;
    if group <= faulty {
      SubsetCount(group, faulty);
      assert false;
    }
    v :| v in group && v !in faulty;
  }

  lemma SentCommitStays(s: System, s': System, q: u64, v: Address, h: Hash)
    requires SentCommit(s, q, v, h) && s.sent <= s'.sent
    ensures SentCommit(s', q, v, h)
  {
    var view :| Commit(view, q, v, h) in s.sent;
    assert Commit(view, q, v, h) in s'.sent;
  }

  /**
   Agreement: in every guarded run, whatever the faulty validators send, two correct
   nodes that decide a sequence number, at any two moments and in any views, decide the
   same block hash.
   */
  lemma Agreement(states: seq<System>, steps: seq<Step>, validators: seq<Address>,
                  i: nat, a: Address, j: nat, b: Address, q: u64)
    requires IsRun(states, steps, validators) && GuardedRun(states, steps, Same)
    requires i <= j < |states| && HasDecided(states[i], a, q) && HasDecided(states[j], b, q)
    ensures Decision(states[i], a, q) == Decision(states[j], b, q)
  {
    RunKeepsInv(states, steps, validators, i);
    RunKeepsInv(states, steps, validators, j);
    RunKeepsCoherent(states, steps, validators, Same, i);
    RunKeepsCoherent(states, steps, validators, Same, j);
    MessagesStaySent(states, steps, validators, i, j);
    hide Inv, IsRun, GuardedRun, SentCommit, AllCoherent;
    var early, late := Decision(states[i], a, q), Decision(states[j], b, q);
    var qa := DecisionHasQuorum(states[i], a, q, validators);
    var qb := DecisionHasQuorum(states[j], b, q, validators);
    assert Distinct(validators) by { InvIsDistinct(states[j], validators); }
    QuorumsOverlap(validators, qa, qb);
    var v := SomeCorrect(states[j], qa * qb, validators);
    SentCommitStays(states[i], states[j], q, v, early);
    OneCommitPerNode(states[j], q, v, early, late, validators);
  }

  lemma InvIsDistinct(s: System, validators: seq<Address>)
    requires Inv(s, validators)
    ensures Distinct(validators)
  {
  }

  /** Validity: what a correct node decides, some validator proposed for that sequence number. */
  lemma DecisionsWereProposed(
      states: seq<System>, steps: seq<Step>, validators: seq<Address>, i: nat, a: Address, q: u64)
    requires IsRun(states, steps, validators) && GuardedRun(states, steps, Same)
    requires i < |states| && HasDecided(states[i], a, q)
    ensures ProposedBy(states[i], q, Decision(states[i], a, q), validators)
  {
    RunKeepsInv(states, steps, validators, i);
    RunKeepsCoherent(states, steps, validators, Same, i);
    hide Inv, IsRun, GuardedRun, SentCommit, AllCoherent;
    var voters := DecisionHasQuorum(states[i], a, q, validators);
    var v := SomeCorrect(states[i], voters, validators);
    OneCommitPerNode(states[i], q, v, Decision(states[i], a, q), Decision(states[i], a, q), validators);
  }

  /** An accepted pre-prepare names a non-zero hash, and the slot had none before or the same one. */
  ghost predicate WritesOnce(s: System, step: Step) {
    step.Deliver? && step.message.PrePrepare? && step.to in s.nodes && Accepts(s.nodes[step.to], step.message) ==>
      var slot := SlotOf(s.nodes[step.to], step.message);
      && step.message.hash != ZERO_HASH
      && (slot.prePrepare.None? || slot.hash == step.message.hash)
  }

  /** Under write-once steps a slot's hash is zero until its pre-prepare, and no correct vote is for zero. */
  ghost predicate ZeroUntilProposed(s: System) {
    && (forall a, q :: a in s.nodes && q in s.nodes[a].slots ==>
          ZeroSlot(s.nodes[a].slots[q]))
    && (forall m :: m in s.sent && m.Commit? && m.sender in s.nodes ==> m.hash != ZERO_HASH)
  }

  lemma WritingOnceIsHarmless(s: System, step: Step, validators: seq<Address>)
    requires Inv(s, validators) && AllCoherent(s, Same)
    requires ZeroUntilProposed(s) && Enabled(s, step) && WritesOnce(s, step)
    ensures Guarded(s, step, Same)
  {
    if step.Deliver? && step.message.PrePrepare? && Accepts(s.nodes[step.to], step.message) {
      var m := step.message;
      if m.seqNumber in s.nodes[step.to].slots {
        InvAtSlot(s, step.to, m.seqNumber, validators);
        assert Coherent(s.nodes[step.to].slots[m.seqNumber], s.nodes.Keys, Same);
        hide Inv, AllCoherent;
        var slot := s.nodes[step.to].slots[m.seqNumber];
        forall v | v in slot.commits && v in s.nodes
          ensures slot.commits[v] == m.hash
        {
          var view :| Commit(view, m.seqNumber, v, slot.commits[v]) in s.sent;
        }
      }
    }
  }

  /** The part of ZeroUntilProposed that speaks of one slot. */
  ghost predicate ZeroSlot(slot: Slot) {
    slot.prePrepare.None? <==> slot.hash == ZERO_HASH
  }

  lemma DeliveryKeepsZeroSlot(n: Node, m: Message)
    requires ZeroSlot(SlotOf(n, m))
    requires m.PrePrepare? && Accepts(n, m) ==> m.hash != ZERO_HASH
    ensures var n' := Handle(n, m).0;
      m.seqNumber in n'.slots ==> ZeroSlot(n'.slots[m.seqNumber])
  {
    HandlerEffect(n, m);
    var slot, n' := SlotOf(n, m), Handle(n, m).0;
    if m.seqNumber in n'.slots && m.sender in n.validators {
      var slot' := n'.slots[m.seqNumber];
      match m {
        case PrePrepare(_, _, _, _, _) =>
          assert slot' in {slot, slot.(prePrepare := Some(m), hash := m.hash)};
        case Prepare(_, _, _, _) =>
          assert slot' == slot.(prepares := slot'.prepares, phase := slot'.phase);
        case Commit(_, _, _, _) =>
          assert slot' == slot.(commits := slot'.commits, phase := slot'.phase);
      }
    }
  }

  lemma StepKeepsZeroUntilProposed(s: System, step: Step, validators: seq<Address>)
    requires ZeroUntilProposed(s) && Enabled(s, step) && WritesOnce(s, step)
    requires forall a :: a in s.nodes ==> s.nodes[a].address == a && s.nodes[a].validators == validators
    ensures ZeroUntilProposed(Apply(s, step))
  {
    var s' := Apply(s, step);
    hide Handle, Accepts, Fresh;
    StepFrame(s, step, validators);
    forall a, q | a in s'.nodes && q in s'.nodes[a].slots
      ensures ZeroSlot(s'.nodes[a].slots[q])
    {
      if step.Deliver? && a == step.to {
        HandlerEffect(s.nodes[a], step.message);
        if q == step.message.seqNumber { DeliveryKeepsZeroSlot(s.nodes[a], step.message); }
      }
    }
    forall m | m in s'.sent && m.Commit? && m.sender in s'.nodes
      ensures m.hash != ZERO_HASH
    {
      if m !in s.sent { FreshIsNotZero(s, s', m); }
    }
  }

  lemma FreshIsNotZero(s: System, s': System, m: Message)
    requires ZeroUntilProposed(s) && Fresh(s, s', m)
    ensures m.hash != ZERO_HASH
  {
    assert ZeroSlot(s.nodes[m.sender].slots[m.seqNumber]);
  }

  lemma AddressesMatch(s: System, validators: seq<Address>)
    requires Inv(s, validators)
    ensures forall a :: a in s.nodes ==> s.nodes[a].address == a && s.nodes[a].validators == validators
  {
  }

  lemma {:induction false} WriteOnceRunIsGuarded(
      states: seq<System>, steps: seq<Step>, validators: seq<Address>, i: nat)
    requires IsRun(states, steps, validators) && i < |states|
    requires forall k :: 0 <= k < |steps| ==> WritesOnce(states[k], steps[k])
    ensures Inv(states[i], validators) && AllCoherent(states[i], Same) && ZeroUntilProposed(states[i])
    ensures i < |steps| ==> Guarded(states[i], steps[i], Same)
  {
    hide Inv, AllCoherent, Apply, Guarded, Initial, ZeroUntilProposed, WritesOnce;
    if i == 0 {
      InitiallyInv(states[0], validators);
      InitiallyCoherent(states[0], validators, Same);
      InitiallyZero(states[0], validators);
    } else {
      WriteOnceRunIsGuarded(states, steps, validators, i - 1);
      StepKeepsInv(states[i - 1], steps[i - 1], validators);
      StepKeepsCoherent(states[i - 1], steps[i - 1], Same);
      AddressesMatch(states[i - 1], validators);
      StepKeepsZeroUntilProposed(states[i - 1], steps[i - 1], validators);
    }
    if i < |steps| {
      WritingOnceIsHarmless(states[i], steps[i], validators);
    }
  }

  lemma InitiallyZero(s: System, validators: seq<Address>)
    requires Initial(s, validators)
    ensures ZeroUntilProposed(s)
  {
  }

  /** Agreement when every slot's hash is written once and is never zero. */
  lemma AgreementWhenHashesAreWrittenOnce(states: seq<System>, steps: seq<Step>, validators: seq<Address>,
                                          i: nat, a: Address, j: nat, b: Address, q: u64)
    requires IsRun(states, steps, validators)
    requires forall k :: 0 <= k < |steps| ==> WritesOnce(states[k], steps[k])
    requires i <= j < |states| && HasDecided(states[i], a, q) && HasDecided(states[j], b, q)
    ensures Decision(states[i], a, q) == Decision(states[j], b, q)
  {
    forall k | 0 <= k < |steps|
      ensures Guarded(states[k], steps[k], Same)
    {
      WriteOnceRunIsGuarded(states, steps, validators, k);
    }
    Agreement(states, steps, validators, i, a, j, b, q);
  }
}
