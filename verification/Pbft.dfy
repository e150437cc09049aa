/**
 One consensus engine: what its handlers do to its slots and which message they send.

 Slots are keyed by sequence number alone, so one slot lives through view changes. The
 functions say what a handler computes from the engine's state; class Engine performs
 the same steps in place. A handler's own broadcast reaches it later, as a delivery.
 */
module Pbft {
  import opened Common
  import opened Validators

  type BlockData = Bytes

  datatype Message =
    | PrePrepare(view: u64, seqNumber: u64, sender: Address, hash: Hash, block: Option<BlockData>)
    | Prepare(view: u64, seqNumber: u64, sender: Address, hash: Hash)
    | Commit(view: u64, seqNumber: u64, sender: Address, hash: Hash)

  datatype Phase = Idle | PrePrepared | Prepared | Committed | ViewChanging {
    /** The source compares phases by their numeric order. */
    function Order(): nat {
      match this
      case Idle => 0
      case PrePrepared => 1
      case Prepared => 2
      case Committed => 3
      case ViewChanging => 4
    }
  }

  datatype Role = Unknown | Leader | Replica | Follower

  /** The state kept for one sequence number. A vote is remembered with the hash it named. */
  datatype Slot = Slot(
    view: u64,
    hash: Hash,
    prePrepare: Option<Message>,
    prepares: map<Address, Hash>,
    commits: map<Address, Hash>,
    phase: Phase)

  function NewSlot(view: u64): Slot {
    Slot(view, ZERO_HASH, None, map[], map[], Idle)
  }

  predicate HasPrepared(slot: Slot, quorum: nat) {
    slot.prePrepare.Some? && |slot.prepares| >= quorum - 1
  }

  predicate HasCommitted(slot: Slot, quorum: nat) {
    |slot.commits| >= quorum
  }

  datatype Node = Node(
    address: Address,
    role: Role,
    view: u64,
    validators: seq<Address>,
    primaryView: u64,
    slots: map<u64, Slot>)

  datatype Error =
    | NotValidator
    | ViewMismatch
    | PrimaryIndexPanic
    | NotPrimary
    | NilBlock
    | NoPrePrepare
    | NoState
    | HashMismatch
    | CommitWithoutPrePrepare

  /** What a handler sends, what it hands to the chain, and the error it returns. */
  datatype Reply = Reply(broadcast: Option<Message>, deliver: Option<BlockData>, error: Option<Error>)

  function Failed(e: Error): Reply {
    Reply(None, None, Some(e))
  }

  const Silent := Reply(None, None, None)

  function SlotOf(n: Node, m: Message): Slot {
    if m.seqNumber in n.slots then n.slots[m.seqNumber] else NewSlot(m.view)
  }

  function SetSlot(n: Node, seqNumber: u64, slot: Slot): Node {
    n.(slots := n.slots[seqNumber := slot])
  }

  function OnPrePrepare(n: Node, m: Message): (Node, Reply)
    requires m.PrePrepare?
  {
    if m.view != n.view then (n, Failed(ViewMismatch))
    else if Primary(n.validators, n.primaryView).None? then (n, Failed(PrimaryIndexPanic))
    else if m.sender != Primary(n.validators, n.primaryView).value then (n, Failed(NotPrimary))
    else if m.block.None? then (n, Failed(NilBlock))
    else
      var slot := SlotOf(n, m).(prePrepare := Some(m), hash := m.hash);
      var vote := if n.role == Replica || n.role == Leader
                  then Some(Prepare(n.view, m.seqNumber, n.address, m.hash)) else None;
      (SetSlot(n, m.seqNumber, slot), Reply(vote, None, None))
  }

  function OnPrepare(n: Node, m: Message): (Node, Reply)
    requires m.Prepare?
  {
    var slot := SlotOf(n, m);
    if slot.prePrepare.None? then (SetSlot(n, m.seqNumber, slot), Failed(NoPrePrepare))
    else if m.hash != slot.hash then (n, Failed(HashMismatch))
    else
      var voted := slot.(prepares := slot.prepares[m.sender := m.hash]);
      if voted.phase.Order() < Prepared.Order() && HasPrepared(voted, Quorum(|n.validators|)) then
        (SetSlot(n, m.seqNumber, voted.(phase := Prepared)),
         Reply(Some(Commit(n.view, m.seqNumber, n.address, slot.hash)), None, None))
      else
        (SetSlot(n, m.seqNumber, voted), Silent)
  }

  function OnCommit(n: Node, m: Message): (Node, Reply)
    requires m.Commit?
  {
    if m.seqNumber !in n.slots then (n, Failed(NoState))
    else
      var slot := n.slots[m.seqNumber];
      if m.hash != slot.hash then (n, Failed(HashMismatch))
      else
        var voted := slot.(commits := slot.commits[m.sender := m.hash]);
        if voted.phase.Order() < Committed.Order() && HasCommitted(voted, Quorum(|n.validators|)) then
          (SetSlot(n, m.seqNumber, voted.(phase := Committed)),
           if slot.prePrepare.None? then Failed(CommitWithoutPrePrepare)
           else Reply(None, DataOf(slot.prePrepare.value), None))
        else
          (SetSlot(n, m.seqNumber, voted), Silent)
  }

  function DataOf(m: Message): Option<BlockData> {
    if m.PrePrepare? then m.block else None
  }

  function Handle(n: Node, m: Message): (Node, Reply) {
    if m.sender !in n.validators then (n, Failed(NotValidator))
    else match m
      case PrePrepare(_, _, _, _, _) => OnPrePrepare(n, m)
      case Prepare(_, _, _, _) => OnPrepare(n, m)
      case Commit(_, _, _, _) => OnCommit(n, m)
  }

  // ------------------------------------------------------------------ what the handlers accept

  /**
   A pre-prepare is accepted exactly if it is of the engine's view, comes from the validator
   whose turn it is in the primary's view, and carries a block. It replaces the slot's
   pre-prepare and hash and leaves votes and phase alone; validators on duty answer with a vote.
   */
  lemma PrePrepareIsAccepted(n: Node, m: Message)
    requires m.PrePrepare? && m.sender in n.validators && n.primaryView < TWO_63
    ensures Handle(n, m).1.error.None? <==>
      m.view == n.view && m.sender == n.validators[n.primaryView % |n.validators|] && m.block.Some?
    ensures Handle(n, m).1.error.Some? ==> Handle(n, m).0 == n && Handle(n, m).1.broadcast.None?
    ensures Handle(n, m).1.error.None? ==>
      && m.seqNumber in Handle(n, m).0.slots
      && var was, slot := SlotOf(n, m), Handle(n, m).0.slots[m.seqNumber];
        && slot.prePrepare == Some(m) && slot.hash == m.hash
        && slot.prepares == was.prepares && slot.commits == was.commits && slot.phase == was.phase
        && Handle(n, m).1.broadcast ==
          if n.role == Leader || n.role == Replica then Some(Prepare(n.view, m.seqNumber, n.address, m.hash)) else None
    ensures Handle(n, m).1.error.None? && m.seqNumber !in n.slots ==>
      && m.seqNumber in Handle(n, m).0.slots
      && Handle(n, m).0.slots[m.seqNumber] == Slot(m.view, m.hash, Some(m), map[], map[], Idle)
  {
  }

  /**
   A prepare of a validator is counted exactly if its slot has a pre-prepare and the same
   hash. A commit is sent exactly when the slot was not yet prepared and two thirds of the
   validators, rounded down, have voted.
   */
  lemma PrepareIsCounted(n: Node, m: Message)
    requires m.Prepare?
    ensures Handle(n, m).1.error.None? <==>
      && m.sender in n.validators && m.seqNumber in n.slots
      && n.slots[m.seqNumber].prePrepare.Some? && n.slots[m.seqNumber].hash == m.hash
    ensures Handle(n, m).1.error.None? ==>
      && m.seqNumber in Handle(n, m).0.slots
      && var was, slot := n.slots[m.seqNumber], Handle(n, m).0.slots[m.seqNumber];
        var prepared := (was.phase == Idle || was.phase == PrePrepared) && |slot.prepares| >= |n.validators| * 2 / 3;
        && slot == was.(prepares := was.prepares[m.sender := m.hash], phase := if prepared then Prepared else was.phase)
        && Handle(n, m).1.broadcast ==
          if prepared then Some(Commit(n.view, m.seqNumber, n.address, m.hash)) else None
    ensures Handle(n, m).1.error.Some? ==>
      && Handle(n, m).1.broadcast.None?
      && Handle(n, m).0 == if m.sender in n.validators && m.seqNumber !in n.slots then
          n.(slots := n.slots[m.seqNumber := Slot(m.view, ZERO_HASH, None, map[], map[], Idle)])
        else n
  {
    if m.seqNumber in n.slots { assert n.slots[m.seqNumber := n.slots[m.seqNumber]] == n.slots; }
  }

  /**
   A commit of a validator is counted exactly if its slot is known and has the same hash.
   The block is handed over exactly when the slot was not yet committed and more than two
   thirds of the validators have voted.
   */
  lemma CommitIsCounted(n: Node, m: Message)
    requires m.Commit?
    ensures m.sender in n.validators && m.seqNumber in n.slots && n.slots[m.seqNumber].hash == m.hash <==>
      Handle(n, m).1.error.None? || Handle(n, m).1.error == Some(CommitWithoutPrePrepare)
    ensures m.sender in n.validators && m.seqNumber in n.slots && n.slots[m.seqNumber].hash == m.hash ==>
      && m.seqNumber in Handle(n, m).0.slots
      && var was, slot := n.slots[m.seqNumber], Handle(n, m).0.slots[m.seqNumber];
        var committed := was.phase != Committed && was.phase != ViewChanging && 3 * |slot.commits| > 2 * |n.validators|;
        && slot == was.(commits := was.commits[m.sender := m.hash], phase := if committed then Committed else was.phase)
        && Handle(n, m).1.deliver ==
          if committed && was.prePrepare.Some? && was.prePrepare.value.PrePrepare? then was.prePrepare.value.block
          else None
    ensures Handle(n, m).1.broadcast.None?
    ensures !(m.sender in n.validators && m.seqNumber in n.slots && n.slots[m.seqNumber].hash == m.hash) ==>
      Handle(n, m).0 == n && Handle(n, m).1.deliver.None?
  {
  }

  /** What a refusal says is so. */
  lemma RefusalsTellTheTruth(n: Node, m: Message, error: Error)
    requires Handle(n, m).1.error == Some(error)
    ensures match error
      case NotValidator => m.sender !in n.validators
      case ViewMismatch => m.PrePrepare? && m.view != n.view
      case PrimaryIndexPanic => m.PrePrepare? && n.primaryView >= TWO_63
      case NotPrimary =>
        m.PrePrepare? && (n.primaryView < TWO_63 ==> m.sender != n.validators[n.primaryView % |n.validators|])
      case NilBlock => m.PrePrepare? && m.block.None?
      case NoPrePrepare =>
        m.Prepare? && (m.seqNumber in n.slots ==> n.slots[m.seqNumber].prePrepare.None?)
      case NoState => m.Commit? && m.seqNumber !in n.slots
      case HashMismatch =>
        !m.PrePrepare? && m.seqNumber in n.slots && m.hash != n.slots[m.seqNumber].hash
      case CommitWithoutPrePrepare =>
        m.Commit? && m.seqNumber in n.slots && n.slots[m.seqNumber].prePrepare.None?
  {
  }

  /** The engine as an object: handlers update its slots in place. */
  class Engine {
    const address: Address
    var role: Role
    var view: u64
    const validators: ValidatorSet
    var slots: map<u64, Slot>

    ghost function Snapshot(): Node
      reads this, validators
    {
      Node(address, role, view, validators.validators, validators.viewNumber, slots)
    }

    /** The source reads validators[0] before anything else, so an empty list panics. */
    constructor (address: Address, validators: seq<Address>)
      requires validators != []
      ensures fresh(this.validators)
      ensures Snapshot() == Node(address,
                                 if validators[0] == address then Leader
                                 else if address in validators then Replica else Follower,
                                 0, validators, 0, map[])
    {
      this.address := address;
      this.validators := new ValidatorSet(validators);
      view := 0;
      slots := map[];
      role := if validators[0] == address then Leader
              else if address in validators then Replica else Follower;
    }

    method HandleMessage(m: Message) returns (reply: Reply)
      modifies this`slots
      ensures (Snapshot(), reply) == Handle(old(Snapshot()), m)
    {
      var known := validators.IsValidator(m.sender);
      if !known { return Failed(NotValidator); }
      match m {
        case PrePrepare(_, _, _, _, _) => reply := HandlePrePrepare(m);
        case Prepare(_, _, _, _) => reply := HandlePrepare(m);
        case Commit(_, _, _, _) => reply := HandleCommit(m);
      }
    }

    method HandlePrePrepare(m: Message) returns (reply: Reply)
      requires m.PrePrepare?
      modifies this`slots
      ensures (Snapshot(), reply) == OnPrePrepare(old(Snapshot()), m)
    {
      if m.view != view { return Failed(ViewMismatch); }
      var primary := validators.GetPrimary();
      if primary.None? { return Failed(PrimaryIndexPanic); }
      if m.sender != primary.value { return Failed(NotPrimary); }
      if m.block.None? { return Failed(NilBlock); }
      if m.seqNumber !in slots {
        slots := slots[m.seqNumber := NewSlot(m.view)];
      }
      var slot := slots[m.seqNumber];
      slot := slot.(prePrepare := Some(m));
      slot := slot.(hash := m.hash);
      slots := slots[m.seqNumber := slot];
      assert slots == old(slots)[m.seqNumber := slots[m.seqNumber]];
      if role == Replica || role == Leader {
        return Reply(Some(Prepare(view, m.seqNumber, address, m.hash)), None, None);
      }
      return Silent;
    }

    method HandlePrepare(m: Message) returns (reply: Reply)
      requires m.Prepare?
      modifies this`slots
      ensures (Snapshot(), reply) == OnPrepare(old(Snapshot()), m)
    {
      if m.seqNumber !in slots {
        slots := slots[m.seqNumber := NewSlot(m.view)];
      }
      var slot := slots[m.seqNumber];
      assert slots == old(slots)[m.seqNumber := slot];
      if slot.prePrepare.None? { return Failed(NoPrePrepare); }
      if m.hash != slot.hash { return Failed(HashMismatch); }
      slot := slot.(prepares := slot.prepares[m.sender := m.hash]);
      slots := slots[m.seqNumber := slot];
      var quorum := Quorum(|validators.validators|);
      if slot.phase.Order() < Prepared.Order() && HasPrepared(slot, quorum) {
        slots := slots[m.seqNumber := slot.(phase := Prepared)];
        assert slots == old(slots)[m.seqNumber := slots[m.seqNumber]];
        return Reply(Some(Commit(view, m.seqNumber, address, slot.hash)), None, None);
      }
      return Silent;
    }

    method HandleCommit(m: Message) returns (reply: Reply)
      requires m.Commit?
      modifies this`slots
      ensures (Snapshot(), reply) == OnCommit(old(Snapshot()), m)
    {
      if m.seqNumber !in slots { return Failed(NoState); }
      var slot := slots[m.seqNumber];
      if m.hash != slot.hash { return Failed(HashMismatch); }
      slot := slot.(commits := slot.commits[m.sender := m.hash]);
      slots := slots[m.seqNumber := slot];
      var quorum := Quorum(|validators.validators|);
      if slot.phase.Order() < Committed.Order() && HasCommitted(slot, quorum) {
        slots := slots[m.seqNumber := slot.(phase := Committed)];
        assert slots == old(slots)[m.seqNumber := slots[m.seqNumber]];
        if slot.prePrepare.None? { return Failed(CommitWithoutPrePrepare); }
        return Reply(None, DataOf(slot.prePrepare.value), None);
      }
      return Silent;
    }
  }
}
