/**
 The platoon service: platoons by identifier, join requests, and a history for each
 platoon that can be replayed to its members, validators, leader and status.

 Identifiers, times and the outcome of each storage write are parameters of an operation.
 */
module PlatoonService {
  import opened Common
  import opened Validators
  import opened Platoons

  datatype RequestStatus = Pending | Approved | Rejected

  datatype JoinRequest = JoinRequest(platoonId: string, vehicleId: Address, status: RequestStatus)

  datatype Entry =
    | PlatoonCreated(leader: Address)
    | MemberJoined(vehicle: Address)
    | MemberLeft(vehicle: Address)
    | LeaderChanged(oldLeader: Address, newLeader: Address)
    | PlatoonDissolved(reason: string)
    | ValidatorAdded(vehicle: Address)
    | ValidatorRemoved(vehicle: Address)

  datatype Registry = Registry(
    platoons: map<string, State>,
    requests: map<string, JoinRequest>,
    history: History)

  const EMPTY := Registry(map[], map[], map[])

  type History = map<string, seq<Entry>>

  function Entries(history: History, id: string): seq<Entry> {
    if id in history then history[id] else []
  }

  function Appended(history: History, id: string, entries: seq<Entry>): History {
    if entries == [] then history else history[id := Entries(history, id) + entries]
  }

  function HistoryOf(s: Registry, id: string): seq<Entry> {
    Entries(s.history, id)
  }

  /** The outcome of an operation on one platoon: its new state, the history entries and the error. */
  datatype Outcome = Outcome(platoon: State, entries: seq<Entry>, error: Option<Error>)

  /** A change that is followed by a storage write and, if that works, by a history entry. */
  function Stored(p: State, entry: Entry, storeWorks: bool): Outcome {
    if storeWorks then Outcome(p, [entry], None) else Outcome(p, [], Some(StoreFailed))
  }

  function Dissolve(p: State, reason: string, storeWorks: bool): Outcome {
    if p.status == Dissolved then Outcome(p, [], Some(AlreadyDissolved))
    else Stored(p.(status := Dissolved), PlatoonDissolved(reason), storeWorks)
  }

  function Approve(p: State, v: Address, now: int, storeWorks: bool): Outcome {
    var (q, error) := Joined(p, v, now);
    if error.Some? then Outcome(q, [], error) else Stored(q, MemberJoined(v), storeWorks)
  }

  /** The entry for the change of leader when the leader leaves. */
  function ChangeOfLeader(p: State, v: Address): seq<Entry>
    requires v in Ids(p.members)
  {
    if p.leaderId == v && Left(p, v).Some? then [LeaderChanged(v, Left(p, v).value.leaderId)] else []
  }

  /** A platoon without members is dissolved; its last departure is not recorded. */
  function AfterDeparture(p: State, v: Address, storeWorks: bool): Outcome {
    if p.members == [] then Dissolve(p, "last_member_left", storeWorks) else Stored(p, MemberLeft(v), storeWorks)
  }

  /** The change of leader is recorded before the write, the departure after it. */
  function Leave(p: State, v: Address, storeWorks: bool): Outcome {
    if v !in Ids(p.members) then Outcome(p, [], Some(NotAMember))
    else if Left(p, v).None? then Outcome(p, [], Some(NoReplacement))
    else
      var o := AfterDeparture(Left(p, v).value, v, storeWorks);
      o.(entries := ChangeOfLeader(p, v) + o.entries)
  }

  function Appoint(p: State, v: Address, caller: Address, storeWorks: bool): Outcome {
    if p.leaderId != caller then Outcome(p, [], Some(OnlyLeader))
    else if v !in Ids(p.members) then Outcome(p, [], Some(NotAMember))
    else if v in p.validators then Outcome(p, [], Some(AlreadyValidator))
    else Stored(WithValidator(p, v), ValidatorAdded(v), storeWorks)
  }

  function Demote(p: State, v: Address, caller: Address, storeWorks: bool): Outcome {
    if p.leaderId != caller then Outcome(p, [], Some(OnlyLeader))
    else if |p.validators| <= 1 then Outcome(p, [], Some(OnlyOneValidator))
    else if v !in p.validators then Outcome(p, [], Some(ValidatorNotFound))
    else Stored(WithoutValidator(p, v), ValidatorRemoved(v), storeWorks)
  }

  /** The step of the timeout checker for one platoon. */
  function CheckTimeout(p: State, now: int, storeWorks: bool): Outcome {
    if IsActive(p) && TimedOut(p, now) then Dissolve(p, "timeout", storeWorks) else Outcome(p, [], None)
  }

  /** The checks of a new join request, in the source's order. */
  function CheckRequest(p: State, v: Address): Option<Error> {
    if !IsActive(p) && p.status != Forming then Some(NotAccepting)
    else if v in Ids(p.members) then Some(AlreadyMember)
    else if v in p.blacklist then Some(Blacklisted)
    else if |p.members| >= p.params.maxVehicles then Some(Full)
    else None
  }

  // ------------------------------------------------------------------ service operations

  /** An operation on one existing platoon. */
  datatype Change =
    | Leaving(v: Address)
    | Dissolving(reason: string)
    | Appointing(v: Address, caller: Address)
    | Demoting(v: Address, caller: Address)
    | TimeoutCheck
    | Banning(v: Address)

  function ChangeOutcome(p: State, change: Change, now: int, storeWorks: bool): Outcome {
    match change
    case Leaving(v) => Leave(p, v, storeWorks)
    case Dissolving(reason) => Dissolve(p, reason, storeWorks)
    case Appointing(v, caller) => Appoint(p, v, caller, storeWorks)
    case Demoting(v, caller) => Demote(p, v, caller, storeWorks)
    case TimeoutCheck => CheckTimeout(p, now, storeWorks)
    case Banning(v) =>
      Outcome(p.(blacklist := if v in p.blacklist then p.blacklist else p.blacklist + [v]), [], None)
  }

  /** Puts an outcome into the service. */
  function Settle(s: Registry, id: string, o: Outcome): Registry {
    s.(platoons := s.platoons[id := o.platoon], history := Appended(s.history, id, o.entries))
  }

  /** A new platoon is kept even when the write fails; an identifier drawn twice replaces the platoon. */
  function Create(s: Registry, id: string, leader: Address, params: Params, now: int, storeWorks: bool)
      : (Registry, Option<Error>)
  {
    match Created(leader, params, now)
    case None => (s, Some(InvalidParams))
    case Some(p) =>
      var o := Stored(p, PlatoonCreated(leader), storeWorks);
      (Settle(s, id, o), o.error)
  }

  function Submit(s: Registry, requestId: string, id: string, v: Address): (Registry, Option<Error>) {
    if id !in s.platoons then (s, Some(PlatoonNotFound))
    else if CheckRequest(s.platoons[id], v).Some? then (s, CheckRequest(s.platoons[id], v))
    else (s.(requests := s.requests[requestId := JoinRequest(id, v, Pending)]), None)
  }

  /** The checks before a request is decided. */
  function CheckProcess(s: Registry, requestId: string, caller: Address): Option<Error> {
    if requestId !in s.requests then Some(RequestNotFound)
    else if s.requests[requestId].status != Pending then Some(AlreadyProcessed)
    else if s.requests[requestId].platoonId !in s.platoons then Some(PlatoonNotFound)
    else if s.platoons[s.requests[requestId].platoonId].leaderId != caller then Some(OnlyLeader)
    else None
  }

  /** A request approved while the platoon is full or the vehicle banned is still marked approved. */
  function Process(s: Registry, requestId: string, approved: bool, caller: Address, now: int, storeWorks: bool)
      : (Registry, Option<Error>)
  {
    if CheckProcess(s, requestId, caller).Some? then (s, CheckProcess(s, requestId, caller))
    else
      var r := s.requests[requestId];
      var t := s.(requests := s.requests[requestId := r.(status := if approved then Approved else Rejected)]);
      if approved then
        var o := Approve(s.platoons[r.platoonId], r.vehicleId, now, storeWorks);
        (Settle(t, r.platoonId, o), o.error)
      else (t, None)
  }

  function OnPlatoon(s: Registry, id: string, change: Change, now: int, storeWorks: bool): (Registry, Option<Error>) {
    if id !in s.platoons then (s, Some(PlatoonNotFound))
    else
      var o := ChangeOutcome(s.platoons[id], change, now, storeWorks);
      (Settle(s, id, o), o.error)
  }

  datatype Op =
    | CreatePlatoon(id: string, leader: Address, params: Params, now: int, storeWorks: bool)
    | SubmitJoinRequest(requestId: string, id: string, v: Address)
    | ProcessJoinRequest(requestId: string, approved: bool, caller: Address, now: int, storeWorks: bool)
    | ChangePlatoon(id: string, change: Change, now: int, storeWorks: bool)

  function Apply(s: Registry, op: Op): (Registry, Option<Error>) {
    match op
    case CreatePlatoon(id, leader, params, now, works) => Create(s, id, leader, params, now, works)
    case SubmitJoinRequest(requestId, id, v) => Submit(s, requestId, id, v)
    case ProcessJoinRequest(requestId, approved, caller, now, works) =>
      Process(s, requestId, approved, caller, now, works)
    case ChangePlatoon(id, change, now, works) => OnPlatoon(s, id, change, now, works)
  }

  function Run(s: Registry, ops: seq<Op>): Registry {
    if ops == [] then s else Apply(Run(s, ops[..|ops| - 1]), ops[|ops| - 1]).0
  }

  // ------------------------------------------------------------------ invariants of a platoon

  /** The only order in which a platoon changes its status. */
  function Rank(status: Status): nat {
    match status
    case Inactive => 0
    case Forming => 0
    case Active => 1
    case UnderStaffed => 2
    case Dissolving => 2
    case Dissolved => 3
  }

  /** What a history is to tell of a platoon. */
  datatype Crew = Crew(members: set<Address>, validators: set<Address>, leader: Address, status: Status)

  ghost function CrewOf(p: State): Crew {
    Crew(Elems(Ids(p.members)), Elems(p.validators), p.leaderId, p.status)
  }

  /** A vehicle joins, as a validator while there are fewer than seven; four validators activate a forming platoon. */
  function CrewWith(c: Crew, v: Address): Crew {
    var validators := c.validators + if |c.validators| < 7 then {v} else {};
    Crew(c.members + {v}, validators, c.leader, if c.status == Forming && |validators| >= 4 then Active else c.status)
  }

  /** A vehicle leaves; three members are too few for an active platoon. */
  function CrewWithout(c: Crew, v: Address): Crew {
    Crew(c.members - {v}, c.validators - {v}, c.leader,
         if c.status == Active && |c.members - {v}| <= 3 then UnderStaffed else c.status)
  }

  function ReplayEntry(crew: Option<Crew>, e: Entry): Option<Crew> {
    if e.PlatoonCreated? then Some(Crew({e.leader}, {e.leader}, e.leader, Forming))
    else if crew.None? then None
    else
      var c := crew.value;
      match e
      case MemberJoined(v) => Some(CrewWith(c, v))
      case MemberLeft(v) => Some(CrewWithout(c, v))
      case LeaderChanged(_, v) => Some(c.(leader := v))
      case ValidatorAdded(v) => Some(c.(validators := c.validators + {v}))
      case ValidatorRemoved(v) => Some(c.(validators := c.validators - {v}))
      case PlatoonDissolved(_) => Some(c.(status := Dissolved))
  }

  /** The crew that a history tells, from a crew on. */
  function Replay(crew: Option<Crew>, history: seq<Entry>): Option<Crew> {
    if history == [] then crew else ReplayEntry(Replay(crew, history[..|history| - 1]), history[|history| - 1])
  }

  lemma {:induction false} ReplayConcat(crew: Option<Crew>, p: seq<Entry>, q: seq<Entry>)
    ensures Replay(crew, p + q) == Replay(Replay(crew, p), q)
  {
    if q == [] {
      assert p + q == p;
    } else {
      assert (p + q)[..|p + q| - 1] == p + q[..|q| - 1];
      ReplayConcat(crew, p, q[..|q| - 1]);
    }
  }

  lemma ReplayFew(crew: Option<Crew>, d: Entry, e: Entry)
    ensures Replay(crew, []) == crew
    ensures Replay(crew, [d]) == ReplayEntry(crew, d)
    ensures Replay(crew, [d, e]) == ReplayEntry(ReplayEntry(crew, d), e)
  {
    assert [d][..0] == [] && [d, e][..1] == [d];
  }

  /** The entries of an outcome tell the change of crew. */
  ghost predicate Tells(p: State, o: Outcome) {
    Replay(Some(CrewOf(p)), o.entries) == Some(CrewOf(o.platoon))
  }

  /** The vehicle would be added if a request for it were approved now. */
  predicate CanJoin(p: State, v: Address) {
    v !in Ids(p.members) && v !in p.blacklist && |p.members| < p.params.maxVehicles
  }

  /** The vehicle would be removed if it left now: a leader needs a second validator. */
  predicate CanLeave(p: State, v: Address) {
    v in Ids(p.members) && (p.leaderId != v || |p.validators| > 1)
  }

  /** The operation changes members, validators, leader or status; only the leader changes validators. */
  predicate Changes(p: State, change: Change, now: int) {
    match change
    case Leaving(v) => CanLeave(p, v)
    case Dissolving(_) => p.status != Dissolved
    case Appointing(v, caller) => caller == p.leaderId && v in Ids(p.members) && v !in p.validators
    case Demoting(v, caller) => caller == p.leaderId && v in p.validators && |p.validators| > 1
    case TimeoutCheck => (p.status == Active || p.status == UnderStaffed) && now - p.lastActivityAt > 300
    case Banning(_) => false
  }

  /**
   What one operation does to a platoon: it stays good, its status does not go back, it is
   left alone unless the operation changes something, and the history tells the change
   exactly when the write works.
   */
  ghost predicate Sound(p: State, o: Outcome, changes: bool, storeWorks: bool) {
    && Good(o.platoon)
    && Rank(o.platoon.status) >= Rank(p.status)
    && (changes <==> CrewOf(o.platoon) != CrewOf(p))
    && (o.error == Some(StoreFailed) <==> changes && !storeWorks)
    && (Tells(p, o) <==> storeWorks || !changes)
  }

  lemma UnchangedIsSound(p: State, error: Option<Error>, storeWorks: bool)
    requires Good(p) && error != Some(StoreFailed)
    ensures Sound(p, Outcome(p, [], error), false, storeWorks)
  {
    hide Good;
  }

  /** A change that its entry tells. */
  lemma RecordedIsSound(p: State, q: State, e: Entry, storeWorks: bool)
    requires Good(q) && Rank(q.status) >= Rank(p.status)
    requires CrewOf(p) != CrewOf(q) && ReplayEntry(Some(CrewOf(p)), e) == Some(CrewOf(q))
    ensures Sound(p, Stored(q, e, storeWorks), true, storeWorks)
  {
    hide Good, CrewOf;
    ReplayFew(Some(CrewOf(p)), e, e);
  }

  lemma CrewCounts(p: State)
    requires Good(p)
    ensures |CrewOf(p).members| == |p.members| && |CrewOf(p).validators| == |p.validators|
  {
    DistinctCount(Ids(p.members));
    DistinctCount(p.validators);
  }

  lemma DissolveIsSound(p: State, reason: string, storeWorks: bool)
    requires Good(p)
    ensures Sound(p, Dissolve(p, reason, storeWorks), p.status != Dissolved, storeWorks)
    ensures Dissolve(p, reason, storeWorks).platoon.status == Dissolved
  {
    hide Seated, Roles, Ids, RolesGood;
    if p.status != Dissolved {
      RecordedIsSound(p, p.(status := Dissolved), PlatoonDissolved(reason), storeWorks);
    } else {
      UnchangedIsSound(p, Some(AlreadyDissolved), storeWorks);
    }
  }

  lemma ElemsPlusOne(s: seq<Address>, v: Address)
    ensures Elems(s + [v]) == Elems(s) + {v}
  {
  }

  /** What an approval makes of the crew. */
  lemma JoinedCrew(p: State, v: Address, now: int)
    requires Good(p) && Joined(p, v, now).1.None?
    ensures Good(Joined(p, v, now).0) && CrewOf(Joined(p, v, now).0) == CrewWith(CrewOf(p), v)
    ensures v !in CrewOf(p).members
  {
    hide Good, Joined, Ids;
    JoinedKeepsGood(p, v, now);
    CrewCounts(p);
    CrewCounts(Joined(p, v, now).0);
    ElemsPlusOne(Ids(p.members), v);
    CanJoinIsExact(p, v, now);
  }

  lemma CanJoinIsExact(p: State, v: Address, now: int)
    ensures Joined(p, v, now).1.None? <==> CanJoin(p, v)
    ensures Joined(p, v, now).1.Some? ==> Joined(p, v, now).0 == p
    ensures Joined(p, v, now).1 != Some(StoreFailed)
  {
  }

  /** An approval is told by the history exactly when the write works or the vehicle cannot join. */
  lemma ApproveIsSound(p: State, v: Address, now: int, storeWorks: bool)
    requires Good(p)
    ensures Sound(p, Approve(p, v, now, storeWorks), CanJoin(p, v), storeWorks)
  {
    hide Good, Joined, Ids, CanJoin;
    CanJoinIsExact(p, v, now);
    if Joined(p, v, now).1.Some? {
      UnchangedIsSound(p, Joined(p, v, now).1, storeWorks);
    } else {
      JoinedCrew(p, v, now);
      RecordedIsSound(p, Joined(p, v, now).0, MemberJoined(v), storeWorks);
    }
  }

  lemma CanLeaveIsExact(p: State, v: Address)
    requires Good(p) && v in Ids(p.members)
    ensures Left(p, v).Some? <==> CanLeave(p, v)
  {
    if |p.validators| > 1 { SuccessorIsFirst(p.validators, p.leaderId); }
    hide Ids, Seated, SetRole, WithoutMember, RemoveFirst;
  }

  /** The successor is the first validator that is not the leader. */
  lemma SuccessorIsFirst(validators: seq<Address>, leader: Address)
    requires Distinct(validators) && |validators| > 1
    ensures Successor(validators, leader) == Some(if validators[0] != leader then validators[0] else validators[1])
  {
    assert validators[1..][0] == validators[1] && validators[0] != validators[1];
  }

  /** What a departure makes of the crew; a leader hands over to the first other validator. */
  lemma LeftCrew(p: State, v: Address)
    requires Good(p) && v in Ids(p.members) && Left(p, v).Some?
    ensures var q := Left(p, v).value;
      && Good(q) && q.members != [] && v in CrewOf(p).members
      && q.leaderId == (if p.leaderId != v then p.leaderId
                        else if |p.validators| > 1 && p.validators[0] != v then p.validators[0]
                        else if |p.validators| > 1 then p.validators[1] else v)
      && CrewOf(q) == CrewWithout(CrewOf(p).(leader := q.leaderId), v)
  {
    hide Left, Ids, Successor, Seated, RolesGood, StatusGood;
    LeftKeepsGood(p, v);
    CanLeaveIsExact(p, v);
    if |p.validators| > 1 { SuccessorIsFirst(p.validators, v); }
    assert v in Elems(Ids(p.members));
    CrewCounts(p);
    CrewCounts(Left(p, v).value);
    hide Good, Distinct, Elems;
  }

  /** The entries of a departure tell it exactly when the last one is written. */
  lemma DepartureIsTold(p: State, q: State, v: Address, storeWorks: bool)
    requires v in CrewOf(p).members && CrewOf(q) == CrewWithout(CrewOf(p).(leader := q.leaderId), v)
    requires p.leaderId != v ==> q.leaderId == p.leaderId
    ensures var change := if p.leaderId == v then [LeaderChanged(v, q.leaderId)] else [];
      var o := Stored(q, MemberLeft(v), storeWorks);
      Tells(p, o.(entries := change + o.entries)) <==> storeWorks
  {
    var change, c := LeaderChanged(v, q.leaderId), CrewOf(p);
    assert c.leader == p.leaderId && c.(leader := p.leaderId) == c;
    hide CrewOf, Replay, CrewWithout;
    CrewWithoutDrops(c.(leader := q.leaderId), v);
    ReplayDeparture(c, q.leaderId, v);
    assert [change] + [MemberLeft(v)] == [change, MemberLeft(v)] && [change] + [] == [change];
    assert [] + [MemberLeft(v)] == [MemberLeft(v)];
  }

  lemma ReplayDeparture(c: Crew, leader: Address, v: Address)
    ensures Replay(Some(c), []) == Some(c)
    ensures Replay(Some(c), [LeaderChanged(v, leader)]) == Some(c.(leader := leader))
    ensures Replay(Some(c), [MemberLeft(v)]) == Some(CrewWithout(c, v))
    ensures Replay(Some(c), [LeaderChanged(v, leader), MemberLeft(v)]) == Some(CrewWithout(c.(leader := leader), v))
  {
    ReplayFew(Some(c), LeaderChanged(v, leader), MemberLeft(v));
    ReplayFew(Some(c), MemberLeft(v), MemberLeft(v));
    hide Replay, CrewWithout;
  }

  lemma CrewWithoutDrops(c: Crew, v: Address)
    ensures CrewWithout(c, v).members == c.members - {v}
  {
  }

  /**
   A departure never empties the platoon, so the branch that dissolves it is never taken;
   it is told by the history exactly when the write works or the vehicle cannot leave.
   */
  lemma LeaveIsSound(p: State, v: Address, storeWorks: bool)
    requires Good(p)
    ensures Sound(p, Leave(p, v, storeWorks), CanLeave(p, v), storeWorks)
    ensures Leave(p, v, storeWorks).platoon.members != []
  {
    hide Good, Left, Ids, Replay, Tells, CanLeave;
    if v !in Ids(p.members) || Left(p, v).None? {
      GoodIsNotEmpty(p);
      UnchangedIsSound(p, Leave(p, v, storeWorks).error, storeWorks);
      if v in Ids(p.members) { CanLeaveIsExact(p, v); } else { Stranger(p, v); }
    } else {
      CanLeaveIsExact(p, v);
      LeftCrew(p, v);
      var q := Left(p, v).value;
      DepartureIsTold(p, q, v, storeWorks);
      assert v !in CrewOf(q).members && Rank(q.status) >= Rank(p.status);
    }
  }

  lemma Stranger(p: State, v: Address)
    requires v !in Ids(p.members)
    ensures !CanLeave(p, v)
  {
  }

  lemma GoodIsNotEmpty(p: State)
    requires Good(p)
    ensures p.members != []
  {
    LeaderIsMember(p);
  }

  lemma AppointIsSound(p: State, v: Address, caller: Address, now: int, storeWorks: bool)
    requires Good(p)
    ensures Sound(p, Appoint(p, v, caller, storeWorks), Changes(p, Appointing(v, caller), now), storeWorks)
  {
    hide Good, Ids, Replay, SetRole;
    if Changes(p, Appointing(v, caller), now) {
      AppointedKeepsGood(p, v);
      ElemsIn(p.validators);
      hide Elems;
      RecordedIsSound(p, WithValidator(p, v), ValidatorAdded(v), storeWorks);
    } else {
      UnchangedIsSound(p, Appoint(p, v, caller, storeWorks).error, storeWorks);
    }
  }

  lemma DemoteIsSound(p: State, v: Address, caller: Address, now: int, storeWorks: bool)
    requires Good(p)
    ensures Sound(p, Demote(p, v, caller, storeWorks), Changes(p, Demoting(v, caller), now), storeWorks)
  {
    hide Good, Ids, Replay, SetRole, RemoveFirst;
    if Changes(p, Demoting(v, caller), now) {
      DemotedKeepsGood(p, v);
      ElemsIn(p.validators);
      hide Elems;
      RecordedIsSound(p, WithoutValidator(p, v), ValidatorRemoved(v), storeWorks);
    } else {
      UnchangedIsSound(p, Demote(p, v, caller, storeWorks).error, storeWorks);
    }
  }

  /** Every operation on a platoon is sound. */
  lemma ChangeIsSound(p: State, change: Change, now: int, storeWorks: bool)
    requires Good(p)
    ensures Sound(p, ChangeOutcome(p, change, now, storeWorks), Changes(p, change, now), storeWorks)
  {
    hide Good, Sound, Leave, Dissolve, Appoint, Demote, Ids;
    match change
    case Leaving(v) => LeaveIsSound(p, v, storeWorks);
    case Dissolving(reason) => DissolveIsSound(p, reason, storeWorks);
    case Appointing(v, caller) => AppointIsSound(p, v, caller, now, storeWorks);
    case Demoting(v, caller) => DemoteIsSound(p, v, caller, now, storeWorks);
    case TimeoutCheck =>
      if IsActive(p) && TimedOut(p, now) {
        DissolveIsSound(p, "timeout", storeWorks);
      } else {
        UnchangedIsSound(p, None, storeWorks);
      }
    case Banning(v) => BanIsSound(p, v, now, storeWorks);
  }

  lemma BanIsSound(p: State, v: Address, now: int, storeWorks: bool)
    requires Good(p)
    ensures Sound(p, ChangeOutcome(p, Banning(v), now, storeWorks), false, storeWorks)
  {
    hide Seated, Roles, Ids, RolesGood;
  }

  lemma CreateIsSound(leader: Address, params: Params, now: int)
    requires ValidParams(params)
    ensures Created(leader, params, now).Some? && Good(Created(leader, params, now).value)
    ensures CrewOf(Created(leader, params, now).value) == Crew({leader}, {leader}, leader, Forming)
  {
    CreatedIsGood(leader, params, now);
    var p := Created(leader, params, now).value;
    assert Ids(p.members) == [leader] && Elems([leader]) == {leader};
    hide Good, Ids;
  }

  // ------------------------------------------------------------------ runs of the service

  ghost predicate AllGood(s: Registry) {
    forall id :: id in s.platoons ==> Good(s.platoons[id])
  }

  /** The history of a platoon tells its crew, whatever was recorded before it was created. */
  ghost predicate Told(s: Registry, id: string) {
    id in s.platoons && Replay(None, HistoryOf(s, id)) == Some(CrewOf(s.platoons[id]))
  }

  /** The caller may decide the request: it is pending, and the caller leads the platoon it is for. */
  predicate Decides(s: Registry, requestId: string, caller: Address) {
    && requestId in s.requests && s.requests[requestId].status == Pending
    && s.requests[requestId].platoonId in s.platoons
    && s.platoons[s.requests[requestId].platoonId].leaderId == caller
  }

  /** The platoon an operation works on, if it gets that far. */
  function Target(s: Registry, op: Op): Option<string> {
    match op
    case CreatePlatoon(id, _, params, _, _) => if ValidParams(params) then Some(id) else None
    case SubmitJoinRequest(_, _, _) => None
    case ProcessJoinRequest(requestId, approved, caller, _, _) =>
      if approved && Decides(s, requestId, caller) then Some(s.requests[requestId].platoonId) else None
    case ChangePlatoon(id, _, _, _) => if id in s.platoons then Some(id) else None
  }

  /** The operation changes its target's members, validators, leader or status. */
  predicate ChangesCrew(s: Registry, op: Op) {
    match op
    case CreatePlatoon(_, _, _, _, _) => true
    case SubmitJoinRequest(_, _, _) => false
    case ProcessJoinRequest(requestId, _, _, _, _) =>
      Target(s, op).Some? && CanJoin(s.platoons[Target(s, op).value], s.requests[requestId].vehicleId)
    case ChangePlatoon(id, change, now, _) => id in s.platoons && Changes(s.platoons[id], change, now)
  }

  function Works(op: Op): bool {
    match op
    case CreatePlatoon(_, _, _, _, works) => works
    case SubmitJoinRequest(_, _, _) => true
    case ProcessJoinRequest(_, _, _, _, works) => works
    case ChangePlatoon(_, _, _, works) => works
  }

  function OutcomeOf(s: Registry, op: Op): Option<Outcome> {
    match op
    case CreatePlatoon(id, leader, params, now, works) =>
      if ValidParams(params) then
        Some(Stored(Created(leader, params, now).value, PlatoonCreated(leader), works))
      else None
    case SubmitJoinRequest(_, _, _) => None
    case ProcessJoinRequest(requestId, approved, caller, now, works) =>
      if Target(s, op).None? then None
      else Some(Approve(s.platoons[Target(s, op).value], s.requests[requestId].vehicleId, now, works))
    case ChangePlatoon(id, change, now, works) =>
      if id in s.platoons then Some(ChangeOutcome(s.platoons[id], change, now, works)) else None
  }

  lemma CreatedIfValid(leader: Address, params: Params, now: int)
    ensures Created(leader, params, now).Some? <==> ValidParams(params)
  {
  }

  /** An operation changes at most its target, by the outcome, and appends the outcome's entries to its history. */
  lemma ApplyEffect(s: Registry, op: Op, id: string)
    ensures var t := Apply(s, op).0;
      if Target(s, op) == Some(id) then
        && OutcomeOf(s, op).Some?
        && id in t.platoons && t.platoons[id] == OutcomeOf(s, op).value.platoon
        && HistoryOf(t, id) == HistoryOf(s, id) + OutcomeOf(s, op).value.entries
      else
        && (id in t.platoons <==> id in s.platoons)
        && (id in s.platoons ==> t.platoons[id] == s.platoons[id])
        && HistoryOf(t, id) == HistoryOf(s, id)
  {
    hide Approve, ChangeOutcome, Created, CheckRequest, ValidParams;
    if op.CreatePlatoon? { CreatedIfValid(op.leader, op.params, op.now); }
    if OutcomeOf(s, op).Some? {
      var o := OutcomeOf(s, op).value;
      assert HistoryOf(s, id) + [] == HistoryOf(s, id);
    }
  }

  /** The outcome of an operation on an existing platoon is sound. */
  lemma OutcomeIsSound(s: Registry, op: Op, id: string)
    requires AllGood(s) && Target(s, op) == Some(id) && !op.CreatePlatoon?
    ensures OutcomeOf(s, op).Some?
    ensures Sound(s.platoons[id], OutcomeOf(s, op).value, ChangesCrew(s, op), Works(op))
  {
    hide Good, Sound, Approve, ChangeOutcome, CanJoin, Changes;
    match op
    case ProcessJoinRequest(requestId, approved, caller, now, works) =>
      ApproveIsSound(s.platoons[id], s.requests[requestId].vehicleId, now, works);
    case ChangePlatoon(_, change, now, works) =>
      ChangeIsSound(s.platoons[id], change, now, works);
  }

  /** Every operation keeps every platoon good. */
  lemma ApplyKeepsGood(s: Registry, op: Op)
    requires AllGood(s)
    ensures AllGood(Apply(s, op).0)
  {
    hide Good, Apply, Created, Approve, ChangeOutcome;
    forall id | id in Apply(s, op).0.platoons
      ensures Good(Apply(s, op).0.platoons[id])
    {
      ApplyEffect(s, op, id);
      if Target(s, op) == Some(id) {
        if op.CreatePlatoon? {
          CreateIsSound(op.leader, op.params, op.now);
        } else {
          OutcomeIsSound(s, op, id);
        }
      }
    }
  }

  /** Platoon structure: in every run every platoon is good at every moment. */
  lemma {:induction false} RunKeepsGood(ops: seq<Op>)
    ensures AllGood(Run(EMPTY, ops))
  {
    hide AllGood, Apply;
    if ops == [] {
      assert AllGood(EMPTY) by { NoPlatoons(); }
    } else {
      RunKeepsGood(ops[..|ops| - 1]);
      ApplyKeepsGood(Run(EMPTY, ops[..|ops| - 1]), ops[|ops| - 1]);
    }
  }

  lemma NoPlatoons()
    ensures AllGood(EMPTY)
  {
  }

  /** What a caller can read off a platoon after any run. */
  lemma StructureAfterRun(ops: seq<Op>, id: string, i: nat)
    requires id in Run(EMPTY, ops).platoons && i < |Run(EMPTY, ops).platoons[id].members|
    ensures var p := Run(EMPTY, ops).platoons[id];
      && Distinct(Ids(p.members)) && |p.members| <= p.params.maxVehicles <= 100
      && Distinct(p.validators) && (forall v :: v in p.validators ==> v in Ids(p.members))
      && p.leaderId in Ids(p.members)
      && p.members[i].position == i
      && (p.members[i].vehicleId in p.validators <==>
            p.members[i].role == RoleLeader || p.members[i].role == RoleValidator)
      && (p.members[i].role == RoleLeader ==> p.members[i].vehicleId == p.leaderId)
      && (p.status == Active ==> |p.members| >= 4)
  {
    RunKeepsGood(ops);
    hide Run, Ids;
    GoodMembers(Run(EMPTY, ops).platoons[id], i);
  }

  predicate Creates(op: Op, id: string) {
    op.CreatePlatoon? && op.id == id
  }

  lemma ApplyMovesForward(s: Registry, op: Op, id: string)
    requires AllGood(s) && id in s.platoons && !Creates(op, id)
    ensures id in Apply(s, op).0.platoons
    ensures Rank(Apply(s, op).0.platoons[id].status) >= Rank(s.platoons[id].status)
  {
    hide Good, Apply, Approve, ChangeOutcome, Tells, Created;
    ApplyEffect(s, op, id);
    if Target(s, op) == Some(id) { OutcomeIsSound(s, op, id); }
  }

  /** Unless its identifier is drawn again, a platoon's status only moves forward, and dissolved is final. */
  lemma {:induction false} StatusMovesForward(s: Registry, ops: seq<Op>, id: string)
    requires AllGood(s) && id in s.platoons
    requires forall i :: 0 <= i < |ops| ==> !Creates(ops[i], id)
    ensures AllGood(Run(s, ops)) && id in Run(s, ops).platoons
    ensures Rank(Run(s, ops).platoons[id].status) >= Rank(s.platoons[id].status)
    ensures s.platoons[id].status == Dissolved ==> Run(s, ops).platoons[id].status == Dissolved
  {
    hide AllGood, Apply;
    if ops != [] {
      var before := Run(s, ops[..|ops| - 1]);
      StatusMovesForward(s, ops[..|ops| - 1], id);
      ApplyKeepsGood(before, ops[|ops| - 1]);
      ApplyMovesForward(before, ops[|ops| - 1], id);
    }
  }

  /** Creating a platoon makes its history tell it exactly when the write works, if nothing was recorded before. */
  lemma CreationIsTold(s: Registry, op: Op, id: string)
    requires Target(s, op) == Some(id) && op.CreatePlatoon?
    ensures Works(op) ==> Told(Apply(s, op).0, id)
    ensures !Works(op) && HistoryOf(s, id) == [] ==> !Told(Apply(s, op).0, id)
  {
    hide Apply, Created, CrewOf;
    ApplyEffect(s, op, id);
    CreateIsSound(op.leader, op.params, op.now);
    var e := PlatoonCreated(op.leader);
    if Works(op) {
      ReplayConcat(None, HistoryOf(s, id), [e]);
      ReplayFew(Replay(None, HistoryOf(s, id)), e, e);
    } else {
      assert HistoryOf(s, id) + [] == HistoryOf(s, id);
    }
  }

  /**
   A told platoon stays told through an operation, failed or not, exactly when the
   operation works on another platoon, its write works, or it changes nothing.
   */
  lemma OperationIsTold(s: Registry, op: Op, id: string)
    requires AllGood(s) && Told(s, id) && !Creates(op, id)
    ensures id in Apply(s, op).0.platoons
    ensures Told(Apply(s, op).0, id) <==> Target(s, op) != Some(id) || Works(op) || !ChangesCrew(s, op)
  {
    hide Good, Apply, Approve, ChangeOutcome, CrewOf, ChangesCrew;
    ApplyEffect(s, op, id);
    if Target(s, op) == Some(id) {
      OutcomeIsSound(s, op, id);
      ReplayConcat(None, HistoryOf(s, id), OutcomeOf(s, op).value.entries);
    }
  }

  /**
   In every run whose writes work, the history of every platoon tells its members, its
   validators, its leader and its status, after operations that fail as well.
   */
  lemma {:induction false} HistoryTellsEveryPlatoon(ops: seq<Op>, id: string)
    requires forall i :: 0 <= i < |ops| ==> Works(ops[i])
    requires id in Run(EMPTY, ops).platoons
    ensures Told(Run(EMPTY, ops), id)
  {
    hide Told, Apply, AllGood;
    if ops != [] {
      var before, op := Run(EMPTY, ops[..|ops| - 1]), ops[|ops| - 1];
      RunKeepsGood(ops[..|ops| - 1]);
      ApplyEffect(before, op, id);
      if Creates(op, id) && Target(before, op) == Some(id) {
        CreationIsTold(before, op, id);
      } else {
        HistoryTellsEveryPlatoon(ops[..|ops| - 1], id);
        if Creates(op, id) { InvalidCreation(before, op); } else { OperationIsTold(before, op, id); }
      }
    }
  }

  lemma InvalidCreation(s: Registry, op: Op)
    requires op.CreatePlatoon? && Target(s, op).None?
    ensures Apply(s, op).0 == s
  {
  }

  // ------------------------------------------------------------------ who may do what

  /** A request may be made: the platoon is not dissolved, and the vehicle new, not banned and not one too many. */
  predicate MayRequest(p: State, v: Address) {
    (p.status == Forming || p.status == Active || p.status == UnderStaffed) && CanJoin(p, v)
  }

  /**
   What one operation does to a join request: it is made when the platoon takes requests of
   the vehicle, it is decided by the platoon's leader and only while it is pending, and
   nothing else touches it.
   */
  lemma RequestAfter(s: Registry, op: Op, requestId: string)
    ensures var before, after := s.requests, Apply(s, op).0.requests;
      if op.SubmitJoinRequest? && op.requestId == requestId &&
         op.id in s.platoons && MayRequest(s.platoons[op.id], op.v) then
        requestId in after && after[requestId] == JoinRequest(op.id, op.v, Pending)
      else if op.ProcessJoinRequest? && op.requestId == requestId && Decides(s, requestId, op.caller) then
        && requestId in after
        && after[requestId] == before[requestId].(status := if op.approved then Approved else Rejected)
      else
        (requestId in after <==> requestId in before) && (requestId in before ==> after[requestId] == before[requestId])
  {
    hide Approve, ChangeOutcome, Created, Ids;
  }

  /** Unless its identifier is drawn again, a decided request stays as it was decided. */
  lemma {:induction false} DecidedOnce(s: Registry, ops: seq<Op>, requestId: string)
    requires requestId in s.requests && s.requests[requestId].status != Pending
    requires forall i :: 0 <= i < |ops| ==> !(ops[i].SubmitJoinRequest? && ops[i].requestId == requestId)
    ensures requestId in Run(s, ops).requests && Run(s, ops).requests[requestId] == s.requests[requestId]
  {
    hide Apply;
    if ops != [] {
      DecidedOnce(s, ops[..|ops| - 1], requestId);
      RequestAfter(Run(s, ops[..|ops| - 1]), ops[|ops| - 1], requestId);
    }
  }

  /** Exactly what each operation on a platoon changes, if it changes anything. */
  lemma ChangeEffect(p: State, change: Change, now: int, storeWorks: bool)
    requires Good(p)
    ensures var q := ChangeOutcome(p, change, now, storeWorks).platoon;
      && q.params == p.params && q.lastActivityAt == p.lastActivityAt
      && (!change.Banning? ==> q.blacklist == p.blacklist)
      && (change.Banning? ==>
            q.blacklist == if change.v in p.blacklist then p.blacklist else p.blacklist + [change.v])
      && (!Changes(p, change, now) ==> CrewOf(q) == CrewOf(p))
      && (Changes(p, change, now) ==>
            CrewOf(q) == match change {
              case Leaving(v) => CrewWithout(CrewOf(p).(leader := NextLeader(p, v)), v)
              case Dissolving(_) => CrewOf(p).(status := Dissolved)
              case Appointing(v, _) => CrewOf(p).(validators := CrewOf(p).validators + {v})
              case Demoting(v, _) => CrewOf(p).(validators := CrewOf(p).validators - {v})
              case TimeoutCheck => CrewOf(p).(status := Dissolved)
              case Banning(_) => CrewOf(p)
            })
  {
    ChangeIsSound(p, change, now, storeWorks);
    RestStays(p, change, now, storeWorks);
    hide Good, Ids, Tells, Leave, SetRole, RemoveFirst, Rank;
    if Changes(p, change, now) {
      match change
      case Leaving(v) =>
        CanLeaveIsExact(p, v);
        LeftCrew(p, v);
        LeaveAccepted(p, v, storeWorks);
      case Dissolving(_) =>
      case Appointing(v, _) => AppointedKeepsGood(p, v);
      case Demoting(v, _) => DemotedKeepsGood(p, v);
      case TimeoutCheck =>
    }
  }

  /** What is recorded of a change whose write works, in order and with the names given. */
  lemma EntriesSay(p: State, change: Change, now: int)
    requires Good(p) && Changes(p, change, now)
    ensures ChangeOutcome(p, change, now, true).entries == match change {
      case Leaving(v) =>
        if p.leaderId == v then [LeaderChanged(v, NextLeader(p, v)), MemberLeft(v)] else [MemberLeft(v)]
      case Dissolving(reason) => [PlatoonDissolved(reason)]
      case Appointing(v, _) => [ValidatorAdded(v)]
      case Demoting(v, _) => [ValidatorRemoved(v)]
      case TimeoutCheck => [PlatoonDissolved("timeout")]
      case Banning(_) => []
    }
  {
    hide Good, Leave, Left, Ids, WithValidator, WithoutValidator;
    if change.Leaving? { DepartureEntries(p, change.v); }
  }

  lemma DepartureEntries(p: State, v: Address)
    requires Good(p) && CanLeave(p, v)
    ensures Leave(p, v, true).entries ==
      if p.leaderId == v then [LeaderChanged(v, NextLeader(p, v)), MemberLeft(v)] else [MemberLeft(v)]
  {
    hide Good, Leave, Left, Ids, CrewOf;
    CanLeaveIsExact(p, v);
    LeftCrew(p, v);
    LeaveAccepted(p, v, true);
    var change := LeaderChanged(v, NextLeader(p, v));
    assert [change] + [MemberLeft(v)] == [change, MemberLeft(v)];
    assert [] + [MemberLeft(v)] == [MemberLeft(v)];
  }

  /** What a refusal of a change says is so. */
  lemma RefusalsTellTheTruth(p: State, change: Change, now: int, storeWorks: bool, error: Error)
    requires Good(p) && ChangeOutcome(p, change, now, storeWorks).error == Some(error)
    ensures match error
      case NotAMember =>
        (change.Leaving? && change.v !in Ids(p.members)) || (change.Appointing? && change.v !in Ids(p.members))
      case NoReplacement => change.Leaving? && p.leaderId == change.v && |p.validators| <= 1
      case AlreadyDissolved => p.status == Dissolved
      case OnlyLeader =>
        (change.Appointing? && change.caller != p.leaderId) || (change.Demoting? && change.caller != p.leaderId)
      case AlreadyValidator => change.Appointing? && change.v in p.validators
      case OnlyOneValidator => change.Demoting? && |p.validators| <= 1
      case ValidatorNotFound => change.Demoting? && change.v !in p.validators
      case StoreFailed => Changes(p, change, now) && !storeWorks
      case _ => false
  {
    hide Good, Left, Ids, WithValidator, WithoutValidator, CrewOf, Tells, Leave, CrewWithout;
    ChangeIsSound(p, change, now, storeWorks);
    if change.Leaving? { DepartureRefusals(p, change.v, storeWorks); }
  }

  lemma DepartureRefusals(p: State, v: Address, storeWorks: bool)
    requires Good(p)
    ensures match Leave(p, v, storeWorks).error
      case None => true
      case Some(NotAMember) => v !in Ids(p.members)
      case Some(NoReplacement) => p.leaderId == v && |p.validators| <= 1
      case Some(StoreFailed) => true
      case _ => false
  {
    hide Good, Left, Ids, CrewOf, CrewWithout, Leave;
    LeaveRefused(p, v, storeWorks);
    if v in Ids(p.members) {
      CanLeaveIsExact(p, v);
      if Left(p, v).Some? {
        LeftCrew(p, v);
        LeaveAccepted(p, v, storeWorks);
      }
    }
  }

  /** What a refusal of a new request, or of a decision, says is so. */
  lemma RequestRefusalsTellTheTruth(s: Registry, op: Op, error: Error)
    requires AllGood(s) && (op.SubmitJoinRequest? || op.ProcessJoinRequest?) && Apply(s, op).1 == Some(error)
    ensures op.SubmitJoinRequest? ==> match error
      case PlatoonNotFound => op.id !in s.platoons
      case NotAccepting =>
        op.id in s.platoons && s.platoons[op.id].status !in {Forming, Active, UnderStaffed}
      case AlreadyMember => HasMember(s, op.id, op.v)
      case Blacklisted => op.id in s.platoons && op.v in s.platoons[op.id].blacklist
      case Full => op.id in s.platoons && |s.platoons[op.id].members| >= s.platoons[op.id].params.maxVehicles
      case _ => false
    ensures op.ProcessJoinRequest? ==> match error
      case RequestNotFound => op.requestId !in s.requests
      case AlreadyProcessed => op.requestId in s.requests && s.requests[op.requestId].status != Pending
      case PlatoonNotFound => op.requestId in s.requests && s.requests[op.requestId].platoonId !in s.platoons
      case OnlyLeader =>
        && op.requestId in s.requests && s.requests[op.requestId].platoonId in s.platoons
        && s.platoons[s.requests[op.requestId].platoonId].leaderId != op.caller
      case AlreadyMember => Decides(s, op.requestId, op.caller) && op.approved
      case Blacklisted => Decides(s, op.requestId, op.caller) && op.approved
      case Full => Decides(s, op.requestId, op.caller) && op.approved
      case StoreFailed => Decides(s, op.requestId, op.caller) && op.approved && !op.storeWorks
      case _ => false
  {
    hide Good, Ids, SetRole;
  }

  /** Who leads once the vehicle has left: the leader, or the first other validator in its place. */
  function NextLeader(p: State, v: Address): Address {
    if p.leaderId != v || |p.validators| <= 1 then p.leaderId
    else if p.validators[0] != v then p.validators[0] else p.validators[1]
  }

  lemma RestStays(p: State, change: Change, now: int, storeWorks: bool)
    ensures var q := ChangeOutcome(p, change, now, storeWorks).platoon;
      && q.params == p.params && q.lastActivityAt == p.lastActivityAt
      && (!change.Banning? ==> q.blacklist == p.blacklist)
  {
    hide Ids, SetRole, RemoveFirst, WithoutMember;
  }

  /** A creation gets to its write exactly with 4 to 100 vehicles, a speed from 0 and a distance from 5 on. */
  lemma CreationAfter(s: Registry, op: Op)
    requires op.CreatePlatoon?
    ensures var (t, error) := Apply(s, op);
      var fine := 4 <= op.params.maxVehicles <= 100 && op.params.targetSpeed >= 0.0 && op.params.safeDistance >= 5.0;
      && (error == Some(InvalidParams) <==> !fine)
      && (error.None? <==> fine && op.storeWorks)
      && (!fine ==> t == s)
      && (fine ==>
            && op.id in t.platoons
            && var p := t.platoons[op.id];
              && CrewOf(p) == Crew({op.leader}, {op.leader}, op.leader, Forming)
              && p.params == op.params && p.blacklist == [] && p.lastActivityAt == op.now)
  {
    CreatedIfValid(op.leader, op.params, op.now);
    if ValidParams(op.params) { CreateIsSound(op.leader, op.params, op.now); }
    hide CrewOf, SetRole, Ids;
  }

  /** A leader's approval of a pending request of a vehicle that can join adds exactly it; all else adds nobody. */
  lemma DecisionAfter(s: Registry, op: Op)
    requires AllGood(s) && op.ProcessJoinRequest?
    ensures var (t, error) := Apply(s, op);
      && t.platoons.Keys == s.platoons.Keys
      && (!Decides(s, op.requestId, op.caller) ==> t == s && error.Some?)
      && (Decides(s, op.requestId, op.caller) ==>
            && var id, v := s.requests[op.requestId].platoonId, s.requests[op.requestId].vehicleId;
              var p, q := s.platoons[id], t.platoons[id];
              var joins := op.approved && CanJoin(p, v);
              && CrewOf(q) == (if joins then CrewWith(CrewOf(p), v) else CrewOf(p))
              && q.params == p.params && q.blacklist == p.blacklist
              && q.lastActivityAt == (if joins then op.now else p.lastActivityAt)
              && (error.None? <==> !op.approved || (joins && op.storeWorks))
              && forall other :: other in s.platoons && other != id ==> t.platoons[other] == s.platoons[other])
  {
    hide Approve, CrewOf, CanJoin, Good, CrewWith;
    if Decides(s, op.requestId, op.caller) && op.approved {
      var r := s.requests[op.requestId];
      ApproveEffect(s.platoons[r.platoonId], r.vehicleId, op.now, op.storeWorks);
    }
  }

  /** Exactly what an approval changes. */
  lemma ApproveEffect(p: State, v: Address, now: int, storeWorks: bool)
    requires Good(p)
    ensures var o := Approve(p, v, now, storeWorks);
      && CrewOf(o.platoon) == (if CanJoin(p, v) then CrewWith(CrewOf(p), v) else CrewOf(p))
      && o.platoon.params == p.params && o.platoon.blacklist == p.blacklist
      && o.platoon.lastActivityAt == (if CanJoin(p, v) then now else p.lastActivityAt)
      && (o.error.None? <==> CanJoin(p, v) && storeWorks)
  {
    CanJoinIsExact(p, v, now);
    JoinedRest(p, v, now);
    hide Joined, CrewOf, CanJoin, Good;
    if CanJoin(p, v) { JoinedCrew(p, v, now); }
  }

  lemma JoinedRest(p: State, v: Address, now: int)
    ensures var q := Joined(p, v, now).0;
      && q.params == p.params && q.blacklist == p.blacklist
      && q.lastActivityAt == if Joined(p, v, now).1.None? then now else p.lastActivityAt
  {
    hide Ids, SetRole;
  }

  ghost predicate HasMember(s: Registry, id: string, v: Address) {
    id in s.platoons && v in Ids(s.platoons[id].members)
  }

  /**
   Only the leader admits: when an operation adds a member to an existing platoon, it is an
   approval, by the platoon's leader of that moment, of a pending request of that vehicle for
   that platoon.
   */
  lemma OnlyTheLeaderAdmits(s: Registry, op: Op, id: string, v: Address)
    requires AllGood(s) && id in s.platoons && !Creates(op, id)
    requires !HasMember(s, id, v) && HasMember(Apply(s, op).0, id, v)
    ensures op.ProcessJoinRequest? && op.approved && op.requestId in s.requests
    ensures s.requests[op.requestId] == JoinRequest(id, v, Pending)
    ensures s.platoons[id].leaderId == op.caller
  {
    hide Apply, Good, ChangeOutcome, Ids, OutcomeOf, Target, CrewOf;
    ApplyEffect(s, op, id);
    InCrew(s, id, v);
    InCrew(Apply(s, op).0, id, v);
    match op
    case ProcessJoinRequest(_, _, _, _, _) => DecisionAdds(s, op, id, v);
    case ChangePlatoon(other, change, now, works) => ChangeAddsNobody(s, op, id);
    case SubmitJoinRequest(_, _, _) => OthersStay(s, op, id);
    case CreatePlatoon(_, _, _, _, _) => OthersStay(s, op, id);
  }

  lemma InCrew(s: Registry, id: string, v: Address)
    requires id in s.platoons
    ensures HasMember(s, id, v) <==> v in CrewOf(s.platoons[id]).members
  {
    ElemsIn(Ids(s.platoons[id].members));
    hide Ids;
  }

  lemma DecisionAdds(s: Registry, op: Op, id: string, v: Address)
    requires AllGood(s) && op.ProcessJoinRequest? && id in s.platoons && id in Apply(s, op).0.platoons
    requires v !in CrewOf(s.platoons[id]).members && v in CrewOf(Apply(s, op).0.platoons[id]).members
    ensures op.approved && op.requestId in s.requests && s.requests[op.requestId] == JoinRequest(id, v, Pending)
    ensures s.platoons[id].leaderId == op.caller
  {
    hide Apply, AllGood, CrewOf, CanJoin, CrewWith;
    DecisionAfter(s, op);
    if Decides(s, op.requestId, op.caller) {
      CrewWithAdds(CrewOf(s.platoons[s.requests[op.requestId].platoonId]), s.requests[op.requestId].vehicleId);
    }
  }

  lemma CrewWithAdds(c: Crew, v: Address)
    ensures CrewWith(c, v).members == c.members + {v}
  {
  }

  lemma ChangeAddsNobody(s: Registry, op: Op, id: string)
    requires AllGood(s) && op.ChangePlatoon? && id in s.platoons
    ensures id in Apply(s, op).0.platoons
    ensures CrewOf(Apply(s, op).0.platoons[id]).members <= CrewOf(s.platoons[id]).members
  {
    hide Apply, Good, CrewOf, Changes, ChangeOutcome;
    ApplyEffect(s, op, id);
    if op.id == id { MembersOnlyLeave(s.platoons[id], op.change, op.now, op.storeWorks); }
  }

  lemma MembersOnlyLeave(p: State, change: Change, now: int, storeWorks: bool)
    requires Good(p)
    ensures CrewOf(ChangeOutcome(p, change, now, storeWorks).platoon).members <= CrewOf(p).members
  {
    hide Good, CrewOf, Changes, ChangeOutcome;
    ChangeEffect(p, change, now, storeWorks);
  }

  lemma OthersStay(s: Registry, op: Op, id: string)
    requires id in s.platoons && (op.SubmitJoinRequest? || (op.CreatePlatoon? && op.id != id))
    ensures id in Apply(s, op).0.platoons && Apply(s, op).0.platoons[id] == s.platoons[id]
  {
    ApplyEffect(s, op, id);
    hide Apply;
  }

  /** In every run, whenever an existing platoon gains a member, its leader approved a pending request of it. */
  lemma EveryMemberWasAdmitted(ops: seq<Op>, i: nat, id: string, v: Address)
    requires i < |ops| && id in Run(EMPTY, ops[..i]).platoons && !Creates(ops[i], id)
    requires !HasMember(Run(EMPTY, ops[..i]), id, v) && HasMember(Run(EMPTY, ops[..i + 1]), id, v)
    ensures ops[i].ProcessJoinRequest? && ops[i].approved
    ensures var s := Run(EMPTY, ops[..i]);
      && ops[i].requestId in s.requests && s.requests[ops[i].requestId] == JoinRequest(id, v, Pending)
      && s.platoons[id].leaderId == ops[i].caller
  {
    RunKeepsGood(ops[..i]);
    assert ops[..i + 1][..i] == ops[..i];
    hide Apply, AllGood, HasMember;
    OnlyTheLeaderAdmits(Run(EMPTY, ops[..i]), ops[i], id, v);
  }

  // ------------------------------------------------------------------ the service as an object

  class Service {
    var platoons: map<string, Platoon>
    var joinRequests: map<string, JoinRequest>
    var history: History

    /** Different identifiers have different platoon objects. */
    ghost predicate Valid()
      reads this
    {
      forall a, b :: a in platoons && b in platoons && a != b ==> platoons[a] != platoons[b]
    }

    ghost function Views(): map<string, State>
      reads this`platoons, platoons.Values
    {
      map id | id in platoons :: platoons[id].View()
    }

    ghost function View(): Registry
      reads this, platoons.Values
    {
      Registry(Views(), joinRequests, history)
    }

    constructor ()
      ensures Valid() && View() == EMPTY
    {
      platoons := map[];
      joinRequests := map[];
      history := map[];
    }

    method RecordHistory(id: string, entry: Entry)
      modifies this`history
      ensures history == Appended(old(history), id, [entry]) && Views() == old(Views())
    {
      history := history[id := (if id in history then history[id] else []) + [entry]];
    }

    method CreatePlatoon(id: string, leader: Address, params: Params, now: int, storeWorks: bool)
        returns (error: Option<Error>)
      requires Valid()
      modifies this
      ensures Valid() && fresh(platoons.Values - old(platoons.Values))
      ensures (View(), error) == Create(old(View()), id, leader, params, now, storeWorks)
    {
      hide ValidParams, Created, Appended;
      CreatedIfValid(leader, params, now);
      ghost var before := View();
      if !ValidParams(params) { return Some(InvalidParams); }
      var platoon := NewWithLeader(leader, params, now);
      platoons := platoons[id := platoon];
      assert Views() == before.platoons[id := platoon.View()];
      NothingAppended(before.history, id);
      if !storeWorks { return Some(StoreFailed); }
      RecordHistory(id, PlatoonCreated(leader));
      return None;
    }

    /** A new platoon with its leader as member and validator. */
    method NewWithLeader(leader: Address, params: Params, now: int) returns (platoon: Platoon)
      requires ValidParams(params)
      ensures fresh(platoon) && Some(platoon.View()) == Created(leader, params, now)
    {
      hide ValidParams, WithMember, WithValidator;
      NewPlatoonTakesItsLeader(leader, params, now);
      platoon := new Platoon(leader, params, now);
      var full := platoon.AddMember(leader, RoleLeader, now);
      var listed := platoon.AddValidator(leader);
      platoon.status := if |platoon.members| < 4 then Forming else Active;
    }

    method SubmitJoinRequest(requestId: string, id: string, v: Address) returns (error: Option<Error>)
      requires Valid()
      modifies this`joinRequests
      ensures (View(), error) == Submit(old(View()), requestId, id, v)
    {
      hide CheckRequest;
      if id !in platoons { return Some(PlatoonNotFound); }
      error := CheckJoin(platoons[id], v);
      if error.Some? { return; }
      joinRequests := joinRequests[requestId := JoinRequest(id, v, Pending)];
    }

    method CheckJoin(platoon: Platoon, v: Address) returns (error: Option<Error>)
      ensures error == CheckRequest(platoon.View(), v)
    {
      if platoon.status != Active && platoon.status != UnderStaffed && platoon.status != Forming {
        return Some(NotAccepting);
      }
      var at := platoon.GetMember(v);
      if at.Some? { return Some(AlreadyMember); }
      var banned := Contains(platoon.blacklist, v);
      if banned { return Some(Blacklisted); }
      if |platoon.members| >= platoon.params.maxVehicles { return Some(Full); }
      return None;
    }

    method ProcessJoinRequest(requestId: string, approved: bool, processor: Address, now: int, storeWorks: bool)
        returns (error: Option<Error>)
      requires Valid()
      modifies this, platoons.Values
      ensures Valid() && platoons == old(platoons)
      ensures (View(), error) == Process(old(View()), requestId, approved, processor, now, storeWorks)
    {
      hide Joined, Appended;
      ghost var before := View();
      if requestId !in joinRequests { return Some(RequestNotFound); }
      var request := joinRequests[requestId];
      if request.status != Pending { return Some(AlreadyProcessed); }
      var id := request.platoonId;
      if id !in platoons { return Some(PlatoonNotFound); }
      var platoon := platoons[id];
      if platoon.leaderId != processor { return Some(OnlyLeader); }
      joinRequests := joinRequests[requestId := request.(status := if approved then Approved else Rejected)];
      if !approved { return None; }
      error := Join(platoon, request.vehicleId, now);
      assert Views() == before.platoons[id := platoon.View()];
      NothingAppended(before.history, id);
      if error.Some? { return; }
      if !storeWorks { return Some(StoreFailed); }
      RecordHistory(id, MemberJoined(request.vehicleId));
      return None;
    }

    /** The part of an approval that works on the platoon. */
    method Join(platoon: Platoon, v: Address, now: int) returns (error: Option<Error>)
      modifies platoon
      ensures (platoon.View(), error) == Joined(old(platoon.View()), v, now)
    {
      hide WithMember, WithValidator;
      var role := if |platoon.validators| < 7 then RoleValidator else RoleFollower;
      error := platoon.AddMember(v, role, now);
      if error.Some? { return; }
      if role == RoleValidator {
        var listed := platoon.AddValidator(v);
      }
      if platoon.status == Forming && |platoon.validators| >= 4 {
        platoon.status := Active;
      }
    }

    method LeavePlatoon(id: string, v: Address, now: int, storeWorks: bool) returns (error: Option<Error>)
      requires Valid()
      modifies this`history, platoons.Values
      ensures (View(), error) == OnPlatoon(old(View()), id, Leaving(v), now, storeWorks)
    {
      hide Left, Leave, Dissolve, Appended, Ids, Settle;
      if id !in platoons { return Some(PlatoonNotFound); }
      ghost var before := View();
      ghost var p := before.platoons[id];
      var at := platoons[id].GetMember(v);
      NothingSettled(before, id);
      LeaveRefused(p, v, storeWorks);
      if at.None? { return Some(NotAMember); }
      var left := DepartAndRecord(id, v);
      if !left { return Some(NoReplacement); }
      LeaveAccepted(p, v, storeWorks);
      ghost var q := Left(p, v).value;
      SettledInParts(before, id, q, ChangeOfLeader(p, v), AfterDeparture(q, v, storeWorks));
      error := FinishLeaving(id, v, now, storeWorks);
    }

    /** The departure itself, with the entry for a change of leader. */
    method DepartAndRecord(id: string, v: Address) returns (left: bool)
      requires Valid() && id in platoons && v in Ids(platoons[id].members)
      modifies this`history, platoons.Values
      ensures var before, q := old(View()), Left(old(View()).platoons[id], v);
        left == q.Some? &&
        View() == if left then
          before.(platoons := before.platoons[id := q.value],
                  history := Appended(before.history, id, ChangeOfLeader(before.platoons[id], v)))
        else before
    {
      hide Left, Appended, Ids;
      ghost var before := View();
      var platoon := platoons[id];
      var isLeader := platoon.leaderId == v;
      left := Depart(platoon, v);
      NothingSettled(before, id);
      NothingAppended(before.history, id);
      assert Views() == before.platoons[id := platoon.View()];
      if left && isLeader {
        RecordHistory(id, LeaderChanged(v, platoon.leaderId));
      }
    }

    /** What follows the departure: the platoon is dissolved or stored. */
    method FinishLeaving(id: string, v: Address, now: int, storeWorks: bool) returns (error: Option<Error>)
      requires Valid() && id in platoons
      modifies this`history, platoons.Values
      ensures var p := old(View()).platoons[id];
        var o := AfterDeparture(p, v, storeWorks);
        View() == Settle(old(View()), id, o) && error == o.error
    {
      hide Dissolve, Appended;
      ghost var before := View();
      if |platoons[id].members| == 0 {
        error := DissolvePlatoon(id, "last_member_left", now, storeWorks);
        return;
      }
      NothingSettled(before, id);
      NothingAppended(before.history, id);
      assert before.platoons == before.platoons[id := before.platoons[id]];
      if !storeWorks { return Some(StoreFailed); }
      RecordHistory(id, MemberLeft(v));
      return None;
    }

    /** The part of a departure that works on the platoon; without a successor for a leaving leader nothing changes. */
    method Depart(platoon: Platoon, v: Address) returns (ok: bool)
      requires v in Ids(platoon.members)
      modifies platoon
      ensures ok <==> Left(old(platoon.View()), v).Some?
      ensures platoon.View() == if ok then Left(old(platoon.View()), v).value else old(platoon.View())
    {
      hide HandedOver, WithoutValidator, WithoutMember, Ids;
      ghost var p := platoon.View();
      IdsAfterHandover(p);
      if platoon.leaderId == v {
        ok := platoon.HandOver();
        if !ok { return; }
      }
      WithoutValidatorKeepsIds(platoon.View(), v);
      var listed := platoon.RemoveValidator(v);
      var missing := platoon.RemoveMember(v);
      if |platoon.members| <= 3 && platoon.status == Active {
        platoon.status := UnderStaffed;
      }
      return true;
    }

    method DissolvePlatoon(id: string, reason: string, now: int, storeWorks: bool) returns (error: Option<Error>)
      requires Valid()
      modifies this`history, platoons.Values
      ensures platoons == old(platoons)
      ensures (View(), error) == OnPlatoon(old(View()), id, Change.Dissolving(reason), now, storeWorks)
    {
      if id !in platoons { return Some(PlatoonNotFound); }
      ghost var before := View();
      var platoon := platoons[id];
      NothingSettled(before, id);
      if platoon.status == Dissolved { return Some(AlreadyDissolved); }
      platoon.status := Dissolved;
      assert Views() == before.platoons[id := platoon.View()];
      NothingAppended(before.history, id);
      if !storeWorks { return Some(StoreFailed); }
      RecordHistory(id, PlatoonDissolved(reason));
      return None;
    }

    method AppointValidator(id: string, v: Address, appointer: Address, now: int, storeWorks: bool)
        returns (error: Option<Error>)
      requires Valid()
      modifies this`history, platoons.Values
      ensures (View(), error) == OnPlatoon(old(View()), id, Appointing(v, appointer), now, storeWorks)
    {
      hide WithValidator, Appended, Ids;
      if id !in platoons { return Some(PlatoonNotFound); }
      ghost var before := View();
      var platoon := platoons[id];
      NothingSettled(before, id);
      if platoon.leaderId != appointer { return Some(OnlyLeader); }
      var at := platoon.GetMember(v);
      if at.None? { return Some(NotAMember); }
      var listed := Contains(platoon.validators, v);
      if listed { return Some(AlreadyValidator); }
      var again := platoon.AddValidator(v);
      assert Views() == before.platoons[id := platoon.View()];
      NothingAppended(before.history, id);
      if !storeWorks { return Some(StoreFailed); }
      RecordHistory(id, ValidatorAdded(v));
      return None;
    }

    method DemoteValidator(id: string, v: Address, demoter: Address, now: int, storeWorks: bool)
        returns (error: Option<Error>)
      requires Valid()
      modifies this`history, platoons.Values
      ensures (View(), error) == OnPlatoon(old(View()), id, Demoting(v, demoter), now, storeWorks)
    {
      hide WithoutValidator, Appended;
      if id !in platoons { return Some(PlatoonNotFound); }
      ghost var before := View();
      var platoon := platoons[id];
      NothingSettled(before, id);
      if platoon.leaderId != demoter { return Some(OnlyLeader); }
      if |platoon.validators| <= 1 { return Some(OnlyOneValidator); }
      var missing := platoon.RemoveValidator(v);
      WithoutValidatorKeepsIds(before.platoons[id], v);
      assert Views() == before.platoons[id := platoon.View()];
      if missing.Some? { return missing; }
      NothingAppended(before.history, id);
      if !storeWorks { return Some(StoreFailed); }
      RecordHistory(id, ValidatorRemoved(v));
      return None;
    }

    /** The step of the timeout checker for one platoon. */
    method CheckPlatoon(id: string, now: int, storeWorks: bool)
      requires Valid() && id in platoons
      modifies this`history, platoons.Values
      ensures View() == OnPlatoon(old(View()), id, TimeoutCheck, now, storeWorks).0
    {
      var platoon := platoons[id];
      ghost var before := View();
      NothingSettled(before, id);
      if (platoon.status == Active || platoon.status == UnderStaffed) && now - platoon.lastActivityAt > TIMEOUT_SECS {
        var error := DissolvePlatoon(id, "timeout", now, storeWorks);
      }
    }

    /**
     Checks every platoon, in any order; storeWorks says which writes work. Each platoon
     ends as its own check leaves it.
     */
    method CheckTimeouts(now: int, storeWorks: string -> bool)
      requires Valid()
      modifies this`history, platoons.Values
      ensures View().requests == old(View()).requests
      ensures forall id :: Checked(old(View()), View(), id, now, storeWorks)
    {
      hide CheckTimeout;
      ghost var before := View();
      var left := platoons.Keys;
      while left != {}
        invariant platoons == old(platoons) && left <= platoons.Keys
        invariant View().requests == before.requests
        invariant forall id ::
          if id in left then Untouched(before, View(), id) else Checked(before, View(), id, now, storeWorks)
        decreases left
      {
        var id :| id in left;
        ghost var s := View();
        left := left - {id};
        CheckPlatoon(id, now, storeWorks(id));
        forall other
          ensures if other in left then Untouched(before, View(), other)
                  else Checked(before, View(), other, now, storeWorks)
        {
          OneChecked(before, s, View(), id, other, now, storeWorks);
        }
      }
    }
  }

  ghost predicate Untouched(s: Registry, t: Registry, id: string) {
    && (id in t.platoons <==> id in s.platoons)
    && (id in s.platoons ==> t.platoons[id] == s.platoons[id])
    && HistoryOf(t, id) == HistoryOf(s, id)
  }

  /** The platoon, if there is one, went through one timeout check. */
  ghost predicate Checked(s: Registry, t: Registry, id: string, now: int, storeWorks: string -> bool) {
    if id !in s.platoons then Untouched(s, t, id)
    else
      var o := CheckTimeout(s.platoons[id], now, storeWorks(id));
      id in t.platoons && t.platoons[id] == o.platoon && HistoryOf(t, id) == HistoryOf(s, id) + o.entries
  }

  lemma OneChecked(
      s: Registry, t: Registry, u: Registry, id: string, other: string, now: int, storeWorks: string -> bool)
    requires id in t.platoons && Untouched(s, t, id) && u == OnPlatoon(t, id, TimeoutCheck, now, storeWorks(id)).0
    ensures other == id ==> Checked(s, u, id, now, storeWorks)
    ensures other != id && Untouched(s, t, other) ==> Untouched(s, u, other)
    ensures other != id && Checked(s, t, other, now, storeWorks) ==> Checked(s, u, other, now, storeWorks)
  {
    hide CheckTimeout;
    var o := CheckTimeout(t.platoons[id], now, storeWorks(id));
    assert HistoryOf(t, id) + [] == HistoryOf(t, id);
  }

  lemma NothingAppended(history: History, id: string)
    ensures Appended(history, id, []) == history
  {
  }

  lemma NothingSettled(s: Registry, id: string)
    requires id in s.platoons
    ensures forall error :: Settle(s, id, Outcome(s.platoons[id], [], error)) == s
    ensures s.platoons[id := s.platoons[id]] == s.platoons
  {
    assert s.platoons[id := s.platoons[id]] == s.platoons;
  }

  lemma WithoutValidatorKeepsIds(p: State, v: Address)
    ensures Ids(WithoutValidator(p, v).members) == Ids(p.members)
    ensures v !in p.validators ==> WithoutValidator(p, v) == p
  {
    IdsAfterSetRole(p.members, v, RoleFollower);
    hide Ids, RemoveFirst;
  }

  /** Entries appended one after the other. */
  lemma AppendedTwice(history: History, id: string, p: seq<Entry>, q: seq<Entry>)
    ensures Appended(Appended(history, id, p), id, q) == Appended(history, id, p + q)
  {
    if p == [] {
      assert p + q == q;
    } else if q == [] {
      assert p + q == p;
    } else {
      assert Entries(history, id) + p + q == Entries(history, id) + (p + q);
    }
  }

  /** Settling an outcome after its first entries are recorded. */
  lemma SettledInParts(s: Registry, id: string, q: State, change: seq<Entry>, o: Outcome)
    ensures var between := s.(platoons := s.platoons[id := q], history := Appended(s.history, id, change));
      Settle(between, id, o) == Settle(s, id, o.(entries := change + o.entries))
  {
    AppendedTwice(s.history, id, change, o.entries);
  }

  lemma LeaveAccepted(p: State, v: Address, storeWorks: bool)
    requires v in Ids(p.members) && Left(p, v).Some?
    ensures var o := AfterDeparture(Left(p, v).value, v, storeWorks);
      Leave(p, v, storeWorks) == o.(entries := ChangeOfLeader(p, v) + o.entries)
  {
  }

  lemma LeaveRefused(p: State, v: Address, storeWorks: bool)
    ensures v !in Ids(p.members) ==> Leave(p, v, storeWorks) == Outcome(p, [], Some(NotAMember))
    ensures v in Ids(p.members) && Left(p, v).None? ==> Leave(p, v, storeWorks) == Outcome(p, [], Some(NoReplacement))
  {
  }

  lemma NewPlatoonTakesItsLeader(leader: Address, params: Params, now: int)
    requires ValidParams(params)
    ensures var p := NewPlatoon(leader, params, now).value;
      var q := WithMember(p, leader, RoleLeader, now);
      q.1.None? && WithValidator(q.0, leader).status == Forming && |WithValidator(q.0, leader).members| == 1
  {
  }
}
