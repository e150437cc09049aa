/**
 A vehicle platoon: its members, validators and leader, and what each operation of the
 service does to one platoon.

 Times are parameters. Fields that no decision reads (names, join, creation, update and
 dissolution times, member status) are not modelled.
 */
module Platoons {
  import opened Common
  import opened Validators

  datatype Status = Inactive | Active | Forming | Dissolving | Dissolved | UnderStaffed

  datatype Role = RoleNone | RoleLeader | RoleValidator | RoleFollower

  datatype Params = Params(maxVehicles: int, targetSpeed: real, safeDistance: real)

  datatype Member = Member(vehicleId: Address, role: Role, position: int)

  datatype State = State(
    status: Status,
    params: Params,
    leaderId: Address,
    members: seq<Member>,
    validators: seq<Address>,
    blacklist: seq<Address>,
    lastActivityAt: int)

  datatype Error =
    | InvalidParams | PlatoonNotFound | NotAccepting | AlreadyMember | Blacklisted | Full
    | RequestNotFound | AlreadyProcessed | OnlyLeader | NotAMember | NoReplacement | AlreadyDissolved
    | AlreadyValidator | OnlyOneValidator | ValidatorNotFound | StoreFailed

  const TIMEOUT_SECS := 300

  predicate ValidParams(p: Params) {
    4 <= p.maxVehicles <= 100 && p.targetSpeed >= 0.0 && p.safeDistance >= 5.0
  }

  // ------------------------------------------------------------------ members

  function Ids(members: seq<Member>): (r: seq<Address>)
    ensures |r| == |members|
    ensures forall i :: 0 <= i < |members| ==> r[i] == members[i].vehicleId
  {
    seq(|members|, i requires 0 <= i < |members| => members[i].vehicleId)
  }

  function SetRole(members: seq<Member>, v: Address, role: Role): (r: seq<Member>)
    ensures |r| == |members|
  {
    if v in Ids(members) then
      var i := IndexOf(Ids(members), v);
      members[i := members[i].(role := role)]
    else members
  }

  /** Positions are reassigned to indexes. */
  function Renumbered(members: seq<Member>): (r: seq<Member>)
    ensures |r| == |members|
  {
    seq(|members|, k requires 0 <= k < |members| => members[k].(position := k))
  }

  /** The last member takes the place of the one that leaves. */
  function WithoutMember(members: seq<Member>, v: Address): seq<Member>
    requires v in Ids(members)
  {
    Renumbered(members[IndexOf(Ids(members), v) := members[|members| - 1]][..|members| - 1])
  }

  function RemoveFirst(s: seq<Address>, v: Address): seq<Address>
    requires v in s
  {
    s[..IndexOf(s, v)] + s[IndexOf(s, v) + 1..]
  }

  // ------------------------------------------------------------------ operations

  function NewPlatoon(leader: Address, params: Params, now: int): Option<State> {
    if ValidParams(params) then Some(State(Forming, params, leader, [], [], [], now)) else None
  }

  function WithMember(p: State, v: Address, role: Role, now: int): (State, Option<Error>) {
    if v in Ids(p.members) then (p, Some(AlreadyMember))
    else if v in p.blacklist then (p, Some(Blacklisted))
    else if |p.members| >= p.params.maxVehicles then (p, Some(Full))
    else (p.(members := p.members + [Member(v, role, |p.members|)], lastActivityAt := now), None)
  }

  function WithValidator(p: State, v: Address): State {
    if v in p.validators then p
    else p.(validators := p.validators + [v], members := SetRole(p.members, v, RoleValidator))
  }

  function WithoutValidator(p: State, v: Address): State {
    if v in p.validators then
      p.(validators := RemoveFirst(p.validators, v), members := SetRole(p.members, v, RoleFollower))
    else p
  }

  /** A new platoon has its leader as first member and only validator. */
  function Created(leader: Address, params: Params, now: int): Option<State> {
    match NewPlatoon(leader, params, now)
    case None => None
    case Some(p) => Some(WithValidator(WithMember(p, leader, RoleLeader, now).0, leader))
  }

  /** An approved request; only a forming platoon with four validators becomes active. */
  function Joined(p: State, v: Address, now: int): (State, Option<Error>) {
    var role := if |p.validators| < 7 then RoleValidator else RoleFollower;
    var (q, error) := WithMember(p, v, role, now);
    if error.Some? then (q, error)
    else
      var r := if role == RoleValidator then WithValidator(q, v) else q;
      (if r.status == Forming && |r.validators| >= 4 then r.(status := Active) else r, None)
  }

  /** The first validator other than the leader. */
  function Successor(validators: seq<Address>, leader: Address): (r: Option<Address>)
    ensures r.Some? ==> r.value in validators && r.value != leader
    ensures r.None? ==> forall v :: v in validators ==> v == leader
  {
    if validators == [] then None
    else
      assert validators == [validators[0]] + validators[1..];
      if validators[0] != leader then Some(validators[0])
    else Successor(validators[1..], leader)
  }

  function HandedOver(p: State): Option<State> {
    if |p.validators| > 1 && Successor(p.validators, p.leaderId).Some? then
      var v := Successor(p.validators, p.leaderId).value;
      Some(p.(leaderId := v, members := SetRole(SetRole(p.members, p.leaderId, RoleValidator), v, RoleLeader)))
    else None
  }

  /** A member leaves; None when the leader has no successor. */
  function Left(p: State, v: Address): Option<State>
    requires v in Ids(p.members)
  {
    var handed := if p.leaderId == v then HandedOver(p) else Some(p);
    if handed.None? then None
    else
      IdsAfterHandover(p);
      var q := WithoutValidator(handed.value, v);
      IdsAfterSetRole(handed.value.members, v, RoleFollower);
      var r := q.(members := WithoutMember(q.members, v));
      Some(if |r.members| <= 3 && r.status == Active then r.(status := UnderStaffed) else r)
  }

  predicate IsActive(p: State) {
    p.status == Active || p.status == UnderStaffed
  }

  predicate TimedOut(p: State, now: int) {
    now - p.lastActivityAt > TIMEOUT_SECS
  }

  // ------------------------------------------------------------------ roles

  /** The role of every member. */
  function Roles(members: seq<Member>): (r: map<Address, Role>)
    ensures forall v :: v in r <==> v in Ids(members)
  {
    map v | v in Ids(members) :: members[IndexOf(Ids(members), v)].role
  }

  lemma IndexOfDistinct<T>(s: seq<T>, i: nat)
    requires Distinct(s) && i < |s|
    ensures IndexOf(s, s[i]) == i
  {
  }

  /** No vehicle is a member twice, and every member's position is its index. */
  ghost predicate Seated(members: seq<Member>) {
    Distinct(Ids(members)) && forall i :: 0 <= i < |members| ==> members[i].position == i
  }

  /** The role listed for a member is the role of the member at its index. */
  lemma RoleAt(members: seq<Member>, i: nat)
    requires Seated(members) && i < |members|
    ensures Roles(members)[members[i].vehicleId] == members[i].role
  {
    IndexOfDistinct(Ids(members), i);
  }

  lemma IdsAfterSetRole(members: seq<Member>, v: Address, role: Role)
    ensures Ids(SetRole(members, v, role)) == Ids(members)
  {
  }

  lemma IdsAfterHandover(p: State)
    ensures HandedOver(p).Some? ==> Ids(HandedOver(p).value.members) == Ids(p.members)
  {
    if HandedOver(p).Some? {
      IdsAfterSetRole(p.members, p.leaderId, RoleValidator);
      IdsAfterSetRole(SetRole(p.members, p.leaderId, RoleValidator), HandedOver(p).value.leaderId, RoleLeader);
    }
  }

  /** Setting a role changes that role and nothing else. */
  lemma SetRoleEffect(members: seq<Member>, v: Address, role: Role)
    requires Seated(members) && v in Ids(members)
    ensures Seated(SetRole(members, v, role)) && Ids(SetRole(members, v, role)) == Ids(members)
    ensures Roles(SetRole(members, v, role)) == Roles(members)[v := role]
  {
    IdsAfterSetRole(members, v, role);
    hide IndexOf;
  }

  lemma AddMemberEffect(members: seq<Member>, v: Address, role: Role)
    requires Seated(members) && v !in Ids(members)
    ensures var after := members + [Member(v, role, |members|)];
      Seated(after) && Ids(after) == Ids(members) + [v] && v in Ids(after) && Roles(after) == Roles(members)[v := role]
  {
    hide Roles, IndexOf;
    var after := members + [Member(v, role, |members|)];
    assert Ids(after) == Ids(members) + [v];
    assert Ids(after)[|members|] == v;
    forall i | 0 <= i < |after|
      ensures Roles(members)[v := role][after[i].vehicleId] == after[i].role
    {
      if i < |members| { RoleAt(members, i); }
    }
    RolesAre(after, Roles(members)[v := role]);
  }

  lemma RolesAre(members: seq<Member>, roles: map<Address, Role>)
    requires Seated(members)
    requires forall v :: v in roles <==> v in Ids(members)
    requires forall i :: 0 <= i < |members| ==> roles[members[i].vehicleId] == members[i].role
    ensures Roles(members) == roles
  {
    hide IndexOf;
  }

  /** A member that leaves takes its role along; the others keep theirs and are numbered anew. */
  lemma WithoutMemberEffect(members: seq<Member>, v: Address)
    requires Seated(members) && v in Ids(members)
    ensures var after := WithoutMember(members, v);
      && Seated(after) && |after| == |members| - 1
      && Elems(Ids(after)) == Elems(Ids(members)) - {v}
      && Roles(after) == Roles(members) - {v}
  {
    var after := WithoutMember(members, v);
    var at := IndexOf(Ids(members), v);
    assert Ids(after) == SwapRemove(Ids(members), v);
    SwapRemoveKeepsTheRest(Ids(members), v);
    assert forall u :: u in Ids(after) <==> u in Ids(members) && u != v by {
      ElemsIn(Ids(after));
      ElemsIn(Ids(members));
    }
    hide Roles, SwapRemove, Elems;
    forall i | 0 <= i < |after|
      ensures (Roles(members) - {v})[after[i].vehicleId] == after[i].role
    {
      assert after[i].vehicleId in Ids(after);
      RoleAt(members, if i == at then |members| - 1 else i);
    }
    RolesAre(after, Roles(members) - {v});
  }

  lemma ElemsIn(s: seq<Address>)
    ensures forall u :: u in Elems(s) <==> u in s
  {
  }

  lemma RemoveFirstEffect(s: seq<Address>, v: Address)
    requires Distinct(s) && v in s
    ensures Distinct(RemoveFirst(s, v)) && |RemoveFirst(s, v)| == |s| - 1
    ensures Elems(RemoveFirst(s, v)) == Elems(s) - {v}
  {
    var i := IndexOf(s, v);
    var r := RemoveFirst(s, v);
    assert s == s[..i] + [v] + s[i + 1..];
    forall k | 0 <= k < |r|
      ensures r[k] == s[if k < i then k else k + 1]
    {
    }
    forall u | u in Elems(s) - {v}
      ensures u in r
    {
      var k := IndexOf(s, u);
      assert u == r[if k < i then k else k - 1];
    }
  }

  // ------------------------------------------------------------------ invariant

  /** Validators are exactly the members whose role is leader or validator, and only the leader's role is leader. */
  ghost predicate RolesGood(roles: map<Address, Role>, validators: set<Address>, leader: Address) {
    && leader in roles
    && (forall v :: v in validators ==> v in roles)
    && (forall v :: v in roles ==> (v in validators <==> roles[v] == RoleLeader || roles[v] == RoleValidator))
    && (forall v :: v in roles && roles[v] == RoleLeader ==> v == leader)
  }

  ghost predicate StatusGood(p: State) {
    && (p.status == Forming || p.status == Active || p.status == UnderStaffed || p.status == Dissolved)
    && (p.status == Active ==> |p.members| >= 4)
  }

  ghost predicate Good(p: State) {
    && ValidParams(p.params) && |p.members| <= p.params.maxVehicles
    && Seated(p.members) && Distinct(p.validators)
    && RolesGood(Roles(p.members), Elems(p.validators), p.leaderId)
    && StatusGood(p)
  }

  /** What the invariant says about the member at each index. */
  lemma GoodMembers(p: State, i: nat)
    requires Good(p) && i < |p.members|
    ensures var m := p.members[i];
      && m.position == i
      && (m.vehicleId in p.validators <==> m.role == RoleLeader || m.role == RoleValidator)
      && (m.role == RoleLeader ==> m.vehicleId == p.leaderId)
    ensures p.leaderId in Ids(p.members)
    ensures forall v :: v in p.validators ==> v in Ids(p.members)
  {
    RoleAt(p.members, i);
    assert p.members[i].vehicleId in Ids(p.members);
    assert forall v :: v in p.validators <==> v in Elems(p.validators);
  }

  /** Validators are distinct members, so there are at least as many members. */
  lemma AsManyMembersAsValidators(p: State)
    requires Seated(p.members) && Distinct(p.validators)
    requires RolesGood(Roles(p.members), Elems(p.validators), p.leaderId)
    ensures |p.members| >= |p.validators|
  {
    DistinctCount(p.validators);
    DistinctCount(Ids(p.members));
    SubsetCount(Elems(p.validators), Elems(Ids(p.members)));
  }

  lemma WithValidatorKeepsGood(p: State, v: Address)
    requires Seated(p.members) && Distinct(p.validators) && v in Ids(p.members)
    requires v !in p.validators
    ensures var q := WithValidator(p, v);
      && Seated(q.members) && Ids(q.members) == Ids(p.members) && Distinct(q.validators)
      && Roles(q.members) == Roles(p.members)[v := RoleValidator]
      && Elems(q.validators) == Elems(p.validators) + {v}
  {
    SetRoleEffect(p.members, v, RoleValidator);
    hide Roles, Seated;
  }

  lemma WithoutValidatorEffect(p: State, v: Address)
    requires Seated(p.members) && Distinct(p.validators) && v in Ids(p.members) && v in p.validators
    ensures var q := WithoutValidator(p, v);
      && Seated(q.members) && Ids(q.members) == Ids(p.members) && Distinct(q.validators)
      && Roles(q.members) == Roles(p.members)[v := RoleFollower]
      && Elems(q.validators) == Elems(p.validators) - {v}
  {
    SetRoleEffect(p.members, v, RoleFollower);
    RemoveFirstEffect(p.validators, v);
    hide Roles, Seated;
  }

  lemma CreatedIsGood(leader: Address, params: Params, now: int)
    requires ValidParams(params)
    ensures Created(leader, params, now).Some? && Good(Created(leader, params, now).value)
    ensures Created(leader, params, now).value.members == [Member(leader, RoleValidator, 0)]
  {
    hide SetRole, Roles, Seated;
    SetRoleOfOnly(leader);
    assert [] + [Member(leader, RoleLeader, 0)] == [Member(leader, RoleLeader, 0)] && [] + [leader] == [leader];
    OnlyMember(leader);
  }

  lemma OnlyMember(v: Address)
    ensures var members := [Member(v, RoleValidator, 0)];
      Seated(members) && Roles(members) == map[v := RoleValidator] && Elems([v]) == {v}
  {
    assert Ids([Member(v, RoleValidator, 0)]) == [v];
    hide IndexOf;
  }

  lemma SetRoleOfOnly(v: Address)
    ensures SetRole([Member(v, RoleLeader, 0)], v, RoleValidator) == [Member(v, RoleValidator, 0)]
  {
    assert Ids([Member(v, RoleLeader, 0)])[0] == v;
  }

  /** Adding a new member with the right role keeps the role invariant. */
  lemma RolesWithOneMore(
      roles: map<Address, Role>, validators: set<Address>, leader: Address, v: Address, validator: bool)
    requires RolesGood(roles, validators, leader) && v !in roles
    ensures RolesGood(roles[v := if validator then RoleValidator else RoleFollower],
                      if validator then validators + {v} else validators, leader)
  {
  }

  /** What a join does to members, roles and validators, before the status is looked at. */
  lemma JoinedMembers(p: State, v: Address, now: int)
    requires Good(p) && v !in Ids(p.members)
    ensures var validator := |p.validators| < 7;
      var q := p.(members := p.members + [Member(v, if validator then RoleValidator else RoleFollower, |p.members|)],
                  lastActivityAt := now);
      var r := if validator then WithValidator(q, v) else q;
      && Seated(r.members) && Ids(r.members) == Ids(p.members) + [v] && Distinct(r.validators)
      && RolesGood(Roles(r.members), Elems(r.validators), p.leaderId)
      && Elems(r.validators) == Elems(p.validators) + if validator then {v} else {}
  {
    hide Seated, Roles, Ids, RolesGood, SetRole, StatusGood, Elems;
    var validator := |p.validators| < 7;
    var role := if validator then RoleValidator else RoleFollower;
    var q := p.(members := p.members + [Member(v, role, |p.members|)], lastActivityAt := now);
    AddMemberEffect(p.members, v, role);
    ElemsIn(p.validators);
    ValidatorsAreMembers(Roles(p.members), p.validators, p.leaderId);
    RolesWithOneMore(Roles(p.members), Elems(p.validators), p.leaderId, v, validator);
    if validator {
      WithValidatorKeepsGood(q, v);
      assert Roles(p.members)[v := RoleValidator][v := RoleValidator] == Roles(p.members)[v := RoleValidator];
    }
  }

  lemma ValidatorsAreMembers(roles: map<Address, Role>, validators: seq<Address>, leader: Address)
    requires RolesGood(roles, Elems(validators), leader)
    ensures forall v :: v in validators ==> v in roles
  {
  }

  /** An approved request adds exactly that vehicle, as a validator while there are fewer than seven. */
  lemma JoinedKeepsGood(p: State, v: Address, now: int)
    requires Good(p) && Joined(p, v, now).1.None?
    ensures Good(Joined(p, v, now).0)
    ensures Ids(Joined(p, v, now).0.members) == Ids(p.members) + [v]
    ensures Joined(p, v, now).0.leaderId == p.leaderId
    ensures Elems(Joined(p, v, now).0.validators) == Elems(p.validators) + if |p.validators| < 7 then {v} else {}
    ensures Joined(p, v, now).0.status ==
      if p.status == Forming && |Joined(p, v, now).0.validators| >= 4 then Active else p.status
  {
    hide Seated, Roles, Ids, RolesGood, SetRole, Elems;
    JoinedMembers(p, v, now);
    AsManyMembersAsValidators(Joined(p, v, now).0);
  }

  /** Nothing but roles and the leader changes when the leader hands over. */
  lemma HandedOverRoles(p: State)
    requires Good(p) && HandedOver(p).Some?
    ensures var q := HandedOver(p).value;
      && Seated(q.members) && Ids(q.members) == Ids(p.members)
      && q.leaderId in p.validators && q.leaderId != p.leaderId
      && Roles(q.members) == Roles(p.members)[p.leaderId := RoleValidator][q.leaderId := RoleLeader]
      && q == p.(leaderId := q.leaderId, members := q.members)
  {
    hide Seated, Roles, Ids, SetRole, Elems;
    var w := Successor(p.validators, p.leaderId).value;
    ValidatorsAreMembers(Roles(p.members), p.validators, p.leaderId);
    LeaderIsMember(p);
    SetRoleEffect(p.members, p.leaderId, RoleValidator);
    SetRoleEffect(SetRole(p.members, p.leaderId, RoleValidator), w, RoleLeader);
  }

  lemma RolesWithOneLess(roles: map<Address, Role>, validators: set<Address>, leader: Address, v: Address)
    requires RolesGood(roles, validators, leader) && v in roles && v != leader
    ensures RolesGood(roles - {v}, validators - {v}, leader)
  {
  }

  lemma RolesAfterHandover(roles: map<Address, Role>, validators: set<Address>, leader: Address, next: Address)
    requires RolesGood(roles, validators, leader) && next in validators && next != leader
    ensures RolesGood(roles[leader := RoleValidator][next := RoleLeader] - {leader}, validators - {leader}, next)
  {
  }

  /** A member that is no longer leader leaves the validators and the members. */
  lemma DepartedRoles(p: State, v: Address)
    requires Seated(p.members) && Distinct(p.validators) && v in Ids(p.members)
    ensures var q := WithoutValidator(p, v);
      v in Ids(q.members) &&
      var members := WithoutMember(q.members, v);
      && Seated(members) && |members| == |p.members| - 1 && Distinct(q.validators)
      && Elems(Ids(members)) == Elems(Ids(p.members)) - {v}
      && Roles(members) == Roles(p.members) - {v}
      && Elems(q.validators) == Elems(p.validators) - {v}
  {
    var q := WithoutValidator(p, v);
    if v in p.validators {
      WithoutValidatorEffect(p, v);
      assert Roles(p.members)[v := RoleFollower] - {v} == Roles(p.members) - {v};
    }
    WithoutMemberEffect(q.members, v);
    hide Seated, Roles, Ids, WithoutMember;
  }

  /**
   A departure that succeeds removes exactly that vehicle, keeps the leader a member, and
   so never leaves the platoon empty.
   */
  lemma LeftKeepsGood(p: State, v: Address)
    requires Good(p) && v in Ids(p.members) && Left(p, v).Some?
    ensures var q := Left(p, v).value;
      && Good(q)
      && Elems(Ids(q.members)) == Elems(Ids(p.members)) - {v}
      && q.leaderId == (if p.leaderId == v then Successor(p.validators, v).value else p.leaderId)
      && q.members != []
      && Elems(q.validators) == Elems(p.validators) - {v}
      && q.status == if p.status == Active && |p.members| <= 4 then UnderStaffed else p.status
  {
    hide Seated, Roles, Ids, WithoutMember, SetRole, RolesGood, WithoutValidator, Elems;
    WithoutValidatorStatus(if p.leaderId == v then HandedOver(p).value else p, v);
    ElemsIn(p.validators);
    var handed := if p.leaderId == v then HandedOver(p).value else p;
    if p.leaderId == v {
      HandedOverRoles(p);
      RolesAfterHandover(Roles(p.members), Elems(p.validators), v, handed.leaderId);
    } else {
      RolesWithOneLess(Roles(p.members), Elems(p.validators), p.leaderId, v);
    }
    DepartedRoles(handed, v);
    LeaderIsMember(Left(p, v).value);
  }

  lemma WithoutValidatorStatus(p: State, v: Address)
    ensures var q := WithoutValidator(p, v);
      q == p.(members := q.members, validators := q.validators)
  {
  }

  lemma LeaderIsMember(p: State)
    requires RolesGood(Roles(p.members), Elems(p.validators), p.leaderId)
    ensures p.leaderId in Ids(p.members) && p.members != []
  {
  }

  /** Appointing a member that is not a validator. */
  lemma AppointedKeepsGood(p: State, v: Address)
    requires Good(p) && v in Ids(p.members) && v !in p.validators
    ensures Good(WithValidator(p, v))
    ensures Ids(WithValidator(p, v).members) == Ids(p.members)
    ensures Elems(WithValidator(p, v).validators) == Elems(p.validators) + {v}
  {
    hide Seated, Ids, Roles, SetRole, Elems;
    ElemsIn(p.validators);
    WithValidatorKeepsGood(p, v);
    assert |WithValidator(p, v).members| == |p.members|;
  }

  /** Demoting a validator, the leader included. */
  lemma DemotedKeepsGood(p: State, v: Address)
    requires Good(p) && v in p.validators
    ensures Good(WithoutValidator(p, v))
    ensures Ids(WithoutValidator(p, v).members) == Ids(p.members)
    ensures Elems(WithoutValidator(p, v).validators) == Elems(p.validators) - {v}
  {
    hide Seated, Ids, Roles, SetRole, RemoveFirst, Elems;
    ElemsIn(p.validators);
    ValidatorsAreMembers(Roles(p.members), p.validators, p.leaderId);
    WithoutValidatorEffect(p, v);
    assert |WithoutValidator(p, v).members| == |p.members|;
  }

  // ------------------------------------------------------------------ the platoon as an object

  class Platoon {
    var status: Status
    const params: Params
    var leaderId: Address
    var members: seq<Member>
    var validators: seq<Address>
    var blacklist: seq<Address>
    var lastActivityAt: int

    ghost function View(): State
      reads this
    {
      State(status, params, leaderId, members, validators, blacklist, lastActivityAt)
    }

    constructor (leader: Address, params: Params, now: int)
      ensures View() == State(Forming, params, leader, [], [], [], now)
    {
      status := Forming;
      this.params := params;
      leaderId := leader;
      members := [];
      validators := [];
      blacklist := [];
      lastActivityAt := now;
    }

    method GetMember(v: Address) returns (at: Option<nat>)
      ensures at.Some? <==> v in Ids(members)
      ensures at.Some? ==> at.value == IndexOf(Ids(members), v)
    {
      for i := 0 to |members|
        invariant v !in Ids(members)[..i]
      {
        if members[i].vehicleId == v {
          assert Ids(members)[i] == v;
          return Some(i);
        }
      }
      return None;
    }

    method SetMemberRole(v: Address, role: Role)
      modifies this`members
      ensures members == SetRole(old(members), v, role)
    {
      var at := GetMember(v);
      if at.Some? {
        members := members[at.value := members[at.value].(role := role)];
      }
    }

    method AddMember(v: Address, role: Role, now: int) returns (error: Option<Error>)
      modifies this
      ensures (View(), error) == WithMember(old(View()), v, role, now)
    {
      var at := GetMember(v);
      if at.Some? { return Some(AlreadyMember); }
      var banned := Contains(blacklist, v);
      if banned { return Some(Blacklisted); }
      if |members| >= params.maxVehicles { return Some(Full); }
      members := members + [Member(v, role, |members|)];
      lastActivityAt := now;
      return None;
    }

    /** Overwrites the member with the last one, cuts the end off and numbers the rest anew. */
    method RemoveMember(v: Address) returns (error: Option<Error>)
      modifies this
      ensures error == if v in Ids(old(members)) then None else Some(NotAMember)
      ensures View() == if error.None? then old(View()).(members := WithoutMember(old(members), v)) else old(View())
    {
      var at := GetMember(v);
      if at.None? { return Some(NotAMember); }
      members := members[at.value := members[|members| - 1]];
      members := members[..|members| - 1];
      ghost var unnumbered := members;
      for j := 0 to |members|
        invariant |members| == |unnumbered|
        invariant members[..j] == Renumbered(unnumbered)[..j] && members[j..] == unnumbered[j..]
        invariant View() == old(View()).(members := members)
      {
        members := members[j := members[j].(position := j)];
      }
      assert members == Renumbered(unnumbered);
      return None;
    }

    method AddValidator(v: Address) returns (error: Option<Error>)
      modifies this
      ensures error == if v in old(validators) then Some(AlreadyValidator) else None
      ensures View() == WithValidator(old(View()), v)
    {
      var listed := Contains(validators, v);
      if listed { return Some(AlreadyValidator); }
      validators := validators + [v];
      SetMemberRole(v, RoleValidator);
      return None;
    }

    method RemoveValidator(v: Address) returns (error: Option<Error>)
      modifies this
      ensures error == if v in old(validators) then None else Some(ValidatorNotFound)
      ensures View() == WithoutValidator(old(View()), v)
    {
      for i := 0 to |validators|
        invariant v !in validators[..i]
        invariant View() == old(View())
      {
        if validators[i] == v {
          assert i == IndexOf(validators, v);
          validators := validators[..i] + validators[i + 1..];
          SetMemberRole(v, RoleFollower);
          return None;
        }
      }
      return Some(ValidatorNotFound);
    }

    method HandOver() returns (ok: bool)
      modifies this
      ensures ok <==> HandedOver(old(View())).Some?
      ensures View() == if ok then HandedOver(old(View())).value else old(View())
    {
      if |validators| > 1 {
        for i := 0 to |validators|
          invariant View() == old(View())
          invariant Successor(validators[i..], leaderId) == Successor(validators, leaderId)
        {
          if validators[i] != leaderId {
            var oldLeader := leaderId;
            leaderId := validators[i];
            SetMemberRole(oldLeader, RoleValidator);
            SetMemberRole(leaderId, RoleLeader);
            return true;
          }
          assert validators[i..][1..] == validators[i + 1..];
        }
      }
      return false;
    }

    method AddToBlacklist(v: Address)
      modifies this
      ensures View() == old(View()).(blacklist := if v in old(blacklist) then old(blacklist) else old(blacklist) + [v])
    {
      var banned := Contains(blacklist, v);
      if !banned { blacklist := blacklist + [v]; }
    }

    method UpdateActivity(now: int)
      modifies this
      ensures View() == old(View()).(lastActivityAt := now)
    {
      lastActivityAt := now;
    }
  }
}
