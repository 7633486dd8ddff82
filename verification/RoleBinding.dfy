/**
 Assigning and removing organization roles: the rank check, the last-Owner guard, and what no
 sequence of calls can do.

 One organization is a map from users to the key of their org-scope role; a key that is no
 system role ranks 0. Each call is one transaction under the organization's lock.
 */
module RoleBinding {
  import opened Options
  import opened Permissions

  datatype RoleKey = System(role: SystemRole) | Custom(name: string)

  type UserId = string

  type Bindings = map<UserId, RoleKey>

  datatype Error = UnknownRole | RoleNotProvisioned | SelfRemoval | GrantTooHigh | TargetTooHigh | LastOwner

  datatype Result = Done | Refused(error: Error)

  datatype Call =
    | Assign(user: UserId, role: RoleKey, actor: Option<UserId>)
    | Remove(user: UserId, actor: Option<UserId>)

  /** What the checks read besides the bindings: platform admins and the roles the catalog has. */
  datatype Platform = Platform(admins: set<UserId>, provisioned: set<SystemRole>)

  function LevelOf(b: Bindings, user: UserId): nat {
    if user in b && b[user].System? then RoleLevel(b[user].role) else 0
  }

  ghost function Owners(b: Bindings): set<UserId> {
    set u | u in b && b[u] == System(Owner)
  }

  /** Why the actor may not grant `granted` to, or otherwise change, the target. */
  function RankError(p: Platform, b: Bindings, actor: Option<UserId>, target: UserId, granted: Option<SystemRole>): Option<Error> {
    if actor.None? || actor.value in p.admins then None
    else if granted.Some? && RoleLevel(granted.value) > LevelOf(b, actor.value) then Some(GrantTooHigh)
    else if LevelOf(b, target) > LevelOf(b, actor.value) then Some(TargetTooHigh)
    else None
  }

  predicate IsOnlyOwner(b: Bindings, user: UserId) {
    user in b && b[user] == System(Owner) && |set u | u in b && b[u] == System(Owner)| <= 1
  }

  function Without(b: Bindings, user: UserId): Bindings {
    map u | u in b && u != user :: b[u]
  }

  function Decide(p: Platform, b: Bindings, call: Call): Result {
    match call
    case Assign(user, role, actor) =>
      if role.Custom? then Refused(UnknownRole)
      else if role.role !in p.provisioned then Refused(RoleNotProvisioned)
      else if RankError(p, b, actor, user, Some(role.role)).Some? then Refused(RankError(p, b, actor, user, Some(role.role)).value)
      else if role.role != Owner && IsOnlyOwner(b, user) then Refused(LastOwner)
      else Done
    case Remove(user, actor) =>
      if actor == Some(user) then Refused(SelfRemoval)
      else if RankError(p, b, actor, user, None).Some? then Refused(RankError(p, b, actor, user, None).value)
      else if IsOnlyOwner(b, user) then Refused(LastOwner)
      else Done
  }

  function After(p: Platform, b: Bindings, call: Call): Bindings {
    if Decide(p, b, call) != Done then b
    else if call.Assign? then b[call.user := call.role]
    else Without(b, call.user)
  }

  function AfterAll(p: Platform, b: Bindings, calls: seq<Call>): Bindings {
    if calls == [] then b else After(p, AfterAll(p, b, calls[..|calls| - 1]), calls[|calls| - 1])
  }

  class RoleBindingService {
    var bindings: Bindings

    constructor (bindings: Bindings)
      ensures this.bindings == bindings
    {
      this.bindings := bindings;
    }

    method AssertActorOutranks(p: Platform, actor: Option<UserId>, target: UserId, granted: Option<SystemRole>)
      returns (error: Option<Error>)
      ensures error == RankError(p, bindings, actor, target, granted)
    {
      if actor.None? || actor.value in p.admins {
        return None;
      }
      var actorLevel := LevelOf(bindings, actor.value);
      if granted.Some? && RoleLevel(granted.value) > actorLevel {
        return Some(GrantTooHigh);
      }
      var targetLevel := LevelOf(bindings, target);
      if targetLevel > actorLevel {
        return Some(TargetTooHigh);
      }
      return None;
    }

    method AssertNotLastOwner(user: UserId) returns (ok: bool)
      ensures ok == !IsOnlyOwner(bindings, user)
    {
      if user !in bindings || bindings[user] != System(Owner) {
        return true;
      }
      var owners := set u | u in bindings && bindings[u] == System(Owner);
      return |owners| > 1;
    }

    method AssignMemberRole(p: Platform, user: UserId, role: RoleKey, actor: Option<UserId>) returns (r: Result)
      modifies this
      ensures r == Decide(p, old(bindings), Assign(user, role, actor))
      ensures bindings == After(p, old(bindings), Assign(user, role, actor))
    {
      if role.Custom? {
        return Refused(UnknownRole);
      }
      if role.role !in p.provisioned {
        return Refused(RoleNotProvisioned);
      }
      var error := AssertActorOutranks(p, actor, user, Some(role.role));
      if error.Some? {
        return Refused(error.value);
      }
      if role.role != Owner {
        var ok := AssertNotLastOwner(user);
        if !ok {
          return Refused(LastOwner);
        }
      }
      bindings := bindings[user := role];
      return Done;
    }

    method RemoveMember(p: Platform, user: UserId, actor: Option<UserId>) returns (r: Result)
      modifies this
      ensures r == Decide(p, old(bindings), Remove(user, actor))
      ensures bindings == After(p, old(bindings), Remove(user, actor))
    {
      if actor == Some(user) {
        return Refused(SelfRemoval);
      }
      var error := AssertActorOutranks(p, actor, user, None);
      if error.Some? {
        return Refused(error.value);
      }
      var ok := AssertNotLastOwner(user);
      if !ok {
        return Refused(LastOwner);
      }
      bindings := bindings - {user};
      return Done;
    }
  }

  // ---------------------------------------------------------------- which calls are accepted

  /** Bootstrap calls and platform admins act at any level, others up to the level of their own role. */
  ghost predicate ActsUpTo(p: Platform, b: Bindings, actor: Option<UserId>, level: nat) {
    actor.Some? && actor.value !in p.admins ==>
      exists own :: actor.value in b && b[actor.value] == System(own) && level <= RoleLevel(own)
  }

  /** The target's role, if it has one, is within the actor's reach. */
  ghost predicate Reaches(p: Platform, b: Bindings, actor: Option<UserId>, target: UserId) {
    forall role :: target in b && b[target] == System(role) ==> ActsUpTo(p, b, actor, RoleLevel(role))
  }

  ghost predicate SoleOwner(b: Bindings, user: UserId) {
    Owners(b) == {user}
  }

  lemma {:induction false} OnlyOwnerIs(b: Bindings, user: UserId)
    ensures IsOnlyOwner(b, user) <==> SoleOwner(b, user)
  {
    assert Owners(b) == set u | u in b && b[u] == System(Owner);
    if user in Owners(b) && !IsOnlyOwner(b, user) {
      AnotherOwner(b, user);
    } else if IsOnlyOwner(b, user) {
      assert Owners(b) - {user} == {} by {
        assert |Owners(b) - {user}| == |Owners(b)| - 1;
      }
    }
  }

  lemma {:induction false} RankErrorIs(p: Platform, b: Bindings, actor: Option<UserId>, target: UserId, granted: Option<SystemRole>)
    ensures RankError(p, b, actor, target, granted) == Some(GrantTooHigh)
       <==> granted.Some? && !ActsUpTo(p, b, actor, RoleLevel(granted.value))
    ensures RankError(p, b, actor, target, granted) == None
       <==> (granted.Some? ==> ActsUpTo(p, b, actor, RoleLevel(granted.value))) && Reaches(p, b, actor, target)
  {
    if actor.Some? && actor.value in b && b[actor.value].System? {
      assert b[actor.value] == System(b[actor.value].role);
    }
    if target in b && b[target].System? {
      assert b[target] == System(b[target].role);
    }
  }

  /** An assignment is accepted exactly for a provisioned system role within the actor's reach, as the target's own is, that leaves an Owner. */
  lemma {:induction false} AssignAccepted(p: Platform, b: Bindings, user: UserId, role: RoleKey, actor: Option<UserId>)
    ensures var call := Assign(user, role, actor);
            && (Decide(p, b, call) == Done <==>
                  && role.System? && role.role in p.provisioned
                  && ActsUpTo(p, b, actor, RoleLevel(role.role)) && Reaches(p, b, actor, user)
                  && (role.role == Owner || !SoleOwner(b, user)))
            && After(p, b, call) == if Decide(p, b, call) == Done then b[user := role] else b
  {
    OnlyOwnerIs(b, user);
    if role.System? {
      RankErrorIs(p, b, actor, user, Some(role.role));
    }
    hide RankError, ActsUpTo, Reaches, IsOnlyOwner, SoleOwner;
  }

  /** A removal is accepted exactly for someone else within the actor's reach who is not the sole Owner, and removes just that member. */
  lemma {:induction false} RemoveAccepted(p: Platform, b: Bindings, user: UserId, actor: Option<UserId>)
    ensures var (call, b') := (Remove(user, actor), After(p, b, Remove(user, actor)));
            && (Decide(p, b, call) == Done <==>
                  actor != Some(user) && Reaches(p, b, actor, user) && !SoleOwner(b, user))
            && (Decide(p, b, call) == Done ==> user !in b')
            && (Decide(p, b, call) != Done ==> b' == b)
            && forall u :: u != user ==> (u in b' <==> u in b) && (u in b ==> b'[u] == b[u])
  {
    OnlyOwnerIs(b, user);
    RankErrorIs(p, b, actor, user, None);
    hide RankError, ActsUpTo, Reaches, IsOnlyOwner, SoleOwner;
  }

  /** A refused call names the first check that fails. */
  lemma {:induction false} RefusalNamesFirst(p: Platform, b: Bindings, call: Call)
    ensures match Decide(p, b, call)
            case Done => true
            case Refused(UnknownRole) => call.Assign? && call.role.Custom?
            case Refused(RoleNotProvisioned) => call.Assign? && call.role.System? && call.role.role !in p.provisioned
            case Refused(SelfRemoval) => call.Remove? && call.actor == Some(call.user)
            case Refused(GrantTooHigh) =>
              call.Assign? && call.role.System? && call.role.role in p.provisioned
              && !ActsUpTo(p, b, call.actor, RoleLevel(call.role.role))
            case Refused(TargetTooHigh) =>
              && (call.Assign? ==> call.role.System? && call.role.role in p.provisioned
                                   && ActsUpTo(p, b, call.actor, RoleLevel(call.role.role)))
              && (call.Remove? ==> call.actor != Some(call.user))
              && !Reaches(p, b, call.actor, call.user)
            case Refused(LastOwner) =>
              && (call.Assign? ==> call.role.System? && call.role.role in p.provisioned && call.role.role != Owner
                                   && ActsUpTo(p, b, call.actor, RoleLevel(call.role.role)))
              && (call.Remove? ==> call.actor != Some(call.user))
              && Reaches(p, b, call.actor, call.user) && SoleOwner(b, call.user)
  {
    OnlyOwnerIs(b, call.user);
    RankErrorIs(p, b, call.actor, call.user, if call.Assign? && call.role.System? then Some(call.role.role) else None);
    RankErrorNames(p, b, call.actor, call.user, if call.Assign? && call.role.System? then Some(call.role.role) else None);
    hide RankError, ActsUpTo, Reaches, IsOnlyOwner, SoleOwner;
  }

  lemma {:induction false} RankErrorNames(p: Platform, b: Bindings, actor: Option<UserId>, target: UserId, granted: Option<SystemRole>)
    ensures RankError(p, b, actor, target, granted) in {None, Some(GrantTooHigh), Some(TargetTooHigh)}
  {
  }

  // ---------------------------------------------------------------- an Owner remains

  lemma {:induction false} AnotherOwner(b: Bindings, user: UserId)
    requires user in Owners(b) && !IsOnlyOwner(b, user)
    ensures exists u :: u in Owners(b) && u != user
  {
    var others := Owners(b) - {user};
    assert |others| == |Owners(b)| - 1 > 0;
    var u :| u in others;
  }

  lemma {:induction false} OwnerKept(p: Platform, b: Bindings, call: Call)
    requires Owners(b) != {}
    ensures Owners(After(p, b, call)) != {}
  {
    var b' := After(p, b, call);
    if Decide(p, b, call) == Done {
      if call.Assign? && call.role == System(Owner) {
        assert call.user in Owners(b');
      } else if call.user in Owners(b) {
        AnotherOwner(b, call.user);
        var u :| u in Owners(b) && u != call.user;
        assert u in Owners(b');
      } else {
        var u :| u in Owners(b);
        assert u in Owners(b');
      }
    }
  }

  /** Whoever calls what, an organization that starts with an Owner keeps one. */
  lemma {:induction false} OwnerRemains(p: Platform, b: Bindings, calls: seq<Call>)
    requires Owners(b) != {}
    ensures Owners(AfterAll(p, b, calls)) != {}
  {
    if calls != [] {
      OwnerRemains(p, b, calls[..|calls| - 1]);
      OwnerKept(p, AfterAll(p, b, calls[..|calls| - 1]), calls[|calls| - 1]);
    }
  }

  // ---------------------------------------------------------------- no escalation

  ghost function AtOrAbove(b: Bindings, level: nat): set<UserId> {
    set u | u in b && LevelOf(b, u) >= level
  }

  /** Every call names an actor, who is no platform admin and ranks below `level` in `b`. */
  ghost predicate ActedBelow(p: Platform, b: Bindings, calls: seq<Call>, level: nat) {
    forall i :: 0 <= i < |calls| ==>
                  calls[i].actor.Some? && calls[i].actor.value !in p.admins && LevelOf(b, calls[i].actor.value) < level
  }

  lemma {:induction false} HighLevelsKept(p: Platform, b: Bindings, call: Call, level: nat)
    requires call.actor.Some? && call.actor.value !in p.admins && LevelOf(b, call.actor.value) < level
    ensures AtOrAbove(After(p, b, call), level) == AtOrAbove(b, level)
  {
    var b' := After(p, b, call);
    assert forall u :: u != call.user ==> (u in b' <==> u in b) && LevelOf(b', u) == LevelOf(b, u);
  }

  /** Actors who start below a level never change who is at or above it, whatever they do together. */
  lemma {:induction false} NoEscalation(p: Platform, b: Bindings, calls: seq<Call>, level: nat)
    requires ActedBelow(p, b, calls, level)
    ensures AtOrAbove(AfterAll(p, b, calls), level) == AtOrAbove(b, level)
  {
    if calls != [] {
      var front, call := calls[..|calls| - 1], calls[|calls| - 1];
      assert ActedBelow(p, b, front, level);
      NoEscalation(p, b, front, level);
      var b1 := AfterAll(p, b, front);
      assert calls[|calls| - 1].actor.Some? && LevelOf(b, call.actor.value) < level;
      assert call.actor.value !in AtOrAbove(b, level);
      assert call.actor.value !in AtOrAbove(b1, level);
      HighLevelsKept(p, b1, call, level);
    }
  }

  /** An actor who is no platform admin grants only permissions its own organization role has. */
  lemma {:induction false} GrantsOnlyOwnPermissions(p: Platform, b: Bindings, user: UserId, role: RoleKey, actor: UserId)
    requires Decide(p, b, Assign(user, role, Some(actor))) == Done && actor !in p.admins
    ensures role.System? && actor in b && b[actor].System?
    ensures RolePermissions(role.role) <= RolePermissions(b[actor].role)
  {
    LevelsOrderPermissions(role.role, b[actor].role);
  }

  // ---------------------------------------------------------------- what the guards allow

  /** Ownership can change hands: an Owner appoints another and can then step down, in that order only. */
  lemma {:induction false} OwnershipTransfers(p: Platform, b: Bindings, from: UserId, to: UserId, role: SystemRole)
    requires from in b && b[from] == System(Owner) && Owner in p.provisioned && role in p.provisioned
    requires from != to && role != Owner
    ensures var appoint, step := Assign(to, System(Owner), Some(from)), Assign(from, System(role), Some(from));
            && Decide(p, b, appoint) == Done
            && Decide(p, After(p, b, appoint), step) == Done
            && After(p, After(p, b, appoint), step) == b[to := System(Owner)][from := System(role)]
            && (Owners(b) == {from} ==> Decide(p, b, step) == Refused(LastOwner))
  {
    var b1 := b[to := System(Owner)];
    assert {from, to} <= Owners(b1);
    assert Owners(b1) == {from, to} + (Owners(b1) - {from, to});
    assert |Owners(b1)| == 2 + |Owners(b1) - {from, to}|;
    assert Owners(b1) == set u | u in b1 && b1[u] == System(Owner);
    assert Owners(b) == set u | u in b && b[u] == System(Owner);
  }

  /** A platform admin, who holds no role in the organization, can give it its first Owner. */
  lemma {:induction false} PlatformAdminBootstraps(p: Platform, b: Bindings, admin: UserId, user: UserId)
    requires admin in p.admins && Owner in p.provisioned
    ensures Decide(p, b, Assign(user, System(Owner), Some(admin))) == Done
    ensures user in Owners(After(p, b, Assign(user, System(Owner), Some(admin))))
  {
  }
}
