/**
 * What creating a role and provisioning a user achieve in every run of their own steps
 * only. The row is inserted before its links, so a repeated id fails too late.
 */
module TenancyCreation {
  import opened Wrappers
  import opened Tenancy
  import opened TenancyTheorems
  import opened TenancyAlone

  // t is u but for where requests stand.
  predicate Same(t: State, u: State) {
    t == u.(reqs := t.reqs)
  }

  lemma StepIs(t: State, r: ReqId, t': State, willing: bool) returns (i: Input)
    requires TakesStep(t, r, t', willing)
    ensures CanAct(t, r, i) && (willing ==> i.ok)
    ensures var (e, pc) := Plan(t, t.reqs[r], i); t' == Apply(t, e).(reqs := t.reqs[r := t.reqs[r].(pc := pc)])
  {
    hide Plan, Apply;
    i :| CanAct(t, r, i) && t' == After(t, r, i) && (willing ==> i.ok);
  }

  // ----- POST /roles -----

  predicate Creating(s: State, r: ReqId, c: ClientId, name: string, isDefault: bool, perms: seq<Id>) {
    r in s.reqs && s.reqs[r].client == c && s.reqs[r].job == Job.CreateRole(name, isDefault, perms)
  }

  predicate NameIsFree(s: State, c: ClientId, name: string) {
    forall x :: x in s.roles ==> !(s.roles[x].client == c && s.roles[x].name == name)
  }

  predicate MayCreate(s: State, c: ClientId, name: string, perms: seq<Id>) {
    OwnsEach(s, c, perms) && NameIsFree(s, c, name)
  }

  function WithRole(s: State, x: Id, role: Role, perms: set<Id>): State {
    s.(roles := s.roles[x := role], owners := s.owners[x := role.client],
       rolePermissions := s.rolePermissions + set p | p in perms :: (x, p))
  }

  // t is s and one new role with these permissions.
  ghost predicate GainsRole(s: State, t: State, role: Role, perms: set<Id>) {
    exists x :: x !in s.roles && Same(t, WithRole(s, x, role, perms))
  }

  ghost predicate CreateStage(s: State, t: State, pc: Pc, role: Role, perms: seq<Id>) {
    var owned := OwnsEach(s, role.client, perms);
    var may := MayCreate(s, role.client, role.name, perms);
    match pc
    case Begin => Same(t, s)
    case PermsOwned => owned && Same(t, s)
    case HasRole(x) => may && perms != [] && x !in s.owners && Same(t, WithRole(s, x, role, {}))
    case Done => may && Distinct(perms) && GainsRole(s, t, role, Set(perms))
    case Failed => if may then !Distinct(perms) && GainsRole(s, t, role, {}) else Same(t, s)
    case _ => false
  }

  function CreateRank(pc: Pc): nat {
    match pc
    case Begin => 0
    case PermsOwned => 1
    case HasRole(_) => 2
    case _ => 3
  }

  lemma CreateChecks(s: State, t: State, role: Role, perms: seq<Id>, i: Input)
    requires CreateStage(s, t, Begin, role, perms)
    ensures var (e, pc) := PlanCreateRole(t, role.client, role.name, role.isDefault, perms, Begin, i);
            e == Nothing && CreateStage(s, t, pc, role, perms) && pc != Begin
  {
    CountDecidesOwnership(t, perms, role.client);
    OwnsEachIsOwned(t, role.client, perms);
    hide OwnsPermissions, OwnsRoles, OwnsRole, NameIsFree, Distinct, Set;
  }

  lemma CreateInserts(s: State, t: State, role: Role, perms: seq<Id>, i: Input)
    requires CreateStage(s, t, PermsOwned, role, perms) && i.id !in t.owners && RolesInv(s)
    ensures var (e, pc) := PlanCreateRole(t, role.client, role.name, role.isDefault, perms, PermsOwned, i);
            CreateStage(s, Apply(t, e), pc, role, perms) && CreateRank(pc) > 1
  {
    var (e, pc) := PlanCreateRole(t, role.client, role.name, role.isDefault, perms, PermsOwned, i);
    if NameIsFree(s, role.client, role.name) {
      assert i.id !in s.roles;
      assert Same(Apply(t, e), WithRole(s, i.id, role, {}));
      if perms == [] { assert Set(perms) == {}; }
    }
    hide OwnedPermissions, RolesInv;
  }

  lemma CreateLinks(s: State, t: State, x: Id, role: Role, perms: seq<Id>, i: Input)
    requires CreateStage(s, t, HasRole(x), role, perms) && RolesInv(s) && RolePermissionsInv(s)
    ensures var (e, pc) := PlanCreateRole(t, role.client, role.name, role.isDefault, perms, HasRole(x), i);
            CreateStage(s, Apply(t, e), pc, role, perms) && CreateRank(pc) > 2
  {
    var (e, pc) := PlanCreateRole(t, role.client, role.name, role.isDefault, perms, HasRole(x), i);
    assert x !in s.roles;
    forall p | p in perms ensures p in t.permissions && (x, p) !in t.rolePermissions { assert p in Set(perms); }
    if Distinct(perms) { assert Same(Apply(t, e), WithRole(s, x, role, Set(perms))); }
    hide NameIsFree, RolesInv, RolePermissionsInv, Distinct, Set;
  }

  lemma {:induction false} CreateStages(run: seq<State>, r: ReqId, role: Role, perms: seq<Id>, k: nat)
    requires Alone(run, r, false) && k < |run| && RolesInv(run[0]) && RolePermissionsInv(run[0])
    requires Creating(run[0], r, role.client, role.name, role.isDefault, perms) && run[0].reqs[r].pc == Begin
    ensures Creating(run[k], r, role.client, role.name, role.isDefault, perms)
    ensures CreateStage(run[0], run[k], run[k].reqs[r].pc, role, perms)
    ensures CreateRank(run[k].reqs[r].pc) >= k || Finished(run[k], r)
  {
    hide TakesStep, RolesInv, RolePermissionsInv;
    if k == 0 {
    } else {
      CreateStages(run, r, role, perms, k - 1);
      assert TakesStep(run[k - 1], r, run[k - 1 + 1], false);
      hide CreateStage;
      CreateAdvances(run[0], run[k - 1], r, role, perms, run[k]);
    }
  }

  lemma CreateAdvances(s: State, t: State, r: ReqId, role: Role, perms: seq<Id>, t': State)
    requires Creating(t, r, role.client, role.name, role.isDefault, perms) && RolesInv(s) && RolePermissionsInv(s)
    requires CreateStage(s, t, t.reqs[r].pc, role, perms) && TakesStep(t, r, t', false)
    ensures Creating(t', r, role.client, role.name, role.isDefault, perms)
    ensures CreateStage(s, t', t'.reqs[r].pc, role, perms)
    ensures CreateRank(t'.reqs[r].pc) > CreateRank(t.reqs[r].pc) || (Finished(t, r) && Finished(t', r))
  {
    hide TakesStep, RolesInv, RolePermissionsInv, PlanCreateRole, CreateStage, Apply;
    var i := StepIs(t, r, t', false);
    var q := t.reqs[r];
    var (e, pc) := PlanCreateRole(t, q.client, role.name, role.isDefault, perms, q.pc, i);
    match q.pc {
      case Begin => CreateChecks(s, t, role, perms, i); SameState(t);
      case PermsOwned => CreateInserts(s, t, role, perms, i);
      case HasRole(x) => CreateLinks(s, t, x, role, perms, i);
      case _ => CreateEnds(s, t, role, perms, q.pc, i); SameState(t);
    }
    CreateIgnoresReqs(s, Apply(t, e), t', pc, role, perms);
  }

  lemma CreateEnds(s: State, t: State, role: Role, perms: seq<Id>, pc: Pc, i: Input)
    requires CreateStage(s, t, pc, role, perms) && CreateRank(pc) == 3
    ensures pc == Done || pc == Failed
    ensures PlanCreateRole(t, role.client, role.name, role.isDefault, perms, pc, i) == (Nothing, pc)
  {}

  lemma CreateIgnoresReqs(s: State, t: State, t': State, pc: Pc, role: Role, perms: seq<Id>)
    requires CreateStage(s, t, pc, role, perms) && t' == t.(reqs := t'.reqs)
    ensures CreateStage(s, t', pc, role, perms)
  {
    hide MayCreate, OwnedPermissions, Distinct, Set;
    if GainsRole(s, t, role, Set(perms)) {
      var x :| x !in s.roles && Same(t, WithRole(s, x, role, Set(perms)));
      assert Same(t', WithRole(s, x, role, Set(perms)));
    }
    if GainsRole(s, t, role, {}) {
      var x :| x !in s.roles && Same(t, WithRole(s, x, role, {}));
      assert Same(t', WithRole(s, x, role, {}));
    }
  }

  /**
   * Every run of a role creation alone is over after three steps. It succeeds if and only
   * if every permission is the client's, the name is free and no id is repeated, and then
   * adds exactly one role with exactly those permissions. With a repeated id it fails and
   * leaves the role behind with none; in every other failure nothing is written.
   */
  lemma CreateExactly(run: seq<State>, r: ReqId, role: Role, perms: seq<Id>)
    requires Alone(run, r, false) && RolesInv(run[0]) && RolePermissionsInv(run[0])
    requires Creating(run[0], r, role.client, role.name, role.isDefault, perms) && run[0].reqs[r].pc == Begin
    ensures var s, s' := run[0], run[|run| - 1]; var may := MayCreate(s, role.client, role.name, perms);
            && r in s'.reqs && (|run| > 3 ==> Finished(s', r))
            && (s'.reqs[r].pc == Done ==> may && NoneTwice(perms) && GainsRole(s, s', role, set p | p in perms))
            && (s'.reqs[r].pc == Failed ==> !(may && NoneTwice(perms)))
            && (s'.reqs[r].pc == Failed ==> if may then GainsRole(s, s', role, {}) else Same(s', s))
  {
    CreateStages(run, r, role, perms, |run| - 1);
    NoneTwiceIsDistinct(perms);
    hide Alone, MayCreate, Distinct, NoneTwice, GainsRole;
  }

  // ----- POST /users -----

  predicate Provisioning(s: State, r: ReqId, c: ClientId, ids: seq<Id>) {
    r in s.reqs && s.reqs[r].client == c && s.reqs[r].job == Job.ProvisionUser(ids)
  }

  predicate OwnsAll(s: State, c: ClientId, ids: seq<Id>) {
    forall x :: x in ids ==> x in s.roles && s.roles[x].client == c
  }

  function WithUser(s: State, u: Id, c: ClientId, ids: set<Id>): State {
    s.(users := s.users[u := c], userRoles := s.userRoles + set x | x in ids :: (u, x, c))
  }

  // t is s and one new user of the client with these roles.
  ghost predicate GainsUser(s: State, t: State, c: ClientId, ids: set<Id>) {
    exists u :: u !in s.users && Same(t, WithUser(s, u, c, ids))
  }

  ghost predicate ProvisionStage(s: State, t: State, pc: Pc, c: ClientId, ids: seq<Id>, willing: bool) {
    var owned := OwnsAll(s, c, ids);
    match pc
    case Begin => Same(t, s)
    case RolesOwned => owned && Same(t, s)
    case HasUser(u) => owned && ids != [] && u !in s.users && Same(t, WithUser(s, u, c, {}))
    case Done => owned && Distinct(ids) && GainsUser(s, t, c, Set(ids))
    case Failed =>
      || (!(willing && owned) && Same(t, s))
      || (owned && !Distinct(ids) && GainsUser(s, t, c, {}))
    case _ => false
  }

  function ProvisionRank(pc: Pc): nat {
    match pc
    case Begin => 0
    case RolesOwned => 1
    case HasUser(_) => 2
    case _ => 3
  }

  lemma ProvisionChecks(s: State, t: State, c: ClientId, ids: seq<Id>, willing: bool, i: Input)
    requires ProvisionStage(s, t, Begin, c, ids, willing)
    ensures var (e, pc) := PlanProvision(t, c, ids, Begin, i);
            e == Nothing && ProvisionStage(s, t, pc, c, ids, willing) && pc != Begin
  {
    CountDecidesOwnership(t, ids, c);
    hide OwnsPermissions, OwnsRoles, Distinct, Set;
  }

  lemma ProvisionInserts(s: State, t: State, c: ClientId, ids: seq<Id>, willing: bool, i: Input)
    requires ProvisionStage(s, t, RolesOwned, c, ids, willing) && i.id !in t.users && (willing ==> i.ok)
    ensures var (e, pc) := PlanProvision(t, c, ids, RolesOwned, i);
            ProvisionStage(s, Apply(t, e), pc, c, ids, willing) && ProvisionRank(pc) > 1
  {
    var (e, pc) := PlanProvision(t, c, ids, RolesOwned, i);
    if i.ok {
      assert Same(Apply(t, e), WithUser(s, i.id, c, {}));
      if ids == [] { assert Set(ids) == {}; }
    }
  }

  lemma ProvisionLinks(s: State, t: State, u: Id, c: ClientId, ids: seq<Id>, willing: bool, i: Input)
    requires ProvisionStage(s, t, HasUser(u), c, ids, willing) && UserRolesInv(s)
    ensures var (e, pc) := PlanProvision(t, c, ids, HasUser(u), i);
            ProvisionStage(s, Apply(t, e), pc, c, ids, willing) && ProvisionRank(pc) > 2
  {
    var (e, pc) := PlanProvision(t, c, ids, HasUser(u), i);
    forall x | x in Set(ids) ensures x in t.roles && (u, x, c) !in t.userRoles { assert OwnsRole(s, x, c); }
    if Distinct(ids) {
      assert Same(Apply(t, e), WithUser(s, u, c, Set(ids)));
    } else {
      assert Same(Apply(t, e), WithUser(s, u, c, {}));
    }
    hide UserRolesInv, Distinct, Set, OwnsAll;
  }

  lemma ProvisionEnds(s: State, t: State, c: ClientId, ids: seq<Id>, willing: bool, pc: Pc, i: Input)
    requires ProvisionStage(s, t, pc, c, ids, willing) && ProvisionRank(pc) == 3
    ensures (pc == Done || pc == Failed) && PlanProvision(t, c, ids, pc, i) == (Nothing, pc)
  {}

  lemma GainIgnoresReqs(s: State, t: State, t': State, c: ClientId, ids: set<Id>)
    requires GainsUser(s, t, c, ids) && t' == t.(reqs := t'.reqs)
    ensures GainsUser(s, t', c, ids)
  {
    var u :| u !in s.users && Same(t, WithUser(s, u, c, ids));
    assert Same(t', WithUser(s, u, c, ids));
  }

  lemma ProvisionIgnoresReqs(s: State, t: State, t': State, pc: Pc, c: ClientId, ids: seq<Id>, willing: bool)
    requires ProvisionStage(s, t, pc, c, ids, willing) && t' == t.(reqs := t'.reqs)
    ensures ProvisionStage(s, t', pc, c, ids, willing)
  {
    hide OwnsAll, Distinct, Set, GainsUser;
    if GainsUser(s, t, c, Set(ids)) { GainIgnoresReqs(s, t, t', c, Set(ids)); }
    if GainsUser(s, t, c, {}) { GainIgnoresReqs(s, t, t', c, {}); }
  }

  lemma ProvisionAdvances(s: State, t: State, r: ReqId, c: ClientId, ids: seq<Id>, willing: bool, t': State)
    requires Provisioning(t, r, c, ids) && UserRolesInv(s)
    requires ProvisionStage(s, t, t.reqs[r].pc, c, ids, willing) && TakesStep(t, r, t', willing)
    ensures Provisioning(t', r, c, ids) && ProvisionStage(s, t', t'.reqs[r].pc, c, ids, willing)
    ensures ProvisionRank(t'.reqs[r].pc) > ProvisionRank(t.reqs[r].pc) || (Finished(t, r) && Finished(t', r))
  {
    hide TakesStep, UserRolesInv, PlanProvision, ProvisionStage, Apply;
    var i := StepIs(t, r, t', willing);
    var q := t.reqs[r];
    var (e, pc) := PlanProvision(t, c, ids, q.pc, i);
    match q.pc {
      case Begin => ProvisionChecks(s, t, c, ids, willing, i); SameState(t);
      case RolesOwned => ProvisionInserts(s, t, c, ids, willing, i);
      case HasUser(u) => ProvisionLinks(s, t, u, c, ids, willing, i);
      case _ => ProvisionEnds(s, t, c, ids, willing, q.pc, i); SameState(t);
    }
    ProvisionIgnoresReqs(s, Apply(t, e), t', pc, c, ids, willing);
  }

  lemma {:induction false} ProvisionStages(run: seq<State>, r: ReqId, c: ClientId, ids: seq<Id>, willing: bool, k: nat)
    requires Alone(run, r, willing) && k < |run| && UserRolesInv(run[0])
    requires Provisioning(run[0], r, c, ids) && run[0].reqs[r].pc == Begin
    ensures Provisioning(run[k], r, c, ids) && ProvisionStage(run[0], run[k], run[k].reqs[r].pc, c, ids, willing)
    ensures ProvisionRank(run[k].reqs[r].pc) >= k || Finished(run[k], r)
  {
    hide TakesStep, UserRolesInv;
    if k == 0 {
    } else {
      ProvisionStages(run, r, c, ids, willing, k - 1);
      assert TakesStep(run[k - 1], r, run[k - 1 + 1], willing);
      hide ProvisionStage;
      ProvisionAdvances(run[0], run[k - 1], r, c, ids, willing, run[k]);
    }
  }

  /**
   * Every run of a provisioning alone is over after three steps. Unless the insert of the
   * user is refused, it succeeds if and only if every role is the client's and no id is
   * repeated, and then adds exactly one user with exactly those roles. With a repeated id
   * it fails and leaves the user behind with none.
   */
  lemma ProvisionExactly(run: seq<State>, r: ReqId, c: ClientId, ids: seq<Id>, willing: bool)
    requires Alone(run, r, willing) && UserRolesInv(run[0])
    requires Provisioning(run[0], r, c, ids) && run[0].reqs[r].pc == Begin
    ensures var s, s' := run[0], run[|run| - 1]; var owned := OwnsAll(s, c, ids);
            && r in s'.reqs && (|run| > 3 ==> Finished(s', r))
            && (s'.reqs[r].pc == Done ==> owned && NoneTwice(ids) && GainsUser(s, s', c, set x | x in ids))
            && (s'.reqs[r].pc == Failed && willing ==> !(owned && NoneTwice(ids)))
            && (s'.reqs[r].pc == Failed ==> Same(s', s) || (owned && !NoneTwice(ids) && GainsUser(s, s', c, {})))
            && (s'.reqs[r].pc == Failed && willing && owned ==> GainsUser(s, s', c, {}))
  {
    ProvisionStages(run, r, c, ids, willing, |run| - 1);
    NoneTwiceIsDistinct(ids);
    hide Alone, OwnsAll, Distinct, NoneTwice, GainsUser;
  }
}
