/** What two handlers achieve in every run that consists of their own steps only. */
module TenancyAlone {
  import opened Wrappers
  import opened Tenancy
  import opened TenancyTheorems

  // One step of request r; a willing input is one that refuses nothing.
  ghost predicate TakesStep(s: State, r: ReqId, s': State, willing: bool) {
    exists i :: CanAct(s, r, i) && s' == After(s, r, i) && (willing ==> i.ok)
  }

  // Every step of the run is r's.
  ghost predicate Alone(run: seq<State>, r: ReqId, willing: bool) {
    |run| > 0 && forall k :: 0 <= k < |run| - 1 ==> TakesStep(run[k], r, run[k + 1], willing)
  }

  predicate Finished(s: State, r: ReqId) {
    r in s.reqs && (s.reqs[r].pc == Done || s.reqs[r].pc == Failed)
  }

  // No id is listed at two places.
  predicate NoneTwice(ids: seq<Id>) {
    forall i, j :: 0 <= i < |ids| && 0 <= j < |ids| && ids[i] == ids[j] ==> i == j
  }

  predicate OwnsEach(s: State, c: ClientId, perms: seq<Id>) {
    forall p :: p in perms ==> p in s.permissions && s.permissions[p].client == c
  }

  lemma OwnsEachIsOwned(s: State, c: ClientId, perms: seq<Id>)
    ensures OwnsEach(s, c, perms) <==> OwnedPermissions(s, Set(perms), c)
  {
    assert forall p :: p in perms <==> p in Set(perms);
  }

  lemma NoneTwiceIsDistinct(ids: seq<Id>)
    ensures NoneTwice(ids) <==> Distinct(ids)
  {}

  // ----- PUT /roles/:id/permissions -----

  predicate Replacing(s: State, r: ReqId, role: Id, perms: seq<Id>) {
    r in s.reqs && s.reqs[r].job == ReplacePermissions(role, perms)
  }

  predicate Owned(s: State, c: ClientId, role: Id, perms: seq<Id>) {
    role in s.roles && s.roles[role].client == c && OwnsEach(s, c, perms)
  }

  function Stripped(s: State, role: Id): set<(Id, Id)> {
    set x | x in s.rolePermissions && x.0 != role
  }

  function Refilled(s: State, role: Id, perms: seq<Id>): set<(Id, Id)> {
    Stripped(s, role) + set p | p in Set(perms) :: (role, p)
  }

  // t is s with only this request's position and the role's permission rows changed.
  predicate Changed(s: State, t: State, r: ReqId, links: set<(Id, Id)>) {
    && r in s.reqs && r in t.reqs && t.reqs[r] == s.reqs[r].(pc := t.reqs[r].pc)
    && t == s.(reqs := s.reqs[r := t.reqs[r]], rolePermissions := links)
  }

  // Where a replacement that began in s stands in t.
  predicate ReplaceStage(s: State, t: State, r: ReqId, role: Id, perms: seq<Id>)
    requires r in s.reqs && r in t.reqs
  {
    var owned := Owned(s, s.reqs[r].client, role, perms);
    match t.reqs[r].pc
    case Begin => Changed(s, t, r, s.rolePermissions)
    case RoleOwned => OwnsRole(s, role, s.reqs[r].client) && Changed(s, t, r, s.rolePermissions)
    case PermsOwned => owned && Changed(s, t, r, s.rolePermissions)
    case Cleared => owned && perms != [] && Changed(s, t, r, Stripped(s, role))
    case Done => owned && Distinct(perms) && Changed(s, t, r, Refilled(s, role, perms))
    case Failed =>
      && !(owned && Distinct(perms))
      && Changed(s, t, r, if owned then Stripped(s, role) else s.rolePermissions)
    case _ => false
  }

  function ReplaceRank(pc: Pc): nat {
    match pc
    case Begin => 0
    case RoleOwned => 1
    case PermsOwned => 2
    case Cleared => 3
    case _ => 4
  }

  lemma ReplaceStepIs(t: State, r: ReqId, role: Id, perms: seq<Id>, t': State)
    requires Replacing(t, r, role, perms) && TakesStep(t, r, t', false)
    ensures var q := t.reqs[r]; var (e, pc) := PlanReplace(t, q.client, role, perms, q.pc);
            t' == Apply(t, e).(reqs := t.reqs[r := q.(pc := pc)])
  {
    hide PlanReplace, Apply, CanAct;
  }

  lemma ReplaceChecks(s: State, t: State, r: ReqId, role: Id, perms: seq<Id>, t': State)
    requires Replacing(s, r, role, perms) && Replacing(t, r, role, perms) && ReplaceStage(s, t, r, role, perms)
    requires TakesStep(t, r, t', false) && (t.reqs[r].pc == Begin || t.reqs[r].pc == RoleOwned)
    ensures Replacing(t', r, role, perms) && ReplaceStage(s, t', r, role, perms)
    ensures ReplaceRank(t'.reqs[r].pc) > ReplaceRank(t.reqs[r].pc)
  {
    ReplaceStepIs(t, r, role, perms, t');
    CountDecidesOwnership(t, perms, t.reqs[r].client);
    OwnsEachIsOwned(t, t.reqs[r].client, perms);
    hide OwnedPermissions, OwnsEach, TakesStep, OwnsPermissions, OwnsRoles, Set, Distinct;
  }

  lemma ReplaceDeletes(s: State, t: State, r: ReqId, role: Id, perms: seq<Id>, t': State)
    requires Replacing(s, r, role, perms) && Replacing(t, r, role, perms) && ReplaceStage(s, t, r, role, perms)
    requires TakesStep(t, r, t', false) && t.reqs[r].pc == PermsOwned
    ensures Replacing(t', r, role, perms) && ReplaceStage(s, t', r, role, perms)
    ensures ReplaceRank(t'.reqs[r].pc) > ReplaceRank(t.reqs[r].pc)
  {
    ReplaceStepIs(t, r, role, perms, t');
    hide TakesStep, Owned;
    assert perms == [] ==> Refilled(s, role, perms) == Stripped(s, role) && Distinct(perms);
    hide Distinct;
  }

  lemma ReplaceInserts(s: State, t: State, r: ReqId, role: Id, perms: seq<Id>, t': State)
    requires Replacing(s, r, role, perms) && Replacing(t, r, role, perms) && ReplaceStage(s, t, r, role, perms)
    requires TakesStep(t, r, t', false) && t.reqs[r].pc == Cleared
    ensures Replacing(t', r, role, perms) && ReplaceStage(s, t', r, role, perms)
    ensures ReplaceRank(t'.reqs[r].pc) > ReplaceRank(t.reqs[r].pc)
  {
    ReplaceStepIs(t, r, role, perms, t');
    OwnedAll(s, s.reqs[r].client, role, perms);
    hide TakesStep, Owned, Distinct;
  }

  lemma OwnedAll(s: State, c: ClientId, role: Id, perms: seq<Id>)
    requires Owned(s, c, role, perms)
    ensures role in s.roles && forall p :: p in perms ==> p in s.permissions
  {
    assert forall p :: p in perms ==> p in Set(perms);
  }

  lemma ReplaceRests(t: State, r: ReqId, role: Id, perms: seq<Id>, t': State)
    requires Replacing(t, r, role, perms) && TakesStep(t, r, t', false) && Finished(t, r)
    ensures t' == t
  {
    ReplaceStepIs(t, r, role, perms, t');
    hide TakesStep;
  }

  lemma StageBegins(s: State, r: ReqId, role: Id, perms: seq<Id>)
    requires Replacing(s, r, role, perms) && s.reqs[r].pc == Begin
    ensures ReplaceStage(s, s, r, role, perms)
  {
    hide Owned, Distinct, Stripped, Refilled;
  }

  lemma StageIsKnown(s: State, t: State, r: ReqId, role: Id, perms: seq<Id>)
    requires Replacing(s, r, role, perms) && Replacing(t, r, role, perms) && ReplaceStage(s, t, r, role, perms)
    ensures ReplaceRank(t.reqs[r].pc) == 4 ==> Finished(t, r)
  {
    hide Owned, Distinct, Stripped, Refilled;
  }

  lemma {:induction false} ReplaceStages(run: seq<State>, r: ReqId, role: Id, perms: seq<Id>, k: nat)
    requires Alone(run, r, false) && k < |run| && Replacing(run[0], r, role, perms) && run[0].reqs[r].pc == Begin
    ensures Replacing(run[k], r, role, perms) && ReplaceStage(run[0], run[k], r, role, perms)
    ensures ReplaceRank(run[k].reqs[r].pc) >= k || Finished(run[k], r)
  {
    hide TakesStep, Stripped, Refilled, Owned, Distinct, Changed;
    if k == 0 {
      StageBegins(run[0], r, role, perms);
    } else {
      hide ReplaceStage;
      ReplaceStages(run, r, role, perms, k - 1);
      var s, t, t' := run[0], run[k - 1], run[k];
      assert TakesStep(t, r, run[k - 1 + 1], false);
      if t.reqs[r].pc == Begin || t.reqs[r].pc == RoleOwned { ReplaceChecks(s, t, r, role, perms, t'); }
      else if t.reqs[r].pc == PermsOwned { ReplaceDeletes(s, t, r, role, perms, t'); }
      else if t.reqs[r].pc == Cleared { ReplaceInserts(s, t, r, role, perms, t'); }
      else { StageIsKnown(s, t, r, role, perms); ReplaceRests(t, r, role, perms, t'); }
    }
  }

  /**
   * Every run of a replacement alone is over after four steps. It leaves the role with
   * exactly the asked permissions if and only if the role and every permission are the
   * client's and no id is repeated. A repeated id passes the checks, fails the insert and
   * leaves the role with none.
   */
  lemma ReplaceExactly(run: seq<State>, r: ReqId, role: Id, perms: seq<Id>)
    requires Alone(run, r, false) && Replacing(run[0], r, role, perms) && run[0].reqs[r].pc == Begin
    ensures var s, s' := run[0], run[|run| - 1]; var owned := Owned(s, s.reqs[r].client, role, perms);
            && r in s'.reqs && (|run| > 4 ==> Finished(s', r))
            && (s'.reqs[r].pc == Done ==> owned && NoneTwice(perms))
            && (s'.reqs[r].pc == Failed ==> !(owned && NoneTwice(perms)))
            && (forall y: Id, p: Id :: y != role ==> ((y, p) in s'.rolePermissions <==> (y, p) in s.rolePermissions))
            && (Finished(s', r) ==> forall p: Id :: (role, p) in s'.rolePermissions <==>
                  if owned then NoneTwice(perms) && p in perms else (role, p) in s.rolePermissions)
  {
    ReplaceStages(run, r, role, perms, |run| - 1);
    NoneTwiceIsDistinct(perms);
    hide Alone, Owned, Distinct, NoneTwice;
  }

  // ----- POST /clients/:id/bootstrap -----

  predicate RoleGrants(t: State, c: ClientId, role: Id, pair: (string, string)) {
    exists p :: p in t.permissions && t.permissions[p] == Permission(c, pair.0, pair.1)
        && (role, p) in t.rolePermissions
  }

  predicate InCatalog(t: State, c: ClientId, catalog: set<Id>, pair: (string, string)) {
    exists p :: p in catalog && p in t.permissions && t.permissions[p] == Permission(c, pair.0, pair.1)
  }

  predicate CatalogIsFull(t: State, c: ClientId, catalog: set<Id>) {
    OwnedPermissions(t, catalog, c) && forall m :: m in MANAGEMENT ==> InCatalog(t, c, catalog, m)
  }

  predicate NamedRole(t: State, c: ClientId, name: string, role: Id) {
    role in t.roles && t.roles[role].client == c && t.roles[role].name == name
  }

  predicate RoleIsFull(t: State, c: ClientId, name: string, role: Id) {
    NamedRole(t, c, name, role) && forall m :: m in MANAGEMENT ==> RoleGrants(t, c, role, m)
  }

  // A user that was not there before, holding a full role; nobody else gains one.
  predicate IsAdmin(s: State, t: State, c: ClientId, name: string, u: Id, role: Id) {
    && u !in s.users && OwnedUser(t, u, c) && RoleIsFull(t, c, name, role)
    && t.userRoles == s.userRoles + {(u, role, c)}
  }

  predicate NoNewLinks(s: State, t: State) {
    t.userRoles == s.userRoles && forall u :: u in s.users ==> u in t.users
  }

  predicate Bootstrapping(s: State, r: ReqId, c: ClientId, name: string) {
    r in s.reqs && s.reqs[r].job == Bootstrap(name) && s.reqs[r].client == c
  }

  // Where a bootstrap that began in s stands in t.
  ghost predicate BootstrapStage(s: State, t: State, c: ClientId, name: string, pc: Pc) {
    match pc
    case Begin => NoNewLinks(s, t)
    case Seeded => NoNewLinks(s, t) && forall m :: m in MANAGEMENT ==> Holds(t.permissions, c, m)
    case Catalogued(catalog) => NoNewLinks(s, t) && CatalogIsFull(t, c, catalog)
    case NoRoleYet(catalog) => NoNewLinks(s, t) && CatalogIsFull(t, c, catalog) && RoleByName(t, c, name).None?
    case Managed(catalog, role) => NoNewLinks(s, t) && CatalogIsFull(t, c, catalog) && NamedRole(t, c, name, role)
    case Granted(role) => NoNewLinks(s, t) && RoleIsFull(t, c, name, role)
    case HasAdmin(role, u) =>
      && NoNewLinks(s, t) && RoleIsFull(t, c, name, role)
      && u !in s.users && OwnedUser(t, u, c) && (u, role, c) !in t.userRoles
    case Done => exists u, role :: IsAdmin(s, t, c, name, u, role)
    case Failed => true
    case _ => false
  }

  function BootstrapRank(pc: Pc): nat {
    match pc
    case Begin => 0
    case Seeded => 1
    case Catalogued(_) => 2
    case NoRoleYet(_) => 3
    case Managed(_, _) => 4
    case Granted(_) => 5
    case HasAdmin(_, _) => 6
    case _ => 7
  }

  // One step of the request: its stage, its progress, and no failure on a willing input.
  ghost predicate Advances(s: State, c: ClientId, name: string, pc: Pc, i: Input, t': State, pc': Pc) {
    && BootstrapStage(s, t', c, name, pc')
    && (BootstrapRank(pc') > BootstrapRank(pc) || ((pc == Done || pc == Failed) && pc' == pc))
    && (i.ok && pc != Failed ==> pc' != Failed)
  }

  lemma Seeding(s: State, t: State, c: ClientId, name: string, i: Input)
    requires BootstrapStage(s, t, c, name, Begin) && Seeds(t, c, i.rows)
    ensures var (e, pc) := PlanBootstrap(t, c, name, Begin, i); Advances(s, c, name, Begin, i, Apply(t, e), pc)
  {
    hide Holds;
  }

  lemma Cataloguing(s: State, t: State, c: ClientId, name: string, i: Input)
    requires BootstrapStage(s, t, c, name, Seeded)
    ensures var (e, pc) := PlanBootstrap(t, c, name, Seeded, i); Advances(s, c, name, Seeded, i, Apply(t, e), pc)
  {
    var catalog := ManagementRows(t, c);
    forall m | m in MANAGEMENT ensures InCatalog(t, c, catalog, m) {
      assert Holds(t.permissions, c, m);
      var p :| p in t.permissions && t.permissions[p] == Permission(c, m.0, m.1);
      assert p in catalog;
    }
    hide InCatalog, Holds, ManagementRows;
  }

  lemma FindingRole(s: State, t: State, c: ClientId, name: string, pc: Pc, i: Input)
    requires BootstrapStage(s, t, c, name, pc) && (pc.Catalogued? || pc.NoRoleYet?) && i.id !in t.owners
    ensures var (e, pc') := PlanBootstrap(t, c, name, pc, i); Advances(s, c, name, pc, i, Apply(t, e), pc')
  {
    var (e, pc') := PlanBootstrap(t, c, name, pc, i);
    FullLater(t, Apply(t, e), c, pc.catalog);
    hide CatalogIsFull;
  }

  lemma FullLater(t: State, t': State, c: ClientId, catalog: set<Id>)
    requires CatalogIsFull(t, c, catalog) && t'.permissions == t.permissions
    ensures CatalogIsFull(t', c, catalog)
  {
    forall m | m in MANAGEMENT ensures InCatalog(t', c, catalog, m) { assert InCatalog(t, c, catalog, m); }
  }

  lemma Granting(s: State, t: State, c: ClientId, name: string, pc: Pc, i: Input)
    requires BootstrapStage(s, t, c, name, pc) && pc.Managed?
    ensures var (e, pc') := PlanBootstrap(t, c, name, pc, i); Advances(s, c, name, pc, i, Apply(t, e), pc')
  {
    var t' := Apply(t, PlanBootstrap(t, c, name, pc, i).0);
    forall m | m in MANAGEMENT ensures RoleGrants(t', c, pc.admin, m) {
      assert InCatalog(t, c, pc.catalog, m);
      var p :| p in pc.catalog && p in t.permissions && t.permissions[p] == Permission(c, m.0, m.1);
      assert (pc.admin, p) in t'.rolePermissions;
    }
    hide InCatalog, RoleGrants;
  }

  lemma Inviting(s: State, t: State, c: ClientId, name: string, pc: Pc, i: Input)
    requires BootstrapStage(s, t, c, name, pc) && pc.Granted? && UserRolesInv(s) && i.id !in t.users
    ensures var (e, pc') := PlanBootstrap(t, c, name, pc, i); Advances(s, c, name, pc, i, Apply(t, e), pc')
  {
    var t' := Apply(t, PlanBootstrap(t, c, name, pc, i).0);
    RoleLater(t, t', c, name, pc.admin);
    assert (i.id, pc.admin, c) !in t.userRoles;
    hide RoleIsFull;
  }

  lemma RoleLater(t: State, t': State, c: ClientId, name: string, role: Id)
    requires RoleIsFull(t, c, name, role) && t'.permissions == t.permissions && t'.roles == t.roles
    requires t'.rolePermissions == t.rolePermissions
    ensures RoleIsFull(t', c, name, role)
  {
    forall m | m in MANAGEMENT ensures RoleGrants(t', c, role, m) { assert RoleGrants(t, c, role, m); }
  }

  lemma Appointing(s: State, t: State, c: ClientId, name: string, pc: Pc, i: Input)
    requires BootstrapStage(s, t, c, name, pc) && pc.HasAdmin?
    ensures var (e, pc') := PlanBootstrap(t, c, name, pc, i); Advances(s, c, name, pc, i, Apply(t, e), pc')
  {
    var t' := Apply(t, PlanBootstrap(t, c, name, pc, i).0);
    RoleLater(t, t', c, name, pc.admin);
    hide RoleIsFull;
    assert IsAdmin(s, t', c, name, pc.newUser, pc.admin);
  }

  lemma BootstrapAdvances(s: State, t: State, c: ClientId, name: string, pc: Pc, i: Input)
    requires BootstrapStage(s, t, c, name, pc) && UserRolesInv(s) && i.id !in t.users && i.id !in t.owners
    requires pc == Begin ==> Seeds(t, c, i.rows)
    ensures var (e, pc') := PlanBootstrap(t, c, name, pc, i); Advances(s, c, name, pc, i, Apply(t, e), pc')
  {
    hide UserRolesInv, Seeds, Apply;
    if pc == Done || pc == Failed {
      SameState(t);
      hide IsAdmin;
    } else {
      hide PlanBootstrap, Advances;
      if pc == Begin { Seeding(s, t, c, name, i); }
      else if pc == Seeded { Cataloguing(s, t, c, name, i); }
      else if pc.Catalogued? || pc.NoRoleYet? { FindingRole(s, t, c, name, pc, i); }
      else if pc.Managed? { Granting(s, t, c, name, pc, i); }
      else if pc.Granted? { Inviting(s, t, c, name, pc, i); }
      else { Appointing(s, t, c, name, pc, i); }
    }
  }

  lemma SameState(t: State)
    ensures Apply(t, Nothing) == t
  {}

  // Moving the request on is all that After adds to the effect.
  lemma StageIgnoresReqs(s: State, t: State, t': State, c: ClientId, name: string, pc: Pc)
    requires BootstrapStage(s, t, c, name, pc) && t' == t.(reqs := t'.reqs)
    ensures BootstrapStage(s, t', c, name, pc)
  {
    match pc
    case Catalogued(catalog) => FullLater(t, t', c, catalog); hide CatalogIsFull;
    case NoRoleYet(catalog) => FullLater(t, t', c, catalog); hide CatalogIsFull;
    case Managed(catalog, _) => FullLater(t, t', c, catalog); hide CatalogIsFull;
    case Granted(role) => RoleLater(t, t', c, name, role); hide RoleIsFull;
    case HasAdmin(role, _) => RoleLater(t, t', c, name, role); hide RoleIsFull;
    case Done =>
      var u, role :| IsAdmin(s, t, c, name, u, role);
      RoleLater(t, t', c, name, role);
      hide RoleIsFull;
      assert IsAdmin(s, t', c, name, u, role);
    case _ =>
  }

  lemma {:induction false} BootstrapStages(run: seq<State>, r: ReqId, c: ClientId, name: string, willing: bool, k: nat)
    requires Alone(run, r, willing) && k < |run| && UserRolesInv(run[0])
    requires Bootstrapping(run[0], r, c, name) && run[0].reqs[r].pc == Begin
    ensures Bootstrapping(run[k], r, c, name) && BootstrapStage(run[0], run[k], c, name, run[k].reqs[r].pc)
    ensures BootstrapRank(run[k].reqs[r].pc) >= k || Finished(run[k], r)
    ensures willing ==> run[k].reqs[r].pc != Failed
  {
    hide TakesStep, UserRolesInv;
    if k == 0 {
    } else {
      BootstrapStages(run, r, c, name, willing, k - 1);
      var s, t, t' := run[0], run[k - 1], run[k];
      assert TakesStep(t, r, run[k - 1 + 1], willing);
      hide BootstrapStage;
      BootstrapStepIs(s, t, r, c, name, t', willing);
    }
  }

  lemma BootstrapStepIs(s: State, t: State, r: ReqId, c: ClientId, name: string, t': State, willing: bool)
    requires Bootstrapping(t, r, c, name) && BootstrapStage(s, t, c, name, t.reqs[r].pc) && UserRolesInv(s)
    requires TakesStep(t, r, t', willing)
    ensures Bootstrapping(t', r, c, name) && BootstrapStage(s, t', c, name, t'.reqs[r].pc)
    ensures BootstrapRank(t'.reqs[r].pc) > BootstrapRank(t.reqs[r].pc)
            || (Finished(t, r) && t'.reqs[r].pc == t.reqs[r].pc)
    ensures willing && t.reqs[r].pc != Failed ==> t'.reqs[r].pc != Failed
  {
    var i :| CanAct(t, r, i) && t' == After(t, r, i) && (willing ==> i.ok);
    hide BootstrapStage, UserRolesInv, PlanBootstrap, Apply, Seeds;
    BootstrapAdvances(s, t, c, name, t.reqs[r].pc, i);
    var (e, pc) := PlanBootstrap(t, c, name, t.reqs[r].pc, i);
    assert t' == Apply(t, e).(reqs := t'.reqs);
    StageIgnoresReqs(s, Apply(t, e), t', c, name, pc);
  }

  // ----- Nothing else is granted -----

  // The management permissions.
  predicate IsManagement(resource: string, action: string) {
    && (resource == "users" || resource == "roles" || resource == "api-keys" || resource == "service-accounts")
    && (action == "read" || action == "write")
  }

  lemma ManagementIs(resource: string, action: string)
    ensures (resource, action) in MANAGEMENT <==> IsManagement(resource, action)
  {
    if IsManagement(resource, action) {
      var k := (if resource == "users" then 0 else if resource == "roles" then 2 else if resource == "api-keys" then 4
                else 6) + if action == "read" then 0 else 1;
      assert MANAGEMENT[k] == (resource, action);
    }
  }

  predicate IsOwnManagement(t: State, c: ClientId, p: Id) {
    && p in t.permissions && t.permissions[p].client == c
    && IsManagement(t.permissions[p].resource, t.permissions[p].action)
  }

  // Every new permission, and every permission newly granted to a role, is one of them.
  ghost predicate OnlyManagement(s: State, t: State, c: ClientId) {
    && (forall p :: p in t.permissions ==>
          (p in s.permissions && t.permissions[p] == s.permissions[p]) || IsOwnManagement(t, c, p))
    && (forall x :: x in t.rolePermissions ==> x in s.rolePermissions || IsOwnManagement(t, c, x.1))
  }

  ghost predicate CatalogIsManagement(t: State, c: ClientId, pc: Pc) {
    match pc
    case Catalogued(catalog) => forall p :: p in catalog ==> IsOwnManagement(t, c, p)
    case NoRoleYet(catalog) => forall p :: p in catalog ==> IsOwnManagement(t, c, p)
    case Managed(catalog, _) => forall p :: p in catalog ==> IsOwnManagement(t, c, p)
    case _ => true
  }

  lemma SeedsOnlyManagement(s: State, t: State, c: ClientId, rows: map<Id, Permission>)
    requires OnlyManagement(s, t, c) && Seeds(t, c, rows)
    ensures OnlyManagement(s, t.(permissions := t.permissions + rows), c)
  {
    var t' := t.(permissions := t.permissions + rows);
    forall p | p in rows ensures IsOwnManagement(t', c, p) { ManagementIs(rows[p].resource, rows[p].action); }
    forall p | IsOwnManagement(t, c, p) ensures IsOwnManagement(t', c, p) {}
    hide IsOwnManagement, Seeds;
  }

  lemma ReadsOnlyManagement(t: State, c: ClientId)
    ensures forall p :: p in ManagementRows(t, c) ==> IsOwnManagement(t, c, p)
  {
    forall p | p in ManagementRows(t, c) ensures IsOwnManagement(t, c, p) {
      ManagementIs(t.permissions[p].resource, t.permissions[p].action);
    }
  }

  lemma BootstrapOnlyManagement(s: State, t: State, c: ClientId, name: string, pc: Pc, i: Input)
    requires OnlyManagement(s, t, c) && CatalogIsManagement(t, c, pc) && (pc == Begin ==> Seeds(t, c, i.rows))
    ensures var (e, pc') := PlanBootstrap(t, c, name, pc, i);
            OnlyManagement(s, Apply(t, e), c) && CatalogIsManagement(Apply(t, e), c, pc')
  {
    var (e, pc') := PlanBootstrap(t, c, name, pc, i);
    if pc == Begin {
      SeedsOnlyManagement(s, t, c, i.rows);
      hide OnlyManagement, Seeds;
    } else if pc.Managed? {
      GrantsOnlyManagement(s, t, c, name, pc, i);
    } else {
      assert e == Nothing || e.InsertRole? || e.InsertUser? || e.LinkUser?;
      ReadsOnlyManagement(t, c);
      hide ManagementRows, PlanBootstrap, RoleByName;
      SamePermissions(s, t, Apply(t, e), c);
      CatalogStays(t, c, name, pc, i);
    }
  }

  lemma GrantsOnlyManagement(s: State, t: State, c: ClientId, name: string, pc: Pc, i: Input)
    requires OnlyManagement(s, t, c) && CatalogIsManagement(t, c, pc) && pc.Managed?
    ensures var (e, pc') := PlanBootstrap(t, c, name, pc, i);
            OnlyManagement(s, Apply(t, e), c) && CatalogIsManagement(Apply(t, e), c, pc')
  {
    var t' := Apply(t, PlanBootstrap(t, c, name, pc, i).0);
    forall p: Id ensures IsOwnManagement(t', c, p) == IsOwnManagement(t, c, p) {}
    hide IsOwnManagement;
  }

  lemma SamePermissions(s: State, t: State, t': State, c: ClientId)
    requires OnlyManagement(s, t, c) && t'.permissions == t.permissions && t'.rolePermissions == t.rolePermissions
    ensures OnlyManagement(s, t', c) && forall p: Id :: IsOwnManagement(t', c, p) == IsOwnManagement(t, c, p)
  {}

  // The catalog read is the management rows, and is kept as it is.
  lemma CatalogStays(t: State, c: ClientId, name: string, pc: Pc, i: Input)
    requires CatalogIsManagement(t, c, pc) && pc != Begin && !pc.Managed?
    requires forall p :: p in ManagementRows(t, c) ==> IsOwnManagement(t, c, p)
    ensures CatalogIsManagement(t, c, PlanBootstrap(t, c, name, pc, i).1)
  {
    hide ManagementRows, IsOwnManagement, RoleByName;
  }

  lemma {:induction false} OnlyManagementStages(run: seq<State>, r: ReqId, c: ClientId, name: string, willing: bool,
                                                k: nat)
    requires Alone(run, r, willing) && k < |run|
    requires Bootstrapping(run[0], r, c, name) && run[0].reqs[r].pc == Begin
    ensures Bootstrapping(run[k], r, c, name)
    ensures OnlyManagement(run[0], run[k], c) && CatalogIsManagement(run[k], c, run[k].reqs[r].pc)
  {
    hide TakesStep, IsOwnManagement;
    if k == 0 {
    } else {
      OnlyManagementStages(run, r, c, name, willing, k - 1);
      var s, t, t' := run[0], run[k - 1], run[k];
      assert TakesStep(t, r, run[k - 1 + 1], willing);
      hide OnlyManagement, CatalogIsManagement;
      OnlyManagementStep(s, t, r, c, name, t', willing);
    }
  }

  lemma OnlyManagementStep(s: State, t: State, r: ReqId, c: ClientId, name: string, t': State, willing: bool)
    requires Bootstrapping(t, r, c, name) && TakesStep(t, r, t', willing)
    requires OnlyManagement(s, t, c) && CatalogIsManagement(t, c, t.reqs[r].pc)
    ensures Bootstrapping(t', r, c, name) && OnlyManagement(s, t', c) && CatalogIsManagement(t', c, t'.reqs[r].pc)
  {
    var i :| CanAct(t, r, i) && t' == After(t, r, i) && (willing ==> i.ok);
    hide OnlyManagement, CatalogIsManagement, PlanBootstrap, Apply, Seeds;
    BootstrapOnlyManagement(s, t, c, name, t.reqs[r].pc, i);
    var (e, pc) := PlanBootstrap(t, c, name, t.reqs[r].pc, i);
    assert t' == Apply(t, e).(reqs := t'.reqs) && t'.reqs[r].pc == pc;
    ManagementIgnoresReqs(s, Apply(t, e), t', c, pc);
  }

  lemma ManagementIgnoresReqs(s: State, t: State, t': State, c: ClientId, pc: Pc)
    requires OnlyManagement(s, t, c) && CatalogIsManagement(t, c, pc) && t' == t.(reqs := t'.reqs)
    ensures OnlyManagement(s, t', c) && CatalogIsManagement(t', c, pc)
  {
    forall p: Id ensures IsOwnManagement(t', c, p) == IsOwnManagement(t, c, p) {}
    hide IsOwnManagement;
  }

  // A new user of the client, the only one to gain a role: the client's of that name, which
  // grants every management permission.
  ghost predicate Appointed(s: State, t: State, c: ClientId, name: string, u: Id, role: Id) {
    && u !in s.users && u in t.users && t.users[u] == c && t.userRoles == s.userRoles + {(u, role, c)}
    && NamedRole(t, c, name, role)
    && forall resource, action :: IsManagement(resource, action) ==> RoleGrants(t, c, role, (resource, action))
  }

  lemma AdminIsAppointed(s: State, t: State, c: ClientId, name: string, u: Id, role: Id)
    requires IsAdmin(s, t, c, name, u, role)
    ensures Appointed(s, t, c, name, u, role)
  {
    forall resource, action | IsManagement(resource, action) ensures RoleGrants(t, c, role, (resource, action)) {
      ManagementIs(resource, action);
    }
  }

  /**
   * Every run of a bootstrap alone is over after seven steps, and one that nothing refuses
   * succeeds. Success means one new admin of that client in a role that grants every
   * management permission, whether or not the rows or the role were there before; and
   * nothing else is ever granted.
   */
  lemma BootstrapAlone(run: seq<State>, r: ReqId, c: ClientId, name: string, willing: bool)
    requires Alone(run, r, willing) && UserRolesInv(run[0])
    requires Bootstrapping(run[0], r, c, name) && run[0].reqs[r].pc == Begin
    ensures var s, s' := run[0], run[|run| - 1];
            && r in s'.reqs && (|run| > 7 ==> Finished(s', r)) && OnlyManagement(s, s', c)
            && (willing ==> s'.reqs[r].pc != Failed)
            && (s'.reqs[r].pc == Done ==> exists u, role :: Appointed(s, s', c, name, u, role))
  {
    var s, s' := run[0], run[|run| - 1];
    BootstrapStages(run, r, c, name, willing, |run| - 1);
    OnlyManagementStages(run, r, c, name, willing, |run| - 1);
    hide Alone, OnlyManagement, CatalogIsManagement, Appointed;
    if s'.reqs[r].pc == Done {
      var u, role :| IsAdmin(s, s', c, name, u, role);
      AdminIsAppointed(s, s', c, name, u, role);
    }
  }
}
