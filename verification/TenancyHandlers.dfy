/**
 * The handlers that write roles, permissions and their junction rows, over mutable
 * tables. Each statement method is one step of the tenancy machine; Yield stands for
 * other requests at an await.
 */
module TenancyHandlers {
  import opened Wrappers
  import opened Traces
  import opened Tenancy
  import opened TenancyTheorems
  import TenancyAlone

  ghost predicate Traced(trace: seq<State>) {
    IsRun(trace) && Inv(trace[|trace| - 1])
  }

  lemma TraceStep(trace: seq<State>, e: Step, s: State)
    requires Traced(trace) && NextStep(trace[|trace| - 1], e, s)
    ensures Traced(trace + [s])
  {
    hide Inv, NextStep;
    NextKeepsInv(trace[|trace| - 1], e, s);
    Extended(trace, s, Next);
  }

  predicate SeedsUpTo(permissions: map<Id, Permission>, c: ClientId, rows: map<Id, Permission>, k: nat) {
    && k <= |MANAGEMENT|
    && (forall p :: p in rows ==> p !in permissions && rows[p].client == c)
    && (forall p :: p in rows ==> (rows[p].resource, rows[p].action) in MANAGEMENT)
    && (forall p :: p in rows ==> !Holds(permissions, c, (rows[p].resource, rows[p].action)))
    && (forall p, q :: p in rows && q in rows && rows[p] == rows[q] ==> p == q)
    && (forall j :: 0 <= j < k ==> Holds(permissions + rows, c, MANAGEMENT[j]))
  }

  lemma HoldsMore(permissions: map<Id, Permission>, more: map<Id, Permission>, c: ClientId, pair: (string, string))
    requires Holds(permissions, c, pair) && forall p :: p in permissions ==> p in more && more[p] == permissions[p]
    ensures Holds(more, c, pair)
  {}

  lemma SeedsOne(permissions: map<Id, Permission>, c: ClientId, rows: map<Id, Permission>, k: nat, id: Id)
    requires k < |MANAGEMENT| && SeedsUpTo(permissions, c, rows, k) && id !in permissions && id !in rows
    requires !Holds(permissions + rows, c, MANAGEMENT[k])
    ensures SeedsUpTo(permissions, c, rows[id := Permission(c, MANAGEMENT[k].0, MANAGEMENT[k].1)], k + 1)
  {
    hide Holds;
    var row := Permission(c, MANAGEMENT[k].0, MANAGEMENT[k].1);
    assert (row.resource, row.action) == MANAGEMENT[k];
    NotYetSeeded(permissions, c, rows, MANAGEMENT[k]);
    SeededSoFar(permissions, c, rows, k, id);
  }

  lemma NotYetSeeded(permissions: map<Id, Permission>, c: ClientId, rows: map<Id, Permission>, m: (string, string))
    requires permissions.Keys !! rows.Keys && !Holds(permissions + rows, c, m)
    ensures !Holds(permissions, c, m) && forall p :: p in rows ==> rows[p] != Permission(c, m.0, m.1)
  {
    if Holds(permissions, c, m) { HoldsMore(permissions, permissions + rows, c, m); }
    forall p | p in rows ensures rows[p] != Permission(c, m.0, m.1) { assert p in permissions + rows; }
  }

  lemma SeededSoFar(permissions: map<Id, Permission>, c: ClientId, rows: map<Id, Permission>, k: nat, id: Id)
    requires k < |MANAGEMENT| && SeedsUpTo(permissions, c, rows, k) && id !in permissions && id !in rows
    ensures var more := rows[id := Permission(c, MANAGEMENT[k].0, MANAGEMENT[k].1)];
            forall j :: 0 <= j < k + 1 ==> Holds(permissions + more, c, MANAGEMENT[j])
  {
    var row := Permission(c, MANAGEMENT[k].0, MANAGEMENT[k].1);
    var more := rows[id := row];
    forall j | 0 <= j < k + 1 ensures Holds(permissions + more, c, MANAGEMENT[j]) {
      if j < k { HoldsMore(permissions + rows, permissions + more, c, MANAGEMENT[j]); }
      else { assert (permissions + more)[id] == row; }
    }
  }

  lemma SeedsNone(permissions: map<Id, Permission>, c: ClientId, rows: map<Id, Permission>, k: nat, p: Id)
    requires k < |MANAGEMENT| && SeedsUpTo(permissions, c, rows, k)
    requires p in permissions + rows && (permissions + rows)[p] == Permission(c, MANAGEMENT[k].0, MANAGEMENT[k].1)
    ensures SeedsUpTo(permissions, c, rows, k + 1)
  {
    assert Holds(permissions + rows, c, MANAGEMENT[k]);
    hide Holds;
  }

  lemma SeedsAll(s: State, c: ClientId, rows: map<Id, Permission>)
    requires SeedsUpTo(s.permissions, c, rows, |MANAGEMENT|)
    ensures Seeds(s, c, rows)
  {
    hide Holds;
    forall m | m in MANAGEMENT ensures Holds(s.permissions + rows, c, m) {
      var j :| 0 <= j < |MANAGEMENT| && MANAGEMENT[j] == m;
    }
  }

  lemma SeedStep(s: State, r: ReqId, i: Input)
    requires CanAct(s, r, i) && s.reqs[r].job.Bootstrap? && s.reqs[r].pc == Begin
    ensures After(s, r, i) == if i.ok
            then s.(permissions := s.permissions + i.rows, reqs := s.reqs[r := s.reqs[r].(pc := Seeded)])
                              else s.(reqs := s.reqs[r := s.reqs[r].(pc := Failed)])
  {
    hide CanAct;
  }

  predicate Inserting(q: Request) {
    (q.job.CreateRole? && q.pc == PermsOwned) || (q.job.Bootstrap? && q.pc.NoRoleYet?)
  }

  function Inserted(q: Request, id: Id): Pc
    requires Inserting(q)
  {
    if q.job.Bootstrap? then Managed(q.pc.catalog, id) else if q.job.perms == [] then Done else HasRole(id)
  }

  lemma InsertRoleStep(s: State, r: ReqId, i: Input, q: Request)
    requires CanAct(s, r, i) && s.reqs[r] == q && Inserting(q)
    ensures var role := Role(q.client, q.job.name, q.job.CreateRole? && q.job.isDefault);
            After(s, r, i) ==
            if exists x :: x in s.roles && Named(s, x, q.client, q.job.name)
                then s.(reqs := s.reqs[r := q.(pc := Failed)])
            else s.(roles := s.roles[i.id := role], owners := s.owners[i.id := q.client], reqs :=
                    s.reqs[r := q.(pc := Inserted(q, i.id))])
  {
    hide CanAct, Named;
  }

  predicate LinkingPermissions(q: Request, role: Id, ids: seq<Id>) {
    || (q.job.CreateRole? && q.job.perms == ids && q.pc == HasRole(role))
    || (q.job.ReplacePermissions? && q.job.perms == ids && q.job.role == role && q.pc == Cleared)
  }

  lemma LinkPermissionsStep(s: State, r: ReqId, i: Input, q: Request, role: Id, ids: seq<Id>)
    requires CanAct(s, r, i) && s.reqs[r] == q && LinkingPermissions(q, role, ids)
    ensures var ok := role in s.roles && Distinct(ids) && forall p :: p in ids ==>
              p in s.permissions && (role, p) !in s.rolePermissions;
            After(s, r, i) ==
            if ok then s.(rolePermissions := s.rolePermissions + (set p | p in Set(ids) :: (role, p)), reqs :=
                          s.reqs[r := q.(pc := Done)])
            else s.(reqs := s.reqs[r := q.(pc := Failed)])
  {
    assert Plan(s, q, i) == LinkRows(s, role, ids) by { hide LinkRows; }
    hide CanAct, Plan, LinkingPermissions, Set, Distinct;
  }

  predicate LinkingUser(q: Request, user: Id, ids: set<Id>, distinct: bool) {
    || (q.job.ProvisionUser? && q.pc == HasUser(user) && ids == Set(q.job.roles) && distinct == Distinct(q.job.roles))
    || (q.job == SignUp && q.pc == HasDefaults(user, ids) && distinct)
    || (q.job.Bootstrap? && q.pc.HasAdmin? && q.pc.newUser == user && ids == {q.pc.admin} && distinct)
  }

  lemma LinkUserStep(s: State, r: ReqId, i: Input, q: Request, user: Id, ids: set<Id>, distinct: bool)
    requires CanAct(s, r, i) && s.reqs[r] == q && LinkingUser(q, user, ids, distinct)
    ensures var ok := distinct && user in s.users && forall x :: x in ids ==>
              x in s.roles && (user, x, q.client) !in s.userRoles;
            After(s, r, i) ==
            if ok then s.(userRoles := s.userRoles + (set x | x in ids :: (user, x, q.client)), reqs :=
                          s.reqs[r := q.(pc := Done)])
            else s.(reqs := s.reqs[r := q.(pc := Failed)])
  {
    LinkUserPlan(s, q, i, user, ids, distinct);
    hide CanAct, Plan, LinkingUser;
  }

  lemma LinkUserPlan(s: State, q: Request, i: Input, user: Id, ids: set<Id>, distinct: bool)
    requires LinkingUser(q, user, ids, distinct)
    ensures Plan(s, q, i) == if distinct then LinkUserRows(s, user, ids, q.client) else (Nothing, Failed)
  {
    hide LinkUserRows, Set, Distinct;
  }

  predicate Below(ids: set<Id>, n: nat) {
    forall x :: x in ids ==> x < n
  }

  // One row was added for each management permission that the client lacked.
  ghost predicate GainsManagement(before: map<Id, Permission>, after: map<Id, Permission>, c: ClientId) {
    && (forall p :: p in before ==> p in after && after[p] == before[p])
    && (forall p :: p in after && p !in before ==>
          && after[p].client == c && TenancyAlone.IsManagement(after[p].resource, after[p].action)
          && forall x :: x in after && after[x] == after[p] ==> x == p)
    && (forall resource, action :: TenancyAlone.IsManagement(resource, action) ==>
          exists p :: p in after && after[p] == Permission(c, resource, action))
  }

  lemma SeedsGainManagement(s: State, c: ClientId, rows: map<Id, Permission>)
    requires Seeds(s, c, rows)
    ensures GainsManagement(s.permissions, s.permissions + rows, c)
  {
    var after := s.permissions + rows;
    forall p | p in rows ensures TenancyAlone.IsManagement(rows[p].resource, rows[p].action) {
      TenancyAlone.ManagementIs(rows[p].resource, rows[p].action);
    }
    forall p, x | p in rows && x in after && after[x] == rows[p] ensures x == p {
      assert Permission(c, rows[p].resource, rows[p].action) == rows[p];
    }
    forall resource, action | TenancyAlone.IsManagement(resource, action)
      ensures exists p :: p in after && after[p] == Permission(c, resource, action)
    {
      TenancyAlone.ManagementIs(resource, action);
      assert Holds(after, c, (resource, action));
    }
  }

  lemma OnlyNamed(s: State, c: ClientId, name: string, role: Option<Id>)
    requires RolesInv(s) && (role.Some? ==> Named(s, role.value, c, name))
    requires role.None? ==> forall x :: x in s.roles ==> !Named(s, x, c, name)
    ensures role == RoleByName(s, c, name)
  {}

  class TenantStore {
    var permissions: map<Id, Permission>
    var roles: map<Id, Role>
    var users: map<Id, ClientId>
    var accounts: map<Id, ClientId>
    var rolePermissions: set<(Id, Id)>
    var userRoles: set<(Id, Id, ClientId)>
    var accountRoles: set<(Id, Id, ClientId)>
    var drawn: nat // no id at or above it has been drawn
    ghost var trace: seq<State>

    ghost predicate Valid()
      reads this
    {
      && Traced(trace)
      && Mirrors(trace[|trace| - 1])
    }

    ghost predicate Mirrors(s: State)
      reads this
    {
      && s.permissions == permissions && s.roles == roles && s.users == users && s.accounts == accounts
      && s.rolePermissions == rolePermissions && s.userRoles == userRoles && s.accountRoles == accountRoles
      && Below(permissions.Keys, drawn) && Below(s.owners.Keys, drawn) && Below(users.Keys, drawn)
         && Below(accounts.Keys, drawn)
    }

    ghost function Last(): State
      requires trace != []
      reads this
    {
      trace[|trace| - 1]
    }

    ghost predicate At(r: ReqId, q: Request)
      reads this
    {
      trace != [] && r in Last().reqs && Last().reqs[r] == q
    }

    // An empty deployment.
    constructor ()
      ensures Valid() && |trace| == 1 && Init(trace[0])
    {
      permissions, roles, users, accounts := map[], map[], map[], map[];
      rolePermissions, userRoles, accountRoles, drawn := {}, {}, {}, 0;
      trace := [State(map[], map[], map[], map[], {}, {}, {}, map[], map[])];
    }

    // Other requests may run any statements here; this request's own position stays.
    method Yield(ghost r: ReqId)
      requires Valid() && r in Last().reqs
      modifies this
      ensures Valid() && old(trace) <= trace && At(r, old(Last().reqs[r]))
    {}

    ghost method Record(e: Step, s: State)
      requires Traced(trace) && NextStep(Last(), e, s) && Mirrors(s)
      modifies this`trace
      ensures Valid() && trace == old(trace) + [s]
    {
      hide Inv, NextStep;
      TraceStep(trace, e, s);
      trace := trace + [s];
    }

    // The statement just performed is the request's step.
    ghost method Acted(r: ReqId, i: Input)
      requires Traced(trace) && CanAct(Last(), r, i) && Mirrors(After(Last(), r, i))
      modifies this`trace
      ensures Valid() && trace == old(trace) + [After(old(Last()), r, i)]
    {
      hide Inv, After;
      Record(Act(r, i), After(Last(), r, i));
    }

    ghost function NoInput(): Input
      reads this
    {
      Input(drawn, true, map[])
    }

    lemma LinksInv()
      requires Valid()
      ensures trace != [] && RolesInv(Last()) && OneClientLinks(Last())
    {
      hide ReqsInv, RolesInv, OneClientLinks;
    }

    // ----- Ownership queries -----

    method AssertPermissionsBelongToClient(ids: seq<Id>, c: ClientId, ghost q: Request, ghost r: ReqId)
      returns (ok: bool)
      requires Valid() && At(r, q) && q.client == c
      requires (q.job.CreateRole? && q.pc == Begin && q.job.perms == ids)
               || (q.job.ReplacePermissions? && q.pc == RoleOwned && q.job.perms == ids)
      modifies this`trace
      ensures Valid() && trace == old(trace) + [After(old(Last()), r, NoInput())]
      ensures At(r, q.(pc := if ok then PermsOwned else Failed))
      ensures ok <==> forall p :: p in ids ==> p in permissions && permissions[p].client == c
    {
      hide Traced, Inv;
      CountDecidesOwnership(Last(), ids, c);
      TenancyAlone.OwnsEachIsOwned(Last(), c, ids);
      var owned := PermissionsAmong(permissions, ids, c);
      ok := |ids| == 0 || |owned| == |Set(ids)|;
      hide PermissionsAmong;
      Acted(r, NoInput());
    }

    method AssertRolesBelongToClient(ids: seq<Id>, c: ClientId, ghost q: Request, ghost r: ReqId) returns (ok: bool)
      requires Valid() && At(r, q) && q.client == c && q.pc == Begin
      requires (q.job.ProvisionUser? && q.job.roles == ids) || (q.job.CreateAccount? && q.job.roles == ids)
      modifies this`trace
      ensures Valid() && trace == old(trace) + [After(old(Last()), r, NoInput())]
      ensures At(r, q.(pc := if ok then RolesOwned else Failed))
      ensures ok <==> forall x :: x in ids ==> x in roles && roles[x].client == c
    {
      hide Traced, Inv;
      CountDecidesOwnership(Last(), ids, c);
      var owned := RolesAmong(roles, ids, c);
      ok := |ids| == 0 || |owned| == |Set(ids)|;
      hide RolesAmong;
      Acted(r, NoInput());
    }

    method AssertRoleBelongsToClient(role: Id, c: ClientId, ghost q: Request, ghost r: ReqId) returns (ok: bool)
      requires Valid() && At(r, q) && q.client == c
      requires || (q.job.ReplacePermissions? && q.job.role == role && q.pc == Begin)
               || (q.job.AssignRole? && q.job.role == role && q.pc == Begin)
               || (q.job.AssignAccountRole? && q.job.role == role && q.pc == AccountOwned)
      modifies this`trace
      ensures Valid() && trace == old(trace) + [After(old(Last()), r, NoInput())]
      ensures At(r, q.(pc := if !ok then Failed else if q.job.AssignAccountRole? then BothOwned else RoleOwned))
      ensures ok <==> role in roles && roles[role].client == c
    {
      hide Traced, Inv;
      ok := role in roles && roles[role].client == c;
      Acted(r, NoInput());
    }

    method AssertUserBelongsToClient(user: Id, c: ClientId, ghost q: Request, ghost r: ReqId) returns (ok: bool)
      requires Valid() && At(r, q) && q.client == c
      requires || (q.job.AssignRole? && q.job.user == user && q.pc == RoleOwned)
               || (q.job.RevokeRole? && q.job.user == user && q.pc == Begin)
      modifies this`trace
      ensures Valid() && trace == old(trace) + [After(old(Last()), r, NoInput())]
      ensures At(r, q.(pc := if !ok then Failed else if q.job.RevokeRole? then Checked else BothOwned))
      ensures ok <==> user in users && users[user] == c
    {
      hide Traced, Inv;
      ok := user in users && users[user] == c;
      Acted(r, NoInput());
    }

    method AssertServiceAccountBelongsToClient(account: Id, c: ClientId, ghost q: Request, ghost r: ReqId)
      returns (ok: bool)
      requires Valid() && At(r, q) && q.client == c && q.pc == Begin
      requires (q.job.AssignAccountRole? || q.job.RevokeAccountRole?) && q.job.account == account
      modifies this`trace
      ensures Valid() && trace == old(trace) + [After(old(Last()), r, NoInput())]
      ensures At(r, q.(pc := if !ok then Failed else if q.job.RevokeAccountRole? then Checked else AccountOwned))
      ensures ok <==> account in accounts && accounts[account] == c
    {
      hide Traced, Inv;
      ok := account in accounts && accounts[account] == c;
      Acted(r, NoInput());
    }

    // ----- Inserts -----

    // INSERT INTO roles; the unique (client, name) index may refuse it.
    method InsertRoleRow(c: ClientId, name: string, isDefault: bool, ghost q: Request, ghost r: ReqId)
      returns (role: Option<Id>)
      requires Valid() && At(r, q) && q.client == c
      requires Inserting(q) && q.job.name == name && isDefault == (q.job.CreateRole? && q.job.isDefault)
      modifies this
      ensures Valid() && old(trace) <= trace && |trace| == |old(trace)| + 1
      ensures roles == if role.Some? then old(roles)[role.value := Role(c, name, isDefault)] else old(roles)
      ensures role.None? <==> exists x :: x in old(roles) && old(roles)[x].client == c && old(roles)[x].name == name
      ensures role.None? ==> At(r, q.(pc := Failed))
      ensures role.Some? ==> At(r, q.(pc := Inserted(q, role.value)))
    {
      hide Traced, Inv;
      ghost var i, s := NoInput(), Last();
      InsertRoleStep(s, r, i, q);
      hide After, Plan;
      var taken := set x | x in roles && roles[x].client == c && roles[x].name == name;
      assert forall x :: x in taken <==> x in s.roles && Named(s, x, c, name);
      if taken != {} {
        var x :| x in taken;
        role := None;
      } else {
        role := Some(drawn);
        roles := roles[drawn := Role(c, name, isDefault)];
        drawn := drawn + 1;
      }
      Acted(r, i);
    }

    // INSERT INTO role_permissions without ON CONFLICT: all rows or none.
    method InsertRolePermissions(role: Id, ids: seq<Id>, ghost q: Request, ghost r: ReqId) returns (ok: bool)
      requires Valid() && At(r, q)
      requires LinkingPermissions(q, role, ids)
      modifies this
      ensures Valid() && trace == old(trace) + [After(old(Last()), r, old(NoInput()))]
      ensures At(r, q.(pc := if ok then Done else Failed))
      ensures rolePermissions == if ok then old(rolePermissions) + (set p | p in ids :: (role, p))
                else old(rolePermissions)
      ensures ok <==>
                && role in roles && TenancyAlone.NoneTwice(ids)
                && forall p :: p in ids ==> p in permissions && (role, p) !in old(rolePermissions)
    {
      hide Traced, Inv;
      ghost var i := NoInput();
      LinkPermissionsStep(Last(), r, i, q, role, ids);
      TenancyAlone.NoneTwiceIsDistinct(ids);
      hide After, Plan, LinkingPermissions, Distinct;
      ok := role in roles && Distinct(ids) &&
            forall p :: p in ids ==> p in permissions && (role, p) !in rolePermissions;
      assert (set p | p in Set(ids) :: (role, p)) == (set p | p in ids :: (role, p));
      if ok { rolePermissions := rolePermissions + (set p | p in ids :: (role, p)); }
      Acted(r, i);
    }

    method DeleteRolePermissions(role: Id, ghost q: Request, ghost r: ReqId)
      requires Valid() && At(r, q) && q.job.ReplacePermissions? && q.job.role == role && q.pc == PermsOwned
      modifies this
      ensures Valid() && trace == old(trace) + [After(old(Last()), r, old(NoInput()))]
      ensures At(r, q.(pc := if q.job.perms == [] then Done else Cleared))
      ensures rolePermissions == set x | x in old(rolePermissions) && x.0 != role
    {
      hide Traced, Inv;
      ghost var i := NoInput();
      rolePermissions := set x | x in rolePermissions && x.0 != role;
      Acted(r, i);
    }

    // INSERT INTO users; a taken email or an earlier check may refuse it.
    method InsertUserRow(c: ClientId, refused: bool, ghost q: Request, ghost r: ReqId) returns (user: Option<Id>)
      requires Valid() && At(r, q) && q.client == c
      requires (q.job.ProvisionUser? && q.pc == RolesOwned) || (q.job == Job.SignUp && q.pc == Begin)
               || (q.job.Bootstrap? && q.pc.Granted?)
      modifies this
      ensures Valid() && old(trace) <= trace && |trace| == |old(trace)| + 1
      ensures (user.None? <==> refused) && users == if refused then old(users) else old(users)[user.value := c]
      ensures refused ==> At(r, q.(pc := Failed))
      ensures !refused && q.job.ProvisionUser? ==>
                At(r, q.(pc := if q.job.roles == [] then Done else HasUser(user.value)))
      ensures !refused && q.job == Job.SignUp ==> At(r, q.(pc := HasUser(user.value)))
      ensures !refused && q.job.Bootstrap? ==> At(r, q.(pc := HasAdmin(q.pc.admin, user.value)))
    {
      hide Traced, Inv;
      ghost var i := NoInput().(ok := !refused);
      user := None;
      if !refused {
        user := Some(drawn);
        users := users[drawn := c];
        drawn := drawn + 1;
      }
      Acted(r, i);
    }

    // INSERT INTO user_roles without ON CONFLICT: all rows or none.
    method InsertUserRoles(user: Id, ids: set<Id>, distinct: bool, c: ClientId, ghost q: Request, ghost r: ReqId)
      returns (ok: bool)
      requires Valid() && At(r, q) && q.client == c
      requires LinkingUser(q, user, ids, distinct)
      modifies this
      ensures Valid() && trace == old(trace) + [After(old(Last()), r, old(NoInput()))]
      ensures At(r, q.(pc := if ok then Done else Failed))
      ensures userRoles == if ok then old(userRoles) + (set x | x in ids :: (user, x, c)) else old(userRoles)
      ensures ok <==>
                distinct && user in users && forall x :: x in ids ==> x in roles && (user, x, c) !in old(userRoles)
    {
      hide Traced, Inv;
      ghost var i := NoInput();
      LinkUserStep(Last(), r, i, q, user, ids, distinct);
      hide After, Plan, LinkingUser;
      ok := distinct && user in users && forall x :: x in ids ==> x in roles && (user, x, c) !in userRoles;
      if ok { userRoles := userRoles + (set x | x in ids :: (user, x, c)); }
      Acted(r, i);
    }

    // INSERT INTO user_roles ON CONFLICT DO NOTHING
    method InsertUserRole(user: Id, role: Id, c: ClientId, ghost q: Request, ghost r: ReqId) returns (ok: bool)
      requires Valid() && At(r, q) && q.client == c && q.job == Job.AssignRole(user, role) && q.pc == BothOwned
      modifies this
      ensures Valid() && trace == old(trace) + [After(old(Last()), r, old(NoInput()))]
      ensures At(r, q.(pc := if ok then Done else Failed))
      ensures userRoles == if ok then old(userRoles) + {(user, role, c)} else old(userRoles)
      ensures ok <==> role in roles && user in users
    {
      hide Traced, Inv;
      ghost var i := NoInput();
      ok := role in roles && user in users;
      assert (set x | x in {role} :: (user, x, c)) == {(user, role, c)};
      if ok { userRoles := userRoles + {(user, role, c)}; }
      Acted(r, i);
    }

    method InsertAccountRow(c: ClientId, refused: bool, ghost q: Request, ghost r: ReqId) returns (account: Option<Id>)
      requires Valid() && At(r, q) && q.client == c && q.job.CreateAccount? && q.pc == RolesOwned
      modifies this
      ensures Valid() && old(trace) <= trace && |trace| == |old(trace)| + 1
      ensures (account.None? <==> refused) && accounts == if refused then old(accounts)
                else old(accounts)[account.value := c]
      ensures At(r, q.(pc := if refused then Failed else if q.job.roles == [] then Done else HasAccount(account.value)))
    {
      hide Traced, Inv;
      ghost var i := NoInput().(ok := !refused);
      account := None;
      if !refused {
        account := Some(drawn);
        accounts := accounts[drawn := c];
        drawn := drawn + 1;
      }
      Acted(r, i);
    }

    method InsertAccountRoles(account: Id, ids: seq<Id>, c: ClientId, ghost q: Request, ghost r: ReqId)
      returns (ok: bool)
      requires Valid() && At(r, q) && q.client == c && q.job == Job.CreateAccount(ids) && q.pc == HasAccount(account)
      modifies this
      ensures Valid() && trace == old(trace) + [After(old(Last()), r, old(NoInput()))]
      ensures At(r, q.(pc := if ok then Done else Failed))
      ensures accountRoles == if ok then old(accountRoles) + (set x | x in ids :: (account, x, c))
                else old(accountRoles)
      ensures ok <==>
                account in accounts && forall x :: x in ids ==> x in roles && (account, x, c) !in old(accountRoles)
    {
      hide Traced, Inv;
      ghost var i := NoInput();
      ok := account in accounts && forall x :: x in ids ==> x in roles && (account, x, c) !in accountRoles;
      assert (set x | x in Set(ids) :: (account, x, c)) == (set x | x in ids :: (account, x, c));
      if ok { accountRoles := accountRoles + (set x | x in ids :: (account, x, c)); }
      Acted(r, i);
    }

    method InsertAccountRole(account: Id, role: Id, c: ClientId, ghost q: Request, ghost r: ReqId) returns (ok: bool)
      requires Valid() && At(r, q) && q.client == c && q.job == Job.AssignAccountRole(account, role)
      requires q.pc == BothOwned
      modifies this
      ensures Valid() && trace == old(trace) + [After(old(Last()), r, old(NoInput()))]
      ensures At(r, q.(pc := if ok then Done else Failed))
      ensures accountRoles == if ok then old(accountRoles) + {(account, role, c)} else old(accountRoles)
      ensures ok <==> role in roles && account in accounts
    {
      hide Traced, Inv;
      ghost var i := NoInput();
      ok := role in roles && account in accounts;
      assert (set x | x in {role} :: (account, x, c)) == {(account, role, c)};
      if ok { accountRoles := accountRoles + {(account, role, c)}; }
      Acted(r, i);
    }

    // ----- Handlers of src/routes/roles.ts -----

    method NewRole(c: ClientId, name: string, isDefault: bool, ids: seq<Id>, ghost q: Request, ghost r: ReqId)
      returns (role: Option<Id>)
      requires Valid() && q == Request(c, Job.CreateRole(name, isDefault, ids), Begin) && At(r, q)
      modifies this
      ensures Valid() && old(trace) <= trace
      ensures role.None? ==> At(r, q.(pc := Failed))
      ensures role.Some? ==> At(r, q.(pc := if ids == [] then Done else HasRole(role.value)))
    {
      hide Traced, Inv, Mirrors, After, OwnedPermissions, Set;
      var ok := AssertPermissionsBelongToClient(ids, c, q, r);
      if !ok { return None; }
      Yield(r);
      role := InsertRoleRow(c, name, isDefault, q.(pc := PermsOwned), r);
    }

    method CreateRole(c: ClientId, name: string, isDefault: bool, ids: seq<Id>, ghost r: ReqId) returns (ok: bool)
      requires Valid() && At(r, Request(c, Job.CreateRole(name, isDefault, ids), Begin))
      modifies this
      ensures Valid() && old(trace) <= trace
      ensures At(r, Request(c, Job.CreateRole(name, isDefault, ids), if ok then Done else Failed))
    {
      hide Traced, Inv, Mirrors, After, Distinct;
      ghost var q := Request(c, Job.CreateRole(name, isDefault, ids), Begin);
      var role := NewRole(c, name, isDefault, ids, q, r);
      ok := role.Some?;
      if ok && |ids| > 0 {
        Yield(r);
        ok := InsertRolePermissions(role.value, ids, q.(pc := HasRole(role.value)), r);
      }
    }

    method CheckReplacement(c: ClientId, role: Id, ids: seq<Id>, ghost q: Request, ghost r: ReqId) returns (ok: bool)
      requires Valid() && q == Request(c, Job.ReplacePermissions(role, ids), Begin) && At(r, q)
      modifies this
      ensures Valid() && old(trace) <= trace && At(r, q.(pc := if ok then PermsOwned else Failed))
    {
      hide Traced, Inv, Mirrors, After, OwnedPermissions, Set;
      ok := AssertRoleBelongsToClient(role, c, q, r);
      if !ok { return; }
      Yield(r);
      ok := AssertPermissionsBelongToClient(ids, c, q.(pc := RoleOwned), r);
    }

    method ReplacePermissions(c: ClientId, role: Id, ids: seq<Id>, ghost r: ReqId) returns (ok: bool)
      requires Valid() && At(r, Request(c, Job.ReplacePermissions(role, ids), Begin))
      modifies this
      ensures Valid() && old(trace) <= trace
      ensures At(r, Request(c, Job.ReplacePermissions(role, ids), if ok then Done else Failed))
    {
      hide Traced, Inv, Mirrors, After, OwnedPermissions, Set;
      ghost var q := Request(c, Job.ReplacePermissions(role, ids), Begin);
      ok := CheckReplacement(c, role, ids, q, r);
      if !ok { return; }
      Yield(r);
      DeleteRolePermissions(role, q.(pc := PermsOwned), r);
      if |ids| > 0 {
        Yield(r);
        ok := InsertRolePermissions(role, ids, q.(pc := Cleared), r);
      }
    }

    // The foreign keys cascade to all three junction tables.
    method DeleteRole(c: ClientId, role: Id) returns (found: bool)
      requires Valid()
      modifies this
      ensures Valid() && old(trace) <= trace
      ensures found <==> role in old(roles) && old(roles)[role].client == c
      ensures !found ==> trace == old(trace)
      ensures found ==>
                && roles == old(roles) - {role}
                && rolePermissions == (set x | x in old(rolePermissions) && x.0 != role)
                && userRoles == (set x | x in old(userRoles) && x.1 != role)
                && accountRoles == (set x | x in old(accountRoles) && x.1 != role)
      ensures permissions == old(permissions) && users == old(users) && accounts == old(accounts)
    {
      hide Inv, RolesInv, OneClientLinks;
      LinksInv();
      hide Traced;
      found := role in roles && roles[role].client == c;
      if found {
        ghost var s := Last();
        roles := roles - {role};
        rolePermissions := set x | x in rolePermissions && x.0 != role;
        userRoles := set x | x in userRoles && x.1 != role;
        accountRoles := set x | x in accountRoles && x.1 != role;
        Record(Step.DeleteRole(c, role), Deleted(s, role));
      }
    }

    method CheckAssignment(c: ClientId, user: Id, role: Id, ghost q: Request, ghost r: ReqId) returns (ok: bool)
      requires Valid() && q == Request(c, Job.AssignRole(user, role), Begin) && At(r, q)
      modifies this
      ensures Valid() && old(trace) <= trace && At(r, q.(pc := if ok then BothOwned else Failed))
    {
      hide Traced, Inv, Mirrors, After;
      ok := AssertRoleBelongsToClient(role, c, q, r);
      if !ok { return; }
      Yield(r);
      ok := AssertUserBelongsToClient(user, c, q.(pc := RoleOwned), r);
    }

    method AssignRole(c: ClientId, user: Id, role: Id, ghost r: ReqId) returns (ok: bool)
      requires Valid() && At(r, Request(c, Job.AssignRole(user, role), Begin))
      modifies this
      ensures Valid() && old(trace) <= trace
      ensures At(r, Request(c, Job.AssignRole(user, role), if ok then Done else Failed))
    {
      hide Traced, Inv, Mirrors, After;
      ghost var q := Request(c, Job.AssignRole(user, role), Begin);
      ok := CheckAssignment(c, user, role, q, r);
      if !ok { return; }
      Yield(r);
      ok := InsertUserRole(user, role, c, q.(pc := BothOwned), r);
    }

    method RevokeRole(c: ClientId, user: Id, role: Id, ghost r: ReqId) returns (ok: bool)
      requires Valid() && At(r, Request(c, Job.RevokeRole(user, role), Begin))
      modifies this
      ensures Valid() && old(trace) <= trace
      ensures At(r, Request(c, Job.RevokeRole(user, role), if ok then Done else Failed))
      ensures ok ==> (user, role, c) !in userRoles
    {
      hide Traced, Inv, Mirrors, After;
      ghost var q := Request(c, Job.RevokeRole(user, role), Begin);
      ok := AssertUserBelongsToClient(user, c, q, r);
      if !ok { return; }
      Yield(r);
      DeleteUserRole(user, role, c, q.(pc := Checked), r);
    }

    method DeleteUserRole(user: Id, role: Id, c: ClientId, ghost q: Request, ghost r: ReqId)
      requires Valid() && At(r, q) && q.client == c && q.job == Job.RevokeRole(user, role) && q.pc == Checked
      modifies this
      ensures Valid() && trace == old(trace) + [After(old(Last()), r, old(NoInput()))] && At(r, q.(pc := Done))
      ensures userRoles == old(userRoles) - {(user, role, c)}
    {
      hide Traced, Inv;
      ghost var i := NoInput();
      userRoles := userRoles - {(user, role, c)};
      Acted(r, i);
    }

    // ----- POST /users, and sign-up with assignDefaultRoles -----

    method ProvisionRow(c: ClientId, ids: seq<Id>, refused: bool, ghost q: Request, ghost r: ReqId)
      returns (user: Option<Id>)
      requires Valid() && q == Request(c, Job.ProvisionUser(ids), Begin) && At(r, q)
      modifies this
      ensures Valid() && old(trace) <= trace
      ensures user.None? ==> At(r, q.(pc := Failed))
      ensures user.Some? ==> At(r, q.(pc := if ids == [] then Done else HasUser(user.value)))
    {
      hide Traced, Inv, Mirrors, After, Set, OwnsRole;
      var ok := AssertRolesBelongToClient(ids, c, q, r);
      if !ok { return None; }
      Yield(r);
      user := InsertUserRow(c, refused, q.(pc := RolesOwned), r);
    }

    method ProvisionUser(c: ClientId, ids: seq<Id>, refused: bool, ghost r: ReqId) returns (ok: bool)
      requires Valid() && At(r, Request(c, Job.ProvisionUser(ids), Begin))
      modifies this
      ensures Valid() && old(trace) <= trace && At(r, Request(c, Job.ProvisionUser(ids), if ok then Done else Failed))
    {
      hide Traced, Inv, Mirrors, After, Set, Distinct, OwnsRole;
      ghost var q := Request(c, Job.ProvisionUser(ids), Begin);
      var user := ProvisionRow(c, ids, refused, q, r);
      ok := user.Some?;
      if ok && |ids| > 0 {
        Yield(r);
        ok := InsertUserRoles(user.value, Set(ids), Distinct(ids), c, q.(pc := HasUser(user.value)), r);
      }
    }

    method SelectDefaultRoles(user: Id, c: ClientId, ghost q: Request, ghost r: ReqId) returns (defaults: set<Id>)
      requires Valid() && At(r, q) && q.client == c && q.job == Job.SignUp && q.pc == HasUser(user)
      modifies this`trace
      ensures Valid() && trace == old(trace) + [After(old(Last()), r, NoInput())]
      ensures At(r, q.(pc := if defaults == {} then Done else HasDefaults(user, defaults)))
      ensures defaults == set x | x in roles && roles[x].client == c && roles[x].isDefault
    {
      hide Traced, Inv;
      defaults := set x | x in roles && roles[x].client == c && roles[x].isDefault;
      assert defaults == DefaultRoles(Last(), c);
      Acted(r, NoInput());
    }

    method SignUp(c: ClientId, refused: bool, ghost r: ReqId) returns (ok: bool)
      requires Valid() && At(r, Request(c, Job.SignUp, Begin))
      modifies this
      ensures Valid() && old(trace) <= trace && At(r, Request(c, Job.SignUp, if ok then Done else Failed))
    {
      hide Traced, Inv, Mirrors, After;
      ghost var q := Request(c, Job.SignUp, Begin);
      var user := InsertUserRow(c, refused, q, r);
      if user.None? { return false; }
      Yield(r);
      var defaults := SelectDefaultRoles(user.value, c, q.(pc := HasUser(user.value)), r);
      if defaults == {} { return true; }
      Yield(r);
      ok := InsertUserRoles(user.value, defaults, true, c, q.(pc := HasDefaults(user.value, defaults)), r);
    }

    // ----- Handlers of src/routes/serviceAccounts.ts -----

    method NewAccount(c: ClientId, ids: seq<Id>, refused: bool, ghost q: Request, ghost r: ReqId)
      returns (account: Option<Id>)
      requires Valid() && q == Request(c, Job.CreateAccount(ids), Begin) && At(r, q)
      modifies this
      ensures Valid() && old(trace) <= trace
      ensures account.None? ==> At(r, q.(pc := Failed))
      ensures account.Some? ==> At(r, q.(pc := if ids == [] then Done else HasAccount(account.value)))
    {
      hide Traced, Inv, Mirrors, After, Set, OwnsRole;
      var ok := AssertRolesBelongToClient(ids, c, q, r);
      if !ok { return None; }
      Yield(r);
      account := InsertAccountRow(c, refused, q.(pc := RolesOwned), r);
    }

    method CreateAccount(c: ClientId, ids: seq<Id>, refused: bool, ghost r: ReqId) returns (ok: bool)
      requires Valid() && At(r, Request(c, Job.CreateAccount(ids), Begin))
      modifies this
      ensures Valid() && old(trace) <= trace && At(r, Request(c, Job.CreateAccount(ids), if ok then Done else Failed))
    {
      hide Traced, Inv, Mirrors, After, Distinct;
      ghost var q := Request(c, Job.CreateAccount(ids), Begin);
      var account := NewAccount(c, ids, refused, q, r);
      ok := account.Some?;
      if ok && |ids| > 0 {
        Yield(r);
        ok := InsertAccountRoles(account.value, ids, c, q.(pc := HasAccount(account.value)), r);
      }
    }

    method CheckAccountAssignment(c: ClientId, account: Id, role: Id, ghost q: Request, ghost r: ReqId)
      returns (ok: bool)
      requires Valid() && q == Request(c, Job.AssignAccountRole(account, role), Begin) && At(r, q)
      modifies this
      ensures Valid() && old(trace) <= trace && At(r, q.(pc := if ok then BothOwned else Failed))
    {
      hide Traced, Inv, Mirrors, After;
      ok := AssertServiceAccountBelongsToClient(account, c, q, r);
      if !ok { return; }
      Yield(r);
      ok := AssertRoleBelongsToClient(role, c, q.(pc := AccountOwned), r);
    }

    method AssignAccountRole(c: ClientId, account: Id, role: Id, ghost r: ReqId) returns (ok: bool)
      requires Valid() && At(r, Request(c, Job.AssignAccountRole(account, role), Begin))
      modifies this
      ensures Valid() && old(trace) <= trace
      ensures At(r, Request(c, Job.AssignAccountRole(account, role), if ok then Done else Failed))
    {
      hide Traced, Inv, Mirrors, After;
      ghost var q := Request(c, Job.AssignAccountRole(account, role), Begin);
      ok := CheckAccountAssignment(c, account, role, q, r);
      if !ok { return; }
      Yield(r);
      ok := InsertAccountRole(account, role, c, q.(pc := BothOwned), r);
    }

    method RevokeAccountRole(c: ClientId, account: Id, role: Id, ghost r: ReqId) returns (ok: bool)
      requires Valid() && At(r, Request(c, Job.RevokeAccountRole(account, role), Begin))
      modifies this
      ensures Valid() && old(trace) <= trace
      ensures At(r, Request(c, Job.RevokeAccountRole(account, role), if ok then Done else Failed))
      ensures ok ==> (account, role, c) !in accountRoles
    {
      hide Traced, Inv, Mirrors, After;
      ghost var q := Request(c, Job.RevokeAccountRole(account, role), Begin);
      ok := AssertServiceAccountBelongsToClient(account, c, q, r);
      if !ok { return; }
      Yield(r);
      DeleteAccountRole(account, role, c, q.(pc := Checked), r);
    }

    method DeleteAccountRole(account: Id, role: Id, c: ClientId, ghost q: Request, ghost r: ReqId)
      requires Valid() && At(r, q) && q.client == c && q.job == Job.RevokeAccountRole(account, role) && q.pc == Checked
      modifies this
      ensures Valid() && trace == old(trace) + [After(old(Last()), r, old(NoInput()))] && At(r, q.(pc := Done))
      ensures accountRoles == old(accountRoles) - {(account, role, c)}
    {
      hide Traced, Inv;
      ghost var i := NoInput();
      accountRoles := accountRoles - {(account, role, c)};
      Acted(r, i);
    }

    // ----- POST /clients/:id/bootstrap -----

    // The rows that ON CONFLICT DO NOTHING lets in: one for each pair the client lacks.
    method MissingManagement(c: ClientId) returns (rows: map<Id, Permission>, next: nat)
      requires Valid()
      ensures trace != [] && Seeds(Last(), c, rows) && next >= drawn && forall p :: p in rows ==> drawn <= p < next
      ensures GainsManagement(permissions, permissions + rows, c)
    {
      hide Inv, RolesInv, OneClientLinks;
      LinksInv();
      hide Traced;
      rows, next := map[], drawn;
      for k := 0 to |MANAGEMENT|
        invariant next >= drawn && forall p :: p in rows ==> drawn <= p < next
        invariant SeedsUpTo(permissions, c, rows, k)
      {
        var m := MANAGEMENT[k];
        var row := Permission(c, m.0, m.1);
        var there := set p | p in permissions + rows && (permissions + rows)[p] == row;
        if there == {} {
          assert !Holds(permissions + rows, c, m) by { assert forall p :: p in permissions + rows ==> p !in there; }
          SeedsOne(permissions, c, rows, k, next);
          rows := rows[next := row];
          next := next + 1;
        } else {
          var p :| p in there;
          SeedsNone(permissions, c, rows, k, p);
        }
        hide SeedsUpTo, Holds;
      }
      hide SeedsUpTo, Holds, Seeds, GainsManagement;
      SeedsAll(Last(), c, rows);
      SeedsGainManagement(Last(), c, rows);
    }

    method SeedPermissions(c: ClientId, refused: bool, ghost q: Request, ghost r: ReqId)
      requires Valid() && At(r, q) && q.client == c && q.job.Bootstrap? && q.pc == Begin
      modifies this
      ensures Valid() && old(trace) <= trace && At(r, q.(pc := if refused then Failed else Seeded))
      ensures refused ==> permissions == old(permissions)
      ensures !refused ==> GainsManagement(old(permissions), permissions, c)
    {
      hide Traced, Inv, Seeds, GainsManagement;
      var rows, next := MissingManagement(c);
      ghost var i := Input(drawn, !refused, rows);
      assert CanAct(Last(), r, i);
      SeedStep(Last(), r, i);
      hide CanAct, After, Plan, PlanBootstrap, Apply;
      assert forall p :: p in rows ==> p < next;
      if !refused {
        permissions, drawn := permissions + rows, next;
      }
      Acted(r, i);
    }

    method ReadCatalog(c: ClientId, ghost q: Request, ghost r: ReqId) returns (catalog: set<Id>)
      requires Valid() && At(r, q) && q.client == c && q.job.Bootstrap? && q.pc == Seeded
      modifies this`trace
      ensures Valid() && trace == old(trace) + [After(old(Last()), r, NoInput())]
      ensures At(r, q.(pc := Catalogued(catalog)))
      ensures catalog == set p | p in permissions && permissions[p].client == c
                && TenancyAlone.IsManagement(permissions[p].resource, permissions[p].action)
    {
      hide Traced, Inv;
      catalog := set p | p in permissions && permissions[p].client == c
          && (permissions[p].resource, permissions[p].action) in MANAGEMENT;
      assert catalog == ManagementRows(Last(), c);
      forall p | p in permissions { TenancyAlone.ManagementIs(permissions[p].resource, permissions[p].action); }
      hide TenancyAlone.IsManagement, ManagementRows;
      Acted(r, NoInput());
    }

    method FindRole(c: ClientId, name: string, ghost q: Request, ghost r: ReqId) returns (role: Option<Id>)
      requires Valid() && At(r, q) && q.client == c && q.job == Job.Bootstrap(name) && q.pc.Catalogued?
      modifies this`trace
      ensures Valid() && trace == old(trace) + [After(old(Last()), r, NoInput())]
      ensures At(r, q.(pc := if role.None? then NoRoleYet(q.pc.catalog) else Managed(q.pc.catalog, role.value)))
      ensures role.Some? ==> role.value in roles && roles[role.value].client == c && roles[role.value].name == name
      ensures role.None? ==> forall x :: x in roles ==> !(roles[x].client == c && roles[x].name == name)
    {
      LinksInv();
      hide Traced, Inv, OneClientLinks;
      var found := set x | x in roles && roles[x].client == c && roles[x].name == name;
      ghost var s := Last();
      assert forall x :: x in found <==> x in s.roles && Named(s, x, c, name);
      if found == {} {
        role := None;
      } else {
        var x :| x in found;
        role := Some(x);
      }
      OnlyNamed(s, c, name, role);
      hide RoleByName, RolesInv, Named;
      Acted(r, NoInput());
    }

    // INSERT INTO role_permissions ON CONFLICT DO NOTHING
    method GrantCatalog(role: Id, catalog: set<Id>, ghost q: Request, ghost r: ReqId) returns (ok: bool)
      requires Valid() && At(r, q) && q.job.Bootstrap? && q.pc == Managed(catalog, role)
      modifies this
      ensures Valid() && trace == old(trace) + [After(old(Last()), r, old(NoInput()))]
      ensures At(r, q.(pc := if ok then Granted(role) else Failed))
      ensures rolePermissions == if ok then old(rolePermissions) + (set p | p in catalog :: (role, p))
                else old(rolePermissions)
      ensures ok <==> role in roles && catalog <= permissions.Keys
    {
      hide Traced, Inv;
      ghost var i := NoInput();
      ok := role in roles && catalog <= permissions.Keys;
      if ok { rolePermissions := rolePermissions + (set p | p in catalog :: (role, p)); }
      Acted(r, i);
    }

    method FindOrCreateRole(c: ClientId, name: string, catalog: set<Id>, ghost q: Request, ghost r: ReqId)
      returns (role: Option<Id>)
      requires Valid() && At(r, q) && q.client == c && q.job == Job.Bootstrap(name) && q.pc == Catalogued(catalog)
      modifies this
      ensures Valid() && old(trace) <= trace
      ensures At(r, q.(pc := if role.None? then Failed else Managed(catalog, role.value)))
    {
      hide Traced, Inv, Mirrors, After;
      role := FindRole(c, name, q, r);
      Yield(r);
      if role.None? { role := InsertRoleRow(c, name, false, q.(pc := NoRoleYet(catalog)), r); }
    }

    method PrepareRole(c: ClientId, name: string, refused: bool, ghost q: Request, ghost r: ReqId)
      returns (role: Option<Id>, catalog: set<Id>)
      requires Valid() && q == Request(c, Job.Bootstrap(name), Begin) && At(r, q)
      modifies this
      ensures Valid() && old(trace) <= trace
      ensures At(r, q.(pc := if role.None? then Failed else Managed(catalog, role.value)))
    {
      hide Traced, Inv, Mirrors, After, Seeds;
      role, catalog := None, {};
      SeedPermissions(c, refused, q, r);
      if refused { return; }
      Yield(r);
      catalog := ReadCatalog(c, q.(pc := Seeded), r);
      Yield(r);
      role := FindOrCreateRole(c, name, catalog, q.(pc := Catalogued(catalog)), r);
    }

    method InviteAdmin(c: ClientId, role: Id, emailTaken: bool, ghost q: Request, ghost r: ReqId) returns (ok: bool)
      requires Valid() && At(r, q) && q.client == c && q.job.Bootstrap? && q.pc == Granted(role)
      modifies this
      ensures Valid() && old(trace) <= trace && At(r, q.(pc := if ok then Done else Failed))
    {
      hide Traced, Inv, Mirrors, After;
      var admin := InsertUserRow(c, emailTaken, q, r);
      if admin.None? { return false; }
      Yield(r);
      ok := InsertUserRoles(admin.value, {role}, true, c, q.(pc := HasAdmin(role, admin.value)), r);
    }

    method Bootstrap(c: ClientId, name: string, refused: bool, emailTaken: bool, ghost r: ReqId) returns (ok: bool)
      requires Valid() && At(r, Request(c, Job.Bootstrap(name), Begin))
      modifies this
      ensures Valid() && old(trace) <= trace && At(r, Request(c, Job.Bootstrap(name), if ok then Done else Failed))
    {
      hide Traced, Inv, Mirrors, After;
      ghost var q := Request(c, Job.Bootstrap(name), Begin);
      var role, catalog := PrepareRole(c, name, refused, q, r);
      if role.None? { return false; }
      Yield(r);
      ok := GrantCatalog(role.value, catalog, q.(pc := Managed(catalog, role.value)), r);
      if !ok { return; }
      Yield(r);
      ok := InviteAdmin(c, role.value, emailTaken, q.(pc := Granted(role.value)), r);
    }

    // ----- The joins -----

    /** The join names no tenant on roles or permissions; the result is the tenant's own all the same. */
    method GetUserPermissions(user: Id, c: ClientId) returns (perms: set<Id>)
      requires Valid()
      ensures forall p :: p in perms <==>
                && user in users && users[user] == c && p in permissions && permissions[p].client == c
                && exists x: Id :: x in roles && roles[x].client == c && (user, x, c) in userRoles
                                   && (x, p) in rolePermissions
    {
      hide Inv, RolesInv, OneClientLinks;
      LinksInv();
      hide Traced;
      ghost var s := Last();
      perms := set u, l | u in userRoles && u.0 == user && u.2 == c && l in rolePermissions && l.0 == u.1
          && l.1 in permissions :: l.1;
      forall p ensures p in perms <==> p in permissions && UserReachesOwn(s, user, c, p) {
        JoinsAreOwn(s, user, c, p);
        hide UserReachesOwn;
        if p in permissions && UserReaches(s, user, c, p) {
          var x: Id :| (user, x, c) in userRoles && (x, p) in rolePermissions;
        }
      }
    }

    method GetServiceAccountPermissions(account: Id, c: ClientId) returns (perms: set<Id>)
      requires Valid()
      ensures forall p :: p in perms <==>
                && account in accounts && accounts[account] == c && p in permissions && permissions[p].client == c
                && exists x: Id :: x in roles && roles[x].client == c && (account, x, c) in accountRoles
                                   && (x, p) in rolePermissions
    {
      hide Inv, RolesInv, OneClientLinks;
      LinksInv();
      hide Traced;
      ghost var s := Last();
      perms := set a, l | a in accountRoles && a.0 == account && a.2 == c && l in rolePermissions && l.0 == a.1
          && l.1 in permissions :: l.1;
      forall p ensures p in perms <==> p in permissions && AccountReachesOwn(s, account, c, p) {
        JoinsAreOwn(s, account, c, p);
        hide AccountReachesOwn;
        if p in permissions && AccountReaches(s, account, c, p) {
          var x: Id :| (account, x, c) in accountRoles && (x, p) in rolePermissions;
        }
      }
    }
  }
}
