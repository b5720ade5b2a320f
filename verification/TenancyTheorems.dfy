/** Every link row stays inside one client, so the unfiltered joins are tenant safe. */
module TenancyTheorems {
  import opened Wrappers
  import opened Tenancy

  // ----- Invariant -----

  predicate OwnedRole(s: State, r: Id, c: ClientId) {
    r in s.owners && s.owners[r] == c
  }

  predicate OwnedPermission(s: State, p: Id, c: ClientId) {
    p in s.permissions && s.permissions[p].client == c
  }

  predicate OwnedUser(s: State, u: Id, c: ClientId) {
    u in s.users && s.users[u] == c
  }

  predicate OwnedAccount(s: State, a: Id, c: ClientId) {
    a in s.accounts && s.accounts[a] == c
  }

  predicate SameName(a: Role, b: Role) {
    a.client == b.client && a.name == b.name
  }

  ghost predicate RolesInv(s: State) {
    && (forall r :: r in s.roles ==> OwnedRole(s, r, s.roles[r].client))
    && (forall r, x :: r in s.roles && x in s.roles && SameName(s.roles[r], s.roles[x]) ==> r == x)
  }

  ghost predicate RolePermissionsInv(s: State) {
    forall r: Id, p: Id :: (r, p) in s.rolePermissions ==> r in s.roles && OwnedPermission(s, p, s.roles[r].client)
  }

  ghost predicate UserRolesInv(s: State) {
    forall u: Id, r: Id, c: ClientId :: (u, r, c) in s.userRoles ==> OwnedUser(s, u, c) && OwnsRole(s, r, c)
  }

  ghost predicate AccountRolesInv(s: State) {
    forall a: Id, r: Id, c: ClientId :: (a, r, c) in s.accountRoles ==> OwnedAccount(s, a, c) && OwnsRole(s, r, c)
  }

  /** Every link row joins rows of one client. */
  ghost predicate OneClientLinks(s: State) {
    RolePermissionsInv(s) && UserRolesInv(s) && AccountRolesInv(s)
  }

  predicate OwnedRoles(s: State, ids: set<Id>, c: ClientId) {
    forall r :: r in ids ==> OwnedRole(s, r, c)
  }

  predicate OwnedPermissions(s: State, ids: set<Id>, c: ClientId) {
    forall p :: p in ids ==> OwnedPermission(s, p, c)
  }

  // What a request has checked or made so far, for whatever it will link next.
  predicate ReqInv(s: State, q: Request) {
    var c := q.client;
    match q.job
    case CreateRole(_, _, perms) =>
      && (q.pc == PermsOwned || q.pc.HasRole? ==> OwnedPermissions(s, Set(perms), c))
      && (q.pc.HasRole? ==> OwnedRole(s, q.pc.newRole, c))
    case ReplacePermissions(role, perms) =>
      && (q.pc == RoleOwned || q.pc == PermsOwned || q.pc == Cleared ==> OwnedRole(s, role, c))
      && (q.pc == PermsOwned || q.pc == Cleared ==> OwnedPermissions(s, Set(perms), c))
    case AssignRole(user, role) =>
      && (q.pc == RoleOwned || q.pc == BothOwned ==> OwnedRole(s, role, c))
      && (q.pc == BothOwned ==> OwnedUser(s, user, c))
    case RevokeRole(_, _) => true
    case RevokeAccountRole(_, _) => true
    case ProvisionUser(roles) =>
      && (q.pc == RolesOwned || q.pc.HasUser? ==> OwnedRoles(s, Set(roles), c))
      && (q.pc.HasUser? ==> OwnedUser(s, q.pc.newUser, c))
    case SignUp =>
      && (q.pc.HasUser? || q.pc.HasDefaults? ==> OwnedUser(s, q.pc.newUser, c))
      && (q.pc.HasDefaults? ==> OwnedRoles(s, q.pc.defaults, c))
    case CreateAccount(roles) =>
      && (q.pc == RolesOwned || q.pc.HasAccount? ==> OwnedRoles(s, Set(roles), c))
      && (q.pc.HasAccount? ==> OwnedAccount(s, q.pc.newAccount, c))
    case AssignAccountRole(account, role) =>
      && (q.pc == AccountOwned || q.pc == BothOwned ==> OwnedAccount(s, account, c))
      && (q.pc == BothOwned ==> OwnedRole(s, role, c))
    case Bootstrap(_) =>
      && (q.pc.Catalogued? || q.pc.NoRoleYet? || q.pc.Managed? ==> OwnedPermissions(s, q.pc.catalog, c))
      && (q.pc.Managed? || q.pc.Granted? || q.pc.HasAdmin? ==> OwnedRole(s, q.pc.admin, c))
      && (q.pc.HasAdmin? ==> OwnedUser(s, q.pc.newUser, c))
  }

  ghost predicate ReqsInv(s: State) {
    forall r :: r in s.reqs ==> ReqInv(s, s.reqs[r])
  }

  ghost predicate Inv(s: State) {
    RolesInv(s) && OneClientLinks(s) && ReqsInv(s)
  }

  // Ownership is for ever.
  ghost predicate Later(s: State, s': State) {
    && (forall r :: r in s.owners ==> r in s'.owners && s'.owners[r] == s.owners[r])
    && (forall p :: p in s.permissions ==> p in s'.permissions && s'.permissions[p] == s.permissions[p])
    && (forall u :: u in s.users ==> u in s'.users && s'.users[u] == s.users[u])
    && (forall a :: a in s.accounts ==> a in s'.accounts && s'.accounts[a] == s.accounts[a])
  }

  lemma ReqLater(s: State, s': State, q: Request)
    requires Later(s, s') && ReqInv(s, q)
    ensures ReqInv(s', q)
  {}

  // ----- The ownership queries -----

  lemma SubsetOfSameSize<T>(a: set<T>, b: set<T>)
    requires a <= b && |a| == |b|
    ensures a == b
  {
    assert b == a + (b - a);
    assert |b| == |a| + |b - a|;
  }

  /** Counting the owned rows against the distinct ids decides that every one is owned. */
  lemma CountDecidesOwnership(s: State, ids: seq<Id>, c: ClientId)
    ensures OwnsPermissions(s, ids, c) <==> OwnedPermissions(s, Set(ids), c)
    ensures OwnsRoles(s, ids, c) <==> forall r :: r in ids ==> OwnsRole(s, r, c)
  {
    var perms, roles := PermissionsAmong(s.permissions, ids, c), RolesAmong(s.roles, ids, c);
    assert ids != [] ==> ids[0] in Set(ids);
    if |perms| == |Set(ids)| { SubsetOfSameSize(perms, Set(ids)); }
    if OwnedPermissions(s, Set(ids), c) { assert perms == Set(ids); }
    if |roles| == |Set(ids)| { SubsetOfSameSize(roles, Set(ids)); }
    assert forall r :: r in ids <==> r in Set(ids);
    if forall r :: r in ids ==> OwnsRole(s, r, c) { assert roles == Set(ids); }
  }

  // ----- Effects -----

  ghost predicate Allowed(s: State, e: Effect) {
    match e
    case Nothing => true
    case InsertPermissions(rows) => forall p :: p in rows ==> p !in s.permissions
    case InsertRole(id, role) => id !in s.owners && forall r :: r in s.roles ==> !Named(s, r, role.client, role.name)
    case InsertUser(id, _) => id !in s.users
    case InsertAccount(id, _) => id !in s.accounts
    case LinkPermissions(to, perms) => to in s.roles && OwnedPermissions(s, perms, s.roles[to].client)
    case UnlinkPermissions(_) => true
    case UnlinkUser(_, _, _) => true
    case UnlinkAccount(_, _, _) => true
    case LinkUser(id, links, c) => OwnedUser(s, id, c) && forall r :: r in links ==> OwnsRole(s, r, c)
    case LinkAccount(id, links, c) => OwnedAccount(s, id, c) && forall r :: r in links ==> OwnsRole(s, r, c)
  }

  lemma ApplyLater(s: State, e: Effect)
    requires Allowed(s, e)
    ensures Later(s, Apply(s, e))
  {}

  lemma ApplyKeepsRoles(s: State, e: Effect)
    requires RolesInv(s) && Allowed(s, e)
    ensures RolesInv(Apply(s, e))
  {}

  lemma ApplyKeepsLinks(s: State, e: Effect)
    requires RolesInv(s) && OneClientLinks(s) && Allowed(s, e)
    ensures OneClientLinks(Apply(s, e))
  {}

  // ----- The acting request -----

  ghost predicate Ready(s: State, q: Request, i: Input) {
    && i.id !in s.owners && i.id !in s.users && i.id !in s.accounts
    && (q.job.Bootstrap? && q.pc == Begin ==> Seeds(s, q.client, i.rows))
  }

  lemma CreateRoleAllowed(s: State, q: Request, i: Input)
    requires RolesInv(s) && q.job.CreateRole? && ReqInv(s, q) && Ready(s, q, i)
    ensures var (e, pc) := Plan(s, q, i); Allowed(s, e) && ReqInv(Apply(s, e), q.(pc := pc))
  {
    CountDecidesOwnership(s, q.job.perms, q.client);
    hide PermissionsAmong, RolesAmong, OwnsPermissions, OwnsRoles;
  }

  lemma ReplaceAllowed(s: State, q: Request, i: Input)
    requires RolesInv(s) && q.job.ReplacePermissions? && ReqInv(s, q) && Ready(s, q, i)
    ensures var (e, pc) := Plan(s, q, i); Allowed(s, e) && ReqInv(Apply(s, e), q.(pc := pc))
  {
    CountDecidesOwnership(s, q.job.perms, q.client);
    hide PermissionsAmong, RolesAmong, OwnsPermissions, OwnsRoles;
  }

  lemma AssignAllowed(s: State, q: Request, i: Input)
    requires RolesInv(s) && q.job.AssignRole? && ReqInv(s, q) && Ready(s, q, i)
    ensures var (e, pc) := Plan(s, q, i); Allowed(s, e) && ReqInv(Apply(s, e), q.(pc := pc))
  {}

  lemma RevokeAllowed(s: State, q: Request, i: Input)
    requires RolesInv(s) && (q.job.RevokeRole? || q.job.RevokeAccountRole?) && ReqInv(s, q) && Ready(s, q, i)
    ensures var (e, pc) := Plan(s, q, i); Allowed(s, e) && ReqInv(Apply(s, e), q.(pc := pc))
  {}

  lemma ProvisionAllowed(s: State, q: Request, i: Input)
    requires RolesInv(s) && q.job.ProvisionUser? && ReqInv(s, q) && Ready(s, q, i)
    ensures var (e, pc) := Plan(s, q, i); Allowed(s, e) && ReqInv(Apply(s, e), q.(pc := pc))
  {
    CountDecidesOwnership(s, q.job.roles, q.client);
    hide PermissionsAmong, RolesAmong, OwnsPermissions, OwnsRoles;
  }

  lemma SignUpAllowed(s: State, q: Request, i: Input)
    requires RolesInv(s) && q.job.SignUp? && ReqInv(s, q) && Ready(s, q, i)
    ensures var (e, pc) := Plan(s, q, i); Allowed(s, e) && ReqInv(Apply(s, e), q.(pc := pc))
  {}

  lemma CreateAccountAllowed(s: State, q: Request, i: Input)
    requires RolesInv(s) && q.job.CreateAccount? && ReqInv(s, q) && Ready(s, q, i)
    ensures var (e, pc) := Plan(s, q, i); Allowed(s, e) && ReqInv(Apply(s, e), q.(pc := pc))
  {
    CountDecidesOwnership(s, q.job.roles, q.client);
    hide PermissionsAmong, RolesAmong, OwnsPermissions, OwnsRoles;
  }

  lemma AssignAccountAllowed(s: State, q: Request, i: Input)
    requires RolesInv(s) && q.job.AssignAccountRole? && ReqInv(s, q) && Ready(s, q, i)
    ensures var (e, pc) := Plan(s, q, i); Allowed(s, e) && ReqInv(Apply(s, e), q.(pc := pc))
  {}

  lemma BootstrapAllowed(s: State, q: Request, i: Input)
    requires RolesInv(s) && q.job.Bootstrap? && ReqInv(s, q) && Ready(s, q, i)
    ensures var (e, pc) := Plan(s, q, i); Allowed(s, e) && ReqInv(Apply(s, e), q.(pc := pc))
  {
    hide Holds;
  }

  lemma PlanAllowed(s: State, q: Request, i: Input)
    requires RolesInv(s) && ReqInv(s, q) && Ready(s, q, i)
    ensures var (e, pc) := Plan(s, q, i); Allowed(s, e) && ReqInv(Apply(s, e), q.(pc := pc))
  {
    hide RolesInv, ReqInv, Ready, Plan, Allowed, Apply;
    match q.job
    case CreateRole(_, _, _) => CreateRoleAllowed(s, q, i);
    case ReplacePermissions(_, _) => ReplaceAllowed(s, q, i);
    case AssignRole(_, _) => AssignAllowed(s, q, i);
    case RevokeRole(_, _) => RevokeAllowed(s, q, i);
    case RevokeAccountRole(_, _) => RevokeAllowed(s, q, i);
    case ProvisionUser(_) => ProvisionAllowed(s, q, i);
    case SignUp => SignUpAllowed(s, q, i);
    case CreateAccount(_) => CreateAccountAllowed(s, q, i);
    case AssignAccountRole(_, _) => AssignAccountAllowed(s, q, i);
    case Bootstrap(_) => BootstrapAllowed(s, q, i);
  }

  lemma OnlyReqsDiffer(s: State, s': State)
    requires s' == s.(reqs := s'.reqs)
    ensures RolesInv(s) ==> RolesInv(s')
    ensures OneClientLinks(s) ==> OneClientLinks(s')
    ensures Later(s, s')
  {}

  lemma ActKeepsInv(s: State, r: ReqId, i: Input)
    requires Inv(s) && CanAct(s, r, i)
    ensures Inv(After(s, r, i)) && Later(s, After(s, r, i))
  {
    var (e, pc) := Plan(s, s.reqs[r], i);
    PlanAllowed(s, s.reqs[r], i);
    ApplyLater(s, e);
    ApplyKeepsRoles(s, e);
    ApplyKeepsLinks(s, e);
    hide Plan, Apply, Allowed, ReqInv, RolesInv, OneClientLinks, CanAct, ReqsInv, Later;
    OnlyReqsDiffer(Apply(s, e), After(s, r, i));
    LaterTwice(s, Apply(s, e), After(s, r, i));
    ActKeepsReqs(s, r, i);
  }

  lemma ActKeepsReqs(s: State, r: ReqId, i: Input)
    requires ReqsInv(s) && r in s.reqs && Later(s, After(s, r, i))
    requires var (e, pc) := Plan(s, s.reqs[r], i); ReqInv(Apply(s, e), s.reqs[r].(pc := pc))
    ensures ReqsInv(After(s, r, i))
  {
    var (e, pc) := Plan(s, s.reqs[r], i);
    var s1, s' := Apply(s, e), After(s, r, i);
    hide Plan, Apply, ReqInv;
    OnlyReqsDiffer(s1, s');
    forall a | a in s'.reqs ensures ReqInv(s', s'.reqs[a]) {
      hide Later;
      if a == r { ReqLater(s1, s', s'.reqs[a]); } else { ReqLater(s, s', s.reqs[a]); }
    }
  }

  lemma LaterTwice(s: State, s1: State, s': State)
    requires Later(s, s1) && Later(s1, s')
    ensures Later(s, s')
  {}

  lemma BeginInv(s: State, q: Request)
    requires q.pc == Begin
    ensures ReqInv(s, q)
  {}

  lemma QuietLater(s: State, e: Step, s': State)
    requires NextStep(s, e, s') && !e.Act?
    ensures Later(s, s') && s'.owners == s.owners
    ensures forall a :: a in s'.reqs ==> if a in s.reqs then s'.reqs[a] == s.reqs[a] else s'.reqs[a].pc == Begin
  {}

  lemma QuietKeepsInv(s: State, e: Step, s': State)
    requires Inv(s) && NextStep(s, e, s') && !e.Act?
    ensures Inv(s') && Later(s, s')
  {
    QuietLater(s, e, s');
    QuietKeepsLinks(s, e, s');
    hide NextStep, OneClientLinks, RolesInv;
    forall a | a in s'.reqs ensures ReqInv(s', s'.reqs[a]) {
      hide ReqInv, Later;
      if a in s.reqs { ReqLater(s, s', s.reqs[a]); } else { BeginInv(s', s'.reqs[a]); }
    }
  }

  lemma QuietKeepsLinks(s: State, e: Step, s': State)
    requires RolesInv(s) && OneClientLinks(s) && NextStep(s, e, s') && !e.Act?
    ensures RolesInv(s') && OneClientLinks(s')
  {}

  lemma NextKeepsInv(s: State, e: Step, s': State)
    requires Inv(s) && NextStep(s, e, s')
    ensures Inv(s') && Later(s, s')
  {
    if e.Act? { ActKeepsInv(s, e.r, e.i); } else { QuietKeepsInv(s, e, s'); }
    hide Inv, Later, After, CanAct;
  }

  lemma {:induction false} RunInv(run: seq<State>, i: nat)
    requires IsRun(run) && Inv(run[0]) && i < |run|
    ensures Inv(run[i])
  {
    hide Inv, NextStep;
    if i == 0 {
    } else {
      RunInv(run, i - 1);
      assert Next(run[i - 1], run[i - 1 + 1]);
      var e :| NextStep(run[i - 1], e, run[i]);
      NextKeepsInv(run[i - 1], e, run[i]);
    }
  }

  /** In every reachable state every link row joins rows of one client. */
  lemma LinksStayInTenant(run: seq<State>, i: nat)
    requires IsRun(run) && Init(run[0]) && i < |run|
    ensures Inv(run[i]) && OneClientLinks(run[i])
  {
    InitInv(run[0]);
    RunInv(run, i);
    hide OneClientLinks, IsRun, Init, RolesInv, ReqsInv;
  }

  lemma InitInv(s: State)
    requires Init(s)
    ensures Inv(s)
  {}

  // ----- The joins -----

  ghost predicate UserReaches(s: State, u: Id, c: ClientId, p: Id) {
    p in s.permissions && exists r: Id :: (u, r, c) in s.userRoles && (r, p) in s.rolePermissions
  }

  // getUserPermissions: no condition on roles or permissions.
  ghost function UserPermissions(s: State, u: Id, c: ClientId): set<Id> {
    set p | p in s.permissions && UserReaches(s, u, c, p)
  }

  ghost predicate AccountReaches(s: State, a: Id, c: ClientId, p: Id) {
    p in s.permissions && exists r: Id :: (a, r, c) in s.accountRoles && (r, p) in s.rolePermissions
  }

  ghost function AccountPermissions(s: State, a: Id, c: ClientId): set<Id> {
    set p | p in s.permissions && AccountReaches(s, a, c, p)
  }

  // The same joins with the tenant conditions written out on every table.
  ghost predicate UserReachesOwn(s: State, u: Id, c: ClientId, p: Id) {
    && OwnedUser(s, u, c) && OwnedPermission(s, p, c)
    && exists r: Id :: (u, r, c) in s.userRoles && OwnsRole(s, r, c) && (r, p) in s.rolePermissions
  }

  ghost predicate AccountReachesOwn(s: State, a: Id, c: ClientId, p: Id) {
    && OwnedAccount(s, a, c) && OwnedPermission(s, p, c)
    && exists r: Id :: (a, r, c) in s.accountRoles && OwnsRole(s, r, c) && (r, p) in s.rolePermissions
  }

  lemma JoinsAreOwn(s: State, x: Id, c: ClientId, p: Id)
    requires OneClientLinks(s)
    ensures UserReaches(s, x, c, p) <==> UserReachesOwn(s, x, c, p)
    ensures AccountReaches(s, x, c, p) <==> AccountReachesOwn(s, x, c, p)
  {
    if UserReaches(s, x, c, p) {
      var r: Id :| (x, r, c) in s.userRoles && (r, p) in s.rolePermissions;
      assert OwnsRole(s, r, c);
    }
    if AccountReaches(s, x, c, p) {
      var r: Id :| (x, r, c) in s.accountRoles && (r, p) in s.rolePermissions;
      assert OwnsRole(s, r, c);
    }
  }

  /**
   * In every reachable state the unfiltered joins return exactly what the fully
   * tenant-filtered joins would: the principal's own client's catalog, and nothing for
   * another client's principal.
   */
  lemma JoinsStayInTenant(run: seq<State>, i: nat, x: Id, c: ClientId)
    requires IsRun(run) && Init(run[0]) && i < |run|
    ensures UserPermissions(run[i], x, c) == set p | p in run[i].permissions && UserReachesOwn(run[i], x, c, p)
    ensures AccountPermissions(run[i], x, c) == set p | p in run[i].permissions && AccountReachesOwn(run[i], x, c, p)
  {
    LinksStayInTenant(run, i);
    hide IsRun, ReqsInv, UserReaches, UserReachesOwn, AccountReaches, AccountReachesOwn, OneClientLinks;
    forall p | p in run[i].permissions
      ensures UserReaches(run[i], x, c, p) <==> UserReachesOwn(run[i], x, c, p)
      ensures AccountReaches(run[i], x, c, p) <==> AccountReachesOwn(run[i], x, c, p)
    { JoinsAreOwn(run[i], x, c, p); }
  }

  // ----- Non-interference -----

  // Which client's links an effect touches.
  ghost predicate TouchesOnly(s: State, e: Effect, c: ClientId) {
    match e
    case LinkPermissions(to, _) => OwnsRole(s, to, c)
    case UnlinkPermissions(to) => to in s.roles ==> OwnsRole(s, to, c)
    case LinkUser(_, _, d) => d == c
    case LinkAccount(_, _, d) => d == c
    case UnlinkUser(_, _, d) => d == c
    case UnlinkAccount(_, _, d) => d == c
    case InsertPermissions(rows) => forall p :: p in rows ==> rows[p].client == c
    case _ => true
  }

  lemma PlanTouchesOwn(s: State, q: Request, i: Input)
    requires RolesInv(s) && ReqInv(s, q) && (q.job.Bootstrap? && q.pc == Begin ==> Seeds(s, q.client, i.rows))
    ensures TouchesOnly(s, Plan(s, q, i).0, q.client)
  {}

  // The links and permissions of client d, which is all that its principals' joins read.
  ghost predicate SameFor(s: State, s': State, d: ClientId) {
    && (forall x: Id, r: Id :: (x, r, d) in s.userRoles <==> (x, r, d) in s'.userRoles)
    && (forall x: Id, r: Id :: (x, r, d) in s.accountRoles <==> (x, r, d) in s'.accountRoles)
    && (forall r: Id, p: Id :: OwnsRole(s, r, d) ==> ((r, p) in s.rolePermissions <==> (r, p) in s'.rolePermissions))
    && (forall p :: p in s.permissions ==> p in s'.permissions)
  }

  lemma SameJoins(s: State, s': State, d: ClientId, x: Id)
    requires OneClientLinks(s) && SameFor(s, s', d)
    ensures UserPermissions(s', x, d) == UserPermissions(s, x, d)
    ensures AccountPermissions(s', x, d) == AccountPermissions(s, x, d)
  {
    forall p: Id | true
      ensures UserReaches(s', x, d, p) <==> UserReaches(s, x, d, p)
      ensures AccountReaches(s', x, d, p) <==> AccountReaches(s, x, d, p)
    {
      if UserReaches(s, x, d, p) {
        var r: Id :| (x, r, d) in s.userRoles && (r, p) in s.rolePermissions; assert OwnsRole(s, r, d);
      }
      if UserReaches(s', x, d, p) {
        var r: Id :| (x, r, d) in s'.userRoles && (r, p) in s'.rolePermissions; assert (x, r, d) in s.userRoles;
      }
      if AccountReaches(s, x, d, p) {
        var r: Id :| (x, r, d) in s.accountRoles && (r, p) in s.rolePermissions; assert OwnsRole(s, r, d);
      }
      if AccountReaches(s', x, d, p) {
        var r: Id :| (x, r, d) in s'.accountRoles && (r, p) in s'.rolePermissions; assert (x, r, d) in s.accountRoles;
      }
    }
  }

  lemma EffectSameFor(s: State, e: Effect, c: ClientId, d: ClientId)
    requires TouchesOnly(s, e, c) && c != d
    ensures SameFor(s, Apply(s, e), d)
  {}

  lemma ActSameFor(s: State, r: ReqId, i: Input, d: ClientId)
    requires Inv(s) && CanAct(s, r, i) && s.reqs[r].client != d
    ensures SameFor(s, After(s, r, i), d)
  {
    var e := Plan(s, s.reqs[r], i).0;
    PlanTouchesOwn(s, s.reqs[r], i);
    EffectSameFor(s, e, s.reqs[r].client, d);
    hide Plan, Inv, Apply, TouchesOnly, CanAct;
  }

  lemma QuietSameFor(s: State, e: Step, s': State, d: ClientId)
    requires Inv(s) && NextStep(s, e, s') && !e.Act? && ActorOf(s, e) != Some(d)
    ensures SameFor(s, s', d)
  {
    hide ReqsInv;
  }

  /** No step taken for one client changes what any principal of another may do. */
  lemma OtherClientsUntouched(run: seq<State>, n: nat, e: Step, d: ClientId, x: Id)
    requires IsRun(run) && Init(run[0]) && n + 1 < |run| && NextStep(run[n], e, run[n + 1])
    requires ActorOf(run[n], e) != Some(d)
    ensures UserPermissions(run[n + 1], x, d) == UserPermissions(run[n], x, d)
    ensures AccountPermissions(run[n + 1], x, d) == AccountPermissions(run[n], x, d)
  {
    LinksStayInTenant(run, n);
    hide IsRun, SameFor, OneClientLinks, UserPermissions, AccountPermissions;
    if e.Act? { ActSameFor(run[n], e.r, e.i, d); } else { QuietSameFor(run[n], e, run[n + 1], d); }
    SameJoins(run[n], run[n + 1], d, x);
  }
}
