/**
 * Roles, permissions and their junction rows, one deployment for many clients. Every
 * handler checks that what it links belongs to the calling client and inserts later, so
 * each SQL statement is a step and checks and inserts of different requests interleave.
 * Foreign keys are checked when a junction row is inserted; deleting a role cascades.
 */
module Tenancy {
  import opened Wrappers

  type ClientId = nat
  type Id = nat // row ids, never reused
  type ReqId = nat

  datatype Permission = Permission(client: ClientId, resource: string, action: string)
  datatype Role = Role(client: ClientId, name: string, isDefault: bool)

  const MANAGEMENT: seq<(string, string)> := [
    ("users", "read"), ("users", "write"), ("roles", "read"), ("roles", "write"),
    ("api-keys", "read"), ("api-keys", "write"), ("service-accounts", "read"), ("service-accounts", "write")]

  datatype Job =
    | CreateRole(name: string, isDefault: bool, perms: seq<Id>)
    | ReplacePermissions(role: Id, perms: seq<Id>)
    | AssignRole(user: Id, role: Id)
    | RevokeRole(user: Id, role: Id)
    | ProvisionUser(roles: seq<Id>)
    | SignUp // register and the OAuth callback: insert, then the default roles
    | CreateAccount(roles: seq<Id>)
    | AssignAccountRole(account: Id, role: Id)
    | RevokeAccountRole(account: Id, role: Id)
    | Bootstrap(name: string)

  datatype Pc =
    | Begin
    | RoleOwned
    | PermsOwned
    | RolesOwned
    | AccountOwned
    | Cleared
    | BothOwned
    | Checked
    | HasRole(newRole: Id)
    | HasUser(newUser: Id)
    | HasDefaults(newUser: Id, defaults: set<Id>)
    | HasAccount(newAccount: Id)
    | Seeded
    | Catalogued(catalog: set<Id>)
    | NoRoleYet(catalog: set<Id>)
    | Managed(catalog: set<Id>, admin: Id)
    | Granted(admin: Id)
    | HasAdmin(admin: Id, newUser: Id)
    | Done
    | Failed

  datatype Request = Request(client: ClientId, job: Job, pc: Pc)

  // owners is history: the client of every role id ever used.
  datatype State = State(
    permissions: map<Id, Permission>,
    roles: map<Id, Role>,
    users: map<Id, ClientId>,
    accounts: map<Id, ClientId>,
    rolePermissions: set<(Id, Id)>,
    userRoles: set<(Id, Id, ClientId)>,
    accountRoles: set<(Id, Id, ClientId)>,
    owners: map<Id, ClientId>,
    reqs: map<ReqId, Request>)

  function Set(ids: seq<Id>): set<Id> {
    set x | x in ids
  }

  predicate Distinct(ids: seq<Id>) {
    forall i, j :: 0 <= i < j < |ids| ==> ids[i] != ids[j]
  }

  // ----- Reads -----

  // The number of rows the ownership query finds must be the number of ids asked for.
  predicate OwnsPermissions(s: State, ids: seq<Id>, c: ClientId) {
    ids == [] || |PermissionsAmong(s.permissions, ids, c)| == |Set(ids)|
  }

  predicate OwnsRoles(s: State, ids: seq<Id>, c: ClientId) {
    ids == [] || |RolesAmong(s.roles, ids, c)| == |Set(ids)|
  }

  // SELECT id FROM permissions WHERE id IN ids AND client_id = c, and the same for roles.
  function PermissionsAmong(permissions: map<Id, Permission>, ids: seq<Id>, c: ClientId): set<Id> {
    set p | p in Set(ids) && p in permissions && permissions[p].client == c
  }

  function RolesAmong(roles: map<Id, Role>, ids: seq<Id>, c: ClientId): set<Id> {
    set r | r in Set(ids) && r in roles && roles[r].client == c
  }

  predicate OwnsRole(s: State, role: Id, c: ClientId) {
    role in s.roles && s.roles[role].client == c
  }

  function DefaultRoles(s: State, c: ClientId): set<Id> {
    set r | r in s.roles && s.roles[r].client == c && s.roles[r].isDefault
  }

  function ManagementRows(s: State, c: ClientId): set<Id> {
    set p | p in s.permissions && s.permissions[p].client == c
        && (s.permissions[p].resource, s.permissions[p].action) in MANAGEMENT
  }

  predicate Named(s: State, r: Id, c: ClientId, name: string) {
    r in s.roles && s.roles[r].client == c && s.roles[r].name == name
  }

  ghost function RoleByName(s: State, c: ClientId, name: string): (r: Option<Id>)
    ensures r.Some? ==> Named(s, r.value, c, name)
    ensures r.None? ==> forall x :: x in s.roles ==> !Named(s, x, c, name)
  {
    if exists r :: Named(s, r, c, name) then
      var r :| Named(s, r, c, name);
      Some(r)
    else None
  }

  // ----- Writes -----

  datatype Effect =
    | Nothing
    | InsertPermissions(rows: map<Id, Permission>)
    | InsertRole(id: Id, role: Role)
    | InsertUser(id: Id, client: ClientId)
    | InsertAccount(id: Id, client: ClientId)
    | LinkPermissions(to: Id, perms: set<Id>)
    | UnlinkPermissions(to: Id)
    | LinkUser(id: Id, links: set<Id>, client: ClientId)
    | LinkAccount(id: Id, links: set<Id>, client: ClientId)
    | UnlinkUser(id: Id, link: Id, client: ClientId)
    | UnlinkAccount(id: Id, link: Id, client: ClientId)

  function Apply(s: State, e: Effect): State {
    match e
    case Nothing => s
    case InsertPermissions(rows) => s.(permissions := s.permissions + rows)
    case InsertRole(id, role) => s.(roles := s.roles[id := role], owners := s.owners[id := role.client])
    case InsertUser(id, client) => s.(users := s.users[id := client])
    case InsertAccount(id, client) => s.(accounts := s.accounts[id := client])
    case LinkPermissions(to, perms) => s.(rolePermissions := s.rolePermissions + set p | p in perms :: (to, p))
    case UnlinkPermissions(to) => s.(rolePermissions := set x | x in s.rolePermissions && x.0 != to)
    case LinkUser(id, links, client) => s.(userRoles := s.userRoles + set r | r in links :: (id, r, client))
    case LinkAccount(id, links, client) => s.(accountRoles := s.accountRoles + set r | r in links :: (id, r, client))
    case UnlinkUser(id, role, client) => s.(userRoles := s.userRoles - {(id, role, client)})
    case UnlinkAccount(id, role, client) => s.(accountRoles := s.accountRoles - {(id, role, client)})
  }

  // INSERT INTO role_permissions without ON CONFLICT.
  function LinkRows(s: State, role: Id, perms: seq<Id>): (Effect, Pc) {
    if role in s.roles && Distinct(perms) &&
       forall p :: p in perms ==> p in s.permissions && (role, p) !in s.rolePermissions
    then (LinkPermissions(role, Set(perms)), Done) else (Nothing, Failed)
  }

  // INSERT INTO user_roles without ON CONFLICT.
  function LinkUserRows(s: State, user: Id, roles: set<Id>, c: ClientId): (Effect, Pc) {
    if user in s.users && forall r :: r in roles ==> r in s.roles && (user, r, c) !in s.userRoles
    then (LinkUser(user, roles, c), Done) else (Nothing, Failed)
  }

  // What comes from outside: a fresh id, seeded rows, and unique indexes that are not modelled.
  datatype Input = Input(id: Id, ok: bool, rows: map<Id, Permission>)

  function PlanCreateRole(s: State, c: ClientId, name: string, isDefault: bool, perms: seq<Id>, pc: Pc,
                          i: Input): (Effect, Pc) {
    match pc
    case Begin => (Nothing, if OwnsPermissions(s, perms, c) then PermsOwned else Failed)
    case PermsOwned =>
      if exists r :: r in s.roles && Named(s, r, c, name) then (Nothing, Failed) // unique index
      else (InsertRole(i.id, Role(c, name, isDefault)), if perms == [] then Done else HasRole(i.id))
    case HasRole(r) => LinkRows(s, r, perms)
    case _ => (Nothing, pc)
  }

  function PlanReplace(s: State, c: ClientId, role: Id, perms: seq<Id>, pc: Pc): (Effect, Pc) {
    match pc
    case Begin => (Nothing, if OwnsRole(s, role, c) then RoleOwned else Failed)
    case RoleOwned => (Nothing, if OwnsPermissions(s, perms, c) then PermsOwned else Failed)
    case PermsOwned => (UnlinkPermissions(role), if perms == [] then Done else Cleared)
    case Cleared => LinkRows(s, role, perms)
    case _ => (Nothing, pc)
  }

  function PlanAssign(s: State, c: ClientId, user: Id, role: Id, pc: Pc): (Effect, Pc) {
    match pc
    case Begin => (Nothing, if OwnsRole(s, role, c) then RoleOwned else Failed)
    case RoleOwned => (Nothing, if user in s.users && s.users[user] == c then BothOwned else Failed)
    case BothOwned => if role in s.roles && user in s.users then (LinkUser(user, {role}, c), Done)
        else (Nothing, Failed)
    case _ => (Nothing, pc)
  }

  // The check and the delete are two statements; users and accounts never change client.
  function PlanRevoke(s: State, c: ClientId, user: Id, role: Id, pc: Pc): (Effect, Pc) {
    match pc
    case Begin => (Nothing, if user in s.users && s.users[user] == c then Checked else Failed)
    case Checked => (UnlinkUser(user, role, c), Done)
    case _ => (Nothing, pc)
  }

  function PlanRevokeAccount(s: State, c: ClientId, account: Id, role: Id, pc: Pc): (Effect, Pc) {
    match pc
    case Begin => (Nothing, if account in s.accounts && s.accounts[account] == c then Checked else Failed)
    case Checked => (UnlinkAccount(account, role, c), Done)
    case _ => (Nothing, pc)
  }

  function PlanProvision(s: State, c: ClientId, roles: seq<Id>, pc: Pc, i: Input): (Effect, Pc) {
    match pc
    case Begin => (Nothing, if OwnsRoles(s, roles, c) then RolesOwned else Failed)
    case RolesOwned => if i.ok then (InsertUser(i.id, c), if roles == [] then Done else HasUser(i.id))
        else (Nothing, Failed)
    case HasUser(u) => if Distinct(roles) then LinkUserRows(s, u, Set(roles), c) else (Nothing, Failed)
    case _ => (Nothing, pc)
  }

  function PlanSignUp(s: State, c: ClientId, pc: Pc, i: Input): (Effect, Pc) {
    match pc
    case Begin => if i.ok then (InsertUser(i.id, c), HasUser(i.id)) else (Nothing, Failed)
    case HasUser(u) => (Nothing, if DefaultRoles(s, c) == {} then Done else HasDefaults(u, DefaultRoles(s, c)))
    case HasDefaults(u, defaults) => LinkUserRows(s, u, defaults, c)
    case _ => (Nothing, pc)
  }

  function PlanCreateAccount(s: State, c: ClientId, roles: seq<Id>, pc: Pc, i: Input): (Effect, Pc) {
    match pc
    case Begin => (Nothing, if OwnsRoles(s, roles, c) then RolesOwned else Failed)
    case RolesOwned => if i.ok then (InsertAccount(i.id, c), if roles == [] then Done else HasAccount(i.id))
        else (Nothing, Failed)
    case HasAccount(a) =>
      if a in s.accounts && forall r :: r in roles ==> r in s.roles && (a, r, c) !in s.accountRoles
      then (LinkAccount(a, Set(roles), c), Done) else (Nothing, Failed)
    case _ => (Nothing, pc)
  }

  function PlanAssignAccount(s: State, c: ClientId, account: Id, role: Id, pc: Pc): (Effect, Pc) {
    match pc
    case Begin => (Nothing, if account in s.accounts && s.accounts[account] == c then AccountOwned else Failed)
    case AccountOwned => (Nothing, if OwnsRole(s, role, c) then BothOwned else Failed)
    case BothOwned => if role in s.roles && account in s.accounts then (LinkAccount(account, {role}, c), Done)
        else (Nothing, Failed)
    case _ => (Nothing, pc)
  }

  predicate Holds(permissions: map<Id, Permission>, c: ClientId, pair: (string, string)) {
    exists p :: p in permissions && permissions[p] == Permission(c, pair.0, pair.1)
  }

  // INSERT the management permissions ON CONFLICT DO NOTHING: exactly those the client lacks.
  predicate Seeds(s: State, c: ClientId, rows: map<Id, Permission>) {
    && (forall p :: p in rows ==> p !in s.permissions && rows[p].client == c)
    && (forall p :: p in rows ==> (rows[p].resource, rows[p].action) in MANAGEMENT)
    && (forall p :: p in rows ==> !Holds(s.permissions, c, (rows[p].resource, rows[p].action)))
    && (forall p, q :: p in rows && q in rows && rows[p] == rows[q] ==> p == q)
    && (forall m :: m in MANAGEMENT ==> Holds(s.permissions + rows, c, m))
  }

  ghost function PlanBootstrap(s: State, c: ClientId, name: string, pc: Pc, i: Input): (Effect, Pc) {
    match pc
    case Begin => if i.ok then (InsertPermissions(i.rows), Seeded) else (Nothing, Failed)
    case Seeded => (Nothing, Catalogued(ManagementRows(s, c)))
    case Catalogued(catalog) =>
      (Nothing, match RoleByName(s, c, name) case None => NoRoleYet(catalog) case Some(r) => Managed(catalog, r))
    case NoRoleYet(catalog) =>
      if exists r :: r in s.roles && Named(s, r, c, name) then (Nothing, Failed)
      else (InsertRole(i.id, Role(c, name, false)), Managed(catalog, i.id))
    case Managed(catalog, r) => // ON CONFLICT DO NOTHING
      if r in s.roles && catalog <= s.permissions.Keys then (LinkPermissions(r, catalog), Granted(r))
          else (Nothing, Failed)
    case Granted(r) => if i.ok then (InsertUser(i.id, c), HasAdmin(r, i.id)) else (Nothing, Failed)
    case HasAdmin(r, u) => LinkUserRows(s, u, {r}, c)
    case _ => (Nothing, pc)
  }

  ghost function Plan(s: State, q: Request, i: Input): (Effect, Pc) {
    match q.job
    case CreateRole(name, isDefault, perms) => PlanCreateRole(s, q.client, name, isDefault, perms, q.pc, i)
    case ReplacePermissions(role, perms) => PlanReplace(s, q.client, role, perms, q.pc)
    case AssignRole(user, role) => PlanAssign(s, q.client, user, role, q.pc)
    case RevokeRole(user, role) => PlanRevoke(s, q.client, user, role, q.pc)
    case ProvisionUser(roles) => PlanProvision(s, q.client, roles, q.pc, i)
    case SignUp => PlanSignUp(s, q.client, q.pc, i)
    case CreateAccount(roles) => PlanCreateAccount(s, q.client, roles, q.pc, i)
    case AssignAccountRole(account, role) => PlanAssignAccount(s, q.client, account, role, q.pc)
    case RevokeAccountRole(account, role) => PlanRevokeAccount(s, q.client, account, role, q.pc)
    case Bootstrap(name) => PlanBootstrap(s, q.client, name, q.pc, i)
  }

  ghost predicate CanAct(s: State, r: ReqId, i: Input) {
    && r in s.reqs && i.id !in s.owners && i.id !in s.users && i.id !in s.accounts
    && (s.reqs[r].job.Bootstrap? && s.reqs[r].pc == Begin ==> Seeds(s, s.reqs[r].client, i.rows))
  }

  ghost function After(s: State, r: ReqId, i: Input): State
    requires r in s.reqs
  {
    var (e, pc) := Plan(s, s.reqs[r], i);
    Apply(s, e).(reqs := s.reqs[r := s.reqs[r].(pc := pc)])
  }

  // The single-statement mutations, each by the client it names.
  datatype Step =
    | NewPermissions(c: ClientId, rows: map<Id, Permission>)
    | DeleteRole(c: ClientId, role: Id)
    | Arrive(r: ReqId, q: Request)
    | Act(r: ReqId, i: Input)

  function Deleted(s: State, role: Id): State {
    s.(roles := s.roles - {role},
       rolePermissions := (set x | x in s.rolePermissions && x.0 != role),
       userRoles := (set x | x in s.userRoles && x.1 != role),
       accountRoles := (set x | x in s.accountRoles && x.1 != role))
  }

  ghost predicate NextStep(s: State, e: Step, s': State) {
    match e
    case NewPermissions(c, rows) =>
      && (forall p :: p in rows ==> p !in s.permissions && rows[p].client == c)
      && s' == s.(permissions := s.permissions + rows)
    case DeleteRole(c, role) => OwnsRole(s, role, c) && s' == Deleted(s, role)
    case Arrive(r, q) => r !in s.reqs && q.pc == Begin && s' == s.(reqs := s.reqs[r := q])
    case Act(r, i) => CanAct(s, r, i) && s' == After(s, r, i)
  }

  function ActorOf(s: State, e: Step): Option<ClientId> {
    match e
    case NewPermissions(c, _) => Some(c)
    case DeleteRole(c, _) => Some(c)
    case Arrive(_, q) => Some(q.client)
    case Act(r, _) => if r in s.reqs then Some(s.reqs[r].client) else None
  }

  ghost predicate Next(s: State, s': State) {
    exists e :: NextStep(s, e, s')
  }

  // An empty deployment.
  ghost predicate Init(s: State) {
    && s.permissions == map[] && s.roles == map[] && s.users == map[] && s.accounts == map[]
    && s.rolePermissions == {} && s.userRoles == {} && s.accountRoles == {} && s.owners == map[] && s.reqs == map[]
  }

  ghost predicate IsRun(run: seq<State>) {
    |run| > 0 && forall i :: 0 <= i < |run| - 1 ==> Next(run[i], run[i + 1])
  }
}
