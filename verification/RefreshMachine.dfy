/**
 * The handlers that touch refresh_tokens, as a step machine. Every SQL statement
 * or transaction is one atomic step; between two steps a handler keeps only what
 * it read earlier (a stale row, a stale owner, a prepared successor), and any
 * number of other requests may run.
 */
module RefreshMachine {
  import opened Wrappers
  import opened TokenTable

  const RETENTION: Time := 30 * 24 * 60 * 60 * 1000
  const MAX_GRACE: Time := 60 * 1000

  type ReqId = nat

  // REFRESH_RETRY_GRACE_SECONDS and JWT_REFRESH_EXPIRY_DAYS, in milliseconds
  datatype Config = Config(grace: nat, lifetime: Time)
  datatype User = User(clientId: ClientId, isActive: bool)
  datatype Stored = Stored(id: Id, row: Row)
  datatype Fresh = Fresh(id: Id, tokenHash: Hash)

  // Where POST /auth/refresh stands. late is true when the retry path was entered
  // after the rotation transaction had failed.
  datatype RefreshPc =
    | Start
    | HasStored(st: Stored)
    | HasOwner(st: Stored, owner: Option<User>)
    | ToPrepare(st: Stored)
    | HasSuccessor(st: Stored, p: Prepared)
    | Timed(st: Stored, p: Prepared, at: Time)
    | RetryRead(st: Stored, late: bool)
    | RetryCheck(st: Stored, late: bool, candidate: Option<Row>)
    | RetryPrepare(st: Stored, late: bool)
    | RetryTx(st: Stored, late: bool, p: Prepared)
    | Latest(st: Stored)
    | Replay(st: Stored)
    | Done200(st: Stored, id: Id)
    | Done401

  datatype LogoutPc = LogoutStart | LogoutStored(st: Stored) | LogoutOwned(st: Stored) | LogoutDone
  datatype SignInPc = SignInStart | SignInPrepare | SignInInsert(p: Prepared) | SignInDone
  datatype ActivePc = ActiveStart | ActiveRevoke | ActiveDone
  datatype CleanupPc = CleanupStart | CleanupCut(cutoff: Time) | CleanupDone

  datatype Request =
    | Refreshing(client: ClientId, hash: Hash, op: Hash, pc: RefreshPc)
    | LoggingOut(client: ClientId, hash: Hash, lpc: LogoutPc)
    | SigningIn(user: UserId, spc: SignInPc)                    // login, register, OAuth redemption
    | RevokingOne(user: UserId, id: Id, done: bool)             // DELETE /sessions/:id
    | RevokingAll(user: UserId, done: bool)                     // DELETE /sessions
    | SigningOut(user: UserId, done: bool)                      // password reset and change
    | SettingActive(client: ClientId, user: UserId, active: bool, apc: ActivePc)
    | CleaningUp(cpc: CleanupPc)

  datatype State = State(
    cfg: Config,
    now: Time,
    users: map<UserId, User>,
    table: Table,
    reqs: map<ReqId, Request>,
    usedIds: set<Id>,
    usedHashes: set<Hash>)

  datatype Move = Move(effect: Effect, users: map<UserId, User>, next: Request)

  // ----- Statements that read -----

  ghost function Lookup(rows: map<Id, Row>, hash: Hash): (r: Option<Stored>)
    ensures r.Some? ==> r.value.id in rows && rows[r.value.id] == r.value.row && r.value.row.tokenHash == hash
    ensures r.None? ==> forall id :: id in rows ==> rows[id].tokenHash != hash
  {
    if exists id :: id in rows && rows[id].tokenHash == hash then
      var id :| id in rows && rows[id].tokenHash == hash;
      Some(Stored(id, rows[id]))
    else None
  }

  function OwnerOf(users: map<UserId, User>, user: UserId, client: ClientId): Option<User> {
    if user in users && users[user].clientId == client then Some(users[user]) else None
  }

  function ActiveOf(rows: map<Id, Row>, user: UserId): set<Id> {
    set id | id in rows && rows[id].userId == user && !rows[id].revoked
  }

  function AllOf(rows: map<Id, Row>, user: UserId): set<Id> {
    set id | id in rows && rows[id].userId == user
  }

  function Prepare(s: State, user: UserId, f: Fresh): Prepared {
    Prepared(f.id, user, f.tokenHash, s.now + s.cfg.lifetime)
  }

  // ----- One step of each handler -----

  function GiveUp(st: Stored, late: bool): RefreshPc {
    if late then Latest(st) else Replay(st)
  }

  function Branch(st: Stored, owner: Option<User>, now: Time): RefreshPc {
    if st.row.revoked || st.row.expiresAt < now then
      if owner.Some? && SeenAsRotated(st.row) then
        if owner.value.isActive then RetryRead(st, false) else Replay(st)
      else Done401
    else if owner.None? || !owner.value.isActive then Done401
    else ToPrepare(st)
  }

  ghost function PlanRefresh(s: State, q: Request, f: Fresh): (Effect, RefreshPc)
    requires q.Refreshing?
  {
    var rows := s.table.rows;
    match q.pc
    case Start =>
      (NoChange, match Lookup(rows, q.hash) case None => Done401 case Some(st) => HasStored(st))
    case HasStored(st) => (NoChange, HasOwner(st, OwnerOf(s.users, st.row.userId, q.client)))
    case HasOwner(st, owner) => (NoChange, Branch(st, owner, s.now))
    case ToPrepare(st) => (NoChange, HasSuccessor(st, Prepare(s, st.row.userId, f)))
    case HasSuccessor(st, p) => (NoChange, Timed(st, p, s.now))
    case Timed(st, p, at) =>
      if Rotatable(rows, st.id, at)
      then (Rotate(st.id, q.op, at, p), Done200(st, p.id))
      else (NoChange, RetryRead(st, true))
    case RetryRead(st, late) => (NoChange, RetryCheck(st, late, Get(rows, st.id)))
    case RetryCheck(st, late, candidate) =>
      if candidate.Some? && Retryable(candidate.value, q.op, s.now - s.cfg.grace)
      then (NoChange, RetryPrepare(st, late))
      else (NoChange, GiveUp(st, late))
    case RetryPrepare(st, late) => (NoChange, RetryTx(st, late, Prepare(s, st.row.userId, f)))
    case RetryTx(st, late, p) =>
      if Replaceable(rows, st.id, st.row.userId, q.op, s.now, s.cfg.grace)
      then (Replace(st.id, rows[st.id].replacedBy.value, p), Done200(st, p.id))
      else (NoChange, GiveUp(st, late))
    case Latest(st) =>
      (NoChange, if st.id in rows && SeenAsRotated(rows[st.id]) then Replay(st) else Done401)
    case Replay(st) => (Revoke(ActiveOf(rows, st.row.userId), Security), Done401)
    case Done200(_, _) => (NoChange, q.pc)
    case Done401 => (NoChange, q.pc)
  }

  ghost function PlanLogout(s: State, q: Request): (Effect, LogoutPc)
    requires q.LoggingOut?
  {
    match q.lpc
    case LogoutStart =>
      (NoChange, match Lookup(s.table.rows, q.hash) case None => LogoutDone case Some(st) => LogoutStored(st))
    case LogoutStored(st) =>
      (NoChange, if OwnerOf(s.users, st.row.userId, q.client).Some? then LogoutOwned(st) else LogoutDone)
    case LogoutOwned(st) => (Revoke({st.id}, Logout), LogoutDone)
    case LogoutDone => (NoChange, LogoutDone)
  }

  function PlanSignIn(s: State, q: Request, f: Fresh): (Effect, SignInPc)
    requires q.SigningIn?
  {
    match q.spc
    case SignInStart =>
      (NoChange, if q.user in s.users && s.users[q.user].isActive then SignInPrepare else SignInDone)
    case SignInPrepare => (NoChange, SignInInsert(Prepare(s, q.user, f)))
    case SignInInsert(p) => (InsertRoot(p), SignInDone)
    case SignInDone => (NoChange, SignInDone)
  }

  function PlanActive(s: State, q: Request): (Effect, map<UserId, User>, ActivePc)
    requires q.SettingActive?
  {
    match q.apc
    case ActiveStart =>
      if OwnerOf(s.users, q.user, q.client).Some? then
        (NoChange, s.users[q.user := User(q.client, q.active)], if q.active then ActiveDone else ActiveRevoke)
      else (NoChange, s.users, ActiveDone)
    case ActiveRevoke => (Revoke(AllOf(s.table.rows, q.user), Security), s.users, ActiveDone)
    case ActiveDone => (NoChange, s.users, ActiveDone)
  }

  function PlanCleanup(s: State, q: Request): (Effect, CleanupPc)
    requires q.CleaningUp?
  {
    match q.cpc
    case CleanupStart => (NoChange, CleanupCut(s.now - RETENTION))
    case CleanupCut(cutoff) => (Delete(cutoff), CleanupDone)
    case CleanupDone => (NoChange, CleanupDone)
  }

  ghost function Plan(s: State, q: Request, f: Fresh): Move {
    match q
    case Refreshing(_, _, _, _) =>
      var (e, pc) := PlanRefresh(s, q, f); Move(e, s.users, q.(pc := pc))
    case LoggingOut(_, _, _) =>
      var (e, pc) := PlanLogout(s, q); Move(e, s.users, q.(lpc := pc))
    case SigningIn(_, _) =>
      var (e, pc) := PlanSignIn(s, q, f); Move(e, s.users, q.(spc := pc))
    case RevokingOne(user, id, done) =>
      Move(if done then NoChange
           else Revoke(ActiveOf(s.table.rows, user) * {id}, UserRevoked), s.users, RevokingOne(user, id, true))
    case RevokingAll(user, done) =>
      Move(if done then NoChange
           else Revoke(ActiveOf(s.table.rows, user), UserRevoked), s.users, RevokingAll(user, true))
    case SigningOut(user, done) =>
      Move(if done then NoChange else Revoke(AllOf(s.table.rows, user), Security), s.users, SigningOut(user, true))
    case SettingActive(_, _, _, _) =>
      var (e, users, pc) := PlanActive(s, q); Move(e, users, q.(apc := pc))
    case CleaningUp(_) =>
      var (e, pc) := PlanCleanup(s, q); Move(e, s.users, q.(cpc := pc))
  }

  predicate Begins(q: Request) {
    match q
    case Refreshing(_, _, _, pc) => pc == Start
    case LoggingOut(_, _, pc) => pc == LogoutStart
    case SigningIn(_, pc) => pc == SignInStart
    case RevokingOne(_, _, done) => !done
    case RevokingAll(_, done) => !done
    case SigningOut(_, done) => !done
    case SettingActive(_, _, _, pc) => pc == ActiveStart
    case CleaningUp(pc) => pc == CleanupStart
  }

  // prepareSession is the step that draws a fresh id and a fresh token
  predicate Draws(q: Request) {
    || (q.Refreshing? && (q.pc.ToPrepare? || q.pc.RetryPrepare?))
    || (q.SigningIn? && q.spc == SignInPrepare)
  }

  // ----- The step relation -----

  datatype Step =
    | Tick(t: Time)
    | AddUser(u: UserId, client: ClientId)
    | Spawn(r: ReqId, q: Request)
    | Act(r: ReqId, f: Fresh)

  ghost function After(s: State, r: ReqId, f: Fresh): State
    requires r in s.reqs
  {
    var m := Plan(s, s.reqs[r], f);
    s.(table := Apply(s.table, m.effect),
       users := m.users,
       reqs := s.reqs[r := m.next],
       usedIds := if Draws(s.reqs[r]) then s.usedIds + {f.id} else s.usedIds,
       usedHashes := if Draws(s.reqs[r]) then s.usedHashes + {f.tokenHash} else s.usedHashes)
  }

  ghost predicate CanAct(s: State, r: ReqId, f: Fresh) {
    r in s.reqs && (Draws(s.reqs[r]) ==> f.id !in s.usedIds && f.tokenHash !in s.usedHashes)
  }

  ghost predicate NextStep(s: State, e: Step, s': State) {
    match e
    case Tick(t) => s.now <= t && s' == s.(now := t)
    case AddUser(u, client) => u !in s.users && s' == s.(users := s.users[u := User(client, true)])
    case Spawn(r, q) => r !in s.reqs && Begins(q) && s' == s.(reqs := s.reqs[r := q])
    case Act(r, f) => CanAct(s, r, f) && s' == After(s, r, f)
  }

  ghost predicate Next(s: State, s': State) {
    exists e :: NextStep(s, e, s')
  }

  // Rows written before the rotation columns existed carry no operation, no time
  // and no successor; some carry no reason.
  ghost predicate LegacyTable(t: Table) {
    && HashesDistinct(t.born) && Ordered(t.born) && Certified(t)
    && (forall id :: id in t.born ==> t.born[id].root == id)
    && (forall id :: id in t.rows ==>
          t.rows[id].opHash.None? && t.rows[id].rotatedAt.None? && t.rows[id].replacedBy.None?)
    && t.spun == map[]
    && t.suspects == (set id | id in t.rows && SeenAsRotated(t.rows[id]))
  }

  ghost predicate Init(s: State) {
    && 1000 <= s.cfg.grace <= MAX_GRACE
    && LegacyTable(s.table)
    && (forall id :: id in s.table.born ==>
          && s.table.born[id].expiresAt <= s.now + s.cfg.lifetime
          && s.table.born[id].userId in s.users
          && id in s.usedIds
          && s.table.born[id].tokenHash in s.usedHashes)
    && s.reqs == map[]
  }

  // ----- Whole runs -----

  ghost predicate IsRun(run: seq<State>) {
    && |run| > 0
    && (forall i :: 0 <= i < |run| - 1 ==> Next(run[i], run[i + 1]))
  }

  ghost predicate IsHistory(run: seq<State>) {
    IsRun(run) && Init(run[0])
  }
}
