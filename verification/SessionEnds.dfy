/**
 * What the other handlers of refresh_tokens do in every run of their own steps only, time
 * passing between them as it likes: sign-in, logout, the sessions API, sign-out everywhere,
 * deactivation and the cleanup job, with every written column spelled out.
 */
module SessionEnds {
  import opened Wrappers
  import opened TokenTable
  import opened RefreshMachine
  import opened RefreshInvariant
  import opened RefreshAlone

  // Exactly the named rows are revoked for that reason, overwriting any reason they had.
  predicate Struck(before: map<Id, Row>, after: map<Id, Row>, named: set<Id>, why: Reason) {
    && after.Keys == before.Keys
    && forall x :: x in before ==>
         if x in named then Ended(before[x], after[x], why) else after[x] == before[x]
  }

  predicate OfClient(s: State, user: UserId, client: ClientId) {
    user in s.users && s.users[user].clientId == client
  }

  predicate Same(s: State, t: State) {
    t.table.rows == s.table.rows && t.users == s.users
  }

  // Where a request that began as q in s may stand in t, once it is over.
  ghost predicate LogoutEnds(s: State, t: State, client: ClientId, hash: Hash) {
    && t.users == s.users
    && (|| (exists id :: LogsOut(s, t, client, hash, id))
        || (t.table.rows == s.table.rows
            && forall id :: id in s.table.rows && s.table.rows[id].tokenHash == hash ==>
                         !OfClient(s, s.table.rows[id].userId, client)))
  }

  // The presented row is revoked as logged out, whatever it was before.
  predicate LogsOut(s: State, t: State, client: ClientId, hash: Hash, id: Id) {
    && id in s.table.rows && s.table.rows[id].tokenHash == hash && OfClient(s, s.table.rows[id].userId, client)
    && Struck(s.table.rows, t.table.rows, {id}, Reason.Logout)
  }

  ghost predicate SignInEnds(s: State, t: State, user: UserId) {
    && t.users == s.users
    && if user in s.users && s.users[user].isActive
       then exists n :: SignsIn(s, t, user, n)
       else t.table.rows == s.table.rows
  }

  predicate SignsIn(s: State, t: State, user: UserId, n: Id) {
    && Born(s, t, n, user) && Others(s.table.rows, t.table.rows, {})
    && t.table.rows.Keys == s.table.rows.Keys + {n}
  }

  // The row is revoked only if it is this user's and active.
  predicate RevokeOneEnds(s: State, t: State, user: UserId, id: Id) {
    && t.users == s.users
    && if id in s.table.rows && s.table.rows[id].userId == user && !s.table.rows[id].revoked
       then Struck(s.table.rows, t.table.rows, {id}, UserRevoked)
       else t.table.rows == s.table.rows
  }

  predicate RevokeAllEnds(s: State, t: State, user: UserId) {
    && t.users == s.users
    && Struck(s.table.rows, t.table.rows,
              (set x | x in s.table.rows && s.table.rows[x].userId == user && !s.table.rows[x].revoked), UserRevoked)
  }

  // Rows that were revoked already are overwritten too.
  predicate SignOutEnds(s: State, t: State, user: UserId) {
    && t.users == s.users
    && Struck(s.table.rows, t.table.rows, (set x | x in s.table.rows && s.table.rows[x].userId == user), Security)
  }

  predicate ActiveEnds(s: State, t: State, client: ClientId, user: UserId, active: bool) {
    if !OfClient(s, user, client) then Same(s, t)
    else
      && t.users.Keys == s.users.Keys && t.users[user].isActive == active && t.users[user].clientId == client
      && (forall v :: v in s.users && v != user ==> t.users[v] == s.users[v])
      && (if active then t.table.rows == s.table.rows
          else Struck(s.table.rows, t.table.rows, (set x | x in s.table.rows && s.table.rows[x].userId == user),
                      Security))
  }

  // Gone are exactly the rows that had expired thirty days before the clock it read.
  ghost predicate CleanupEnds(s: State, t: State) {
    t.users == s.users && exists read :: Sweeps(s, t, read)
  }

  ghost predicate Sweeps(s: State, t: State, read: Time) {
    && s.now <= read <= t.now
    && (forall x :: x in t.table.rows <==> x in s.table.rows && s.table.rows[x].expiresAt >= read - 2592000000)
    && (forall x :: x in t.table.rows ==> t.table.rows[x] == s.table.rows[x])
  }

  ghost predicate Stage(s: State, t: State, q: Request)
    requires !q.Refreshing?
  {
    s.now <= t.now && t.cfg == s.cfg && s.usedIds <= t.usedIds && s.usedHashes <= t.usedHashes &&
    match q
    case LoggingOut(client, hash, pc) =>
      (match pc
       case LogoutStart => Same(s, t)
       case LogoutStored(st) =>
         Same(s, t) && st.id in s.table.rows && st.row == s.table.rows[st.id] && st.row.tokenHash == hash
       case LogoutOwned(st) =>
         && Same(s, t) && st.id in s.table.rows && st.row == s.table.rows[st.id] && st.row.tokenHash == hash
         && OfClient(s, st.row.userId, client)
       case LogoutDone => LogoutEnds(s, t, client, hash))
    case SigningIn(user, pc) =>
      (match pc
       case SignInStart => Same(s, t)
       case SignInPrepare => Same(s, t) && user in s.users && s.users[user].isActive
       case SignInInsert(p) =>
         && Same(s, t) && user in s.users && s.users[user].isActive
         && p.userId == user && p.id !in s.table.rows && p.tokenHash !in s.usedHashes
         && s.now + s.cfg.lifetime <= p.expiresAt <= t.now + s.cfg.lifetime
       case SignInDone => SignInEnds(s, t, user))
    case RevokingOne(user, id, done) => if done then RevokeOneEnds(s, t, user, id) else Same(s, t)
    case RevokingAll(user, done) => if done then RevokeAllEnds(s, t, user) else Same(s, t)
    case SigningOut(user, done) => if done then SignOutEnds(s, t, user) else Same(s, t)
    case SettingActive(client, user, active, pc) =>
      (match pc
       case ActiveStart => Same(s, t)
       case ActiveRevoke =>
         && t.table.rows == s.table.rows && OfClient(s, user, client) && !active
         && t.users == s.users[user := User(client, false)]
       case ActiveDone => ActiveEnds(s, t, client, user, active))
    case CleaningUp(pc) =>
      (match pc
       case CleanupStart => Same(s, t)
       case CleanupCut(cutoff) => Same(s, t) && s.now - 2592000000 <= cutoff <= t.now - 2592000000
       case CleanupDone => CleanupEnds(s, t))
  }

  // The request as it came in, and as it stands.
  predicate SameRequest(q: Request, q': Request)
    requires !q.Refreshing?
  {
    match q
    case LoggingOut(client, hash, _) => q'.LoggingOut? && q'.client == client && q'.hash == hash
    case SigningIn(user, _) => q'.SigningIn? && q'.user == user
    case RevokingOne(user, id, _) => q'.RevokingOne? && q'.user == user && q'.id == id
    case RevokingAll(user, _) => q'.RevokingAll? && q'.user == user
    case SigningOut(user, _) => q'.SigningOut? && q'.user == user
    case SettingActive(client, user, active, _) =>
      q'.SettingActive? && q'.client == client && q'.user == user && q'.active == active
    case CleaningUp(_) => q'.CleaningUp?
  }

  predicate Over(q: Request)
    requires !q.Refreshing?
  {
    match q
    case LoggingOut(_, _, pc) => pc == LogoutDone
    case SigningIn(_, pc) => pc == SignInDone
    case RevokingOne(_, _, done) => done
    case RevokingAll(_, done) => done
    case SigningOut(_, done) => done
    case SettingActive(_, _, _, pc) => pc == ActiveDone
    case CleaningUp(pc) => pc == CleanupDone
  }

  // One step of the request q, which then stands at q'.
  ghost predicate Moves(s: State, t: State, t': State, q: Request, f: Fresh, q': Request) {
    && !q.Refreshing? && Sound(s) && Stage(s, t, q) && (Draws(q) ==> f.id !in t.usedIds && f.tokenHash !in t.usedHashes)
    && var m := Plan(t, q, f);
       && q' == m.next && !q'.Refreshing? && t'.table.rows == Rows(t.table.rows, m.effect) && t'.users == m.users
       && t'.now == t.now && t'.cfg == t.cfg && t.usedIds <= t'.usedIds && t.usedHashes <= t'.usedHashes
  }

  lemma LogoutStage(s: State, t: State, t': State, q: Request, f: Fresh, q': Request)
    requires Moves(s, t, t', q, f, q') && q.LoggingOut? && !Over(q)
    ensures Stage(s, t', q')
  {
    hide PlanRefresh;
    if q.lpc.LogoutStored? && q'.lpc.LogoutDone? {
      forall id | id in s.table.rows && s.table.rows[id].tokenHash == q.hash ensures id == q.lpc.st.id {}
    }
    if q.lpc.LogoutOwned? { assert LogsOut(s, t', q.client, q.hash, q.lpc.st.id); }
    hide Sound;
  }

  lemma SignInStage(s: State, t: State, t': State, q: Request, f: Fresh, q': Request)
    requires Moves(s, t, t', q, f, q') && q.SigningIn? && !Over(q)
    ensures Stage(s, t', q')
  {
    hide PlanRefresh, PlanLogout;
    if q.spc.SignInInsert? { assert SignsIn(s, t', q.user, q.spc.p.id); }
  }

  lemma RevokeStage(s: State, t: State, t': State, q: Request, f: Fresh, q': Request)
    requires Moves(s, t, t', q, f, q') && (q.RevokingOne? || q.RevokingAll? || q.SigningOut?) && !Over(q)
    ensures Stage(s, t', q')
  {
    hide PlanRefresh, PlanLogout, Sound;
  }

  lemma ActiveStage(s: State, t: State, t': State, q: Request, f: Fresh, q': Request)
    requires Moves(s, t, t', q, f, q') && q.SettingActive? && !Over(q)
    ensures Stage(s, t', q')
  {
    hide PlanRefresh, PlanLogout, Sound;
  }

  lemma CleanupStage(s: State, t: State, t': State, q: Request, f: Fresh, q': Request)
    requires Moves(s, t, t', q, f, q') && q.CleaningUp? && !Over(q)
    ensures Stage(s, t', q')
  {
    hide PlanRefresh, PlanLogout, Sound;
    if q.cpc.CleanupCut? { assert Sweeps(s, t', q.cpc.cutoff + 2592000000); }
  }

  // Nothing but the clock and drawn ids has moved.
  lemma WaitStage(s: State, t: State, t': State, q: Request)
    requires !q.Refreshing? && Stage(s, t, q) && t.now <= t'.now && t'.cfg == t.cfg && Same(t, t')
    requires t.usedIds <= t'.usedIds && t.usedHashes <= t'.usedHashes
    ensures Stage(s, t', q)
  {
    if q.LoggingOut? && q.lpc == LogoutDone && exists id :: LogsOut(s, t, q.client, q.hash, id) {
      var id :| LogsOut(s, t, q.client, q.hash, id);
      assert LogsOut(s, t', q.client, q.hash, id);
    }
    if q.SigningIn? && q.spc == SignInDone && exists n :: SignsIn(s, t, q.user, n) {
      var n :| SignsIn(s, t, q.user, n);
      assert SignsIn(s, t', q.user, n);
    }
    if q.CleaningUp? && q.cpc == CleanupDone {
      var read :| Sweeps(s, t, read);
      assert Sweeps(s, t', read);
    }
    hide LogsOut, SignsIn, Sweeps, Struck;
  }

  lemma ActStage(s: State, t: State, t': State, q: Request, f: Fresh, q': Request)
    requires !q.Refreshing? && Moves(s, t, t', q, f, q')
    ensures Stage(s, t', q')
  {
    if Over(q) {
      OverStays(t, q, f);
      hide Stage, Plan, Rows, Sound;
      WaitStage(s, t, t', q);
    }
    hide Moves, Stage;
    if !Over(q) {
      StageStep(s, t, t', q, f, q');
    }
  }

  lemma OverStays(t: State, q: Request, f: Fresh)
    requires !q.Refreshing? && Over(q)
    ensures Plan(t, q, f) == Move(NoChange, t.users, q) && Rows(t.table.rows, NoChange) == t.table.rows
  {}

  lemma StageStep(s: State, t: State, t': State, q: Request, f: Fresh, q': Request)
    requires !q.Refreshing? && Moves(s, t, t', q, f, q') && !Over(q)
    ensures Stage(s, t', q')
  {
    hide Moves, Stage, Over;
    match q
    case LoggingOut(_, _, _) => LogoutStage(s, t, t', q, f, q');
    case SigningIn(_, _) => SignInStage(s, t, t', q, f, q');
    case RevokingOne(_, _, _) => RevokeStage(s, t, t', q, f, q');
    case RevokingAll(_, _) => RevokeStage(s, t, t', q, f, q');
    case SigningOut(_, _) => RevokeStage(s, t, t', q, f, q');
    case SettingActive(_, _, _, _) => ActiveStage(s, t, t', q, f, q');
    case CleaningUp(_) => CleanupStage(s, t, t', q, f, q');
  }

  predicate Asks(t: State, r: ReqId, q: Request)
    requires !q.Refreshing?
  {
    r in t.reqs && !t.reqs[r].Refreshing? && SameRequest(q, t.reqs[r])
  }

  lemma AfterKeepsRequest(t: State, r: ReqId, f: Fresh, q: Request)
    requires !q.Refreshing? && Asks(t, r, q)
    ensures var t', m := After(t, r, f), Plan(t, t.reqs[r], f);
            && Asks(t', r, q) && t'.reqs[r] == m.next && t'.table.rows == Rows(t.table.rows, m.effect)
            && t'.users == m.users && t'.now == t.now && t'.cfg == t.cfg
            && t.usedIds <= t'.usedIds && t.usedHashes <= t'.usedHashes
  {
    hide Rows, PlanRefresh;
  }

  lemma OwnStage(s: State, t: State, t': State, r: ReqId, q: Request)
    requires !q.Refreshing? && Sound(s) && Asks(t, r, q) && Stage(s, t, t.reqs[r]) && OwnStep(t, t', r)
    ensures Asks(t', r, q) && Stage(s, t', t'.reqs[r])
  {
    hide Stage, After, Plan, Rows, Sound, SameRequest;
    if t.now <= t'.now && t' == t.(now := t'.now) {
      WaitStage(s, t, t', t.reqs[r]);
    } else {
      var f :| CanAct(t, r, f) && t' == After(t, r, f);
      AfterKeepsRequest(t, r, f, q);
      ActStage(s, t, t', t.reqs[r], f, t'.reqs[r]);
    }
  }

  lemma {:induction false} Stages(run: seq<State>, r: ReqId, k: nat)
    requires Alone(run, r) && Sound(run[0]) && k < |run|
    requires r in run[0].reqs && !run[0].reqs[r].Refreshing? && Begins(run[0].reqs[r])
    ensures Asks(run[k], r, run[0].reqs[r]) && Stage(run[0], run[k], run[k].reqs[r])
  {
    hide OwnStep, Sound;
    if k == 0 {
    } else {
      hide Stage, SameRequest;
      Stages(run, r, k - 1);
      assert OwnStep(run[k - 1], run[k - 1 + 1], r);
      OwnStage(run[0], run[k - 1], run[k], r, run[0].reqs[r]);
    }
  }

  // What a request that is over did.
  ghost predicate Ends(s: State, t: State, q: Request)
    requires !q.Refreshing?
  {
    match q
    case LoggingOut(client, hash, pc) => pc == LogoutDone ==> LogoutEnds(s, t, client, hash)
    case SigningIn(user, pc) => pc == SignInDone ==> SignInEnds(s, t, user)
    case RevokingOne(user, id, done) => done ==> RevokeOneEnds(s, t, user, id)
    case RevokingAll(user, done) => done ==> RevokeAllEnds(s, t, user)
    case SigningOut(user, done) => done ==> SignOutEnds(s, t, user)
    case SettingActive(client, user, active, pc) => pc == ActiveDone ==> ActiveEnds(s, t, client, user, active)
    case CleaningUp(pc) => pc == CleanupDone ==> CleanupEnds(s, t)
  }

  /**
   * Every run of the own steps of any of these requests, from any state of any history, has
   * done exactly what its case of Ends says once it is over.
   */
  lemma EndsExactly(run: seq<State>, r: ReqId)
    requires Alone(run, r) && Inv(run[0])
    requires r in run[0].reqs && !run[0].reqs[r].Refreshing? && Begins(run[0].reqs[r])
    ensures var s, t := run[0], run[|run| - 1];
            Asks(t, r, s.reqs[r]) && Ends(s, t, t.reqs[r])
  {
    InvIsSound(run[0]);
    hide Inv;
    Stages(run, r, |run| - 1);
    hide Alone, Sound, SameRequest, LogoutEnds, SignInEnds, RevokeOneEnds, RevokeAllEnds, SignOutEnds, ActiveEnds,
      CleanupEnds;
  }
}
