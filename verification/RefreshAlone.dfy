/**
 * What one refresh does in every run of its own steps only, time passing between them as
 * it likes, with every condition and every written column spelled out.
 */
module RefreshAlone {
  import opened Wrappers
  import opened TokenTable
  import opened RefreshMachine
  import opened RefreshInvariant
  import opened RefreshTheorems

  // One step of r, or time passing.
  ghost predicate OwnStep(s: State, s': State, r: ReqId) {
    (s.now <= s'.now && s' == s.(now := s'.now)) || exists f :: CanAct(s, r, f) && s' == After(s, r, f)
  }

  ghost predicate Alone(run: seq<State>, r: ReqId) {
    |run| > 0 && forall k :: 0 <= k < |run| - 1 ==> OwnStep(run[k], run[k + 1], r)
  }

  // ----- Rows -----

  predicate Others(before: map<Id, Row>, after: map<Id, Row>, written: set<Id>) {
    forall x :: x in before && x !in written ==> x in after && after[x] == before[x]
  }

  // A new active session of the user, made between the two instants.
  predicate Born(s: State, t: State, n: Id, user: UserId) {
    && n !in s.table.rows && n in t.table.rows
    && var row := t.table.rows[n];
       && row.userId == user && !row.revoked && row.reason == None
       && row.opHash == None && row.rotatedAt == None && row.replacedBy == None && row.tokenHash !in s.usedHashes
       && s.now + s.cfg.lifetime <= row.expiresAt <= t.now + s.cfg.lifetime
  }

  // The row is revoked for that reason; its other columns stay.
  predicate Ended(was: Row, became: Row, why: Reason) {
    became == Row(was.userId, was.tokenHash, true, Some(why), was.opHash, was.rotatedAt, was.replacedBy, was.expiresAt)
  }

  // Exactly the active rows of the user are revoked, for security.
  predicate Killed(before: map<Id, Row>, after: map<Id, Row>, user: UserId) {
    && after.Keys == before.Keys
    && forall x :: x in before ==>
         if before[x].userId == user && !before[x].revoked then Ended(before[x], after[x], Security)
         else after[x] == before[x]
  }

  // ----- What a refresh may find -----

  predicate Presented(s: State, q: Request, id: Id)
    requires q.Refreshing?
  {
    id in s.table.rows && s.table.rows[id].tokenHash == q.hash
  }

  predicate OfClient(s: State, q: Request, user: UserId)
    requires q.Refreshing?
  {
    user in s.users && s.users[user].clientId == q.client
  }

  predicate ActiveUser(s: State, q: Request, user: UserId)
    requires q.Refreshing?
  {
    OfClient(s, q, user) && s.users[user].isActive
  }

  // Revoked by rotation, or before reasons were recorded.
  predicate RevokedByRotation(row: Row) {
    row.revoked && (row.reason == None || row.reason == Some(Rotated))
  }

  // The same operation rotated the token at most the grace period ago, and the successor
  // it got is the user's, active and unexpired.
  predicate MayRetry(s: State, q: Request, id: Id, at: Time)
    requires q.Refreshing? && id in s.table.rows
  {
    var row := s.table.rows[id];
    && row.opHash == Some(q.op)
    && row.rotatedAt.Some? && at <= row.rotatedAt.value + s.cfg.grace
    && row.replacedBy.Some? && row.replacedBy.value in s.table.rows
    && var next := s.table.rows[row.replacedBy.value];
       next.userId == row.userId && !next.revoked && at < next.expiresAt
  }

  // ----- How it may end -----

  // The token is consumed by this operation and names its successor n.
  predicate Rotates(s: State, t: State, q: Request, id: Id, n: Id, at: Time)
    requires q.Refreshing?
  {
    && Presented(s, q, id) && s.now <= at <= t.now && n != id
    && var was := s.table.rows[id];
       && ActiveUser(s, q, was.userId) && !was.revoked && at < was.expiresAt
       && t.table.rows.Keys == s.table.rows.Keys + {n}
       && t.table.rows[id] ==
          Row(was.userId, was.tokenHash, true, Some(Rotated), Some(q.op), Some(at), Some(n), was.expiresAt)
       && Born(s, t, n, was.userId) && Others(s.table.rows, t.table.rows, {id})
  }

  // The unused successor is revoked as a retry and n takes its place.
  predicate Retries(s: State, t: State, q: Request, id: Id, n: Id, at: Time)
    requires q.Refreshing?
  {
    && Presented(s, q, id) && s.now <= at <= t.now && n != id
    && var was := s.table.rows[id];
       && ActiveUser(s, q, was.userId) && RevokedByRotation(was) && MayRetry(s, q, id, at)
       && var prev := was.replacedBy.value;
          && n != prev && t.table.rows.Keys == s.table.rows.Keys + {n}
          && t.table.rows[id] ==
             Row(was.userId, was.tokenHash, true, was.reason, was.opHash, was.rotatedAt, Some(n), was.expiresAt)
          && Ended(s.table.rows[prev], t.table.rows[prev], Retry)
          && Born(s, t, n, was.userId) && Others(s.table.rows, t.table.rows, {id, prev})
  }

  ghost predicate Renews(s: State, t: State, q: Request, id: Id, n: Id)
    requires q.Refreshing?
  {
    exists at :: Rotates(s, t, q, id, n, at) || Retries(s, t, q, id, n, at)
  }

  // Revoked by rotation and, by then, no retry: every session of the user is ended.
  predicate Replays(s: State, t: State, q: Request, id: Id)
    requires q.Refreshing?
  {
    && Presented(s, q, id)
    && var was := s.table.rows[id];
       && OfClient(s, q, was.userId) && RevokedByRotation(was)
       && !(ActiveUser(s, q, was.userId) && MayRetry(s, q, id, t.now))
       && Killed(s.table.rows, t.table.rows, was.userId)
  }

  // No such token, one revoked for another reason, one that is not this client's, or an
  // active row that expired or whose user is inactive: no row changes.
  ghost predicate Refuses(s: State, t: State, q: Request)
    requires q.Refreshing?
  {
    && t.table.rows == s.table.rows
    && forall id :: Presented(s, q, id) ==>
         var was := s.table.rows[id];
         || !OfClient(s, q, was.userId)
         || (was.revoked && was.reason.Some? && was.reason.value != Rotated)
         || (!was.revoked && (!s.users[was.userId].isActive || was.expiresAt <= t.now))
  }

  ghost predicate Ends401(s: State, t: State, q: Request)
    requires q.Refreshing?
  {
    Refuses(s, t, q) || exists id :: Replays(s, t, q, id)
  }

  // ----- Where it stands -----

  predicate Read(s: State, q: Request, st: Stored)
    requires q.Refreshing?
  {
    Presented(s, q, st.id) && st.row == s.table.rows[st.id]
  }

  predicate Made(s: State, t: State, st: Stored, p: Prepared) {
    && p.userId == st.row.userId && p.id !in s.table.rows && p.tokenHash !in s.usedHashes
    && s.now + s.cfg.lifetime <= p.expiresAt <= t.now + s.cfg.lifetime
  }

  predicate ReadActive(s: State, q: Request, st: Stored)
    requires q.Refreshing?
  {
    Read(s, q, st) && !st.row.revoked && ActiveUser(s, q, st.row.userId)
  }

  // On the retry path: expired since it was read, or read as rotated.
  predicate ReadSpent(s: State, t: State, q: Request, st: Stored, late: bool)
    requires q.Refreshing?
  {
    && Read(s, q, st) && ActiveUser(s, q, st.row.userId)
    && (if late then !st.row.revoked && st.row.expiresAt <= t.now else RevokedByRotation(st.row))
  }

  // Nothing but requests, the clock and drawn ids has moved.
  predicate Still(s: State, t: State) {
    && t.table == s.table && t.users == s.users && t.cfg == s.cfg && s.now <= t.now
    && s.usedIds <= t.usedIds && s.usedHashes <= t.usedHashes
  }

  ghost predicate Stage(s: State, t: State, q: Request, pc: RefreshPc)
    requires q.Refreshing?
  {
    match pc
    case Start => Still(s, t)
    case HasStored(st) => Still(s, t) && Read(s, q, st)
    case HasOwner(st, owner) =>
      && Still(s, t) && Read(s, q, st)
      && owner == if OfClient(s, q, st.row.userId) then Some(s.users[st.row.userId]) else None
    case ToPrepare(st) => Still(s, t) && ReadActive(s, q, st)
    case HasSuccessor(st, p) => Still(s, t) && ReadActive(s, q, st) && Made(s, t, st, p)
    case Timed(st, p, at) => Still(s, t) && ReadActive(s, q, st) && Made(s, t, st, p) && s.now <= at <= t.now
    case RetryRead(st, late) => Still(s, t) && ReadSpent(s, t, q, st, late)
    case RetryCheck(st, late, c) => Still(s, t) && ReadSpent(s, t, q, st, late) && c == Some(st.row)
    case RetryPrepare(st, late) => Still(s, t) && ReadSpent(s, t, q, st, late) && !late
    case RetryTx(st, late, p) => Still(s, t) && ReadSpent(s, t, q, st, late) && !late && Made(s, t, st, p)
    case Latest(st) => Still(s, t) && ReadSpent(s, t, q, st, true)
    case Replay(st) =>
      && Still(s, t) && Read(s, q, st) && OfClient(s, q, st.row.userId) && RevokedByRotation(st.row)
      && !(ActiveUser(s, q, st.row.userId) && MayRetry(s, q, st.id, t.now))
    case Done200(st, id) => t.users == s.users && s.now <= t.now && t.cfg == s.cfg && Renews(s, t, q, st.id, id)
    case Done401 => t.users == s.users && s.now <= t.now && t.cfg == s.cfg && Ends401(s, t, q)
  }

  // Unique token hashes, and ids drawn before their rows exist.
  ghost predicate Sound(s: State) {
    && (forall a, b :: a in s.table.rows && b in s.table.rows && s.table.rows[a].tokenHash == s.table.rows[b].tokenHash
          ==> a == b)
    && (forall a :: a in s.table.rows ==> a in s.usedIds)
  }

  predicate SameAsk(t: State, r: ReqId, q: Request)
    requires q.Refreshing?
  {
    r in t.reqs && t.reqs[r].Refreshing? && t.reqs[r] == q.(pc := t.reqs[r].pc)
  }

  // One step of the refresh on a store that is still as it found it.
  ghost predicate Moves(s: State, t: State, t': State, q: Request, pc: RefreshPc, f: Fresh, pc': RefreshPc)
    requires q.Refreshing?
  {
    && Sound(s) && Stage(s, t, q, pc) && (Draws(q.(pc := pc)) ==> f.id !in t.usedIds && f.tokenHash !in t.usedHashes)
    && PlanRefresh(t, q.(pc := pc), f).1 == pc'
    && t'.table == Apply(t.table, PlanRefresh(t, q.(pc := pc), f).0)
    && t'.users == t.users && t'.now == t.now && t'.cfg == t.cfg
    && t.usedIds <= t'.usedIds && t.usedHashes <= t'.usedHashes
  }

  lemma Unchanged(t: Table)
    ensures Apply(t, NoChange) == t
  {}

  lemma SelectStage(s: State, t: State, t': State, q: Request, pc: RefreshPc, f: Fresh, pc': RefreshPc)
    requires q.Refreshing? && Moves(s, t, t', q, pc, f, pc') && pc == Start
    ensures Stage(s, t', q, pc')
  {
    Unchanged(t.table);
    hide Apply, Rotatable, Retryable, Replaceable, Replays;
  }

  lemma OwnerStage(s: State, t: State, t': State, q: Request, pc: RefreshPc, f: Fresh, pc': RefreshPc)
    requires q.Refreshing? && Moves(s, t, t', q, pc, f, pc') && pc.HasStored?
    ensures Stage(s, t', q, pc')
  {
    Unchanged(t.table);
    hide Apply, Rotatable, Retryable, Replaceable, Replays, Sound;
  }

  // The token is unique, so what was read is all that is presented.
  lemma OnlyRead(s: State, q: Request, st: Stored, id: Id)
    requires q.Refreshing? && Sound(s) && Read(s, q, st) && Presented(s, q, id)
    ensures id == st.id
  {}

  lemma RefusedRead(s: State, t: State, q: Request, st: Stored)
    requires q.Refreshing? && Sound(s) && Read(s, q, st) && t.table.rows == s.table.rows
    requires || !OfClient(s, q, st.row.userId)
             || (st.row.revoked && st.row.reason.Some? && st.row.reason.value != Rotated)
             || (!st.row.revoked && (!s.users[st.row.userId].isActive || st.row.expiresAt <= t.now))
    ensures Ends401(s, t, q)
  {
    forall id | Presented(s, q, id) ensures id == st.id { OnlyRead(s, q, st, id); }
    hide Sound, Replays;
  }

  lemma BranchStage(s: State, t: State, t': State, q: Request, pc: RefreshPc, f: Fresh, pc': RefreshPc)
    requires q.Refreshing? && Moves(s, t, t', q, pc, f, pc') && pc.HasOwner?
    ensures Stage(s, t', q, pc')
  {
    Unchanged(t.table);
    hide Apply, Lookup, Rotatable, Retryable, Replaceable, Replays, Ends401;
    if pc' == Done401 { RefusedRead(s, t', q, pc.st); }
    hide Sound;
  }

  lemma DrawStage(s: State, t: State, t': State, q: Request, pc: RefreshPc, f: Fresh, pc': RefreshPc)
    requires q.Refreshing? && Moves(s, t, t', q, pc, f, pc')
    requires pc.ToPrepare? || pc.HasSuccessor? || pc.RetryPrepare?
    ensures Stage(s, t', q, pc')
  {
    Unchanged(t.table);
    hide Apply, Lookup, Rotatable, Retryable, Replaceable, Replays, Ends401, RevokedByRotation, OfClient;
  }

  lemma RotateStage(s: State, t: State, t': State, q: Request, pc: RefreshPc, f: Fresh, pc': RefreshPc)
    requires q.Refreshing? && Moves(s, t, t', q, pc, f, pc') && pc.Timed?
    ensures Stage(s, t', q, pc')
  {
    hide Lookup, Retryable, Replaceable, Replays, Ends401, Sound;
    if pc'.Done200? {
      hide OfClient;
      assert Rotates(s, t', q, pc.st.id, pc.p.id, pc.at);
    } else {
      Unchanged(t.table);
    }
  }

  lemma ReadStage(s: State, t: State, t': State, q: Request, pc: RefreshPc, f: Fresh, pc': RefreshPc)
    requires q.Refreshing? && Moves(s, t, t', q, pc, f, pc') && (pc.RetryRead? || pc.RetryCheck? || pc.Latest?)
    ensures Stage(s, t', q, pc')
  {
    Unchanged(t.table);
    hide Apply, Lookup, Rotatable, Replaceable, Replays, Ends401;
    if pc' == Done401 { RefusedRead(s, t', q, pc.st); }
    hide Sound;
  }

  lemma ReplaceStage(s: State, t: State, t': State, q: Request, pc: RefreshPc, f: Fresh, pc': RefreshPc)
    requires q.Refreshing? && Moves(s, t, t', q, pc, f, pc') && pc.RetryTx?
    ensures Stage(s, t', q, pc')
  {
    hide Lookup, Rotatable, Replays, Ends401, Sound;
    if pc'.Done200? {
      assert Retries(s, t', q, pc.st.id, pc.p.id, t.now);
    } else {
      Unchanged(t.table);
    }
  }

  lemma KillStage(s: State, t: State, t': State, q: Request, pc: RefreshPc, f: Fresh, pc': RefreshPc)
    requires q.Refreshing? && Moves(s, t, t', q, pc, f, pc') && pc.Replay?
    ensures Stage(s, t', q, pc')
  {
    hide Lookup, Rotatable, Retryable, Replaceable, Refuses, Sound;
    assert Replays(s, t', q, pc.st.id);
  }

  // Nothing but the clock and the requests may have moved.
  lemma RestStage(s: State, t: State, t': State, q: Request, pc: RefreshPc)
    requires q.Refreshing? && Stage(s, t, q, pc) && t.now <= t'.now && t' == t.(now := t'.now, reqs := t'.reqs)
    ensures Stage(s, t', q, pc)
  {
    if pc.Done200? {
      var at :| Rotates(s, t, q, pc.st.id, pc.id, at) || Retries(s, t, q, pc.st.id, pc.id, at);
      assert Rotates(s, t', q, pc.st.id, pc.id, at) || Retries(s, t', q, pc.st.id, pc.id, at);
    } else if pc == Done401 {
      if !Refuses(s, t, q) {
        var id :| Replays(s, t, q, id);
        assert Replays(s, t', q, id);
      }
    }
    hide Rotates, Retries, Replays;
  }

  lemma StageStep(s: State, t: State, t': State, q: Request, pc: RefreshPc, f: Fresh, pc': RefreshPc)
    requires q.Refreshing? && Moves(s, t, t', q, pc, f, pc') && !pc.Done200? && pc != Done401
    ensures Stage(s, t', q, pc')
  {
    hide Moves, Stage;
    match pc
    case Start => SelectStage(s, t, t', q, pc, f, pc');
    case HasStored(_) => OwnerStage(s, t, t', q, pc, f, pc');
    case HasOwner(_, _) => BranchStage(s, t, t', q, pc, f, pc');
    case Timed(_, _, _) => RotateStage(s, t, t', q, pc, f, pc');
    case RetryTx(_, _, _) => ReplaceStage(s, t, t', q, pc, f, pc');
    case Replay(_) => KillStage(s, t, t', q, pc, f, pc');
    case RetryRead(_, _) => ReadStage(s, t, t', q, pc, f, pc');
    case RetryCheck(_, _, _) => ReadStage(s, t, t', q, pc, f, pc');
    case Latest(_) => ReadStage(s, t, t', q, pc, f, pc');
    case _ => DrawStage(s, t, t', q, pc, f, pc');
  }

  lemma ActStage(s: State, t: State, t': State, r: ReqId, q: Request, f: Fresh)
    requires q.Refreshing? && Sound(s) && SameAsk(t, r, q) && Stage(s, t, q, t.reqs[r].pc)
    requires CanAct(t, r, f) && t' == After(t, r, f)
    ensures SameAsk(t', r, q) && Stage(s, t', q, t'.reqs[r].pc)
  {
    AfterRefresh(t, r, f);
    var pc := t.reqs[r].pc;
    if pc.Done200? || pc == Done401 {
      EndStays(t, r, f);
      hide Stage, After, Sound;
      RestStage(s, t, t', q, pc);
    } else {
      hide Stage, After, Plan, PlanRefresh, Sound, Apply;
      StageStep(s, t, t', q, pc, f, t'.reqs[r].pc);
    }
  }

  lemma EndStays(t: State, r: ReqId, f: Fresh)
    requires r in t.reqs && t.reqs[r].Refreshing? && (t.reqs[r].pc.Done200? || t.reqs[r].pc == Done401)
    ensures After(t, r, f) == t
  {
    assert t.reqs[r := t.reqs[r]] == t.reqs;
  }

  lemma OwnStage(s: State, t: State, t': State, r: ReqId, q: Request)
    requires q.Refreshing? && Sound(s) && SameAsk(t, r, q) && Stage(s, t, q, t.reqs[r].pc) && OwnStep(t, t', r)
    ensures SameAsk(t', r, q) && Stage(s, t', q, t'.reqs[r].pc)
  {
    hide Stage, After, CanAct, Sound;
    if t.now <= t'.now && t' == t.(now := t'.now) {
      RestStage(s, t, t', q, t.reqs[r].pc);
    } else {
      var f :| CanAct(t, r, f) && t' == After(t, r, f);
      ActStage(s, t, t', r, q, f);
    }
  }

  lemma {:induction false} Stages(run: seq<State>, r: ReqId, k: nat)
    requires Alone(run, r) && Sound(run[0]) && k < |run|
    requires r in run[0].reqs && run[0].reqs[r].Refreshing? && run[0].reqs[r].pc == Start
    ensures SameAsk(run[k], r, run[0].reqs[r]) && Stage(run[0], run[k], run[0].reqs[r], run[k].reqs[r].pc)
  {
    hide OwnStep, Sound;
    if k == 0 {
    } else {
      hide Stage;
      Stages(run, r, k - 1);
      assert OwnStep(run[k - 1], run[k - 1 + 1], r);
      OwnStage(run[0], run[k - 1], run[k], r, run[0].reqs[r]);
    }
  }

  lemma InvIsSound(s: State)
    requires Inv(s)
    ensures Sound(s)
  {
    hide Ordered, Rooted, Recorded, OneActive, Linked, LinkedOnce, ReqsInv, PendingDistinct, Timely, Retained;
  }

  /**
   * Every run of a refresh's own steps, from any state of any history. It answers 200 only
   * by consuming an active, unexpired token of an active user of the client, or by replacing
   * the unused successor for the same operation within the grace period; the rows then are
   * exactly as Rotates or Retries says. It answers 401 only if neither was open to it: then
   * it ends every session of the user if the token was revoked by rotation or with no
   * reason, and changes no row otherwise.
   */
  lemma RefreshExactly(run: seq<State>, r: ReqId)
    requires Alone(run, r) && Inv(run[0])
    requires r in run[0].reqs && run[0].reqs[r].Refreshing? && run[0].reqs[r].pc == Start
    ensures var s, t := run[0], run[|run| - 1]; var q := s.reqs[r];
            && SameAsk(t, r, q) && t.users == s.users
            && (forall st, n :: t.reqs[r].pc == Done200(st, n) ==> Renews(s, t, q, st.id, n))
            && (t.reqs[r].pc == Done401 ==> Ends401(s, t, q))
            && (!t.reqs[r].pc.Done200? && t.reqs[r].pc != Done401 ==> t.table == s.table)
  {
    InvIsSound(run[0]);
    hide Inv;
    Stages(run, r, |run| - 1);
    hide Alone, Sound, Renews, Ends401, Read, ReadSpent, ReadActive, Made, MayRetry, OfClient;
  }
}
