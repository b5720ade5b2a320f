/**
 * The handlers themselves, statement by statement over mutable tables. Every statement
 * method performs one step of the refresh machine, and Yield stands for whatever other
 * requests do at an await, so a handler's trace is a run of the machine and the
 * theorems about runs apply to it.
 */
module RefreshHandlers {
  import opened Wrappers
  import opened Traces
  import opened TokenTable
  import opened RefreshMachine
  import opened RefreshInvariant
  import opened RefreshTheorems
  import opened RefreshConcurrency
  import opened RefreshPlain
  import opened RefreshReasons
  import RefreshAlone
  import SessionEnds

  ghost predicate Traced(trace: seq<State>) {
    IsRun(trace) && Inv(trace[0]) && Inv(trace[|trace| - 1])
  }

  lemma TraceStep(trace: seq<State>, e: Step, s: State)
    requires Traced(trace) && NextStep(trace[|trace| - 1], e, s)
    ensures Traced(trace + [s])
  {
    hide Inv, NextStep;
    NextKeepsInv(trace[|trace| - 1], e, s);
    Extended(trace, s, Next);
  }

  lemma UniqueHash(s: State, hash: Hash, id: Id)
    requires Inv(s) && id in s.table.rows && s.table.rows[id].tokenHash == hash
    ensures Lookup(s.table.rows, hash) == Some(Stored(id, s.table.rows[id]))
  {
    hide Ordered, Rooted, Recorded, OneActive, Linked, LinkedOnce, ReqsInv, PendingDistinct, Timely, Covered, Retained;
    var found := Lookup(s.table.rows, hash);
    assert found.value.id in s.table.born && id in s.table.born;
  }

  lemma AfterPlan(s: State, r: ReqId, f: Fresh)
    requires r in s.reqs
    ensures var m := Plan(s, s.reqs[r], f); var s' := After(s, r, f);
            && s'.table.rows == Rows(s.table.rows, m.effect) && s'.users == m.users && s'.now == s.now
               && s'.cfg == s.cfg
            && r in s'.reqs && s'.reqs[r] == m.next
            && s'.usedIds == (if Draws(s.reqs[r]) then s.usedIds + {f.id} else s.usedIds)
            && s'.usedHashes == (if Draws(s.reqs[r]) then s.usedHashes + {f.tokenHash} else s.usedHashes)
  {
    hide Plan, Rows;
  }

  // Whenever the refresh read a row revoked by rotation or with no reason, for a user of
  // its client, it was answered or went through the replay revocation; whenever it read
  // one revoked for any other reason, neither.
  ghost predicate ReasonDecides(trace: seq<State>, r: ReqId, answered: bool) {
    forall i: nat, st :: i < |trace| && HasRead(trace[i], r, st) ==>
      && (ByRotation(st.row) && OfItsClient(trace[i], r, st) ==> answered || ReachesReplay(trace, i, |trace| - 1, r))
      && (OtherReason(st.row) ==> !answered && !ReachesReplay(trace, i, |trace| - 1, r))
  }

  lemma PlainIsPlain(trace: seq<State>, i: nat, r: ReqId, st: Stored)
    requires IsRun(trace) && i < |trace| && HasRead(trace[i], r, st) && OtherReason(st.row)
    ensures Refused(trace[|trace| - 1], r, st) && !ReachesReplay(trace, i, |trace| - 1, r)
  {
    hide IsRun, OtherReason, HasRead, Harmless, Refused;
    OtherReasonRefusedPlainly(trace, i, |trace| - 1, r, st);
    forall k | i <= k < |trace| - 1
      ensures !(r in trace[k].reqs && trace[k].reqs[r].Refreshing? && trace[k].reqs[r].pc.Replay?)
    {
      OtherReasonRefusedPlainly(trace, i, k, r, st);
      RefusedIsNoReplay(trace[k], r, st);
    }
  }

  lemma RefusedIsNoReplay(s: State, r: ReqId, st: Stored)
    requires Refused(s, r, st)
    ensures r in s.reqs && s.reqs[r].Refreshing? && !s.reqs[r].pc.Replay? && !s.reqs[r].pc.Done200?
  {}

  lemma ReasonsDecide(trace: seq<State>, r: ReqId, answered: bool)
    requires Traced(trace) && r in trace[|trace| - 1].reqs && trace[|trace| - 1].reqs[r].Refreshing?
    requires var pc := trace[|trace| - 1].reqs[r].pc; if answered then pc.Done200? else pc == Done401
    ensures ReasonDecides(trace, r, answered)
  {
    hide IsRun, Inv, ReachesReplay, Refused;
    forall i: nat, st | i < |trace| && HasRead(trace[i], r, st)
      ensures ByRotation(st.row) && OfItsClient(trace[i], r, st) ==> answered || ReachesReplay(trace, i, |trace| - 1, r)
      ensures OtherReason(st.row) ==> !answered && !ReachesReplay(trace, i, |trace| - 1, r)
    {
      if OtherReason(st.row) {
        PlainIsPlain(trace, i, r, st);
        RefusedIsNoReplay(trace[|trace| - 1], r, st);
      } else if !answered && ByRotation(st.row) && OfItsClient(trace[i], r, st) {
        RotatedReadRefusedKills(trace, i, |trace| - 1, r, st);
      }
    }
  }

  class TokenService {
    const cfg: Config
    var users: map<UserId, User>
    var rows: map<Id, Row>
    var clock: Time
    var drawn: nat // no id and no token at or above it has been drawn
    ghost var trace: seq<State>

    ghost predicate Valid()
      reads this
    {
      && Traced(trace)
      && Mirrors(trace[|trace| - 1])
    }

    ghost predicate Mirrors(s: State)
      reads this
    {
      && s.cfg == cfg && s.users == users && s.table.rows == rows && s.now == clock
      && (forall x :: x in s.usedIds ==> x < drawn) && (forall x :: x in s.usedHashes ==> x < drawn)
    }

    ghost function Last(): State
      requires trace != []
      reads this
    {
      trace[|trace| - 1]
    }

    ghost predicate At(r: ReqId, q: Request)
      reads this
    {
      trace != [] && r in Last().reqs && Last().reqs[r] == q
    }

    // Takes over a store in any state of any history.
    constructor (ghost history: seq<State>, cfg: Config, users: map<UserId, User>, rows: map<Id, Row>, clock: Time,
                 drawn: nat)
      requires Traced(history)
      requires var s := history[|history| - 1];
               && s.cfg == cfg && s.users == users && s.table.rows == rows && s.now == clock
               && (forall x :: x in s.usedIds ==> x < drawn) && (forall x :: x in s.usedHashes ==> x < drawn)
      ensures Valid() && trace == history
    {
      hide Inv, IsRun;
      this.cfg, this.users, this.rows, this.clock, this.drawn := cfg, users, rows, clock, drawn;
      trace := history;
    }

    // Another request may run any statements here; this request's own position stays.
    method Yield(ghost r: ReqId)
      requires Valid() && r in Last().reqs
      modifies this
      ensures Valid() && old(trace) <= trace && At(r, old(Last().reqs[r]))
    {}

    // The statement just performed is request r's step.
    ghost method Record(r: ReqId, f: Fresh)
      requires Traced(trace) && CanAct(Last(), r, f) && Mirrors(After(Last(), r, f))
      modifies this`trace
      ensures Valid() && trace == old(trace) + [After(old(Last()), r, f)]
    {
      hide After, Inv;
      assert NextStep(Last(), Act(r, f), After(Last(), r, f));
      TraceStep(trace, Act(r, f), After(Last(), r, f));
      trace := trace + [After(Last(), r, f)];
    }

    // ----- POST /auth/refresh, statement by statement -----

    method SelectByHash(client: ClientId, hash: Hash, ghost op: Hash, ghost r: ReqId) returns (st: Option<Stored>)
      requires Valid() && At(r, Refreshing(client, hash, op, Start))
      modifies this`trace
      ensures Valid() && trace == old(trace) + [After(old(Last()), r, Fresh(0, 0))]
      ensures At(r, Refreshing(client, hash, op, if st.None? then Done401 else HasStored(st.value)))
      ensures st.Some? ==> st.value.row.tokenHash == hash
      ensures st.Some? ==> st.value.id in rows && rows[st.value.id] == st.value.row
      ensures st.None? ==> forall id :: id in rows ==> rows[id].tokenHash != hash
    {
      hide Traced, Inv;
      var found := set id | id in rows && rows[id].tokenHash == hash;
      if found == {} {
        st := None;
        assert Lookup(rows, hash) ==
            None by { assert forall id :: id in rows ==> id !in found ==> rows[id].tokenHash != hash; }
      } else {
        var id :| id in found;
        st := Some(Stored(id, rows[id]));
        InvOfLast();
        UniqueHash(Last(), hash, id);
      }
      AfterPlan(Last(), r, Fresh(0, 0));
      Record(r, Fresh(0, 0));
    }

    lemma InvOfLast()
      requires Valid()
      ensures trace != [] && Inv(Last())
    {
      hide Inv;
    }

    method SelectOwner(client: ClientId, ghost hash: Hash, ghost op: Hash, st: Stored, ghost r: ReqId)
      returns (owner: Option<User>)
      requires Valid() && At(r, Refreshing(client, hash, op, HasStored(st)))
      modifies this`trace
      ensures Valid() && trace == old(trace) + [After(old(Last()), r, Fresh(0, 0))]
      ensures At(r, Refreshing(client, hash, op, HasOwner(st, owner)))
      ensures var user := st.row.userId;
              owner == if user in users && users[user].clientId == client then Some(users[user]) else None
    {
      hide Traced, Inv;
      var user := st.row.userId;
      if user in users && users[user].clientId == client { owner := Some(users[user]); } else { owner := None; }
      AfterPlan(Last(), r, Fresh(0, 0));
      Record(r, Fresh(0, 0));
    }

    // No statement runs here: the handler tests what it read against the clock.
    method Decide(ghost client: ClientId, ghost hash: Hash, ghost op: Hash, st: Stored, owner: Option<User>,
                  ghost r: ReqId)
      returns (pc: RefreshPc)
      requires Valid() && At(r, Refreshing(client, hash, op, HasOwner(st, owner)))
      modifies this`trace
      ensures Valid() && trace == old(trace) + [After(old(Last()), r, Fresh(0, 0))]
      ensures At(r, Refreshing(client, hash, op, pc))
      ensures var row, mine := st.row, owner.Some? && owner.value.isActive;
              pc == if row.revoked then
                      if owner.None? || (row.reason.Some? && row.reason.value != Rotated) then Done401
                      else if mine then RetryRead(st, false) else Replay(st)
                    else if row.expiresAt < clock || !mine then Done401
                    else ToPrepare(st)
    {
      hide Traced, Inv;
      if st.row.revoked || st.row.expiresAt < clock {
        if owner.Some? && SeenAsRotated(st.row) {
          pc := if owner.value.isActive then RetryRead(st, false) else Replay(st);
        } else {
          pc := Done401;
        }
      } else if owner.None? || !owner.value.isActive {
        pc := Done401;
      } else {
        pc := ToPrepare(st);
      }
      AfterPlan(Last(), r, Fresh(0, 0));
      Record(r, Fresh(0, 0));
    }

    // prepareSession: a fresh id, a fresh token, and the expiry.
    method PrepareSession(ghost q: Request, user: UserId, ghost r: ReqId) returns (p: Prepared)
      requires Valid() && At(r, q) && Draws(q)
      requires q.Refreshing? ==> user == q.pc.st.row.userId
      requires q.SigningIn? ==> user == q.user
      modifies this
      ensures Valid() && trace == old(trace) + [After(old(Last()), r, Fresh(old(drawn), old(drawn)))]
      ensures q.Refreshing? && q.pc.ToPrepare? ==> At(r, q.(pc := HasSuccessor(q.pc.st, p)))
      ensures q.Refreshing? && q.pc.RetryPrepare? ==> At(r, q.(pc := RetryTx(q.pc.st, q.pc.late, p)))
      ensures q.SigningIn? ==> At(r, q.(spc := SignInInsert(p)))
      ensures p == Prepared(old(drawn), user, old(drawn), old(clock) + cfg.lifetime) && rows == old(rows)
      ensures users == old(users)
    {
      hide Traced, Inv;
      p := Prepared(drawn, user, drawn, clock + cfg.lifetime);
      ghost var f := Fresh(drawn, drawn);
      assert CanAct(Last(), r, f);
      AfterPlan(Last(), r, f);
      drawn := drawn + 1;
      Record(r, f);
    }

    method ReadNow(ghost client: ClientId, ghost hash: Hash, ghost op: Hash, ghost st: Stored, ghost p: Prepared,
                   ghost r: ReqId)
      returns (now: Time)
      requires Valid() && At(r, Refreshing(client, hash, op, HasSuccessor(st, p)))
      modifies this`trace
      ensures Valid() && trace == old(trace) + [After(old(Last()), r, Fresh(0, 0))]
      ensures At(r, Refreshing(client, hash, op, Timed(st, p, now))) && now == clock
    {
      hide Traced, Inv;
      now := clock;
      AfterPlan(Last(), r, Fresh(0, 0));
      Record(r, Fresh(0, 0));
    }

    // The rotation transaction: consume the token if it is still active, insert its successor.
    method RotateTransaction(ghost client: ClientId, ghost hash: Hash, op: Hash, st: Stored, p: Prepared, now: Time,
                             ghost r: ReqId)
      returns (rotated: bool)
      requires Valid() && At(r, Refreshing(client, hash, op, Timed(st, p, now)))
      modifies this
      ensures Valid() && trace == old(trace) + [After(old(Last()), r, Fresh(0, 0))]
      ensures rotated <==> st.id in old(rows) && !old(rows)[st.id].revoked && now < old(rows)[st.id].expiresAt
      ensures rotated ==>
                var row := old(rows)[st.id];
                rows == old(rows)[st.id := Row(row.userId, row.tokenHash, true, Some(Rotated), Some(op), Some(now),
                                               Some(p.id), row.expiresAt)]
                                 [p.id := Row(p.userId, p.tokenHash, false, None, None, None, None, p.expiresAt)]
      ensures !rotated ==> rows == old(rows)
      ensures At(r, Refreshing(client, hash, op, if rotated then Done200(st, p.id) else RetryRead(st, true)))
    {
      hide Traced, Inv;
      AfterPlan(Last(), r, Fresh(0, 0));
      rotated := st.id in rows && !rows[st.id].revoked && rows[st.id].expiresAt > now;
      if rotated {
        rows := rows[st.id := rows[st.id].(revoked := true, reason := Some(Rotated), opHash := Some(op),
                                           rotatedAt := Some(now), replacedBy := Some(p.id))];
        rows := rows[p.id := NewRow(p)];
      }
      Record(r, Fresh(0, 0));
    }

    // ----- replaceUnusedRefreshSuccessor -----

    method ReadCandidate(ghost client: ClientId, ghost hash: Hash, ghost op: Hash, st: Stored, ghost late: bool,
                         ghost r: ReqId)
      returns (candidate: Option<Row>)
      requires Valid() && At(r, Refreshing(client, hash, op, RetryRead(st, late)))
      modifies this`trace
      ensures Valid() && trace == old(trace) + [After(old(Last()), r, Fresh(0, 0))]
      ensures At(r, Refreshing(client, hash, op, RetryCheck(st, late, candidate)))
      ensures candidate == Get(rows, st.id)
    {
      hide Traced, Inv;
      candidate := if st.id in rows then Some(rows[st.id]) else None;
      AfterPlan(Last(), r, Fresh(0, 0));
      Record(r, Fresh(0, 0));
    }

    // Revoked by rotation, or before reasons were recorded; by this operation, since the cutoff.
    predicate RetryColumns(row: Row, op: Hash, cutoff: Time) {
      && row.revoked && (row.reason == None || row.reason == Some(Rotated)) && row.opHash == Some(op)
      && row.rotatedAt.Some? && cutoff <= row.rotatedAt.value && row.replacedBy.Some?
    }

    method CheckCandidate(ghost client: ClientId, ghost hash: Hash, op: Hash, ghost st: Stored, ghost late: bool,
                          candidate: Option<Row>, ghost r: ReqId)
      returns (good: bool)
      requires Valid() && At(r, Refreshing(client, hash, op, RetryCheck(st, late, candidate)))
      modifies this`trace
      ensures Valid() && trace == old(trace) + [After(old(Last()), r, Fresh(0, 0))]
      ensures At(r, Refreshing(client, hash, op, if good then RetryPrepare(st, late) else GiveUp(st, late)))
      ensures good <==> candidate.Some? && RetryColumns(candidate.value, op, clock - cfg.grace)
    {
      hide Traced, Inv;
      good := candidate.Some? && Retryable(candidate.value, op, clock - cfg.grace);
      AfterPlan(Last(), r, Fresh(0, 0));
      Record(r, Fresh(0, 0));
    }

    // The locked re-check, the conditional update of the successor, the insert and the pointer.
    method ReplaceTransaction(ghost client: ClientId, ghost hash: Hash, op: Hash, st: Stored, ghost late: bool,
                              p: Prepared, ghost r: ReqId)
      returns (replaced: bool)
      requires Valid() && At(r, Refreshing(client, hash, op, RetryTx(st, late, p)))
      modifies this
      ensures Valid() && trace == old(trace) + [After(old(Last()), r, Fresh(0, 0))]
      ensures replaced <==>
              && st.id in old(rows) && RetryColumns(old(rows)[st.id], op, old(clock) - cfg.grace)
              && var x := old(rows)[st.id].replacedBy.value;
                 && x in old(rows) && old(rows)[x].userId == st.row.userId
                 && !old(rows)[x].revoked && old(clock) < old(rows)[x].expiresAt
      ensures replaced ==>
                var row := old(rows)[st.id]; var x := row.replacedBy.value; var next := old(rows)[x];
                rows == old(rows)[x := Row(next.userId, next.tokenHash, true, Some(Retry), next.opHash,
                                           next.rotatedAt, next.replacedBy, next.expiresAt)]
                                 [p.id := Row(p.userId, p.tokenHash, false, None, None, None, None, p.expiresAt)]
                                 [st.id := row.(replacedBy := Some(p.id))]
      ensures !replaced ==> rows == old(rows)
      ensures At(r, Refreshing(client, hash, op, if replaced then Done200(st, p.id) else GiveUp(st, late)))
    {
      hide Traced, Inv;
      AfterPlan(Last(), r, Fresh(0, 0));
      replaced := false;
      if st.id in rows && Retryable(rows[st.id], op, clock - cfg.grace) {
        var predecessor := rows[st.id];
        var successor := predecessor.replacedBy.value;
        if successor in rows && rows[successor].userId == st.row.userId && !rows[successor].revoked
            && rows[successor].expiresAt > clock {
          rows := rows[successor := rows[successor].(revoked := true, reason := Some(Retry))];
          rows := rows[p.id := NewRow(p)];
          rows := rows[st.id := predecessor.(replacedBy := Some(p.id))];
          replaced := true;
        }
      }
      Record(r, Fresh(0, 0));
    }

    method FindPredecessor(ghost client: ClientId, ghost hash: Hash, op: Hash, st: Stored, ghost late: bool,
                           ghost r: ReqId)
      returns (good: bool)
      requires Valid() && At(r, Refreshing(client, hash, op, RetryRead(st, late)))
      modifies this
      ensures Valid() && old(trace) <= trace
      ensures At(r, Refreshing(client, hash, op, if good then RetryPrepare(st, late) else GiveUp(st, late)))
    {
      hide Traced, Inv, Mirrors, After, Retryable;
      var candidate := ReadCandidate(client, hash, op, st, late, r);
      Yield(r);
      good := CheckCandidate(client, hash, op, st, late, candidate, r);
    }

    method ReplaceUnusedSuccessor(ghost client: ClientId, ghost hash: Hash, op: Hash, st: Stored, ghost late: bool,
                                  ghost r: ReqId)
      returns (id: Option<Id>)
      requires Valid() && At(r, Refreshing(client, hash, op, RetryRead(st, late)))
      modifies this
      ensures Valid() && old(trace) <= trace
      ensures At(r, Refreshing(client, hash, op, if id.Some? then Done200(st, id.value) else GiveUp(st, late)))
    {
      hide Traced, Inv, Mirrors, After, RevokeRows, ActiveOf, RotateRows, ReplaceRows, Replaceable, Rotatable;
      var good := FindPredecessor(client, hash, op, st, late, r);
      if !good { return None; }
      Yield(r);
      var p := PrepareSession(Refreshing(client, hash, op, RetryPrepare(st, late)), st.row.userId, r);
      Yield(r);
      var replaced := ReplaceTransaction(client, hash, op, st, late, p, r);
      return if replaced then Some(p.id) else None;
    }

    method ReadLatest(ghost client: ClientId, ghost hash: Hash, ghost op: Hash, st: Stored, ghost r: ReqId)
      returns (replay: bool)
      requires Valid() && At(r, Refreshing(client, hash, op, Latest(st)))
      modifies this`trace
      ensures Valid() && trace == old(trace) + [After(old(Last()), r, Fresh(0, 0))]
      ensures At(r, Refreshing(client, hash, op, if replay then Replay(st) else Done401))
      ensures replay <==>
              && st.id in rows && rows[st.id].revoked
              && (rows[st.id].reason == None || rows[st.id].reason == Some(Rotated))
    {
      hide Traced, Inv;
      replay := st.id in rows && SeenAsRotated(rows[st.id]);
      AfterPlan(Last(), r, Fresh(0, 0));
      Record(r, Fresh(0, 0));
    }

    method RevokeSessionsForReplay(ghost client: ClientId, ghost hash: Hash, ghost op: Hash, st: Stored, ghost r: ReqId)
      requires Valid() && At(r, Refreshing(client, hash, op, Replay(st)))
      modifies this
      ensures Valid() && trace == old(trace) + [After(old(Last()), r, Fresh(0, 0))]
      ensures At(r, Refreshing(client, hash, op, Done401))
      ensures RefreshAlone.Killed(old(rows), rows, st.row.userId)
    {
      hide Traced, Inv;
      AfterPlan(Last(), r, Fresh(0, 0));
      var user := st.row.userId;
      rows := map id | id in rows ::
        if rows[id].userId == user && !rows[id].revoked then rows[id].(revoked := true, reason := Some(Security))
            else rows[id];
      assert rows == RevokeRows(old(rows), ActiveOf(old(rows), user), Security);
      Record(r, Fresh(0, 0));
    }

    ghost predicate Answers(r: ReqId, client: ClientId, hash: Hash, op: Hash, answer: Option<Id>)
      reads this
    {
      match answer
      case None => At(r, Refreshing(client, hash, op, Done401))
      case Some(id) => exists st :: At(r, Refreshing(client, hash, op, Done200(st, id)))
    }

    // The token was read as revoked by rotation: a retry, or a replay.
    method RefreshRotated(ghost client: ClientId, ghost hash: Hash, op: Hash, st: Stored, ghost r: ReqId)
      returns (answer: Option<Id>)
      requires Valid() && At(r, Refreshing(client, hash, op, RetryRead(st, false)))
      modifies this
      ensures Valid() && old(trace) <= trace && Answers(r, client, hash, op, answer)
    {
      hide Traced, Inv, Mirrors, After, RevokeRows, ActiveOf, RotateRows, ReplaceRows, Replaceable, Rotatable;
      answer := ReplaceUnusedSuccessor(client, hash, op, st, false, r);
      if answer.Some? { return; }
      Yield(r);
      RevokeSessionsForReplay(client, hash, op, st, r);
    }

    // The rotation transaction matched no row: somebody else was first, or the token expired.
    method RefreshBeaten(ghost client: ClientId, ghost hash: Hash, op: Hash, st: Stored, ghost r: ReqId)
      returns (answer: Option<Id>)
      requires Valid() && At(r, Refreshing(client, hash, op, RetryRead(st, true)))
      modifies this
      ensures Valid() && old(trace) <= trace && Answers(r, client, hash, op, answer)
    {
      hide Traced, Inv, Mirrors, After, RevokeRows, ActiveOf, RotateRows, ReplaceRows, Replaceable, Rotatable;
      answer := ReplaceUnusedSuccessor(client, hash, op, st, true, r);
      if answer.Some? { return; }
      Yield(r);
      var replay := ReadLatest(client, hash, op, st, r);
      if replay {
        Yield(r);
        RevokeSessionsForReplay(client, hash, op, st, r);
      }
    }

    // The token was read as active.
    method RefreshActive(ghost client: ClientId, ghost hash: Hash, op: Hash, st: Stored, ghost r: ReqId)
      returns (answer: Option<Id>)
      requires Valid() && At(r, Refreshing(client, hash, op, ToPrepare(st)))
      modifies this
      ensures Valid() && old(trace) <= trace && Answers(r, client, hash, op, answer)
    {
      hide Traced, Inv, Mirrors, After, RevokeRows, ActiveOf, RotateRows, ReplaceRows, Replaceable, Rotatable;
      var p := PrepareSession(Refreshing(client, hash, op, ToPrepare(st)), st.row.userId, r);
      Yield(r);
      var now := ReadNow(client, hash, op, st, p, r);
      Yield(r);
      var rotated := RotateTransaction(client, hash, op, st, p, now, r);
      if rotated { return Some(p.id); }
      Yield(r);
      answer := RefreshBeaten(client, hash, op, st, r);
    }

    // The two reads and the tests on them.
    method ReadAndDecide(client: ClientId, hash: Hash, op: Hash, ghost r: ReqId)
      returns (found: Option<Stored>, branch: RefreshPc)
      requires Valid() && At(r, Refreshing(client, hash, op, Start))
      modifies this
      ensures Valid() && old(trace) <= trace && At(r, Refreshing(client, hash, op, branch))
      ensures branch != Done401 ==> found.Some? && (branch == RetryRead(found.value, false) || branch ==
                                                    Replay(found.value) || branch == ToPrepare(found.value))
    {
      hide Traced, Inv, Mirrors, After;
      found := SelectByHash(client, hash, op, r);
      if found.None? { branch := Done401; return; }
      Yield(r);
      var owner := SelectOwner(client, hash, op, found.value, r);
      Yield(r);
      branch := Decide(client, hash, op, found.value, owner, r);
    }

    /**
     * POST /auth/refresh. With any interference at every await, the trace is a run of
     * the machine and the answer is the one the machine's request ends with: the id of
     * the new session, or None for 401. The reason on the row it read decides whether a
     * refusal kills the user's sessions first.
     */
    method Refresh(client: ClientId, hash: Hash, op: Hash, ghost r: ReqId) returns (answer: Option<Id>)
      requires Valid() && At(r, Refreshing(client, hash, op, Start))
      modifies this
      ensures Valid() && old(trace) <= trace && Answers(r, client, hash, op, answer)
      ensures ReasonDecides(trace, r, answer.Some?)
    {
      hide Traced, Mirrors, ReasonDecides, Answers;
      answer := Answer(client, hash, op, r);
      AnswerDecided(client, hash, op, answer, r);
    }

    lemma AnswerDecided(client: ClientId, hash: Hash, op: Hash, answer: Option<Id>, r: ReqId)
      requires Valid() && Answers(r, client, hash, op, answer)
      ensures ReasonDecides(trace, r, answer.Some?)
    {
      hide IsRun, Inv, Mirrors, ReasonDecides;
      ReasonsDecide(trace, r, answer.Some?);
    }

    method Answer(client: ClientId, hash: Hash, op: Hash, ghost r: ReqId) returns (answer: Option<Id>)
      requires Valid() && At(r, Refreshing(client, hash, op, Start))
      modifies this
      ensures Valid() && old(trace) <= trace && Answers(r, client, hash, op, answer)
    {
      hide Traced, Inv, Mirrors, After, RevokeRows, ActiveOf, RotateRows, ReplaceRows, Replaceable, Rotatable;
      var found, branch := ReadAndDecide(client, hash, op, r);
      if branch.Done401? { return None; }
      var st := found.value;
      Yield(r);
      if branch.RetryRead? {
        answer := RefreshRotated(client, hash, op, st, r);
      } else if branch.Replay? {
        RevokeSessionsForReplay(client, hash, op, st, r);
        answer := None;
      } else {
        answer := RefreshActive(client, hash, op, st, r);
      }
    }

    // ----- The other handlers that write refresh_tokens -----

    method Logout(client: ClientId, hash: Hash, ghost r: ReqId)
      requires Valid() && At(r, LoggingOut(client, hash, LogoutStart))
      modifies this
      ensures Valid() && old(trace) <= trace && At(r, LoggingOut(client, hash, LogoutDone))
    {
      hide Traced, Inv, Mirrors, After, RevokeRows;
      var found := LogoutSelect(client, hash, r);
      if found.None? { return; }
      var st := found.value;
      Yield(r);
      var mine := LogoutOwner(client, hash, st, r);
      if !mine { return; }
      Yield(r);
      LogoutUpdate(client, hash, st, r);
    }

    method LogoutSelect(client: ClientId, hash: Hash, ghost r: ReqId) returns (st: Option<Stored>)
      requires Valid() && At(r, LoggingOut(client, hash, LogoutStart))
      modifies this`trace
      ensures Valid() && trace == old(trace) + [After(old(Last()), r, Fresh(0, 0))]
      ensures At(r, LoggingOut(client, hash, if st.None? then LogoutDone else LogoutStored(st.value)))
    {
      hide Traced, Inv;
      var found := set id | id in rows && rows[id].tokenHash == hash;
      if found == {} {
        st := None;
        assert Lookup(rows, hash) ==
            None by { assert forall id :: id in rows ==> id !in found ==> rows[id].tokenHash != hash; }
      } else {
        var id :| id in found;
        st := Some(Stored(id, rows[id]));
        InvOfLast();
        UniqueHash(Last(), hash, id);
      }
      AfterPlan(Last(), r, Fresh(0, 0));
      Record(r, Fresh(0, 0));
    }

    method LogoutOwner(client: ClientId, ghost hash: Hash, st: Stored, ghost r: ReqId) returns (mine: bool)
      requires Valid() && At(r, LoggingOut(client, hash, LogoutStored(st)))
      modifies this`trace
      ensures Valid() && trace == old(trace) + [After(old(Last()), r, Fresh(0, 0))]
      ensures At(r, LoggingOut(client, hash, if mine then LogoutOwned(st) else LogoutDone))
      ensures mine <==> st.row.userId in users && users[st.row.userId].clientId == client
    {
      hide Traced, Inv;
      mine := st.row.userId in users && users[st.row.userId].clientId == client;
      AfterPlan(Last(), r, Fresh(0, 0));
      Record(r, Fresh(0, 0));
    }

    // Overwrites the reason of any row, revoked or not.
    method LogoutUpdate(ghost client: ClientId, ghost hash: Hash, st: Stored, ghost r: ReqId)
      requires Valid() && At(r, LoggingOut(client, hash, LogoutOwned(st)))
      modifies this
      ensures Valid() && trace == old(trace) + [After(old(Last()), r, Fresh(0, 0))]
      ensures At(r, LoggingOut(client, hash, LogoutDone))
      ensures SessionEnds.Struck(old(rows), rows, {st.id}, Reason.Logout)
    {
      hide Traced, Inv;
      AfterPlan(Last(), r, Fresh(0, 0));
      if st.id in rows {
        rows := rows[st.id := rows[st.id].(revoked := true, reason := Some(Reason.Logout))];
      }
      assert rows == RevokeRows(old(rows), {st.id}, Reason.Logout);
      Record(r, Fresh(0, 0));
    }

    // UPDATE refresh_tokens SET revoked, reason WHERE id in ids.
    method UpdateRevoked(ids: set<Id>, why: Reason)
      modifies this`rows
      ensures rows == RevokeRows(old(rows), ids, why)
    {
      rows := map id | id in rows :: if id in ids then rows[id].(revoked := true, reason := Some(why)) else rows[id];
    }

    method RevokeSession(user: UserId, id: Id, ghost r: ReqId) returns (found: bool)
      requires Valid() && At(r, RevokingOne(user, id, false))
      modifies this
      ensures Valid() && trace == old(trace) + [After(old(Last()), r, Fresh(0, 0))]
      ensures At(r, RevokingOne(user, id, true))
      ensures found <==> id in old(rows) && old(rows)[id].userId == user && !old(rows)[id].revoked
      ensures SessionEnds.Struck(old(rows), rows, if found then {id} else {}, UserRevoked)
    {
      hide Traced, Inv;
      AfterPlan(Last(), r, Fresh(0, 0));
      found := id in rows && rows[id].userId == user && !rows[id].revoked;
      assert ActiveOf(rows, user) * {id} == if found then {id} else {};
      UpdateRevoked(if found then {id} else {}, UserRevoked);
      Record(r, Fresh(0, 0));
    }

    method RevokeAllSessions(user: UserId, ghost r: ReqId) returns (count: nat)
      requires Valid() && At(r, RevokingAll(user, false))
      modifies this
      ensures Valid() && trace == old(trace) + [After(old(Last()), r, Fresh(0, 0))] && At(r, RevokingAll(user, true))
      ensures var active := set x | x in old(rows) && old(rows)[x].userId == user && !old(rows)[x].revoked;
              SessionEnds.Struck(old(rows), rows, active, UserRevoked) && count == |active|
    {
      hide Traced, Inv;
      AfterPlan(Last(), r, Fresh(0, 0));
      var active := ActiveOf(rows, user);
      count := |active|;
      UpdateRevoked(active, UserRevoked);
      Record(r, Fresh(0, 0));
    }

    // revokeAllRefreshTokens of password reset and change: overwrites revoked rows too.
    method RevokeAllRefreshTokens(user: UserId, ghost r: ReqId)
      requires Valid() && At(r, SigningOut(user, false))
      modifies this
      ensures Valid() && trace == old(trace) + [After(old(Last()), r, Fresh(0, 0))] && At(r, SigningOut(user, true))
      ensures SessionEnds.Struck(old(rows), rows, (set x | x in old(rows) && old(rows)[x].userId == user), Security)
    {
      hide Traced, Inv;
      AfterPlan(Last(), r, Fresh(0, 0));
      UpdateRevoked(AllOf(rows, user), Security);
      Record(r, Fresh(0, 0));
    }

    // PATCH /users/:id: the user row first, then, when deactivating, every token row.
    method PatchUser(client: ClientId, user: UserId, active: bool, ghost r: ReqId) returns (found: bool)
      requires Valid() && At(r, SettingActive(client, user, active, ActiveStart))
      modifies this
      ensures Valid() && old(trace) <= trace && At(r, SettingActive(client, user, active, ActiveDone))
      ensures found <==> user in old(users) && old(users)[user].clientId == client
    {
      hide Traced, Inv, Mirrors, After, RevokeRows;
      found := UpdateActive(client, user, active, r);
      if found && !active {
        Yield(r);
        RevokeForDeactivation(client, user, active, r);
      }
    }

    method UpdateActive(client: ClientId, user: UserId, active: bool, ghost r: ReqId) returns (found: bool)
      requires Valid() && At(r, SettingActive(client, user, active, ActiveStart))
      modifies this
      ensures Valid() && trace == old(trace) + [After(old(Last()), r, Fresh(0, 0))]
      ensures At(r, SettingActive(client, user, active, if found && !active then ActiveRevoke else ActiveDone))
      ensures users == if found then old(users)[user := User(client, active)] else old(users)
      ensures found <==> user in old(users) && old(users)[user].clientId == client
    {
      hide Traced, Inv;
      AfterPlan(Last(), r, Fresh(0, 0));
      found := user in users && users[user].clientId == client;
      if found { users := users[user := users[user].(isActive := active)]; }
      Record(r, Fresh(0, 0));
    }

    method RevokeForDeactivation(ghost client: ClientId, user: UserId, ghost active: bool, ghost r: ReqId)
      requires Valid() && At(r, SettingActive(client, user, active, ActiveRevoke))
      modifies this
      ensures Valid() && trace == old(trace) + [After(old(Last()), r, Fresh(0, 0))]
      ensures At(r, SettingActive(client, user, active, ActiveDone))
      ensures SessionEnds.Struck(old(rows), rows, (set x | x in old(rows) && old(rows)[x].userId == user), Security)
    {
      hide Traced, Inv;
      AfterPlan(Last(), r, Fresh(0, 0));
      UpdateRevoked(AllOf(rows, user), Security);
      Record(r, Fresh(0, 0));
    }

    // issueSession after a sign-in has read its active user.
    method IssueSession(user: UserId, ghost r: ReqId) returns (id: Id)
      requires Valid() && At(r, SigningIn(user, SignInPrepare))
      modifies this
      ensures Valid() && old(trace) <= trace && At(r, SigningIn(user, SignInDone))
      ensures id in rows && rows[id].userId == user && !rows[id].revoked && rows[id].reason == None
    {
      hide Traced, Inv, Mirrors, After, RevokeRows;
      var p := PrepareSession(SigningIn(user, SignInPrepare), user, r);
      Yield(r);
      id := p.id;
      InsertSession(user, p, r);
    }

    method InsertSession(ghost user: UserId, p: Prepared, ghost r: ReqId)
      requires Valid() && At(r, SigningIn(user, SignInInsert(p)))
      modifies this
      ensures Valid() && trace == old(trace) + [After(old(Last()), r, Fresh(0, 0))]
      ensures At(r, SigningIn(user, SignInDone))
      ensures rows == old(rows)[p.id := Row(p.userId, p.tokenHash, false, None, None, None, None, p.expiresAt)]
    {
      hide Traced, Inv;
      AfterPlan(Last(), r, Fresh(0, 0));
      rows := rows[p.id := NewRow(p)];
      Record(r, Fresh(0, 0));
    }

    function Unexpired(before: map<Id, Row>, cutoff: Time): map<Id, Row> {
      map id | id in before && before[id].expiresAt >= cutoff :: before[id]
    }

    // cleanupExpiredRefreshTokens; the cutoff is computed before the delete runs.
    method Cleanup(ghost r: ReqId)
      requires Valid() && At(r, CleaningUp(CleanupStart))
      modifies this
      ensures Valid() && old(trace) <= trace && |old(trace)| < |trace| - 1 && At(r, CleaningUp(CleanupDone))
      ensures rows == Unexpired(trace[|trace| - 2].table.rows, old(clock) - 2592000000)
    {
      hide Traced, Inv, Mirrors, After, RevokeRows;
      var cutoff := CutOffTime(r);
      Yield(r);
      DeleteExpired(cutoff, r);
    }

    method CutOffTime(ghost r: ReqId) returns (cutoff: Time)
      requires Valid() && At(r, CleaningUp(CleanupStart))
      modifies this`trace
      ensures Valid() && trace == old(trace) + [After(old(Last()), r, Fresh(0, 0))]
      ensures At(r, CleaningUp(CleanupCut(cutoff))) && cutoff == clock - 2592000000
    {
      hide Traced, Inv;
      cutoff := clock - RETENTION;
      AfterPlan(Last(), r, Fresh(0, 0));
      Record(r, Fresh(0, 0));
    }

    method DeleteExpired(cutoff: Time, ghost r: ReqId)
      requires Valid() && At(r, CleaningUp(CleanupCut(cutoff)))
      modifies this
      ensures Valid() && trace == old(trace) + [After(old(Last()), r, Fresh(0, 0))] && At(r, CleaningUp(CleanupDone))
      ensures rows == Unexpired(old(rows), cutoff) && old(Last()).table.rows == old(rows)
    {
      hide Traced, Inv;
      AfterPlan(Last(), r, Fresh(0, 0));
      var expired := set id | id in rows && rows[id].expiresAt < cutoff;
      rows := rows - expired;
      assert rows == DeleteRows(old(rows), cutoff);
      Record(r, Fresh(0, 0));
    }
  }
}
