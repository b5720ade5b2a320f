/** Safety of refresh rotation over whole runs, in every interleaving. */
module RefreshTheorems {
  import opened Wrappers
  import opened TokenTable
  import opened RefreshMachine
  import opened RefreshInvariant

  // The step from s to s' answers request r with a new token pair: a rotation when
  // the request stood before its rotation transaction, a retry when before the
  // replacement transaction.
  ghost predicate Commits(s: State, s': State, r: ReqId) {
    && r in s.reqs && r in s'.reqs && s.reqs[r].Refreshing? && s'.reqs[r].Refreshing?
    && !s.reqs[r].pc.Done200? && s'.reqs[r].pc.Done200?
  }

  lemma StepOf(run: seq<State>, i: nat) returns (e: Step)
    requires IsRun(run) && i + 1 < |run|
    ensures NextStep(run[i], e, run[i + 1])
  {
    assert Next(run[i], run[i + 1]);
    e :| NextStep(run[i], e, run[i + 1]);
  }

  lemma {:induction false} RunInv(run: seq<State>, i: nat)
    requires IsRun(run) && Inv(run[0]) && i < |run|
    ensures Inv(run[i])
  {
    hide Inv, NextStep;
    if i == 0 {
    } else {
      RunInv(run, i - 1);
      var e := StepOf(run, i - 1);
      NextKeepsInv(run[i - 1], e, run[i]);
    }
  }

  // ----- A retry is accepted only for the immediate predecessor of the family's head -----

  // p is the only row pointing at h, and h is its family's only active row.
  ghost predicate OnlyPredecessor(t: Table, p: Id, h: Id) {
    && Links(t, p, h) && h in t.rows && !t.rows[h].revoked
    && (forall q :: Links(t, q, h) ==> q == p)
    && (forall a :: a in t.rows && !t.rows[a].revoked && RootOf(t, a) == RootOf(t, p) ==> a == h)
  }

  lemma HeadOfLink(t: Table, p: Id, h: Id)
    requires TableInv(t) && Links(t, p, h) && h in t.rows && !t.rows[h].revoked
    ensures OnlyPredecessor(t, p, h)
  {
    hide HashesDistinct, Ordered, Rooted, Recorded;
  }

  // The replacement a retry makes: the unused successor dies for a reason that is
  // not a replay, and only the pointer of the predecessor moves.
  predicate Replaces(t: Table, t': Table, p: Id, h: Id, id: Id) {
    && p in t.rows && h in t.rows && p in t'.rows && h in t'.rows && id in t'.rows && id !in t.rows
    && t'.rows[h] == Struck(t.rows[h], Retry)
    && t'.rows[p] == t.rows[p].(replacedBy := Some(id))
    && !t'.rows[id].revoked
    && t'.rows.Keys == t.rows.Keys + {id}
    && (forall x :: x in t.rows && x != p && x != h ==> t'.rows[x] == t.rows[x])
  }

  lemma ReplaceReplaces(t: Table, p: Id, h: Id, p2: Prepared)
    requires Allowed(t, Replace(p, h, p2)) && Certified(t) && p != h
    ensures Replaces(t, Apply(t, Replace(p, h, p2)), p, h, p2.id)
  {}

  /** An accepted retry presents the one row that points at its family's only active row. */
  lemma RetryOnlyFromImmediatePredecessor(s: State, r: ReqId, f: Fresh)
    requires Inv(s) && CanAct(s, r, f) && s.reqs[r].Refreshing? && s.reqs[r].pc.RetryTx?
    requires Commits(s, After(s, r, f), r)
    ensures exists h :: && OnlyPredecessor(s.table, s.reqs[r].pc.st.id, h)
                        && Replaces(s.table, After(s, r, f).table, s.reqs[r].pc.st.id, h, After(s, r, f).reqs[r].pc.id)
  {
    var q := s.reqs[r];
    var t := q.pc.st.id;
    AfterRefresh(s, r, f);
    assert ReqInv(s, q);
    RefreshAllowed(s, q, f);
    hide ReqInv, Timely, Covered, Retained, PendingDistinct, After, Plan, HashesDistinct, Ordered, Rooted, Recorded,
      OneActive, Apply, Allowed;
    var h := s.table.rows[t].replacedBy.value;
    assert Links(s.table, t, h);
    HeadOfLink(s.table, t, h);
    ReplaceReplaces(s.table, t, h, q.pc.p);
  }

  // Follow successor pointers; the insertion order bounds the walk.
  ghost function Walk(t: Table, id: Id): (last: Id)
    requires TableInv(t) && id in t.rows
    ensures last in t.rows && t.rows[last].replacedBy.None?
    ensures t.born[last].root == t.born[id].root && t.born[last].userId == t.born[id].userId
    decreases |t.born| - t.born[id].order
  {
    if t.rows[id].replacedBy.None? then id
    else
      var next := t.rows[id].replacedBy.value;
      assert Links(t, id, next);
      Walk(t, next)
  }

  // ----- Dead stays dead -----

  ghost predicate Dead(s: State, root: Id) {
    forall id :: id in s.table.rows && RootOf(s.table, id) == root ==> s.table.rows[id].revoked
  }

  lemma DeadEffect(t: Table, e: Effect, root: Id)
    requires TableInv(t) && Allowed(t, e) && root in t.born
    requires forall id :: id in t.rows && RootOf(t, id) == root ==> t.rows[id].revoked
    ensures var t' := Apply(t, e); forall id :: id in t'.rows && RootOf(t', id) == root ==> t'.rows[id].revoked
  {
    hide HashesDistinct, Ordered, Rooted, Recorded, OneActive, LinkedOnce;
    if e.Replace? { assert Links(t, e.t, e.prev); }
  }

  lemma DeadStep(s: State, e: Step, s': State, root: Id)
    requires Inv(s) && NextStep(s, e, s') && root in s.table.born && Dead(s, root)
    ensures root in s'.table.born && Dead(s', root)
  {
    if e.Act? {
      var m := Plan(s, s.reqs[e.r], e.f);
      assert ReqInv(s, s.reqs[e.r]);
      PlanAllowed(s, s.reqs[e.r], e.f);
      DeadEffect(s.table, m.effect, root);
      ActAdvances(s, e.r, e.f);
    }
    hide TableInv, Plan, Apply, Allowed, ReqInv, Timely, Covered, Retained, PendingDistinct;
  }

  /** Once every row of a login family is revoked, no interleaving revives the family. */
  lemma {:induction false} DeadStaysDead(run: seq<State>, root: Id, i: nat)
    requires IsRun(run) && Inv(run[0]) && root in run[0].table.born && Dead(run[0], root) && i < |run|
    ensures root in run[i].table.born && Dead(run[i], root)
  {
    hide Inv, NextStep, Dead;
    if i == 0 {
    } else {
      DeadStaysDead(run, root, i - 1);
      RunInv(run, i - 1);
      var e := StepOf(run, i - 1);
      DeadStep(run[i - 1], e, run[i], root);
    }
  }

  ghost predicate AllRevoked(s: State, user: UserId) {
    forall id :: id in s.table.rows && s.table.rows[id].userId == user ==> s.table.rows[id].revoked
  }

  /** After a cut, an active row of the user belongs to a login issued after the cut. */
  lemma NoDescentAcrossCut(run: seq<State>, user: UserId, i: nat, id: Id)
    requires IsRun(run) && Inv(run[0]) && AllRevoked(run[0], user) && i < |run|
    requires id in run[i].table.rows && run[i].table.rows[id].userId == user && !run[i].table.rows[id].revoked
    ensures RootOf(run[i].table, id) !in run[0].table.born
  {
    RunInv(run, i);
    var root := RootOf(run[i].table, id);
    if root in run[0].table.born {
      BirthsKept(run, 0, i, root);
      UserRootDead(run[0], user, root);
      DeadStaysDead(run, root, i);
      hide NextStep, Next, IsRun, HashesDistinct, Ordered, Recorded, OneActive, Linked, LinkedOnce;
      assert false;
    }
  }

  lemma UserRootDead(s: State, user: UserId, root: Id)
    requires TableInv(s.table) && AllRevoked(s, user)
    ensures root in s.table.born && s.table.born[root].userId == user && s.table.born[root].root == root ==>
              Dead(s, root)
  {
    hide HashesDistinct, Ordered, Recorded, OneActive, Linked, LinkedOnce;
  }

  ghost predicate HistoryKept(s: State, s': State) {
    && (forall id :: id in s.table.born ==> id in s'.table.born && s'.table.born[id] == s.table.born[id])
    && (forall id :: id in s.table.spun ==> id in s'.table.spun && s'.table.spun[id] == s.table.spun[id])
    && s.now <= s'.now && s'.cfg == s.cfg
  }

  lemma StepHistory(s: State, e: Step, s': State)
    requires Inv(s) && NextStep(s, e, s')
    ensures HistoryKept(s, s')
  {
    if e.Act? { ActAdvances(s, e.r, e.f); } else { QuietState(s, e, s'); }
    hide Inv, Plan, Apply;
  }

  lemma {:induction false} RunHistory(run: seq<State>, i: nat, j: nat)
    requires IsRun(run) && Inv(run[0]) && i <= j < |run|
    ensures HistoryKept(run[i], run[j])
  {
    hide Inv, NextStep;
    if i == j {
    } else {
      RunHistory(run, i, j - 1);
      RunInv(run, j - 1);
      var e := StepOf(run, j - 1);
      StepHistory(run[j - 1], e, run[j]);
    }
  }

  lemma BirthsKept(run: seq<State>, i: nat, j: nat, id: Id)
    requires IsRun(run) && Inv(run[0]) && i <= j < |run| && id in run[i].table.born
    ensures id in run[j].table.born && run[j].table.born[id] == run[i].table.born[id]
  {
    hide Inv, NextStep;
    RunHistory(run, i, j);
  }

  // ----- Deactivation -----

  predicate PastOwnerCheck(pc: RefreshPc) {
    match pc
    case HasOwner(_, owner) => owner.Some? && owner.value.isActive
    case ToPrepare(_) => true
    case HasSuccessor(_, _) => true
    case Timed(_, _, _) => true
    case RetryRead(_, _) => true
    case RetryCheck(_, _, _) => true
    case RetryPrepare(_, _) => true
    case RetryTx(_, _, _) => true
    case _ => false
  }

  // The rows in cut are those born before the second statement of a deactivation.
  ghost predicate CutTable(t: Table, user: UserId, cut: set<Id>) {
    && cut <= t.born.Keys
    && (forall id :: id in t.rows && t.rows[id].userId == user ==>
          if id in cut then t.rows[id].revoked else t.rows[id].replacedBy.None?)
    && (forall p, x :: Links(t, p, x) && t.rows[p].userId == user && p in cut ==> x in cut)
  }

  predicate CutReq(q: Request, user: UserId, cut: set<Id>) {
    q.Refreshing? && PastOwnerCheck(q.pc) && q.pc.st.row.userId == user ==> q.pc.st.id in cut
  }

  ghost predicate CutOff(s: State, user: UserId, cut: set<Id>) {
    && CutTable(s.table, user, cut)
    && (forall r :: r in s.reqs ==> CutReq(s.reqs[r], user, cut))
  }

  predicate Inactive(s: State, user: UserId) {
    user in s.users ==> !s.users[user].isActive
  }

  // Neither the rotation nor the replacement transaction can match a row of the user.
  lemma CutBlocks(s: State, q: Request, f: Fresh, user: UserId, cut: set<Id>)
    requires TableInv(s.table) && q.Refreshing? && ReqInv(s, q)
    requires CutTable(s.table, user, cut) && CutReq(q, user, cut) && !q.pc.Done200?
    ensures PlanRefresh(s, q, f).1.Done200? ==> q.pc.st.row.userId != user
  {
    hide HashesDistinct, Ordered, Rooted, Recorded, OneActive, LinkedOnce;
    if q.pc.RetryTx? && PlanRefresh(s, q, f).1.Done200? {
      assert Links(s.table, q.pc.st.id, s.table.rows[q.pc.st.id].replacedBy.value);
    }
  }

  lemma CutReqKept(s: State, q: Request, f: Fresh, user: UserId, cut: set<Id>)
    requires CutReq(q, user, cut) && Inactive(s, user)
    ensures CutReq(Plan(s, q, f).next, user, cut)
  {}

  lemma CutTableKept(t: Table, e: Effect, user: UserId, cut: set<Id>)
    requires TableInv(t) && Allowed(t, e) && CutTable(t, user, cut)
    requires e.Rotate? ==> e.p.userId != user
    requires e.Replace? ==> e.p.userId != user
    ensures CutTable(Apply(t, e), user, cut)
  {
    hide HashesDistinct, Ordered, Rooted, Recorded, OneActive, Linked, LinkedOnce;
    var t' := Apply(t, e);
    forall p, x | Links(t', p, x) && t'.rows[p].userId == user && p in cut
      ensures x in cut
    {
      assert Links(t, p, x);
    }
  }

  lemma CutStep(s: State, e: Step, s': State, user: UserId, cut: set<Id>)
    requires Inv(s) && NextStep(s, e, s') && CutOff(s, user, cut) && Inactive(s, user)
    ensures CutOff(s', user, cut)
    ensures forall r :: Commits(s, s', r) ==> s.reqs[r].pc.st.row.userId != user
  {
    if e.Act? {
      var q := s.reqs[e.r];
      var m := Plan(s, q, e.f);
      assert ReqInv(s, q);
      PlanAllowed(s, q, e.f);
      CutReqKept(s, q, e.f, user, cut);
      if q.Refreshing? {
        AfterRefresh(s, e.r, e.f);
        if !q.pc.Done200? { CutBlocks(s, q, e.f, user, cut); }
        CommitEffect(s, q, e.f);
      }
      OnlyRefreshRotates(s, q, e.f);
      CutTableKept(s.table, m.effect, user, cut);
    }
    hide TableInv, Plan, PlanRefresh, Apply, Allowed, ReqInv, Timely, Covered, Retained, PendingDistinct, CutReq,
      CutTable, PastOwnerCheck;
  }

  lemma CommitEffect(s: State, q: Request, f: Fresh)
    requires q.Refreshing? && ReqInv(s, q)
    ensures var (e, pc) := PlanRefresh(s, q, f);
            && (e.Rotate? ==> pc.Done200? && !q.pc.Done200? && e.p.userId == q.pc.st.row.userId)
            && (e.Replace? ==> pc.Done200? && !q.pc.Done200? && e.p.userId == q.pc.st.row.userId)
  {
    hide Known, Pending, Owned, Spent, Candidate, Answered;
  }

  lemma OnlyRefreshRotates(s: State, q: Request, f: Fresh)
    ensures Plan(s, q, f).effect.Rotate? || Plan(s, q, f).effect.Replace? ==> q.Refreshing?
  {
    hide PlanRefresh;
  }

  lemma {:induction false} CutHolds(run: seq<State>, user: UserId, cut: set<Id>, i: nat)
    requires IsRun(run) && Inv(run[0]) && CutOff(run[0], user, cut) && i < |run|
    requires forall k :: 0 <= k < i ==> Inactive(run[k], user)
    ensures CutOff(run[i], user, cut)
  {
    hide Inv, NextStep, CutOff, Inactive;
    if i == 0 {
    } else {
      CutHolds(run, user, cut, i - 1);
      RunInv(run, i - 1);
      var e := StepOf(run, i - 1);
      CutStep(run[i - 1], e, run[i], user, cut);
    }
  }

  lemma CutAtSecondStatement(s: State, user: UserId, d: ReqId, f: Fresh)
    requires Inv(s) && CanAct(s, d, f) && s.reqs[d].SettingActive? && s.reqs[d].user == user
    requires s.reqs[d].apc == ActiveRevoke
    ensures CutOff(After(s, d, f), user, s.table.born.Keys)
  {
    hide HashesDistinct, Ordered, Rooted, Recorded, OneActive, LinkedOnce, Timely, Covered, Retained, PendingDistinct;
    var s' := After(s, d, f);
    forall p, x | Links(s'.table, p, x) ensures x in s.table.born.Keys {
      assert Links(s.table, p, x);
    }
    forall r | r in s'.reqs ensures CutReq(s'.reqs[r], user, s.table.born.Keys) {
      assert r != d ==> ReqInv(s, s.reqs[r]);
    }
  }

  /**
   * After both statements of a deactivation have run (at step j), and while the user
   * stays inactive, no rotation and no retry commits for the user, whatever the
   * requests in flight had read before.
   */
  lemma DeactivationStopsRefresh(run: seq<State>, user: UserId, d: ReqId, f: Fresh, j: nat, k: nat, r: ReqId)
    requires IsRun(run) && Inv(run[0]) && j < k && k + 1 < |run|
    requires CanAct(run[j], d, f) && run[j + 1] == After(run[j], d, f)
    requires run[j].reqs[d].SettingActive? && run[j].reqs[d].user == user && run[j].reqs[d].apc == ActiveRevoke
    requires forall i :: j < i <= k ==> Inactive(run[i], user)
    ensures Commits(run[k], run[k + 1], r) ==> run[k].reqs[r].pc.st.row.userId != user
  {
    hide Inv, NextStep, CutOff, After, CanAct, Inactive;
    RunInv(run, j);
    RunInv(run, k);
    CutAtSecondStatement(run[j], user, d, f);
    RunInv(run, j + 1);
    var tail := run[j + 1..];
    forall i | 0 <= i < |tail| - 1 ensures Next(tail[i], tail[i + 1]) {
      assert Next(run[j + 1 + i], run[j + 1 + i + 1]);
    }
    CutHolds(tail, user, run[j].table.born.Keys, k - j - 1);
    var e := StepOf(run, k);
    CutStep(run[k], e, run[k + 1], user, run[j].table.born.Keys);
  }

  // ----- Retention -----

  /** Within the grace period a retry finds both the predecessor and its current successor. */
  lemma GraceFindsBothRows(run: seq<State>, i: nat, t: Id)
    requires IsHistory(run) && i < |run| && t in run[i].table.spun
    requires run[i].now <= run[i].table.spun[t].at + run[i].cfg.grace
    ensures && t in run[i].table.rows
            && run[i].table.rows[t].replacedBy.Some?
            && run[i].table.rows[t].replacedBy.value in run[i].table.rows
  {
    HistoryInv(run, i);
    var s := run[i];
    assert t in s.table.rows;
    assert s.table.rows[t].replacedBy.Some?;
    assert Links(s.table, t, s.table.rows[t].replacedBy.value);
    hide Init, Next, HashesDistinct, Ordered, Rooted, OneActive, LinkedOnce, ReqsInv, PendingDistinct, Covered;
  }

  /** Cleanup never leaves a retained row pointing at a deleted one: successors expire last. */
  lemma NoDanglingSuccessor(run: seq<State>, i: nat, p: Id, x: Id)
    requires IsHistory(run) && i < |run| && Links(run[i].table, p, x)
    ensures x in run[i].table.rows && run[i].table.rows[x].expiresAt >= run[i].table.rows[p].expiresAt
    ensures run[i].table.rows[x].userId == run[i].table.rows[p].userId
  {
    HistoryInv(run, i);
    hide Init, Next, HashesDistinct, Ordered, OneActive, LinkedOnce, ReqsInv, PendingDistinct, Covered;
  }

  predicate ActiveIn(t: Table, id: Id) {
    id in t.rows && !t.rows[id].revoked
  }

  /**
   * In every reachable state a login family has at most one active row, and successor
   * pointers are injective, stay with one user and strictly increase insertion order.
   */
  lemma FamiliesAreChains(run: seq<State>, i: nat, a: Id, b: Id, x: Id)
    requires IsHistory(run) && i < |run|
    ensures var t := run[i].table;
            && (ActiveIn(t, a) && ActiveIn(t, b) && RootOf(t, a) == RootOf(t, b) ==> a == b)
            && (Links(t, a, x) && Links(t, b, x) ==> a == b)
            && (Links(t, a, x) ==> Succeeds(t, a, x) && t.rows[x].userId == t.rows[a].userId)
  {
    HistoryInv(run, i);
    hide Init, Next, IsHistory, HashesDistinct, Ordered, Recorded, ReqsInv, PendingDistinct, Covered, Timely, Retained;
  }

  // ----- Write once -----

  /** A row's operation and rotation time never change once written. */
  lemma RotationWrittenOnce(run: seq<State>, i: nat, j: nat, id: Id)
    requires IsHistory(run) && i <= j < |run|
    requires id in run[i].table.rows && id in run[j].table.rows && run[i].table.rows[id].opHash.Some?
    ensures run[j].table.rows[id].opHash == run[i].table.rows[id].opHash
    ensures run[j].table.rows[id].rotatedAt == run[i].table.rows[id].rotatedAt
    ensures run[j].table.rows[id].replacedBy.Some?
  {
    HistoryInv(run, i);
    HistoryInv(run, j);
    InitInv(run[0]);
    RunHistory(run, i, j);
    assert id in run[i].table.spun;
    assert id in run[j].table.spun;
    hide Init, Next, HashesDistinct, Ordered, Rooted, OneActive, Linked, LinkedOnce, ReqsInv, PendingDistinct, Covered,
      Timely, Retained;
  }

  // Row id is rotated for the first time by the step from s to s', at the time and
  // by the operation its history records.
  ghost predicate FirstRotation(s: State, s': State, id: Id, rot: Rotation) {
    && id in s.table.rows && !s.table.rows[id].revoked && id !in s.table.spun
    && id in s'.table.rows && s'.table.rows[id].revoked
    && s'.table.rows[id].opHash == Some(rot.op) && s'.table.rows[id].rotatedAt == Some(rot.at)
    && rot.at < s.table.rows[id].expiresAt && rot.at <= s.now
    && s'.table.rows[id].replacedBy.Some? && s'.table.rows[id].replacedBy.value !in s.table.rows
  }

  lemma SpinStep(s: State, e: Step, s': State, id: Id)
    requires Inv(s) && NextStep(s, e, s') && id !in s.table.spun && id in s'.table.spun
    ensures FirstRotation(s, s', id, s'.table.spun[id])
  {
    if e.Act? {
      var q := s.reqs[e.r];
      assert ReqInv(s, q);
      PlanAllowed(s, q, e.f);
      RotationTime(s, q, e.f);
      ApplyRotations(s.table, Plan(s, q, e.f).effect);
      var m := Plan(s, q, e.f).effect;
      assert m.Rotate? && m.t == id;
    }
    hide Plan, ReqInv, HashesDistinct, Ordered, Rooted, OneActive, Linked, LinkedOnce, ReqsInv, PendingDistinct,
      Covered, Timely, Retained;
  }

  lemma {:induction false} RotationHasOrigin(run: seq<State>, i: nat, id: Id) returns (k: nat)
    requires IsHistory(run) && i < |run| && id in run[i].table.spun
    ensures k < i && FirstRotation(run[k], run[k + 1], id, run[i].table.spun[id])
  {
    hide Inv, NextStep, FirstRotation;
    if id in run[i - 1].table.spun {
      k := RotationHasOrigin(run, i - 1, id);
      InitInv(run[0]);
      RunHistory(run, i - 1, i);
    } else {
      k := i - 1;
      HistoryInv(run, i - 1);
      var e := StepOf(run, i - 1);
      SpinStep(run[i - 1], e, run[i], id);
    }
  }

  lemma RetryCommitTime(s: State, r: ReqId, f: Fresh)
    requires Inv(s) && CanAct(s, r, f) && s.reqs[r].Refreshing? && s.reqs[r].pc.RetryTx?
    requires Commits(s, After(s, r, f), r)
    ensures var t := s.reqs[r].pc.st.id;
            t in s.table.spun && s.table.spun[t].op == s.reqs[r].op && s.now <= s.table.spun[t].at + s.cfg.grace
  {
    AfterRefresh(s, r, f);
    hide After, Plan, HashesDistinct, Ordered, Rooted, OneActive, Linked, LinkedOnce, ReqsInv, PendingDistinct, Covered,
      Timely, Retained;
  }

  /**
   * However many retries came before, an accepted one runs its locked check no later
   * than the first rotation plus the grace period, with the operation of that rotation.
   */
  lemma RetryWithinFirstGrace(run: seq<State>, i: nat, r: ReqId, f: Fresh) returns (k: nat)
    requires IsHistory(run) && i + 1 < |run| && CanAct(run[i], r, f) && run[i + 1] == After(run[i], r, f)
    requires run[i].reqs[r].Refreshing? && run[i].reqs[r].pc.RetryTx? && Commits(run[i], run[i + 1], r)
    ensures k < i
    ensures exists at :: FirstRotation(run[k], run[k + 1], run[i].reqs[r].pc.st.id, Rotation(run[i].reqs[r].op, at))
                         && run[i].now <= at + run[i].cfg.grace
  {
    hide Inv, NextStep, FirstRotation, After, CanAct;
    HistoryInv(run, i);
    RetryCommitTime(run[i], r, f);
    var t := run[i].reqs[r].pc.st.id;
    k := RotationHasOrigin(run, i, t);
    assert run[i].table.spun[t] == Rotation(run[i].reqs[r].op, run[i].table.spun[t].at);
  }

  // ----- Replay -----

  lemma ApplySuspects(t: Table, e: Effect, id: Id)
    requires Allowed(t, e) && Certified(t) && id !in t.suspects && id in Apply(t, e).suspects
    ensures id in Apply(t, e).rows && SeenAsRotated(Apply(t, e).rows[id])
  {
    assert e.Rotate? && e.t == id;
  }

  lemma SuspectStep(s: State, e: Step, s': State, id: Id)
    requires Inv(s) && NextStep(s, e, s') && id !in s.table.suspects && id in s'.table.suspects
    ensures id in s'.table.rows && SeenAsRotated(s'.table.rows[id])
  {
    if e.Act? {
      var q := s.reqs[e.r];
      assert ReqInv(s, q);
      PlanAllowed(s, q, e.f);
      ApplySuspects(s.table, Plan(s, q, e.f).effect, id);
    }
    hide Plan, Apply, Allowed, ReqInv, TableInv, ReqsInv, PendingDistinct, Covered, Timely, Retained;
  }

  lemma {:induction false} SuspectWasSeen(run: seq<State>, i: nat, id: Id) returns (k: nat)
    requires IsHistory(run) && i < |run| && id in run[i].table.suspects
    ensures k <= i && id in run[k].table.rows && SeenAsRotated(run[k].table.rows[id])
  {
    hide Inv, NextStep;
    if i == 0 {
      k := 0;
    } else if id in run[i - 1].table.suspects {
      k := SuspectWasSeen(run, i - 1, id);
    } else {
      k := i;
      HistoryInv(run, i - 1);
      var e := StepOf(run, i - 1);
      SuspectStep(run[i - 1], e, run[i], id);
    }
  }

  /**
   * Replay revocation fires only for a token that some earlier state held as rotated
   * (or legacy), whose owner belongs to the presenting client.
   */
  lemma ReplayNeedsRotatedToken(run: seq<State>, i: nat, r: ReqId) returns (k: nat)
    requires IsHistory(run) && i < |run| && r in run[i].reqs && run[i].reqs[r].Refreshing? && run[i].reqs[r].pc.Replay?
    ensures var st := run[i].reqs[r].pc.st;
            && k <= i && st.id in run[k].table.rows && SeenAsRotated(run[k].table.rows[st.id])
            && run[k].table.rows[st.id].tokenHash == run[i].reqs[r].hash
            && OwnerOf(run[i].users, st.row.userId, run[i].reqs[r].client).Some?
  {
    HistoryInv(run, i);
    var st := run[i].reqs[r].pc.st;
    assert ReqInv(run[i], run[i].reqs[r]);
    k := SuspectWasSeen(run, i, st.id);
    HistoryInv(run, k);
    InitInv(run[0]);
    RunHistory(run, k, i);
    hide Init, Next, HashesDistinct, Ordered, Rooted, Recorded, OneActive, Linked, LinkedOnce, ReqsInv, PendingDistinct,
      Covered, Timely, Retained;
  }

  // ----- Tenancy of refresh and logout -----

  // Every row an effect inserts or changes belongs to a user of the client.
  ghost predicate OwnRows(t: Table, users: map<UserId, User>, e: Effect, client: ClientId) {
    match e
    case NoChange => true
    case Rotate(x, _, _, p) => x in t.rows && OwnerOf(users, t.rows[x].userId, client).Some?
        && p.userId == t.rows[x].userId
    case Replace(x, prev, p) =>
      && x in t.rows && prev in t.rows && OwnerOf(users, t.rows[x].userId, client).Some?
      && t.rows[prev].userId == t.rows[x].userId && p.userId == t.rows[x].userId
    case Revoke(ids, _) => forall x :: x in ids && x in t.rows ==> OwnerOf(users, t.rows[x].userId, client).Some?
    case _ => false
  }

  lemma OwnEffect(t: Table, users: map<UserId, User>, e: Effect, client: ClientId, id: Id)
    requires OwnRows(t, users, e, client)
    requires id in Apply(t, e).rows && (id in t.rows ==> Apply(t, e).rows[id] != t.rows[id])
    ensures OwnerOf(users, Apply(t, e).rows[id].userId, client).Some?
  {}

  lemma RefreshOwnRows(s: State, q: Request, f: Fresh)
    requires TableInv(s.table) && q.Refreshing? && ReqInv(s, q)
    ensures OwnRows(s.table, s.users, PlanRefresh(s, q, f).0, q.client)
  {
    hide HashesDistinct, Ordered, Rooted, Recorded, OneActive, LinkedOnce, Linked, FreshFor;
  }

  lemma LogoutOwnRows(s: State, q: Request)
    requires TableInv(s.table) && q.LoggingOut? && ReqInv(s, q)
    ensures OwnRows(s.table, s.users, PlanLogout(s, q).0, q.client)
  {
    hide HashesDistinct, Ordered, Rooted, Recorded, OneActive, LinkedOnce, Linked;
  }

  lemma AllowedKeepsRows(t: Table, e: Effect)
    ensures !e.Delete? ==> t.rows.Keys <= Apply(t, e).rows.Keys
  {}

  /** Refresh and logout insert and change only rows of users of the presenting client. */
  lemma OwnClientOnly(s: State, r: ReqId, f: Fresh, id: Id)
    requires Inv(s) && CanAct(s, r, f) && (s.reqs[r].Refreshing? || s.reqs[r].LoggingOut?)
    requires id in After(s, r, f).table.rows
    requires (id in s.table.rows ==> After(s, r, f).table.rows[id] != s.table.rows[id])
    ensures OwnerOf(s.users, After(s, r, f).table.rows[id].userId, s.reqs[r].client).Some?
    ensures s.table.rows.Keys <= After(s, r, f).table.rows.Keys
  {
    var q := s.reqs[r];
    assert ReqInv(s, q);
    if q.Refreshing? { RefreshOwnRows(s, q, f); } else { LogoutOwnRows(s, q); }
    hide TableInv, ReqInv, ReqsInv, PendingDistinct, Covered, Timely, Retained, PlanRefresh, PlanLogout, Apply;
    var e := Plan(s, q, f).effect;
    OwnEffect(s.table, s.users, e, q.client, id);
    AllowedKeepsRows(s.table, e);
  }
}
