/** Any number of concurrent refreshes of one token. */
module RefreshConcurrency {
  import opened Wrappers
  import opened TokenTable
  import opened RefreshMachine
  import opened RefreshInvariant
  import opened RefreshTheorems

  // The requests in reqs all present the token of row id, which belongs to user;
  // deadline bounds the clock of the whole run.
  datatype Race = Race(client: ClientId, user: UserId, id: Id, hash: Hash, reqs: set<ReqId>, deadline: Time)

  ghost predicate SameUser(s: State, s': State, user: UserId) {
    && (forall id :: id in s.table.rows && s.table.rows[id].userId == user ==>
          id in s'.table.rows && s'.table.rows[id] == s.table.rows[id])
    && (forall id :: id in s'.table.rows && s'.table.rows[id].userId == user ==>
          id in s.table.rows && s.table.rows[id] == s'.table.rows[id])
    && (user in s.users ==> user in s'.users && s'.users[user] == s.users[user])
  }

  // Nothing else interferes: whoever else acts leaves the user and the user's rows alone.
  ghost predicate IsolatedStep(s: State, s': State, race: Race) {
    exists e :: NextStep(s, e, s') && ((e.Act? && e.r in race.reqs) || SameUser(s, s', race.user))
  }

  ghost predicate Isolated(run: seq<State>, race: Race) {
    && |run| > 0
    && (forall i :: 0 <= i < |run| - 1 ==> IsolatedStep(run[i], run[i + 1], race))
    && (forall i :: 0 <= i < |run| ==> run[i].now <= race.deadline)
  }

  predicate Holds(s: State, race: Race) {
    && race.id in s.table.rows
    && s.table.rows[race.id].userId == race.user && s.table.rows[race.id].tokenHash == race.hash
    && OwnerOf(s.users, race.user, race.client) == Some(User(race.client, true))
  }

  ghost predicate Entrants(s: State, race: Race) {
    forall r :: r in race.reqs ==>
      r in s.reqs && s.reqs[r].Refreshing? && s.reqs[r].client == race.client && s.reqs[r].hash == race.hash
  }

  ghost predicate StartingLine(s: State, race: Race) {
    Inv(s) && Holds(s, race) && Entrants(s, race) && forall r :: r in race.reqs ==> s.reqs[r].pc == Start
  }

  ghost predicate Finished(s: State, race: Race) {
    forall r :: r in race.reqs ==>
          r in s.reqs && s.reqs[r].Refreshing? && (s.reqs[r].pc.Done200? || s.reqs[r].pc.Done401?)
  }

  // ----- One operation wins -----

  /** All 200 answers ever given for one token carry one operation id. */
  lemma OneOperationWins(run: seq<State>, i: nat, a: ReqId, b: ReqId)
    requires IsHistory(run) && i < |run| && a in run[i].reqs && b in run[i].reqs
    requires run[i].reqs[a].Refreshing? && run[i].reqs[a].pc.Done200?
    requires run[i].reqs[b].Refreshing? && run[i].reqs[b].pc.Done200?
    requires run[i].reqs[a].hash == run[i].reqs[b].hash
    ensures run[i].reqs[a].op == run[i].reqs[b].op
  {
    HistoryInv(run, i);
    WinnersAgree(run[i], a, b);
  }

  lemma WinnersAgree(s: State, a: ReqId, b: ReqId)
    requires Inv(s) && a in s.reqs && b in s.reqs
    requires s.reqs[a].Refreshing? && s.reqs[a].pc.Done200?
    requires s.reqs[b].Refreshing? && s.reqs[b].pc.Done200?
    requires s.reqs[a].hash == s.reqs[b].hash
    ensures s.reqs[a].op == s.reqs[b].op
  {
    assert ReqInv(s, s.reqs[a]);
    assert ReqInv(s, s.reqs[b]);
    hide Ordered, Rooted, Certified, Recorded, OneActive, Linked, LinkedOnce, ReqsInv, PendingDistinct, Covered, Timely,
      Retained;
  }

  // ----- The same operation: everyone is answered -----

  // The token is the immediate predecessor of an active successor that outlives the run.
  predicate Turned(s: State, race: Race, op: Hash, start: Time) {
    && race.id in s.table.rows
    && Retryable(s.table.rows[race.id], op, start)
    && var x := s.table.rows[race.id].replacedBy.value;
       && x in s.table.rows && !s.table.rows[x].revoked
       && s.table.rows[x].userId == race.user && s.table.rows[x].expiresAt > race.deadline
  }

  predicate Unturned(r: Row, race: Race) {
    !r.revoked && r.expiresAt > race.deadline
  }

  predicate ReadWell(s: State, race: Race, op: Hash, start: Time, st: Stored) {
    && st.id == race.id && st.row.userId == race.user
    && (Unturned(st.row, race) || (SeenAsRotated(st.row) && Turned(s, race, op, start)))
  }

  predicate Outlives(p: Prepared, race: Race) {
    p.expiresAt > race.deadline && p.userId == race.user
  }

  predicate OnCourse(s: State, race: Race, op: Hash, start: Time, pc: RefreshPc) {
    match pc
    case Start => true
    case HasStored(st) => ReadWell(s, race, op, start, st)
    case HasOwner(st, owner) => ReadWell(s, race, op, start, st) && owner == Some(User(race.client, true))
    case ToPrepare(st) => ReadWell(s, race, op, start, st)
    case HasSuccessor(st, p) => ReadWell(s, race, op, start, st) && Outlives(p, race)
    case Timed(st, p, at) => ReadWell(s, race, op, start, st) && Outlives(p, race) && start <= at <= s.now
    case RetryRead(st, _) => ReadWell(s, race, op, start, st) && Turned(s, race, op, start)
    case RetryCheck(st, _, c) =>
      ReadWell(s, race, op, start, st) && Turned(s, race, op, start) && c.Some? && Retryable(c.value, op, start)
    case RetryPrepare(st, _) => ReadWell(s, race, op, start, st) && Turned(s, race, op, start)
    case RetryTx(st, _, p) => ReadWell(s, race, op, start, st) && Turned(s, race, op, start) && Outlives(p, race)
    case Done200(_, _) => Turned(s, race, op, start)
    case _ => false
  }

  ghost predicate AllOnCourse(s: State, race: Race, op: Hash, start: Time) {
    && CourseState(s, race, op, start) && Entrants(s, race)
    && (forall r :: r in race.reqs ==> s.reqs[r].op == op && OnCourse(s, race, op, start, s.reqs[r].pc))
  }

  lemma TokenIsUnique(s: State, race: Race)
    requires TableInv(s.table) && Holds(s, race)
    ensures Lookup(s.table.rows, race.hash) == Some(Stored(race.id, s.table.rows[race.id]))
  {
    hide Ordered, Rooted, Recorded, OneActive, Linked, LinkedOnce;
    var found := Lookup(s.table.rows, race.hash);
    assert race.id in s.table.rows;
    assert found.value.id in s.table.born;
  }

  predicate CourseState(s: State, race: Race, op: Hash, start: Time) {
    && Holds(s, race) && start <= s.now <= race.deadline
    && race.deadline <= start + s.cfg.grace && s.cfg.grace < s.cfg.lifetime
    && (Unturned(s.table.rows[race.id], race) || Turned(s, race, op, start))
  }

  // The three things a request on course can do next.
  predicate CourseMove(s: State, race: Race, op: Hash, start: Time, e: Effect, pc: RefreshPc) {
    || (e == NoChange && OnCourse(s, race, op, start, pc))
    || (e.Rotate? && e.t == race.id && e.op == op && start <= e.at && Outlives(e.p, race) && pc.Done200?)
    || (e.Replace? && e.t == race.id && Turned(s, race, op, start) && Outlives(e.p, race) && pc.Done200?)
  }

  lemma CourseSelect(s: State, race: Race, op: Hash, start: Time, q: Request, f: Fresh)
    requires TableInv(s.table) && CourseState(s, race, op, start)
    requires q.Refreshing? && q.client == race.client && q.hash == race.hash && q.op == op
    requires OnCourse(s, race, op, start, q.pc)
    requires q.pc == Start
    ensures CourseMove(s, race, op, start, PlanRefresh(s, q, f).0, PlanRefresh(s, q, f).1)
  {
    TokenIsUnique(s, race);
    hide TableInv, Replaceable, Rotatable, Lookup;
    var pc := PlanRefresh(s, q, f).1;
    assert pc == HasStored(Stored(race.id, s.table.rows[race.id]));
  }

  lemma CourseRead(s: State, race: Race, op: Hash, start: Time, q: Request, f: Fresh)
    requires TableInv(s.table) && CourseState(s, race, op, start)
    requires q.Refreshing? && q.client == race.client && q.hash == race.hash && q.op == op
    requires OnCourse(s, race, op, start, q.pc)
    requires q.pc.HasStored? || q.pc.HasOwner?
    ensures CourseMove(s, race, op, start, PlanRefresh(s, q, f).0, PlanRefresh(s, q, f).1)
  {
    hide TableInv, Retryable, Replaceable, Rotatable, Lookup, Turned;
  }

  lemma CourseRotate(s: State, race: Race, op: Hash, start: Time, q: Request, f: Fresh)
    requires TableInv(s.table) && CourseState(s, race, op, start)
    requires q.Refreshing? && q.client == race.client && q.hash == race.hash && q.op == op
    requires OnCourse(s, race, op, start, q.pc)
    requires q.pc.ToPrepare? || q.pc.HasSuccessor? || q.pc.Timed? || q.pc.Done200?
    ensures CourseMove(s, race, op, start, PlanRefresh(s, q, f).0, PlanRefresh(s, q, f).1)
  {
    hide TableInv, Retryable, Replaceable, Lookup;
  }

  lemma CourseRetry(s: State, race: Race, op: Hash, start: Time, q: Request, f: Fresh)
    requires TableInv(s.table) && CourseState(s, race, op, start)
    requires q.Refreshing? && q.client == race.client && q.hash == race.hash && q.op == op
    requires OnCourse(s, race, op, start, q.pc)
    requires q.pc.RetryRead? || q.pc.RetryCheck? || q.pc.RetryPrepare? || q.pc.RetryTx?
    ensures CourseMove(s, race, op, start, PlanRefresh(s, q, f).0, PlanRefresh(s, q, f).1)
  {
    hide TableInv, Lookup, Rotatable;
  }

  lemma CourseEffect(s: State, race: Race, op: Hash, start: Time, e: Effect, s': State)
    requires TableInv(s.table) && Allowed(s.table, e) && race.id in s.table.rows
    requires s'.table == Apply(s.table, e)
    requires || (e.Rotate? && e.t == race.id && e.op == op && start <= e.at && Outlives(e.p, race))
             || (e.Replace? && e.t == race.id && Turned(s, race, op, start) && Outlives(e.p, race))
    ensures Turned(s', race, op, start) && race.id in s'.table.rows
    ensures s'.table.rows[race.id].userId == s.table.rows[race.id].userId
    ensures s'.table.rows[race.id].tokenHash == s.table.rows[race.id].tokenHash
  {
    hide HashesDistinct, Ordered, Rooted, Recorded, OneActive, LinkedOnce;
    if e.Replace? { assert Links(s.table, e.t, e.prev); }
  }

  lemma CourseLater(s: State, s': State, race: Race, op: Hash, start: Time, pc: RefreshPc)
    requires OnCourse(s, race, op, start, pc) && s.now <= s'.now
    requires Turned(s, race, op, start) ==> Turned(s', race, op, start)
    ensures OnCourse(s', race, op, start, pc)
  {
    hide Turned;
  }

  lemma CoursePlan(s: State, race: Race, op: Hash, start: Time, q: Request, f: Fresh)
    requires TableInv(s.table) && CourseState(s, race, op, start)
    requires q.Refreshing? && q.client == race.client && q.hash == race.hash && q.op == op
    requires OnCourse(s, race, op, start, q.pc)
    ensures CourseMove(s, race, op, start, PlanRefresh(s, q, f).0, PlanRefresh(s, q, f).1)
  {
    hide TableInv, CourseState, PlanRefresh, CourseMove, ReadWell;
    if q.pc == Start {
      CourseSelect(s, race, op, start, q, f);
    } else if q.pc.HasStored? || q.pc.HasOwner? {
      CourseRead(s, race, op, start, q, f);
    } else if q.pc.ToPrepare? || q.pc.HasSuccessor? || q.pc.Timed? || q.pc.Done200? {
      CourseRotate(s, race, op, start, q, f);
    } else {
      CourseRetry(s, race, op, start, q, f);
    }
  }

  lemma CourseStore(s: State, s': State, race: Race, op: Hash, start: Time, r: ReqId, f: Fresh)
    requires Inv(s) && AllOnCourse(s, race, op, start)
    requires r in race.reqs && CanAct(s, r, f) && s' == After(s, r, f)
    ensures CourseState(s', race, op, start)
    ensures Turned(s, race, op, start) ==> Turned(s', race, op, start)
    ensures s'.reqs[r] == s.reqs[r].(pc := s'.reqs[r].pc) && OnCourse(s', race, op, start, s'.reqs[r].pc)
  {
    hide Inv, ReqInv, TableInv, Plan, PlanRefresh, Allowed, Apply, Turned, CanAct, After;
    InvParts(s, r);
    var q := s.reqs[r];
    var (e, pc) := PlanRefresh(s, q, f);
    CoursePlan(s, race, op, start, q, f);
    AfterRefresh(s, r, f);
    RefreshAllowed(s, q, f);
    if e == NoChange {
      NothingEffect(s.table);
      SameTable(s.table);
      SameTurned(s, s', race, op, start);
      CourseLater(s, s', race, op, start, pc);
    } else {
      CourseEffect(s, race, op, start, e, s');
    }
  }

  lemma SameTable(t: Table)
    ensures Apply(t, NoChange) == t
  {}

  lemma SameTurned(s: State, s': State, race: Race, op: Hash, start: Time)
    requires s'.table == s.table
    ensures Turned(s, race, op, start) == Turned(s', race, op, start)
  {}

  lemma AfterOthers(s: State, r: ReqId, f: Fresh)
    requires r in s.reqs
    ensures After(s, r, f).reqs.Keys == s.reqs.Keys && After(s, r, f).now == s.now && After(s, r, f).cfg == s.cfg
    ensures forall a :: a in s.reqs && a != r ==> After(s, r, f).reqs[a] == s.reqs[a]
  {
    hide Plan, Apply;
  }

  lemma CourseAct(s: State, s': State, race: Race, op: Hash, start: Time, r: ReqId, f: Fresh)
    requires Inv(s) && AllOnCourse(s, race, op, start)
    requires r in race.reqs && CanAct(s, r, f) && s' == After(s, r, f)
    ensures AllOnCourse(s', race, op, start)
  {
    hide Inv, CourseState, OnCourse, Turned, After;
    CourseStore(s, s', race, op, start, r, f);
    AfterOthers(s, r, f);
    forall a | a in race.reqs && a != r
      ensures a in s'.reqs && s'.reqs[a] == s.reqs[a] && OnCourse(s', race, op, start, s'.reqs[a].pc)
    {
      CourseLater(s, s', race, op, start, s.reqs[a].pc);
    }
  }

  lemma SameUserCourse(s: State, s': State, race: Race, op: Hash, start: Time)
    requires CourseState(s, race, op, start) && SameUser(s, s', race.user)
    requires s.now <= s'.now <= race.deadline && s'.cfg == s.cfg
    ensures CourseState(s', race, op, start)
    ensures Turned(s, race, op, start) ==> Turned(s', race, op, start)
  {}

  lemma OtherActs(s: State, e: Step, s': State, race: Race)
    requires NextStep(s, e, s') && Entrants(s, race) && !(e.Act? && e.r in race.reqs)
    ensures forall a :: a in race.reqs ==> a in s'.reqs && s'.reqs[a] == s.reqs[a]
  {
    if e.Act? { AfterOthers(s, e.r, e.f); }
    hide After;
  }

  lemma CourseOthers(s: State, e: Step, s': State, race: Race, op: Hash, start: Time)
    requires Inv(s) && AllOnCourse(s, race, op, start) && NextStep(s, e, s')
    requires SameUser(s, s', race.user) && s'.now <= race.deadline && !(e.Act? && e.r in race.reqs)
    ensures AllOnCourse(s', race, op, start)
  {
    hide Inv, NextStep, CourseState, OnCourse, Turned, SameUser;
    StepHistory(s, e, s');
    SameUserCourse(s, s', race, op, start);
    OtherActs(s, e, s', race);
    forall a | a in race.reqs
      ensures OnCourse(s', race, op, start, s'.reqs[a].pc)
    {
      CourseLater(s, s', race, op, start, s.reqs[a].pc);
    }
  }

  lemma {:induction false} CourseHolds(run: seq<State>, race: Race, op: Hash, i: nat)
    requires Isolated(run, race) && Inv(run[0]) && AllOnCourse(run[0], race, op, run[0].now) && i < |run|
    ensures AllOnCourse(run[i], race, op, run[0].now) && Inv(run[i])
  {
    hide Inv, NextStep, AllOnCourse, SameUser;
    if i == 0 {
    } else {
      CourseHolds(run, race, op, i - 1);
      assert IsolatedStep(run[i - 1], run[i - 1 + 1], race);
      var e :| NextStep(run[i - 1], e, run[i])
          && ((e.Act? && e.r in race.reqs) || SameUser(run[i - 1], run[i], race.user));
      NextKeepsInv(run[i - 1], e, run[i]);
      if e.Act? && e.r in race.reqs {
        ActIs(run[i - 1], e, run[i]);
        CourseAct(run[i - 1], run[i], race, op, run[0].now, e.r, e.f);
      } else {
        CourseOthers(run[i - 1], e, run[i], race, op, run[0].now);
      }
    }
  }

  lemma ActIs(s: State, e: Step, s': State)
    requires NextStep(s, e, s') && e.Act?
    ensures CanAct(s, e.r, e.f) && s' == After(s, e.r, e.f)
  {
    hide After, CanAct;
  }

  lemma TurnedHead(s: State, race: Race, op: Hash, start: Time, r: ReqId)
    requires Inv(s) && r in s.reqs && Turned(s, race, op, start)
    ensures race.id in s.table.rows && s.table.rows[race.id].replacedBy.Some?
    ensures OnlyPredecessor(s.table, race.id, s.table.rows[race.id].replacedBy.value)
  {
    hide Inv, OnlyPredecessor, TableInv, ReqInv;
    InvParts(s, r);
    HeadOfLink(s.table, race.id, s.table.rows[race.id].replacedBy.value);
  }
}
