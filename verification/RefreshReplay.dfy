/** Concurrent refreshes of one token with different operation ids: one answer, then the family dies. */
module RefreshReplay {
  import opened Wrappers
  import opened TokenTable
  import opened RefreshMachine
  import opened RefreshInvariant
  import opened RefreshTheorems
  import opened RefreshConcurrency

  predicate Hit(s: State, race: Race) {
    race.id in s.table.rows && SeenAsRotated(s.table.rows[race.id])
  }

  predicate Viewed(s: State, race: Race, st: Stored) {
    && st.id == race.id && st.row.userId == race.user
    && ((SeenAsRotated(st.row) && Hit(s, race)) || Unturned(st.row, race))
  }

  ghost predicate Tracked(s: State, race: Race, pc: RefreshPc) {
    match pc
    case Start => true
    case HasStored(st) => Viewed(s, race, st)
    case HasOwner(st, owner) => Viewed(s, race, st) && owner == Some(User(race.client, true))
    case ToPrepare(st) => Viewed(s, race, st)
    case HasSuccessor(st, _) => Viewed(s, race, st)
    case Timed(st, _, at) => Viewed(s, race, st) && at <= s.now
    case RetryRead(st, _) => Viewed(s, race, st) && Hit(s, race)
    case RetryCheck(st, _, _) => Viewed(s, race, st) && Hit(s, race)
    case RetryPrepare(st, _) => Viewed(s, race, st) && Hit(s, race)
    case RetryTx(st, _, _) => Viewed(s, race, st) && Hit(s, race)
    case Latest(st) => Viewed(s, race, st) && Hit(s, race)
    case Replay(st) => Viewed(s, race, st) && Hit(s, race)
    case Done200(_, _) => Hit(s, race)
    case Done401 => Hit(s, race) && AllRevoked(s, race.user)
  }

  predicate OnTrack(s: State, race: Race) {
    && Holds(s, race) && s.now <= race.deadline
    && (Hit(s, race) || Unturned(s.table.rows[race.id], race))
  }

  ghost predicate AllTracked(s: State, race: Race) {
    OnTrack(s, race) && Entrants(s, race) && forall r :: r in race.reqs ==> Tracked(s, race, s.reqs[r].pc)
  }

  ghost predicate TrackMove(s: State, race: Race, e: Effect, pc: RefreshPc) {
    || (e == NoChange && Tracked(s, race, pc))
    || (e.Rotate? && e.t == race.id && e.p.userId == race.user && pc.Done200?)
    || (e.Replace? && e.t == race.id && e.p.userId == race.user && race.id in s.table.rows
        && s.table.rows[race.id].replacedBy == Some(e.prev)
        && e.prev in s.table.rows && s.table.rows[e.prev].userId == race.user && pc.Done200?)
    || (e == Revoke(ActiveOf(s.table.rows, race.user), Security) && Hit(s, race) && pc == Done401)
  }

  lemma TrackSelect(s: State, race: Race, q: Request, f: Fresh)
    requires TableInv(s.table) && OnTrack(s, race) && q.Refreshing? && q.client == race.client && q.hash == race.hash
    requires q.pc == Start
    ensures TrackMove(s, race, PlanRefresh(s, q, f).0, PlanRefresh(s, q, f).1)
  {
    TokenIsUnique(s, race);
    hide TableInv, Replaceable, Rotatable, Lookup;
    assert PlanRefresh(s, q, f).1 == HasStored(Stored(race.id, s.table.rows[race.id]));
  }

  lemma TrackEarly(s: State, race: Race, q: Request, f: Fresh)
    requires OnTrack(s, race) && q.Refreshing? && q.client == race.client && q.hash == race.hash
    requires Tracked(s, race, q.pc) && (q.pc.HasStored? || q.pc.HasOwner? || q.pc.ToPrepare? || q.pc.HasSuccessor?)
    ensures TrackMove(s, race, PlanRefresh(s, q, f).0, PlanRefresh(s, q, f).1)
  {
    hide Retryable, Replaceable, Rotatable, Lookup, Hit;
  }

  lemma TrackLate(s: State, race: Race, q: Request, f: Fresh)
    requires OnTrack(s, race) && q.Refreshing? && q.client == race.client && q.hash == race.hash
    requires ReqInv(s, q) && Tracked(s, race, q.pc)
    requires q.pc != Start && !(q.pc.HasStored? || q.pc.HasOwner? || q.pc.ToPrepare? || q.pc.HasSuccessor?)
    requires q.pc != Done401 && !q.pc.Done200?
    ensures TrackMove(s, race, PlanRefresh(s, q, f).0, PlanRefresh(s, q, f).1)
  {
    hide Lookup, Known, Owned, Pending, Answered, Candidate, Spent, Unrotatable, AllRevoked;
  }

  lemma TrackDone(s: State, race: Race, q: Request, f: Fresh)
    requires OnTrack(s, race) && q.Refreshing? && Tracked(s, race, q.pc) && (q.pc == Done401 || q.pc.Done200?)
    ensures TrackMove(s, race, PlanRefresh(s, q, f).0, PlanRefresh(s, q, f).1)
  {
    hide OnTrack;
    assert PlanRefresh(s, q, f) == (NoChange, q.pc);
  }

  lemma TrackPlan(s: State, race: Race, q: Request, f: Fresh)
    requires TableInv(s.table) && OnTrack(s, race) && q.Refreshing? && q.client == race.client && q.hash == race.hash
    requires ReqInv(s, q) && Tracked(s, race, q.pc)
    ensures TrackMove(s, race, PlanRefresh(s, q, f).0, PlanRefresh(s, q, f).1)
  {
    hide TableInv, ReqInv, OnTrack, Tracked, TrackMove, PlanRefresh;
    if q.pc == Done401 || q.pc.Done200? { TrackDone(s, race, q, f); }
    else if q.pc == Start { TrackSelect(s, race, q, f); }
    else if q.pc.HasStored? || q.pc.HasOwner? || q.pc.ToPrepare? || q.pc.HasSuccessor? { TrackEarly(s, race, q, f); }
    else { TrackLate(s, race, q, f); }
  }

  lemma TrackEffect(s: State, race: Race, e: Effect, pc: RefreshPc, s': State)
    requires TableInv(s.table) && Allowed(s.table, e) && OnTrack(s, race) && TrackMove(s, race, e, pc) && e != NoChange
    requires s'.table == Apply(s.table, e) && s'.users == s.users && s'.now == s.now
    ensures OnTrack(s', race) && Hit(s', race)
    ensures e.Revoke? ==> AllRevoked(s', race.user)
    ensures AllRevoked(s, race.user) ==> AllRevoked(s', race.user)
  {
    hide HashesDistinct, Ordered, Rooted, Recorded, OneActive, Linked, LinkedOnce;
  }

  lemma TrackedLater(s: State, s': State, race: Race, pc: RefreshPc)
    requires Tracked(s, race, pc) && s.now <= s'.now
    requires Hit(s, race) ==> Hit(s', race)
    requires AllRevoked(s, race.user) ==> AllRevoked(s', race.user)
    ensures Tracked(s', race, pc)
  {
    hide Hit, AllRevoked;
  }

  lemma TrackStore(s: State, s': State, race: Race, r: ReqId, f: Fresh)
    requires Inv(s) && AllTracked(s, race)
    requires r in race.reqs && CanAct(s, r, f) && s' == After(s, r, f)
    ensures OnTrack(s', race)
    ensures Hit(s, race) ==> Hit(s', race)
    ensures AllRevoked(s, race.user) ==> AllRevoked(s', race.user)
    ensures s'.reqs[r] == s.reqs[r].(pc := s'.reqs[r].pc) && Tracked(s', race, s'.reqs[r].pc)
  {
    hide Inv, ReqInv, TableInv, Plan, PlanRefresh, Allowed, Apply, CanAct, After;
    InvParts(s, r);
    var q := s.reqs[r];
    var (e, pc) := PlanRefresh(s, q, f);
    TrackPlan(s, race, q, f);
    AfterRefresh(s, r, f);
    RefreshAllowed(s, q, f);
    if e == NoChange {
      SameTable(s.table);
      SameTrack(s, s', race);
      hide AllRevoked, Hit, OnTrack;
      TrackedLater(s, s', race, pc);
    } else {
      TrackEffect(s, race, e, pc, s');
    }
  }

  lemma SameTrack(s: State, s': State, race: Race)
    requires s'.table == s.table && s'.users == s.users && s'.now == s.now
    ensures OnTrack(s, race) == OnTrack(s', race) && Hit(s, race) == Hit(s', race)
    ensures AllRevoked(s, race.user) == AllRevoked(s', race.user)
  {}

  lemma TrackAct(s: State, s': State, race: Race, r: ReqId, f: Fresh)
    requires Inv(s) && AllTracked(s, race)
    requires r in race.reqs && CanAct(s, r, f) && s' == After(s, r, f)
    ensures AllTracked(s', race)
  {
    hide Inv, OnTrack, Tracked, Hit, AllRevoked, After;
    TrackStore(s, s', race, r, f);
    AfterOthers(s, r, f);
    forall a | a in race.reqs && a != r
      ensures a in s'.reqs && s'.reqs[a] == s.reqs[a] && Tracked(s', race, s'.reqs[a].pc)
    {
      TrackedLater(s, s', race, s.reqs[a].pc);
    }
  }

  lemma SameUserTrack(s: State, s': State, race: Race)
    requires OnTrack(s, race) && SameUser(s, s', race.user) && s'.now <= race.deadline
    ensures OnTrack(s', race)
    ensures Hit(s, race) ==> Hit(s', race)
    ensures AllRevoked(s, race.user) ==> AllRevoked(s', race.user)
  {}

  lemma TrackOthers(s: State, e: Step, s': State, race: Race)
    requires Inv(s) && AllTracked(s, race) && NextStep(s, e, s')
    requires SameUser(s, s', race.user) && s'.now <= race.deadline && !(e.Act? && e.r in race.reqs)
    ensures AllTracked(s', race)
  {
    hide Inv, NextStep, OnTrack, Tracked, Hit, AllRevoked, SameUser;
    StepHistory(s, e, s');
    SameUserTrack(s, s', race);
    OtherActs(s, e, s', race);
    forall a | a in race.reqs
      ensures Tracked(s', race, s'.reqs[a].pc)
    {
      TrackedLater(s, s', race, s.reqs[a].pc);
    }
  }

  lemma {:induction false} TrackHolds(run: seq<State>, race: Race, i: nat)
    requires Isolated(run, race) && Inv(run[0]) && AllTracked(run[0], race) && i < |run|
    ensures AllTracked(run[i], race) && Inv(run[i])
  {
    hide Inv, NextStep, AllTracked, SameUser;
    if i == 0 {
    } else {
      TrackHolds(run, race, i - 1);
      assert IsolatedStep(run[i - 1], run[i - 1 + 1], race);
      var e :| NextStep(run[i - 1], e, run[i])
          && ((e.Act? && e.r in race.reqs) || SameUser(run[i - 1], run[i], race.user));
      NextKeepsInv(run[i - 1], e, run[i]);
      if e.Act? && e.r in race.reqs {
        ActIs(run[i - 1], e, run[i]);
        TrackAct(run[i - 1], run[i], race, e.r, e.f);
      } else {
        TrackOthers(run[i - 1], e, run[i], race);
      }
    }
  }

  /**
   * When nothing else interferes, a refresh of a live or rotated token that is refused
   * has killed every session of the user, and none comes back during the run.
   */
  lemma RefusalKillsSessions(run: seq<State>, race: Race, r: ReqId)
    requires Isolated(run, race) && StartingLine(run[0], race)
    requires Hit(run[0], race) || Unturned(run[0].table.rows[race.id], race)
    requires r in race.reqs && r in run[|run| - 1].reqs && run[|run| - 1].reqs[r].Refreshing?
    requires run[|run| - 1].reqs[r].pc == Done401
    ensures AllRevoked(run[|run| - 1], race.user)
  {
    hide Inv, IsolatedStep, AllRevoked, Hit, Holds;
    assert OnTrack(run[0], race);
    TrackHolds(run, race, |run| - 1);
  }

  ghost predicate DistinctOps(s: State, race: Race) {
    forall a, b :: (a in race.reqs && b in race.reqs && a in s.reqs && b in s.reqs
                    && s.reqs[a].Refreshing? && s.reqs[b].Refreshing? && s.reqs[a].op == s.reqs[b].op) ==> a == b
  }

  /**
   * Concurrent refreshes of one token with pairwise distinct operation ids: at most one
   * answers 200, and when one did and another was answered too, no session of the user
   * is active at the end.
   */
  lemma DistinctOperationsEndRevoked(run: seq<State>, race: Race, w: ReqId, l: ReqId)
    requires Isolated(run, race) && StartingLine(run[0], race)
    requires Hit(run[0], race) || Unturned(run[0].table.rows[race.id], race)
    requires Finished(run[|run| - 1], race) && DistinctOps(run[|run| - 1], race)
    requires w in race.reqs && l in race.reqs && w != l && run[|run| - 1].reqs[w].pc.Done200?
    ensures run[|run| - 1].reqs[l].pc == Done401
    ensures AllRevoked(run[|run| - 1], race.user)
  {
    var s := run[|run| - 1];
    hide Inv, IsolatedStep, AllRevoked, Hit, Holds, Unturned;
    assert OnTrack(run[0], race) by { OnTrackStart(run[0], race); }
    TrackHolds(run, race, |run| - 1);
    if s.reqs[l].pc.Done200? {
      WinnersAgree(s, w, l);
      assert false;
    }
    RefusalKillsSessions(run, race, l);
  }

  lemma OnTrackStart(s: State, race: Race)
    requires Holds(s, race) && s.now <= race.deadline && (Hit(s, race) || Unturned(s.table.rows[race.id], race))
    ensures OnTrack(s, race)
  {}
}
