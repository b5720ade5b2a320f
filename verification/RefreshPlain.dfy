/**
 * Tokens revoked by logout, the sessions API, a retry or a security event, whatever the
 * refreshes in flight had read before. Nobody who presents one is answered any more, and
 * only a refresh that had read the row as rotated still ends in a replay revocation.
 */
module RefreshPlain {
  import opened Wrappers
  import opened TokenTable
  import opened RefreshMachine
  import opened RefreshInvariant
  import opened RefreshTheorems

  // The token's row is revoked and does not read as rotated, or the row is gone.
  predicate PlainlyRevoked(t: Table, id: Id) {
    id in t.born && (id in t.rows ==> t.rows[id].revoked && !SeenAsRotated(t.rows[id]))
  }

  predicate Presents(s: State, r: ReqId, id: Id) {
    r in s.reqs && s.reqs[r].Refreshing? && id in s.table.born && s.reqs[r].hash == s.table.born[id].tokenHash
  }

  // The refresh had read the row as rotated, for a user of its client.
  predicate OnReplayPath(s: State, q: Request) {
    q.Refreshing? &&
    match q.pc
    case HasStored(st) => SeenAsRotated(st.row) && Owned(s, q.client, st)
    case HasOwner(st, owner) => SeenAsRotated(st.row) && owner.Some?
    case RetryRead(_, late) => !late
    case RetryCheck(_, late, _) => !late
    case RetryPrepare(_, late) => !late
    case RetryTx(_, late, _) => !late
    case Replay(_) => true
    case _ => false
  }

  // No step the request can take changes a row or a user.
  ghost predicate Harmless(s: State, r: ReqId) {
    forall f :: CanAct(s, r, f) ==> After(s, r, f).table == s.table && After(s, r, f).users == s.users
  }

  // ----- The request's own step -----

  lemma PlainSelect(s: State, q: Request, f: Fresh, id: Id)
    requires Certified(s.table) && HashesDistinct(s.table.born) && PlainlyRevoked(s.table, id)
    requires q.Refreshing? && q.hash == s.table.born[id].tokenHash && q.pc == Start
    ensures var (e, pc) := PlanRefresh(s, q, f);
            e == NoChange && !pc.Done200? && !pc.Replay? && !OnReplayPath(s, q.(pc := pc))
  {}

  lemma PlainRoute(s: State, q: Request, f: Fresh, id: Id)
    requires PlainlyRevoked(s.table, id) && q.Refreshing? && q.pc != Start && q.pc != Done401 && !q.pc.Done200?
    requires q.pc.st.id == id && !q.pc.Replay?
    ensures var (e, pc) := PlanRefresh(s, q, f);
            e == NoChange && !pc.Done200? && (OnReplayPath(s, q.(pc := pc)) <==> OnReplayPath(s, q))
  {
    hide Lookup;
  }

  lemma PlainPlan(s: State, q: Request, f: Fresh, id: Id)
    requires TableInv(s.table) && ReqInv(s, q) && PlainlyRevoked(s.table, id)
    requires q.Refreshing? && q.hash == s.table.born[id].tokenHash && !q.pc.Done200?
    ensures var (e, pc) := PlanRefresh(s, q, f);
            && !pc.Done200?
            && (if q.pc.Replay? then pc == Done401
                else e == NoChange && (OnReplayPath(s, q.(pc := pc)) <==> OnReplayPath(s, q)))
  {
    if q.pc != Start && q.pc != Done401 { SameToken(s, q, id); }
    hide PlanRefresh, ReqInv, Ordered, Rooted, Recorded, OneActive, Linked, LinkedOnce, PlainlyRevoked, Owned;
    if q.pc == Start { PlainSelect(s, q, f, id); }
    else if q.pc == Done401 || q.pc.Replay? { PlainEnd(s, q, f); }
    else { PlainRoute(s, q, f, id); }
  }

  /** One step of a refresh that presents a plainly revoked token, wherever it stands. */
  lemma PlainRevokedIsPlain401(s: State, r: ReqId, f: Fresh, id: Id)
    requires Inv(s) && CanAct(s, r, f) && Presents(s, r, id) && PlainlyRevoked(s.table, id) && !s.reqs[r].pc.Done200?
    ensures r in After(s, r, f).reqs
    ensures var s' := After(s, r, f); var q, q' := s.reqs[r], s'.reqs[r];
            && q' == q.(pc := q'.pc) && !q'.pc.Done200?
            && (if q.pc.Replay? then q'.pc == Done401
                else s'.table == s.table && s'.users == s.users && (OnReplayPath(s', q') <==> OnReplayPath(s, q)))
  {
    InvParts(s, r);
    AfterRefresh(s, r, f);
    SameRows(s.table);
    hide Inv, After, Plan, PlanRefresh, Apply, TableInv, ReqInv, PlainlyRevoked, SeenAsRotated;
    PlainPlan(s, s.reqs[r], f, id);
  }

  lemma SameRows(t: Table)
    ensures Apply(t, NoChange) == t
  {}

  lemma PlainEnd(s: State, q: Request, f: Fresh)
    requires q.Refreshing? && (q.pc == Done401 || q.pc.Replay?)
    ensures PlanRefresh(s, q, f).1 == Done401 && (q.pc == Done401 ==> PlanRefresh(s, q, f).0 == NoChange)
  {}

  // ----- Whole runs -----

  lemma PlainLater(s: State, s': State, ins: Option<Prepared>, id: Id)
    requires Advances(s, s', ins) && PlainlyRevoked(s.table, id)
    ensures PlainlyRevoked(s'.table, id) && s'.table.born[id] == s.table.born[id]
  {}

  lemma PathLater(s: State, s': State, ins: Option<Prepared>, q: Request)
    requires Advances(s, s', ins) && Covered(s) && ReqInv(s, q)
    ensures OnReplayPath(s', q) <==> OnReplayPath(s, q)
  {}

  lemma StepAdvances(s: State, e: Step, s': State) returns (ins: Option<Prepared>)
    requires Inv(s) && NextStep(s, e, s')
    ensures Advances(s, s', ins)
  {
    hide Inv, Advances, After, Plan, Inserted;
    if e.Act? {
      ActAdvances(s, e.r, e.f);
      ins := Inserted(Plan(s, s.reqs[e.r], e.f).effect);
    } else {
      QuietKeepsInv(s, e, s');
      ins := None;
    }
  }

  // Where the refresh r stands after any step of anyone, unless it has yet to arrive.
  lemma PlainStep(s: State, e: Step, s': State, r: ReqId, id: Id)
    requires Inv(s) && NextStep(s, e, s') && PlainlyRevoked(s.table, id)
    requires Presents(s, r, id) ==> !s.reqs[r].pc.Done200?
    ensures PlainlyRevoked(s'.table, id) && (r in s.reqs ==> r in s'.reqs)
    ensures Presents(s, r, id) ==> Presents(s', r, id)
    ensures Presents(s', r, id) ==>
              if r !in s.reqs then s'.reqs[r].pc == Start
              else Presents(s, r, id) && !s'.reqs[r].pc.Done200?
                   && ((OnReplayPath(s', s'.reqs[r]) <==> OnReplayPath(s, s.reqs[r]))
                       || (s.reqs[r].pc.Replay? && s'.reqs[r].pc == Done401))
  {
    assert id in s.table.born;
    hide Inv, Advances, After, CanAct, Plan, PlainlyRevoked, OnReplayPath;
    var ins := StepAdvances(s, e, s');
    PlainLater(s, s', ins, id);
    StepIsAct(s, e, s');
    if r in s.reqs {
      if !(e.Act? && e.r == r) {
        OthersStay(s, e, s', r);
        CoveredReq(s, r);
        PathLater(s, s', ins, s.reqs[r]);
      } else if Presents(s, r, id) {
        PlainRevokedIsPlain401(s, r, e.f, id);
      } else {
        KindStays(s, r, e.f);
      }
    } else if r in s'.reqs {
      Arrives(s, e, s', r);
    }
  }

  lemma CoveredReq(s: State, r: ReqId)
    requires Inv(s) && r in s.reqs
    ensures Covered(s) && ReqInv(s, s.reqs[r])
  {
    hide Covered, ReqInv;
  }

  lemma OthersStay(s: State, e: Step, s': State, r: ReqId)
    requires NextStep(s, e, s') && r in s.reqs && (e.Act? ==> e.r != r)
    ensures r in s'.reqs && s'.reqs[r] == s.reqs[r]
  {
    hide Plan, Apply;
  }

  lemma StepIsAct(s: State, e: Step, s': State)
    requires NextStep(s, e, s')
    ensures e.Act? ==> CanAct(s, e.r, e.f) && s' == After(s, e.r, e.f)
  {
    hide After, CanAct;
  }

  lemma Arrives(s: State, e: Step, s': State, r: ReqId)
    requires NextStep(s, e, s') && r !in s.reqs && r in s'.reqs
    ensures Begins(s'.reqs[r])
  {
    hide Plan, Apply;
  }

  // Neither the kind of a request nor the token it presents changes.
  lemma KindStays(s: State, r: ReqId, f: Fresh)
    requires r in s.reqs
    ensures r in After(s, r, f).reqs
    ensures var q, q' := s.reqs[r], After(s, r, f).reqs[r];
            q'.Refreshing? == q.Refreshing? && (q.Refreshing? ==> q'.hash == q.hash)
  {
    hide PlanRefresh, PlanLogout, Apply;
  }

  ghost predicate ReachesReplay(run: seq<State>, i: nat, j: nat, r: ReqId)
    requires j < |run|
  {
    exists k :: i <= k < j && r in run[k].reqs && run[k].reqs[r].Refreshing? && run[k].reqs[r].pc.Replay?
  }

  lemma {:induction false} PlainPath(run: seq<State>, i: nat, j: nat, r: ReqId, id: Id)
    requires IsHistory(run) && i <= j < |run| && PlainlyRevoked(run[i].table, id)
    requires Presents(run[i], r, id) ==> !run[i].reqs[r].pc.Done200?
    ensures PlainlyRevoked(run[j].table, id) && (r in run[i].reqs ==> r in run[j].reqs)
    ensures Presents(run[i], r, id) ==> Presents(run[j], r, id)
    ensures Presents(run[j], r, id) ==> !run[j].reqs[r].pc.Done200?
    ensures Presents(run[j], r, id) && r in run[i].reqs ==>
              Presents(run[i], r, id) && (OnReplayPath(run[j], run[j].reqs[r]) ==> OnReplayPath(run[i], run[i].reqs[r]))
    ensures Presents(run[j], r, id) && r !in run[i].reqs ==> !OnReplayPath(run[j], run[j].reqs[r])
    ensures Presents(run[j], r, id) && r in run[i].reqs && OnReplayPath(run[i], run[i].reqs[r]) ==>
              OnReplayPath(run[j], run[j].reqs[r]) || ReachesReplay(run, i, j, r)
    decreases j
  {
    hide Inv, NextStep, PlainlyRevoked;
    if i == j {
    } else {
      PlainPath(run, i, j - 1, r, id);
      HistoryInv(run, j - 1);
      var e := StepOf(run, j - 1);
      PlainStep(run[j - 1], e, run[j], r, id);
      ReplaysLater(run, i, j, r);
    }
  }

  lemma ReplaysLater(run: seq<State>, i: nat, j: nat, r: ReqId)
    requires i < j < |run|
    ensures ReachesReplay(run, i, j - 1, r) ==> ReachesReplay(run, i, j, r)
  {}

  // What the request had read of the token by the time it was plainly revoked.
  predicate HadReadAsRotated(s: State, r: ReqId) {
    r in s.reqs && OnReplayPath(s, s.reqs[r])
  }

  /**
   * Once a token is revoked other than by rotation, no refresh that presents it, in flight
   * or still to come, is answered 200 ever after; unless it had read the row as rotated, it
   * reaches no replay revocation and changes no row, and its only end is the plain 401.
   */
  lemma PlainRevokedEndsIn401(run: seq<State>, i: nat, j: nat, r: ReqId, id: Id)
    requires IsHistory(run) && i <= j < |run| && PlainlyRevoked(run[i].table, id) && Presents(run[j], r, id)
    requires Presents(run[i], r, id) ==> !run[i].reqs[r].pc.Done200?
    ensures !run[j].reqs[r].pc.Done200?
    ensures !HadReadAsRotated(run[i], r) ==> !run[j].reqs[r].pc.Replay? && Harmless(run[j], r)
  {
    PlainPath(run, i, j, r, id);
    HistoryInv(run, j);
    hide Inv, Init, IsRun, PlainlyRevoked, After, CanAct;
    if !HadReadAsRotated(run[i], r) {
      assert !OnReplayPath(run[j], run[j].reqs[r]);
      forall f | CanAct(run[j], r, f)
        ensures After(run[j], r, f).table == run[j].table && After(run[j], r, f).users == run[j].users
      {
        hide OnReplayPath;
        PlainRevokedIsPlain401(run[j], r, f, id);
      }
    }
  }

  /**
   * Such a refresh, once refused, went through the replay revocation exactly when it had
   * read the row as rotated.
   */
  lemma ReplayExactlyIfReadAsRotated(run: seq<State>, i: nat, j: nat, r: ReqId, id: Id)
    requires IsHistory(run) && i <= j < |run| && PlainlyRevoked(run[i].table, id) && Presents(run[i], r, id)
    requires !run[i].reqs[r].pc.Done200? && run[i].reqs[r].pc != Done401
    requires r in run[j].reqs && run[j].reqs[r].Refreshing? && run[j].reqs[r].pc == Done401
    ensures ReachesReplay(run, i, j, r) <==> HadReadAsRotated(run[i], r)
  {
    PlainPath(run, i, j, r, id);
    hide Inv, Init, IsRun, PlainlyRevoked, Presents;
    if ReachesReplay(run, i, j, r) {
      var k :| i <= k < j && r in run[k].reqs && run[k].reqs[r].Refreshing? && run[k].reqs[r].pc.Replay?;
      PlainPath(run, i, k, r, id);
    }
  }

  /**
   * That happens: a logout or sign-out that overwrites a rotated row after the refresh has
   * read it leaves the refresh on its way to the replay revocation.
   */
  lemma OverwrittenAfterRead(s: State, r: ReqId, d: ReqId, f: Fresh)
    requires Inv(s) && r in s.reqs && HadReadAsRotated(s, r) && d != r && CanAct(s, d, f)
    requires Plan(s, s.reqs[d], f).effect.Revoke? && s.reqs[r].pc.st.id in Plan(s, s.reqs[d], f).effect.ids
    ensures var s' := After(s, d, f);
            PlainlyRevoked(s'.table, s.reqs[r].pc.st.id) && HadReadAsRotated(s', r) && s'.reqs[r] == s.reqs[r]
  {
    hide Inv, TableInv, Plan, Apply, Advances, Covered, PlainlyRevoked, Allowed, ReqInv, Inserted, SeenAsRotated;
    InvParts(s, r);
    InvParts(s, d);
    PlanAllowed(s, s.reqs[d], f);
    ActAdvances(s, d, f);
    CoveredReq(s, r);
    OnPathIsBorn(s, s.reqs[r]);
    StruckIsPlain(s.table, Plan(s, s.reqs[d], f).effect, s.reqs[r].pc.st.id);
    hide OnReplayPath;
    PathLater(s, After(s, d, f), Inserted(Plan(s, s.reqs[d], f).effect), s.reqs[r]);
  }

  lemma OnPathIsBorn(s: State, q: Request)
    requires ReqInv(s, q) && OnReplayPath(s, q)
    ensures q.pc.st.id in s.table.born
  {}

  lemma StruckIsPlain(t: Table, e: Effect, id: Id)
    requires Allowed(t, e) && e.Revoke? && id in e.ids
    ensures id in t.born ==> PlainlyRevoked(Apply(t, e), id)
  {}

  /** A token that was never rotated is never read as rotated. */
  lemma NeverRotatedNeverRead(s: State, r: ReqId, id: Id)
    requires Inv(s) && Presents(s, r, id) && id !in s.table.suspects
    ensures !HadReadAsRotated(s, r)
  {
    InvParts(s, r);
    if s.reqs[r].pc != Start && s.reqs[r].pc != Done401 { SameToken(s, s.reqs[r], id); }
    hide TableInv;
  }

  /** One that read its row as revoked for any other reason is such a refresh. */
  lemma ReadAsPlain(s: State, r: ReqId)
    requires Inv(s) && r in s.reqs && s.reqs[r].Refreshing? && s.reqs[r].pc != Start && s.reqs[r].pc != Done401
    requires s.reqs[r].pc.st.row.revoked && !SeenAsRotated(s.reqs[r].pc.st.row)
    ensures var id := s.reqs[r].pc.st.id;
            Presents(s, r, id) && PlainlyRevoked(s.table, id) && !HadReadAsRotated(s, r) && !s.reqs[r].pc.Done200?
  {
    InvParts(s, r);
    hide TableInv, Inv;
  }
}
