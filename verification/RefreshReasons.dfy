/**
 * What the reason on a revoked row does to a refresh that reads it, every reason written
 * out: rotation, or no reason at all, is a replay; any other reason is a plain refusal.
 */
module RefreshReasons {
  import opened Wrappers
  import opened TokenTable
  import opened RefreshMachine
  import opened RefreshInvariant
  import opened RefreshTheorems
  import opened RefreshPlain
  import opened RefreshConcurrency
  import opened RefreshReplay

  // The refresh has just read this row for the token it presents.
  predicate HasRead(s: State, r: ReqId, st: Stored) {
    r in s.reqs && s.reqs[r].Refreshing? && s.reqs[r].pc == HasStored(st)
  }

  predicate OfItsClient(s: State, r: ReqId, st: Stored)
    requires HasRead(s, r, st)
  {
    st.row.userId in s.users && s.users[st.row.userId].clientId == s.reqs[r].client
  }

  predicate StandsAt(s: State, r: ReqId, pc: RefreshPc) {
    r in s.reqs && s.reqs[r].Refreshing? && s.reqs[r].pc == pc
  }

  // ----- Rotation, or no reason -----

  predicate ByRotation(row: Row) {
    row.revoked && (row.reason == None || row.reason == Some(Rotated))
  }

  lemma PathPlan(s: State, q: Request, f: Fresh)
    requires OnReplayPath(s, q) && !q.pc.Replay?
    ensures var pc := PlanRefresh(s, q, f).1; pc.Done200? || OnReplayPath(s, q.(pc := pc))
  {
    hide Lookup, Rotatable, Retryable, Replaceable;
  }

  lemma PathAct(s: State, r: ReqId, f: Fresh)
    requires r in s.reqs && OnReplayPath(s, s.reqs[r])
    ensures r in After(s, r, f).reqs
    ensures var s' := After(s, r, f); var pc := s'.reqs[r].pc;
            && s'.reqs[r] == s.reqs[r].(pc := pc)
            && (pc.Done200? || OnReplayPath(s', s'.reqs[r]) || (s.reqs[r].pc.Replay? && pc == Done401))
  {
    AfterRefresh(s, r, f);
    hide After, PlanRefresh;
    if s.reqs[r].pc.Replay? { PlainEnd(s, s.reqs[r], f); } else { PathPlan(s, s.reqs[r], f); }
  }

  ghost predicate OnPathOrOver(run: seq<State>, i: nat, j: nat, r: ReqId)
    requires j < |run|
  {
    && r in run[j].reqs && run[j].reqs[r].Refreshing?
    && (|| OnReplayPath(run[j], run[j].reqs[r])
        || run[j].reqs[r].pc.Done200?
        || (run[j].reqs[r].pc == Done401 && ReachesReplay(run, i, j, r)))
  }

  lemma PathStep(run: seq<State>, i: nat, j: nat, r: ReqId, e: Step)
    requires i < j < |run| && Inv(run[j - 1]) && NextStep(run[j - 1], e, run[j]) && OnPathOrOver(run, i, j - 1, r)
    ensures OnPathOrOver(run, i, j, r)
  {
    var s, s' := run[j - 1], run[j];
    hide Inv, Advances, After, CanAct, Plan, OnReplayPath;
    ReplaysLater(run, i, j, r);
    StepIsAct(s, e, s');
    if e.Act? && e.r == r {
      if s.reqs[r].pc.Done200? || s.reqs[r].pc == Done401 { DoneStays(s, r, e.f); }
      else { PathAct(s, r, e.f); }
    } else {
      OthersStay(s, e, s', r);
      CoveredReq(s, r);
      var ins := StepAdvances(s, e, s');
      PathLater(s, s', ins, s.reqs[r]);
    }
  }

  lemma DoneStays(s: State, r: ReqId, f: Fresh)
    requires r in s.reqs && s.reqs[r].Refreshing? && (s.reqs[r].pc.Done200? || s.reqs[r].pc == Done401)
    ensures After(s, r, f).reqs == s.reqs
  {}

  lemma PathStart(run: seq<State>, i: nat, r: ReqId)
    requires i < |run| && r in run[i].reqs && OnReplayPath(run[i], run[i].reqs[r])
    ensures OnPathOrOver(run, i, i, r)
  {}

  lemma {:induction false} PathHolds(run: seq<State>, i: nat, j: nat, r: ReqId)
    requires IsRun(run) && Inv(run[0]) && i <= j < |run| && r in run[i].reqs && OnReplayPath(run[i], run[i].reqs[r])
    ensures OnPathOrOver(run, i, j, r)
    decreases j
  {
    PathStart(run, i, r);
    hide Inv, IsRun, OnReplayPath, OnPathOrOver;
    if i == j {
    } else {
      PathHolds(run, i, j - 1, r);
      PathAdvances(run, i, j, r);
    }
  }

  lemma PathAdvances(run: seq<State>, i: nat, j: nat, r: ReqId)
    requires IsRun(run) && Inv(run[0]) && i < j < |run| && OnPathOrOver(run, i, j - 1, r)
    ensures OnPathOrOver(run, i, j, r)
  {
    RunInv(run, j - 1);
    var e := StepOf(run, j - 1);
    hide Inv, IsRun, NextStep, OnPathOrOver;
    PathStep(run, i, j, r, e);
  }

  /**
   * A refresh that read its token's row as revoked by rotation or with no reason, for a
   * user of its client, and is refused, went through the replay revocation.
   */
  lemma RotatedReadRefusedKills(run: seq<State>, i: nat, j: nat, r: ReqId, st: Stored)
    requires IsRun(run) && Inv(run[0]) && i <= j < |run| && HasRead(run[i], r, st) && OfItsClient(run[i], r, st)
    requires ByRotation(st.row) && StandsAt(run[j], r, Done401)
    ensures ReachesReplay(run, i, j, r)
  {
    hide Inv, IsRun;
    PathHolds(run, i, j, r);
  }

  // ----- Any other reason -----

  ghost predicate Refused(s: State, r: ReqId, st: Stored) {
    StandsAt(s, r, HasStored(st)) || StandsAt(s, r, Done401) || exists owner :: StandsAt(s, r, HasOwner(st, owner))
  }

  predicate OtherReason(row: Row) {
    && row.revoked
    && (row.reason == Some(Retry) || row.reason == Some(Reason.Logout) || row.reason == Some(UserRevoked)
        || row.reason == Some(Security))
  }

  lemma RefusedStep(s: State, e: Step, s': State, r: ReqId, st: Stored)
    requires NextStep(s, e, s') && Refused(s, r, st) && OtherReason(st.row)
    ensures Refused(s', r, st)
  {
    hide Apply;
    if e.Act? && e.r == r {
      AfterRefresh(s, r, e.f);
      hide After, Plan, NextStep, CanAct;
      StepIsAct(s, e, s');
      var pc := PlanRefresh(s, s.reqs[r], e.f).1;
      assert pc == Done401 || (pc.HasOwner? && pc.st == st && StandsAt(s', r, HasOwner(st, pc.owner)));
    } else {
      OthersStay(s, e, s', r);
    }
  }

  lemma RefusedHarmless(s: State, r: ReqId, st: Stored)
    requires Refused(s, r, st) && OtherReason(st.row)
    ensures Harmless(s, r)
  {
    forall f | CanAct(s, r, f)
      ensures After(s, r, f).table == s.table && After(s, r, f).users == s.users
    {
      AfterRefresh(s, r, f);
      SameRows(s.table);
      hide After, Plan, Apply;
      assert PlanRefresh(s, s.reqs[r], f).0 == NoChange;
    }
  }

  /**
   * One that read it as revoked by a retry, a logout, the sessions API or a security event
   * goes straight to 401, whoever the owner is and whatever others do: it reaches neither
   * the replay revocation nor a session, and never changes a row.
   */
  lemma {:induction false} OtherReasonRefusedPlainly(run: seq<State>, i: nat, j: nat, r: ReqId, st: Stored)
    requires IsRun(run) && i <= j < |run| && HasRead(run[i], r, st) && OtherReason(st.row)
    ensures Refused(run[j], r, st) && Harmless(run[j], r)
    decreases j
  {
    hide NextStep, Harmless, OtherReason;
    if i < j {
      OtherReasonRefusedPlainly(run, i, j - 1, r, st);
      var e := StepOf(run, j - 1);
      RefusedStep(run[j - 1], e, run[j], r, st);
    }
    RefusedHarmless(run[j], r, st);
  }

  // ----- No reason at all -----

  // A row that was revoked without ever rotating never answers anybody.
  lemma NeverSpunNeverServed(s: State, r: ReqId, id: Id)
    requires Inv(s) && id in s.table.rows && s.table.rows[id].opHash == None
    requires r in s.reqs && s.reqs[r].Refreshing? && s.reqs[r].hash == s.table.rows[id].tokenHash
    ensures !s.reqs[r].pc.Done200?
  {
    InvParts(s, r);
    SpunHasOperation(s.table, id);
    hide Inv, TableInv, ReqInv;
    if s.reqs[r].pc.Done200? { AnsweredIsSpun(s, s.reqs[r], id); }
  }

  lemma SpunHasOperation(t: Table, id: Id)
    requires TableInv(t) && id in t.rows
    ensures id in t.spun <==> t.rows[id].opHash.Some?
    ensures id in t.born && t.born[id].tokenHash == t.rows[id].tokenHash
  {
    hide HashesDistinct, Ordered, Rooted, OneActive, Linked, LinkedOnce;
  }

  lemma AnsweredIsSpun(s: State, q: Request, id: Id)
    requires TableInv(s.table) && ReqInv(s, q) && q.Refreshing? && q.pc.Done200?
    requires id in s.table.born && s.table.born[id].tokenHash == q.hash
    ensures id in s.table.spun
  {
    SameToken(s, q, id);
    hide TableInv;
  }

  // Revoked, and never rotated.
  predicate Unspun(t: Table, id: Id) {
    id in t.born && (id in t.rows ==> t.rows[id].revoked && t.rows[id].opHash == None)
  }

  lemma UnspunLater(s: State, s': State, ins: Option<Prepared>, id: Id)
    requires Advances(s, s', ins) && Unspun(s.table, id)
    ensures Unspun(s'.table, id)
  {}

  lemma {:induction false} UnspunStays(run: seq<State>, i: nat, id: Id)
    requires IsRun(run) && Inv(run[0]) && i < |run| && Unspun(run[0].table, id)
    ensures Unspun(run[i].table, id)
  {
    hide Inv, NextStep, Unspun, Advances;
    if i == 0 {
    } else {
      UnspunStays(run, i - 1, id);
      RunInv(run, i - 1);
      var e := StepOf(run, i - 1);
      var ins := StepAdvances(run[i - 1], e, run[i]);
      UnspunLater(run[i - 1], run[i], ins, id);
    }
  }

  lemma IsolatedIsRun(run: seq<State>, race: Race)
    requires Isolated(run, race)
    ensures IsRun(run)
  {
    hide NextStep, SameUser;
    forall i | 0 <= i < |run| - 1 ensures Next(run[i], run[i + 1]) {
      assert IsolatedStep(run[i], run[i + 1], race);
    }
  }

  lemma NoReasonNoRotation(s: State, id: Id)
    requires Inv(s) && id in s.table.rows && s.table.rows[id].revoked && s.table.rows[id].reason == None
    ensures Unspun(s.table, id)
  {
    hide HashesDistinct, Ordered, Rooted, OneActive, Linked, LinkedOnce, ReqsInv, PendingDistinct, Timely, Covered,
      Retained;
  }

  // Every racer that is over was refused, and then nothing of the user is active.
  ghost predicate KilledIfOver(s: State, race: Race) {
    forall r :: r in race.reqs ==>
      && r in s.reqs && s.reqs[r].Refreshing? && !s.reqs[r].pc.Done200?
      && (s.reqs[r].pc == Done401 ==>
            forall id :: id in s.table.rows && s.table.rows[id].userId == race.user ==> s.table.rows[id].revoked)
  }

  lemma UnspunRaceIsKilled(run: seq<State>, race: Race)
    requires Isolated(run, race) && StartingLine(run[0], race) && Hit(run[0], race)
    requires Unspun(run[0].table, race.id)
    ensures KilledIfOver(run[|run| - 1], race)
  {
    IsolatedIsRun(run, race);
    TrackStart(run[0], race);
    hide Inv, IsolatedStep, Next, Holds, Hit, AllTracked, Unspun, KilledIfOver;
    UnspunStays(run, |run| - 1, race.id);
    TrackHolds(run, race, |run| - 1);
    TrackedEnd(run[|run| - 1], race);
  }

  lemma TrackedEnd(s: State, race: Race)
    requires Inv(s) && AllTracked(s, race) && Unspun(s.table, race.id)
    ensures KilledIfOver(s, race)
  {
    hide Inv, Viewed, Hit;
    TrackedRow(s, race);
    forall r | r in race.reqs
      ensures !s.reqs[r].pc.Done200?
    {
      hide Tracked;
      NeverSpunNeverServed(s, r, race.id);
    }
  }

  lemma TrackedRow(s: State, race: Race)
    requires OnTrack(s, race)
    ensures race.id in s.table.rows && s.table.rows[race.id].tokenHash == race.hash
  {}

  /**
   * A row from before reasons were recorded, revoked with none, presented to any number of
   * isolated refreshes at any point of any history: all that finish are refused, and once
   * one has, no session of the user is active.
   */
  lemma NullReasonEndsRevoked(run: seq<State>, i: nat, race: Race)
    requires IsHistory(run) && i < |run| && Isolated(run[i..], race) && StartingLine(run[i], race)
    requires run[i].table.rows[race.id].revoked && run[i].table.rows[race.id].reason == None
    ensures KilledIfOver(run[|run| - 1], race)
  {
    var tail := run[i..];
    assert tail[0] == run[i] && tail[|tail| - 1] == run[|run| - 1];
    NoReasonNoRotation(run[i], race.id);
    hide IsHistory, Inv, Isolated, KilledIfOver, Unspun, Entrants;
    UnspunRaceIsKilled(tail, race);
  }

  lemma TrackStart(s: State, race: Race)
    requires StartingLine(s, race) && Hit(s, race) && s.now <= race.deadline
    ensures AllTracked(s, race)
  {
    hide Inv, Hit;
  }
}
