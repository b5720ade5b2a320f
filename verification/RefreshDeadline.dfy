/**
 * Exactly when concurrent refreshes of one token end as they should. A refresh reads its
 * clock before its rotation transaction, so a rotation can commit after the token expired;
 * a competitor that looked in between is refused without noticing it.
 */
module RefreshDeadline {
  import opened Wrappers
  import opened TokenTable
  import opened RefreshMachine
  import opened RefreshInvariant
  import opened RefreshTheorems
  import opened RefreshConcurrency
  import opened RefreshReplay
  import opened RefreshHopeless

  predicate Several(race: Race) {
    exists a, b :: a in race.reqs && b in race.reqs && a != b
  }

  // The token is usable now and the race may last until it is not.
  predicate Expires(s: State, race: Race) {
    race.id in s.table.rows && !s.table.rows[race.id].revoked
        && s.now < s.table.rows[race.id].expiresAt <= race.deadline
  }

  ghost predicate Won(s: State, race: Race) {
    exists r :: r in race.reqs && r in s.reqs && s.reqs[r].Refreshing? && s.reqs[r].pc.Done200?
  }

  // Every isolated run from s that answers all, one of them with 200, revokes the user's sessions.
  ghost predicate AlwaysEndsRevoked(s: State, race: Race) {
    forall run: seq<State> ::
      Isolated(run, race) && run[0] == s && Finished(run[|run| - 1], race)
      && Won(run[|run| - 1], race)
      ==> AllRevoked(run[|run| - 1], race.user)
  }

  function Put(s: State, r: ReqId, pc: RefreshPc): State
    requires r in s.reqs && s.reqs[r].Refreshing?
  {
    s.(reqs := s.reqs[r := s.reqs[r].(pc := pc)])
  }

  lemma Moves(s: State, race: Race, r: ReqId, f: Fresh, pc: RefreshPc)
    requires r in race.reqs && r in s.reqs && s.reqs[r].Refreshing? && !Draws(s.reqs[r])
    requires PlanRefresh(s, s.reqs[r], f) == (NoChange, pc)
    ensures IsolatedStep(s, Put(s, r, pc), race)
  {
    SameTable(s.table);
    hide PlanRefresh, Apply;
    assert After(s, r, f) == Put(s, r, pc);
    assert NextStep(s, Act(r, f), Put(s, r, pc));
  }

  function Drawn(s: State, f: Fresh): State {
    s.(usedIds := s.usedIds + {f.id}, usedHashes := s.usedHashes + {f.tokenHash})
  }

  lemma DrawMoves(s: State, race: Race, r: ReqId, f: Fresh, st: Stored)
    requires r in race.reqs && r in s.reqs && s.reqs[r].Refreshing? && s.reqs[r].pc == ToPrepare(st)
    requires f.id !in s.usedIds && f.tokenHash !in s.usedHashes
    ensures IsolatedStep(s, Put(Drawn(s, f), r, HasSuccessor(st, Prepare(s, st.row.userId, f))), race)
  {
    SameTable(s.table);
    var s' := Put(Drawn(s, f), r, HasSuccessor(st, Prepare(s, st.row.userId, f)));
    assert PlanRefresh(s, s.reqs[r], f) == (NoChange, HasSuccessor(st, Prepare(s, st.row.userId, f)));
    hide PlanRefresh, Apply;
    assert After(s, r, f) == s';
    assert NextStep(s, Act(r, f), s');
  }

  lemma {:induction false} Unused(used: set<nat>) returns (n: nat)
    ensures forall x :: x in used ==> x < n
    decreases |used|
  {
    if used == {} {
      n := 0;
    } else {
      var x :| x in used;
      var m := Unused(used - {x});
      n := if m > x then m else x + 1;
      forall y | y in used ensures y < n { assert y == x || y in used - {x}; }
    }
  }

  // The store as the racers find it, and what a phase of the run leaves alone.
  ghost predicate Unrotated(s: State, race: Race) {
    TableInv(s.table) && Holds(s, race) && Entrants(s, race) && !s.table.rows[race.id].revoked
  }

  predicate Solo(s: State, s': State, r: ReqId) {
    && s'.table == s.table && s'.users == s.users && s'.now == s.now && s'.cfg == s.cfg
    && s'.reqs.Keys == s.reqs.Keys && (forall a :: a in s.reqs && a != r ==> s'.reqs[a] == s.reqs[a])
    && r in s.reqs && s.reqs[r].Refreshing? && s'.reqs[r].Refreshing? && s'.reqs[r] == s.reqs[r].(pc := s'.reqs[r].pc)
  }

  lemma SoloTrans(a: State, b: State, c: State, r: ReqId)
    requires Solo(a, b, r) && Solo(b, c, r)
    ensures Solo(a, c, r)
  {}

  // One statement of request r that changes nothing but r itself.
  lemma Quiet(run: seq<State>, race: Race, r: ReqId, pc: RefreshPc) returns (run': seq<State>)
    requires Isolated(run, race) && r in race.reqs && Solo(run[0], run[|run| - 1], r)
    requires !Draws(run[|run| - 1].reqs[r])
    requires PlanRefresh(run[|run| - 1], run[|run| - 1].reqs[r], Fresh(0, 0)) == (NoChange, pc)
    ensures Isolated(run', race) && run'[0] == run[0] && Solo(run[0], run'[|run'| - 1], r)
    ensures run'[|run'| - 1].reqs[r].pc == pc
  {
    var s := run[|run| - 1];
    Moves(s, race, r, Fresh(0, 0), pc);
    hide PlanRefresh, IsolatedStep;
    Append(run, Put(s, r, pc), race);
    run' := run + [Put(s, r, pc)];
    assert Solo(s, Put(s, r, pc), r) by { assert Put(s, r, pc).reqs.Keys == s.reqs.Keys; }
    SoloTrans(run[0], s, Put(s, r, pc), r);
  }

  // prepareSession in between.
  lemma QuietDraw(run: seq<State>, race: Race, r: ReqId, st: Stored) returns (run': seq<State>, p: Prepared)
    requires Isolated(run, race) && r in race.reqs && Solo(run[0], run[|run| - 1], r)
    requires run[|run| - 1].reqs[r].pc == ToPrepare(st)
    ensures Isolated(run', race) && run'[0] == run[0] && Solo(run[0], run'[|run'| - 1], r)
    ensures run'[|run'| - 1].reqs[r].pc == HasSuccessor(st, p) && p.userId == st.row.userId
  {
    var s := run[|run| - 1];
    var id := Unused(s.usedIds);
    var h := Unused(s.usedHashes);
    var f := Fresh(id, h);
    p := Prepare(s, st.row.userId, f);
    DrawMoves(s, race, r, f, st);
    hide PlanRefresh, IsolatedStep;
    var s' := Put(Drawn(s, f), r, HasSuccessor(st, p));
    Append(run, s', race);
    run' := run + [s'];
    assert Solo(s, s', r) by { assert s'.reqs.Keys == s.reqs.Keys; }
    SoloTrans(run[0], s, s', r);
  }

  // From the first read to the reading of the clock.
  lemma Enter(s: State, race: Race, r: ReqId) returns (run: seq<State>)
    requires Unrotated(s, race) && r in race.reqs && s.reqs[r].pc == Start
    requires s.now <= s.table.rows[race.id].expiresAt && s.now <= race.deadline
    ensures Isolated(run, race) && run[0] == s && Solo(s, run[|run| - 1], r)
    ensures var st := Stored(race.id, s.table.rows[race.id]); var pc := run[|run| - 1].reqs[r].pc;
            pc.Timed? && pc.st == st && pc.at == s.now && pc.p.userId == race.user
  {
    var st := Stored(race.id, s.table.rows[race.id]);
    var owner := Some(User(race.client, true));
    TokenIsUnique(s, race);
    hide TableInv, Lookup, Isolated, Solo, Draws;
    run := [s];
    assert Isolated(run, race) && Solo(s, s, r) by { StandStill(s, race, r); }
    SelectPlan(s, race, r);
    run := Quiet(run, race, r, HasStored(st));
    OwnerPlan(s, run[|run| - 1], race, r);
    run := Quiet(run, race, r, HasOwner(st, owner));
    BranchPlan(s, run[|run| - 1], race, r);
    run := Quiet(run, race, r, ToPrepare(st));
    var p;
    run, p := QuietDraw(run, race, r, st);
    ClockPlan(s, run[|run| - 1], r, st, p);
    run := Quiet(run, race, r, Timed(st, p, s.now));
  }

  lemma StandStill(s: State, race: Race, r: ReqId)
    requires s.now <= race.deadline && r in s.reqs && s.reqs[r].Refreshing?
    ensures Isolated([s], race) && Solo(s, s, r)
  {}

  lemma SelectPlan(s: State, race: Race, r: ReqId)
    requires Unrotated(s, race) && r in race.reqs && s.reqs[r].pc == Start
    ensures !Draws(s.reqs[r])
    ensures PlanRefresh(s, s.reqs[r], Fresh(0, 0)) == (NoChange, HasStored(Stored(race.id, s.table.rows[race.id])))
  {
    TokenIsUnique(s, race);
    hide TableInv, Lookup;
  }

  lemma OwnerPlan(s: State, s': State, race: Race, r: ReqId)
    requires Unrotated(s, race) && r in race.reqs && Solo(s, s', r)
    requires s'.reqs[r].pc == HasStored(Stored(race.id, s.table.rows[race.id]))
    ensures !Draws(s'.reqs[r])
    ensures PlanRefresh(s', s'.reqs[r], Fresh(0, 0)) ==
            (NoChange, HasOwner(s'.reqs[r].pc.st, Some(User(race.client, true))))
  {
    hide TableInv;
  }

  lemma BranchPlan(s: State, s': State, race: Race, r: ReqId)
    requires Unrotated(s, race) && r in race.reqs && Solo(s, s', r) && s.now <= s.table.rows[race.id].expiresAt
    requires s'.reqs[r].pc == HasOwner(Stored(race.id, s.table.rows[race.id]), Some(User(race.client, true)))
    ensures !Draws(s'.reqs[r])
    ensures PlanRefresh(s', s'.reqs[r], Fresh(0, 0)) == (NoChange, ToPrepare(s'.reqs[r].pc.st))
  {
    hide TableInv;
  }

  lemma ClockPlan(s: State, s': State, r: ReqId, st: Stored, p: Prepared)
    requires Solo(s, s', r) && s'.reqs[r].pc == HasSuccessor(st, p)
    ensures !Draws(s'.reqs[r])
    ensures PlanRefresh(s', s'.reqs[r], Fresh(0, 0)) == (NoChange, Timed(st, p, s.now))
  {}

  // A rotation attempted after expiry, with the token still active, ends in a plain 401.
  lemma Lose(s: State, race: Race, r: ReqId) returns (run: seq<State>)
    requires Unrotated(s, race) && r in race.reqs && s.now <= race.deadline
    requires s.reqs[r].pc.Timed? && s.reqs[r].pc.st == Stored(race.id, s.table.rows[race.id])
    requires s.reqs[r].pc.at >= s.table.rows[race.id].expiresAt
    ensures Isolated(run, race) && run[0] == s && Solo(s, run[|run| - 1], r)
    ensures run[|run| - 1].reqs[r].pc == Done401
  {
    var row := s.table.rows[race.id];
    var st := Stored(race.id, row);
    hide TableInv, Lookup, Isolated, Solo, Draws, PlanRefresh;
    run := [s];
    assert Isolated(run, race) && Solo(s, s, r) by { StandStill(s, race, r); }
    LosePlans(s, s, race, r);
    run := Quiet(run, race, r, RetryRead(st, true));
    LosePlans(s, run[|run| - 1], race, r);
    run := Quiet(run, race, r, RetryCheck(st, true, Some(row)));
    LosePlans(s, run[|run| - 1], race, r);
    run := Quiet(run, race, r, Latest(st));
    LosePlans(s, run[|run| - 1], race, r);
    run := Quiet(run, race, r, Done401);
  }

  lemma LosePlans(s: State, s': State, race: Race, r: ReqId)
    requires Unrotated(s, race) && r in race.reqs && Solo(s, s', r)
    ensures var row := s.table.rows[race.id]; var st := Stored(race.id, row);
            var q := s'.reqs[r]; var (e, pc) := PlanRefresh(s', q, Fresh(0, 0));
            && (q.pc.Timed? && q.pc.st == st && q.pc.at >= row.expiresAt ==>
                  e == NoChange && pc == RetryRead(st, true) && !Draws(q))
            && (q.pc == RetryRead(st, true) ==> e == NoChange && pc == RetryCheck(st, true, Some(row)) && !Draws(q))
            && (q.pc == RetryCheck(st, true, Some(row)) ==> e == NoChange && pc == Latest(st) && !Draws(q))
            && (q.pc == Latest(st) ==> e == NoChange && pc == Done401 && !Draws(q))
  {
    hide TableInv, Replaceable, Lookup;
  }

  lemma Join(a: seq<State>, b: seq<State>, race: Race)
    requires Isolated(a, race) && Isolated(b, race) && a[|a| - 1] == b[0]
    ensures Isolated(a + b[1..], race)
  {
    hide IsolatedStep;
    var c := a + b[1..];
    forall i | 0 <= i < |c| - 1 ensures IsolatedStep(c[i], c[i + 1], race) {
      if i < |a| - 1 { assert IsolatedStep(a[i], a[i + 1], race); }
      else { assert IsolatedStep(b[i - |a| + 1], b[i - |a| + 1 + 1], race); }
    }
  }

  lemma Append(a: seq<State>, s: State, race: Race)
    requires Isolated(a, race) && IsolatedStep(a[|a| - 1], s, race) && s.now <= race.deadline
    ensures Isolated(a + [s], race)
  {
    hide IsolatedStep;
    assert Isolated([a[|a| - 1], s], race);
    Join(a, [a[|a| - 1], s], race);
    assert a + [a[|a| - 1], s][1..] == a + [s];
  }

  lemma Win(s: State, race: Race, r: ReqId) returns (s': State)
    requires Unrotated(s, race) && r in race.reqs
    requires s.reqs[r].pc.Timed? && s.reqs[r].pc.st == Stored(race.id, s.table.rows[race.id])
    requires s.reqs[r].pc.p.userId == race.user
    requires s.reqs[r].pc.at < s.table.rows[race.id].expiresAt
    ensures IsolatedStep(s, s', race) && s'.now == s.now && !AllRevoked(s', race.user)
    ensures r in s'.reqs && s'.reqs[r].Refreshing? && s'.reqs[r].pc.Done200?
    ensures s'.reqs.Keys == s.reqs.Keys && (forall a :: a in s.reqs && a != r ==> s'.reqs[a] == s.reqs[a])
  {
    var f := Fresh(0, 0);
    var q := s.reqs[r];
    s' := After(s, r, f);
    WinPlan(s, race, r);
    ActsAlone(s, race, r, f);
    hide TableInv, After, PlanRefresh, Plan, Holds, Apply, Entrants, IsolatedStep;
    AfterOthers(s, r, f);
    AfterRefresh(s, r, f);
    NewHead(s.table, race.id, q.op, q.pc.at, q.pc.p);
    assert q.pc.p.id in s'.table.rows;
  }

  lemma ActsAlone(s: State, race: Race, r: ReqId, f: Fresh)
    requires r in race.reqs && CanAct(s, r, f)
    ensures IsolatedStep(s, After(s, r, f), race)
  {
    hide After, SameUser;
    assert NextStep(s, Act(r, f), After(s, r, f));
  }

  lemma WinPlan(s: State, race: Race, r: ReqId)
    requires Unrotated(s, race) && r in race.reqs && s.reqs[r].pc.Timed?
    requires s.reqs[r].pc.st == Stored(race.id, s.table.rows[race.id])
    requires s.reqs[r].pc.at < s.table.rows[race.id].expiresAt
    ensures var q := s.reqs[r];
              PlanRefresh(s, q, Fresh(0, 0)) == (Rotate(race.id, q.op, q.pc.at, q.pc.p), Done200(q.pc.st, q.pc.p.id))
  {
    hide TableInv;
  }

  lemma NewHead(t: Table, x: Id, op: Hash, at: Time, p: Prepared)
    requires x in t.rows
    ensures var t' := Apply(t, Rotate(x, op, at, p)); p.id in t'.rows && t'.rows[p.id] == NewRow(p)
  {}

  lemma Extend(a: seq<State>, b: seq<State>, race: Race) returns (c: seq<State>)
    requires Isolated(a, race) && Isolated(b, race) && a[|a| - 1] == b[0]
    ensures Isolated(c, race) && c[0] == a[0] && c[|c| - 1] == b[|b| - 1]
  {
    hide IsolatedStep;
    Join(a, b, race);
    c := a + b[1..];
  }

  // Every other racer comes at the expiry, looks and loses, while w stands before its transaction.
  lemma {:induction false} LosersPass(a: State, race: Race, losers: set<ReqId>) returns (run: seq<State>)
    requires Unrotated(a, race) && losers <= race.reqs && (forall l :: l in losers ==> a.reqs[l].pc == Start)
    requires a.now == a.table.rows[race.id].expiresAt <= race.deadline
    ensures Isolated(run, race) && run[0] == a
    ensures var d := run[|run| - 1];
            && Unrotated(d, race) && d.table == a.table && d.now == a.now && d.reqs.Keys == a.reqs.Keys
            && (forall l :: l in losers ==> d.reqs[l].pc == Done401)
            && (forall r :: r in a.reqs && r !in losers ==> d.reqs[r] == a.reqs[r])
    decreases |losers|
  {
    hide TableInv, IsolatedStep, Solo, Holds;
    if losers == {} {
      run := [a];
    } else {
      var l :| l in losers;
      var c := LoserPasses(a, race, l);
      run := LosersPass(c[|c| - 1], race, losers - {l});
      run := Extend(c, run, race);
    }
  }

  lemma LoserPasses(a: State, race: Race, l: ReqId) returns (run: seq<State>)
    requires Unrotated(a, race) && l in race.reqs && a.reqs[l].pc == Start
    requires a.now == a.table.rows[race.id].expiresAt <= race.deadline
    ensures Isolated(run, race) && run[0] == a
    ensures var d := run[|run| - 1];
            && Unrotated(d, race) && d.table == a.table && d.now == a.now && d.reqs.Keys == a.reqs.Keys
            && d.reqs[l].pc == Done401 && (forall r :: r in a.reqs && r != l ==> d.reqs[r] == a.reqs[r])
  {
    hide TableInv, IsolatedStep, Solo, Holds;
    run := Enter(a, race, l);
    var c := run[|run| - 1];
    Passed(a, c, race, l);
    var more := Lose(c, race, l);
    run := Extend(run, more, race);
    Passed(c, run[|run| - 1], race, l);
  }

  // The clock moves on and nothing else does.
  lemma ClockMoves(s: State, race: Race, t: Time) returns (run: seq<State>)
    requires Unrotated(s, race) && s.now <= t <= race.deadline
    ensures Isolated(run, race) && run[0] == s && run[|run| - 1] == s.(now := t) && Unrotated(s.(now := t), race)
  {
    hide TableInv, IsolatedStep;
    Waits(s, t, race);
    run := [s, s.(now := t)];
    Single(s, s.(now := t), race);
  }

  lemma Passed(s: State, s': State, race: Race, r: ReqId)
    requires Unrotated(s, race) && Solo(s, s', r) && r in race.reqs
    ensures Unrotated(s', race) && s'.table == s.table && s'.now == s.now && s'.reqs.Keys == s.reqs.Keys
    ensures forall a :: a in s.reqs && a != r ==> s'.reqs[a] == s.reqs[a]
  {
    hide TableInv;
  }

  /**
   * The schedule that fails: w reads its clock, the others come at the expiry and are
   * refused, and w commits last. One row of the user stays active.
   */
  lemma LateWinner(s: State, race: Race, w: ReqId) returns (run: seq<State>)
    requires StartingLine(s, race) && Expires(s, race) && w in race.reqs
    ensures Isolated(run, race) && run[0] == s && Finished(run[|run| - 1], race)
    ensures var e := run[|run| - 1];
            && e.reqs[w].pc.Done200? && (forall l :: l in race.reqs && l != w ==> e.reqs[l].pc == Done401)
            && !AllRevoked(e, race.user)
  {
    hide Inv, IsolatedStep, AllRevoked, Unrotated, Solo, Holds;
    StartUnrotated(s, race);
    run := Enter(s, race, w);
    var a := run[|run| - 1];
    Passed(s, a, race, w);
    var more := ClockMoves(a, race, a.table.rows[race.id].expiresAt);
    run := Extend(run, more, race);
    more := LosersPass(run[|run| - 1], race, race.reqs - {w});
    run := Extend(run, more, race);
    var d := run[|run| - 1];
    Racers(d, race);
    var e := Win(d, race, w);
    Single(d, e, race);
    run := Extend(run, [d, e], race);
    forall l | l in race.reqs && l != w ensures e.reqs[l].pc == Done401 {
      assert l in race.reqs - {w} && l in d.reqs && e.reqs[l] == d.reqs[l];
    }
  }

  lemma Racers(s: State, race: Race)
    requires Unrotated(s, race)
    ensures Entrants(s, race)
  {}

  lemma StartUnrotated(s: State, race: Race)
    requires StartingLine(s, race) && !s.table.rows[race.id].revoked
    ensures Unrotated(s, race)
  {
    hide TableInv, ReqsInv;
  }

  lemma Single(d: State, e: State, race: Race)
    requires IsolatedStep(d, e, race) && d.now <= race.deadline && e.now <= race.deadline
    ensures Isolated([d, e], race)
  {
    hide IsolatedStep;
  }

  lemma Waits(s: State, t: Time, race: Race)
    requires s.now <= t
    ensures IsolatedStep(s, s.(now := t), race)
  {
    assert NextStep(s, Tick(t), s.(now := t));
  }

  /**
   * A race of any number of refreshes with distinct operation ids, over a token in any
   * state, always ends with every session of the user revoked, when it is won at all,
   * unless the token is usable at the start and the race may last until it expires.
   */
  lemma RevokedExactlyBeforeExpiry(s: State, race: Race)
    requires StartingLine(s, race) && DistinctOps(s, race) && Several(race) && s.now <= race.deadline
    ensures AlwaysEndsRevoked(s, race) <==> !Expires(s, race)
  {
    hide Inv, AllRevoked, IsolatedStep, DistinctOps, Won;
    if Expires(s, race) {
      var w :| w in race.reqs;
      var run := LateWinner(s, race, w);
      assert Won(run[|run| - 1], race) by { WonBy(run[|run| - 1], race, w); }
    } else {
      forall run: seq<State> | Isolated(run, race) && run[0] == s && Finished(run[|run| - 1], race)
          && Won(run[|run| - 1], race)
        ensures AllRevoked(run[|run| - 1], race.user)
      {
        RaceEnds(run, race);
      }
    }
  }

  lemma WonBy(s: State, race: Race, r: ReqId)
    requires r in race.reqs && r in s.reqs && s.reqs[r].Refreshing? && s.reqs[r].pc.Done200?
    ensures Won(s, race)
  {}

  lemma RaceEnds(run: seq<State>, race: Race)
    requires Isolated(run, race) && StartingLine(run[0], race) && DistinctOps(run[0], race) && Several(race)
    requires !Expires(run[0], race) && Finished(run[|run| - 1], race) && Won(run[|run| - 1], race)
    ensures AllRevoked(run[|run| - 1], race.user)
  {
    hide Inv, AllRevoked, IsolatedStep;
    var s := run[|run| - 1];
    var r :| r in race.reqs && r in s.reqs && s.reqs[r].Refreshing? && s.reqs[r].pc.Done200?;
    if Hopeless(run[0].table.rows[race.id], run[0].now) {
      NobodyAnswered(run, race, |run| - 1);
      assert false;
    } else {
      OpsKept(run, race, |run| - 1);
      OpsStayDistinct(run[0], s, race);
      var l :| l in race.reqs && l != r;
      DistinctOperationsEndRevoked(run, race, r, l);
    }
  }

  lemma OpsStayDistinct(s: State, s': State, race: Race)
    requires DistinctOps(s, race) && Entrants(s, race) && Entrants(s', race)
    requires forall r :: r in race.reqs ==> s'.reqs[r].op == s.reqs[r].op
    ensures DistinctOps(s', race)
  {}

  lemma {:induction false} OpsKept(run: seq<State>, race: Race, i: nat)
    requires Isolated(run, race) && Entrants(run[0], race) && i < |run|
    ensures Entrants(run[i], race) && forall r :: r in race.reqs ==> run[i].reqs[r].op == run[0].reqs[r].op
  {
    hide NextStep, SameUser;
    if i == 0 {
    } else {
      OpsKept(run, race, i - 1);
      assert IsolatedStep(run[i - 1], run[i - 1 + 1], race);
      var e :| NextStep(run[i - 1], e, run[i])
          && ((e.Act? && e.r in race.reqs) || SameUser(run[i - 1], run[i], race.user));
      OpStep(run[i - 1], e, run[i], race);
    }
  }

  lemma OpStep(s: State, e: Step, s': State, race: Race)
    requires NextStep(s, e, s') && Entrants(s, race)
    ensures Entrants(s', race) && forall r :: r in race.reqs ==> s'.reqs[r].op == s.reqs[r].op
  {
    if e.Act? {
      AfterOthers(s, e.r, e.f);
      if e.r in race.reqs { AfterRefresh(s, e.r, e.f); }
    }
    hide After;
  }
}
