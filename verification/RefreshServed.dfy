/**
 * Exactly when concurrent refreshes of one active token with one operation id are all
 * answered. One that read the row as active and reaches its branch after the expiry is
 * refused, although its own operation rotated the token meanwhile.
 */
module RefreshServed {
  import opened Wrappers
  import opened TokenTable
  import opened RefreshMachine
  import opened RefreshInvariant
  import opened RefreshTheorems
  import opened RefreshConcurrency
  import opened RefreshDeadline

  ghost predicate Refused(s: State, race: Race) {
    exists r :: r in race.reqs && r in s.reqs && s.reqs[r].Refreshing? && s.reqs[r].pc == Done401
  }

  // No isolated run from s refuses a racer.
  ghost predicate AlwaysServed(s: State, race: Race) {
    forall run: seq<State> :: Isolated(run, race) && run[0] == s ==> !Refused(run[|run| - 1], race)
  }

  ghost predicate OneOperation(s: State, race: Race, op: Hash) {
    forall r :: r in race.reqs ==> r in s.reqs && s.reqs[r].Refreshing? && s.reqs[r].op == op
  }

  // Inside the grace period of whatever rotation comes, with successors that outlast it.
  predicate WithinGrace(s: State, race: Race) {
    s.now <= race.deadline <= s.now + s.cfg.grace && s.cfg.grace < s.cfg.lifetime
  }

  // The two reads.
  lemma Reads(s: State, race: Race, r: ReqId) returns (run: seq<State>)
    requires Unrotated(s, race) && r in race.reqs && s.reqs[r].pc == Start && s.now <= race.deadline
    ensures Isolated(run, race) && run[0] == s && Solo(s, run[|run| - 1], r)
    ensures run[|run| - 1].reqs[r].pc == HasOwner(Stored(race.id, s.table.rows[race.id]), Some(User(race.client, true)))
  {
    var st := Stored(race.id, s.table.rows[race.id]);
    hide TableInv, Lookup, Isolated, Solo, Draws;
    run := [s];
    assert Isolated(run, race) && Solo(s, s, r) by { StandStill(s, race, r); }
    SelectPlan(s, race, r);
    run := Quiet(run, race, r, HasStored(st));
    OwnerPlan(s, run[|run| - 1], race, r);
    run := Quiet(run, race, r, HasOwner(st, Some(User(race.client, true))));
  }

  // The branch, reached when the row that was read as active has expired.
  lemma BranchRefuses(s: State, race: Race, r: ReqId) returns (s': State)
    requires r in race.reqs && r in s.reqs && s.reqs[r].Refreshing? && s.reqs[r].pc.HasOwner?
    requires !s.reqs[r].pc.st.row.revoked && s.reqs[r].pc.st.row.expiresAt < s.now
    ensures IsolatedStep(s, s', race) && s'.now == s.now
    ensures s'.reqs == s.reqs[r := s.reqs[r].(pc := Done401)]
  {
    Moves(s, race, r, Fresh(0, 0), Done401);
    s' := Put(s, r, Done401);
    hide IsolatedStep;
  }

  /**
   * Over a token that expires before the deadline, any two racers can end apart, one
   * answered and one refused, also when they carry one operation id.
   */
  lemma OneOperationCanSplit(s: State, race: Race, w: ReqId, l: ReqId) returns (run: seq<State>)
    requires StartingLine(s, race) && w in race.reqs && l in race.reqs && w != l
    requires !s.table.rows[race.id].revoked && s.now < s.table.rows[race.id].expiresAt < race.deadline
    ensures Isolated(run, race) && run[0] == s
    ensures var e := run[|run| - 1];
            && w in e.reqs && e.reqs[w].Refreshing? && e.reqs[w].pc.Done200?
            && l in e.reqs && e.reqs[l].Refreshing? && e.reqs[l].pc == Done401
  {
    hide Inv, IsolatedStep, AllRevoked, Unrotated, Solo, Holds;
    StartUnrotated(s, race);
    run := Reads(s, race, l);
    var a := run[|run| - 1];
    Passed(s, a, race, l);
    Racers(a, race);
    var more := Enter(a, race, w);
    run := Extend(run, more, race);
    var b := run[|run| - 1];
    Passed(a, b, race, w);
    Racers(b, race);
    var c := Win(b, race, w);
    Single(b, c, race);
    run := Extend(run, [b, c], race);
    var d := c.(now := race.deadline);
    Waits(c, race.deadline, race);
    Single(c, d, race);
    run := Extend(run, [c, d], race);
    var e := BranchRefuses(d, race, l);
    Single(d, e, race);
    run := Extend(run, [d, e], race);
  }

  // A racer that comes when the token is no longer usable.
  lemma LateComer(s: State, race: Race, r: ReqId) returns (run: seq<State>)
    requires StartingLine(s, race) && r in race.reqs && s.now <= race.deadline
    requires !s.table.rows[race.id].revoked && s.table.rows[race.id].expiresAt <= race.deadline
    ensures Isolated(run, race) && run[0] == s && Refused(run[|run| - 1], race)
  {
    hide Inv, IsolatedStep, AllRevoked, Unrotated, Solo, Refused;
    StartUnrotated(s, race);
    run := ClockMoves(s, race, race.deadline);
    var b := run[|run| - 1];
    Racers(b, race);
    if s.table.rows[race.id].expiresAt == race.deadline {
      var more := LoserPasses(b, race, r);
      run := Extend(run, more, race);
      Racers(run[|run| - 1], race);
    } else {
      var more := Reads(b, race, r);
      run := Extend(run, more, race);
      var c := run[|run| - 1];
      Passed(b, c, race, r);
      Racers(c, race);
      var d := BranchRefuses(c, race, r);
      Single(c, d, race);
      run := Extend(run, [c, d], race);
    }
    RefusedBy(run[|run| - 1], race, r);
  }

  lemma RefusedBy(s: State, race: Race, r: ReqId)
    requires r in race.reqs && r in s.reqs && s.reqs[r].Refreshing? && s.reqs[r].pc == Done401
    ensures Refused(s, race)
  {}

  lemma OnCourseIsServed(s: State, race: Race, op: Hash, start: Time)
    requires AllOnCourse(s, race, op, start)
    ensures !Refused(s, race)
  {
    hide CourseState, Turned;
  }

  lemma StartsOnCourse(s: State, race: Race, op: Hash)
    requires StartingLine(s, race) && OneOperation(s, race, op) && WithinGrace(s, race)
    requires Unturned(s.table.rows[race.id], race)
    ensures Inv(s) && AllOnCourse(s, race, op, s.now)
  {
    hide Inv, Turned;
  }

  /**
   * Racers with one operation id over an unrevoked token, inside the grace period and
   * with a lifetime above it, are never refused if and only if the token outlasts the race.
   */
  lemma ServedExactlyBeforeExpiry(s: State, race: Race, op: Hash)
    requires StartingLine(s, race) && OneOperation(s, race, op) && WithinGrace(s, race) && race.reqs != {}
    requires !s.table.rows[race.id].revoked
    ensures AlwaysServed(s, race) <==> race.deadline < s.table.rows[race.id].expiresAt
  {
    hide Inv, IsolatedStep, Refused, AllOnCourse, WithinGrace;
    if race.deadline < s.table.rows[race.id].expiresAt {
      StartsOnCourse(s, race, op);
      forall run: seq<State> | Isolated(run, race) && run[0] == s ensures !Refused(run[|run| - 1], race) {
        CourseHolds(run, race, op, |run| - 1);
        OnCourseIsServed(run[|run| - 1], race, op, s.now);
      }
    } else {
      var r :| r in race.reqs;
      assert s.now <= race.deadline by { InGrace(s, race); }
      var run := LateComer(s, race, r);
    }
  }

  lemma InGrace(s: State, race: Race)
    requires WithinGrace(s, race)
    ensures s.now <= race.deadline
  {}

  /**
   * Then, when all are answered, every answer is 200 and the family has exactly one
   * active row, the one the token's row points to.
   */
  lemma SameOperationAllSucceed(run: seq<State>, race: Race, op: Hash)
    requires Isolated(run, race) && StartingLine(run[0], race) && OneOperation(run[0], race, op)
    requires WithinGrace(run[0], race)
    requires !run[0].table.rows[race.id].revoked && AlwaysServed(run[0], race)
    requires race.reqs != {} && Finished(run[|run| - 1], race)
    ensures var s := run[|run| - 1];
            && (forall r :: r in race.reqs ==> s.reqs[r].pc.Done200?)
            && race.id in s.table.rows && s.table.rows[race.id].replacedBy.Some?
            && OnlyPredecessor(s.table, race.id, s.table.rows[race.id].replacedBy.value)
  {
    hide Inv, IsolatedStep, Turned, OnlyPredecessor, AlwaysServed, WithinGrace;
    var i := |run| - 1;
    var s := run[i];
    ServedExactlyBeforeExpiry(run[0], race, op);
    assert Unturned(run[0].table.rows[race.id], race);
    StartsOnCourse(run[0], race, op);
    CourseHolds(run, race, op, i);
    var r :| r in race.reqs;
    assert s.reqs[r].pc.Done200?;
    TurnedHead(s, race, op, run[0].now, r);
  }
}
