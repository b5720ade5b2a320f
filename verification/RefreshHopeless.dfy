/** A token that is expired, or revoked for any reason but rotation, answers nobody. */
module RefreshHopeless {
  import opened Wrappers
  import opened TokenTable
  import opened RefreshMachine
  import opened RefreshInvariant
  import opened RefreshTheorems
  import opened RefreshConcurrency

  predicate Hopeless(row: Row, start: Time) {
    if row.revoked then !SeenAsRotated(row) else row.expiresAt <= start
  }

  predicate Doomed(race: Race, row: Row, start: Time, pc: RefreshPc) {
    var stored := Stored(race.id, row);
    match pc
    case Start => true
    case HasStored(st) => st == stored
    case HasOwner(st, _) => st == stored
    case ToPrepare(st) => st == stored && !row.revoked
    case HasSuccessor(st, _) => st == stored && !row.revoked
    case Timed(st, _, at) => st == stored && !row.revoked && start <= at
    case RetryRead(st, late) => st == stored && !row.revoked && late
    case RetryCheck(st, late, candidate) => st == stored && !row.revoked && late && candidate == Some(row)
    case Latest(st) => st == stored && !row.revoked
    case Done401 => true
    case _ => false
  }

  predicate Unmoved(s: State, race: Race, row: Row, start: Time) {
    Holds(s, race) && s.table.rows[race.id] == row && start <= s.now
  }

  ghost predicate AllDoomed(s: State, race: Race, row: Row, start: Time) {
    && Unmoved(s, race, row, start) && Entrants(s, race)
    && forall r :: r in race.reqs ==> Doomed(race, row, start, s.reqs[r].pc)
  }

  lemma DoomedPlan(s: State, race: Race, row: Row, start: Time, q: Request, f: Fresh)
    requires TableInv(s.table) && Unmoved(s, race, row, start) && Hopeless(row, start)
    requires q.Refreshing? && q.client == race.client && q.hash == race.hash && Doomed(race, row, start, q.pc)
    ensures PlanRefresh(s, q, f).0 == NoChange && Doomed(race, row, start, PlanRefresh(s, q, f).1)
  {
    hide TableInv, Lookup, Replaceable;
    if q.pc == Start { TokenIsUnique(s, race); } else { DoomedLater(s, race, row, start, q, f); }
    hide Unmoved, Hopeless, Retryable, Rotatable;
  }

  lemma DoomedLater(s: State, race: Race, row: Row, start: Time, q: Request, f: Fresh)
    requires Unmoved(s, race, row, start) && Hopeless(row, start)
    requires q.Refreshing? && q.pc != Start && Doomed(race, row, start, q.pc)
    ensures PlanRefresh(s, q, f).0 == NoChange && Doomed(race, row, start, PlanRefresh(s, q, f).1)
  {
    hide Lookup, Replaceable, OwnerOf;
  }

  lemma DoomedAct(s: State, s': State, race: Race, row: Row, start: Time, r: ReqId, f: Fresh)
    requires Inv(s) && AllDoomed(s, race, row, start) && Hopeless(row, start)
    requires r in race.reqs && CanAct(s, r, f) && s' == After(s, r, f)
    ensures AllDoomed(s', race, row, start)
  {
    hide Inv, PlanRefresh, Doomed, Hopeless, After, Apply, CanAct, Plan, ReqInv, TableInv;
    InvParts(s, r);
    DoomedPlan(s, race, row, start, s.reqs[r], f);
    AfterRefresh(s, r, f);
    SameTable(s.table);
    AfterOthers(s, r, f);
  }

  lemma DoomedOthers(s: State, e: Step, s': State, race: Race, row: Row, start: Time)
    requires Inv(s) && AllDoomed(s, race, row, start) && NextStep(s, e, s')
    requires SameUser(s, s', race.user) && !(e.Act? && e.r in race.reqs)
    ensures AllDoomed(s', race, row, start)
  {
    hide Inv, NextStep, Doomed;
    StepHistory(s, e, s');
    OtherActs(s, e, s', race);
  }

  /** Over every isolated run from a hopeless token, no racer is answered. */
  lemma {:induction false} NobodyAnswered(run: seq<State>, race: Race, i: nat)
    requires Isolated(run, race) && StartingLine(run[0], race) && i < |run|
    requires Hopeless(run[0].table.rows[race.id], run[0].now)
    ensures Inv(run[i]) && AllDoomed(run[i], race, run[0].table.rows[race.id], run[0].now)
  {
    hide Inv, NextStep, SameUser, Hopeless;
    var row, start := run[0].table.rows[race.id], run[0].now;
    if i == 0 {
    } else {
      NobodyAnswered(run, race, i - 1);
      var s, s' := run[i - 1], run[i];
      hide AllDoomed, StartingLine;
      assert IsolatedStep(s, run[i - 1 + 1], race);
      var e :| NextStep(s, e, s') && ((e.Act? && e.r in race.reqs) || SameUser(s, s', race.user));
      NextKeepsInv(s, e, s');
      if e.Act? && e.r in race.reqs {
        ActIs(s, e, s');
        DoomedAct(s, s', race, row, start, e.r, e.f);
      } else {
        DoomedOthers(s, e, s', race, row, start);
      }
    }
  }
}
