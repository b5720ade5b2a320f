/** The statement-level refresh machine simulates the simple machine. */
module RefreshSimulation {
  import opened Wrappers
  import opened TokenTable
  import opened RefreshMachine
  import opened RefreshInvariant
  import opened SimpleMachine
  import opened RefreshFamilies
  import opened RefreshAbstraction

  // ----- One step of a refresh -----

  lemma RefreshVerdict(s: State, q: Request, f: Fresh)
    requires q.Refreshing?
    ensures var (e, pc) := PlanRefresh(s, q, f);
            match e
            case NoChange => true
            case Rotate(t, op, at, p) => q.pc.Timed? && t == q.pc.st.id && op == q.op && at == q.pc.at && p == q.pc.p
                && pc == Done200(q.pc.st, p.id)
            case Replace(t, prev, p) => q.pc.RetryTx? && t == q.pc.st.id && p == q.pc.p
                && pc == Done200(q.pc.st, p.id)
            case Revoke(_, _) => q.pc.Replay? && pc == Done401
            case _ => false
    ensures PlanRefresh(s, q, f).1.Timed? ==> PlanRefresh(s, q, f).1.at == s.now || PlanRefresh(s, q, f).1 == q.pc
  {
    hide Lookup, Rotatable, Replaceable, Retryable;
  }

  // Only the first read accuses or clears; only an undecided request knows its owner.
  lemma RefreshMarks(s: State, q: Request, f: Fresh)
    requires q.Refreshing?
    ensures var pc := PlanRefresh(s, q, f).1;
            && (q.pc != Start ==> (SawTurned(pc) ==> SawTurned(q.pc)) && (SawOther(pc) ==> SawOther(q.pc)))
            && (q.pc == Start ==> pc == Done401 || pc.HasStored?)
            && (SawOwner(pc) ==> VerdictOf(pc) == Undecided && VerdictOf(q.pc) == Undecided)
  {
    hide Lookup, Rotatable, Replaceable, Retryable, OwnerOf;
  }

  function OrdersAfter(a: Simple, r: ReqId, q: Request): map<ReqId, Order> {
    match OrderOf(q)
    case None => a.orders - {r}
    case Some(o) => a.orders[r := o]
  }

  // The simple machine's state after request r acts.
  ghost function SimAfter(s: State, a: Simple, r: ReqId, f: Fresh): Simple
    requires r in s.reqs
  {
    var q := s.reqs[r];
    var m := Plan(s, q, f);
    var b := a.(users := m.users,
                born := Apply(s.table, m.effect).born,
                families := FamiliesAfter(s.table, a.families, m.effect),
                turned := Apply(s.table, m.effect).suspects);
    if m.next.Refreshing? then Marked(b, r, m.next.pc) else b.(orders := OrdersAfter(a, r, m.next))
  }

  function Marked(b: Simple, r: ReqId, pc: RefreshPc): Simple {
    b.(vouched := if SawOwner(pc) then b.vouched + {r} else b.vouched,
       accused := if SawTurned(pc) then b.accused + {r} else b.accused,
       cleared := if SawOther(pc) then b.cleared + {r} else b.cleared,
       verdicts := b.verdicts[r := VerdictOf(pc)])
  }

  lemma KindKept(s: State, q: Request, f: Fresh)
    ensures Plan(s, q, f).next.Refreshing? <==> q.Refreshing?
  {
    hide PlanRefresh, PlanLogout;
  }

  lemma AfterKeeps(s: State, r: ReqId, f: Fresh)
    requires r in s.reqs
    ensures var s' := After(s, r, f);
            && s'.reqs.Keys == s.reqs.Keys && s'.now == s.now && s'.cfg == s.cfg
            && s'.reqs[r] == Plan(s, s.reqs[r], f).next && s'.users == Plan(s, s.reqs[r], f).users
            && s'.table == Apply(s.table, Plan(s, s.reqs[r], f).effect)
            && (forall x :: x in s.reqs && x != r ==> s'.reqs[x] == s.reqs[x])
  {
    hide Plan, Apply;
  }

  lemma AfterStore(s: State, a: Simple, r: ReqId, f: Fresh)
    requires Inv(s) && CanAct(s, r, f) && Rep(s, a)
    ensures FamiliesAre(After(s, r, f).table, FamiliesAfter(s.table, a.families, Plan(s, s.reqs[r], f).effect))
  {
    InvParts(s, r);
    PlanAllowed(s, s.reqs[r], f);
    AfterKeeps(s, r, f);
    hide Inv, TableInv, ReqInv, Plan, Apply, After, Allowed, FamiliesAre, AsksAre, FamiliesAfter, OrdersAre;
    EffectFamilies(s.table, a.families, Plan(s, s.reqs[r], f).effect);
  }

  lemma AsksAfter(s: State, a: Simple, r: ReqId, f: Fresh)
    requires AsksAre(s, a) && r in s.reqs && s.reqs[r].Refreshing?
    ensures AsksAre(After(s, r, f), SimAfter(s, a, r, f))
  {
    var s', b := After(s, r, f), SimAfter(s, a, r, f);
    AfterRefresh(s, r, f);
    RefreshVerdict(s, s.reqs[r], f);
    AfterKeeps(s, r, f);
    hide After, Plan, PlanRefresh, VerdictOf, SawOwner, SawTurned, SawOther, Apply, FamiliesAfter;
    forall x | x in b.asks ensures x in s'.reqs && AskIs(s'.reqs[x], b.asks[x], b.verdicts[x], s'.now) {}
    forall x | x in b.asks ensures MarksAre(s'.reqs[x], x, b) { assert MarksAre(s.reqs[x], x, a); }
  }

  lemma AsksBeside(s: State, a: Simple, r: ReqId, f: Fresh)
    requires AsksAre(s, a) && r in s.reqs && !s.reqs[r].Refreshing?
    ensures AsksAre(After(s, r, f), SimAfter(s, a, r, f))
  {
    var s', b := After(s, r, f), SimAfter(s, a, r, f);
    AfterKeeps(s, r, f);
    KindKept(s, s.reqs[r], f);
    hide After, Plan, VerdictOf, SawOwner, SawTurned, SawOther, Apply, FamiliesAfter, OrdersAfter;
    forall x | x in b.asks ensures x in s'.reqs && AskIs(s'.reqs[x], b.asks[x], b.verdicts[x], s'.now) {}
    forall x | x in b.asks ensures MarksAre(s'.reqs[x], x, b) { assert MarksAre(s.reqs[x], x, a); }
  }

  lemma OrdersBeside(s: State, a: Simple, r: ReqId, f: Fresh)
    requires OrdersAre(s, a) && r in s.reqs
    ensures OrdersAre(After(s, r, f), SimAfter(s, a, r, f))
  {
    hide After, Plan, Apply, FamiliesAfter, Marked, OrderOf;
    AfterKeeps(s, r, f);
    KindKept(s, s.reqs[r], f);
    var q := Plan(s, s.reqs[r], f).next;
    if q.Refreshing? {
      NoOrder(q);
      NoOrder(s.reqs[r]);
      MarkedOrders(s, a, r, f);
    }
  }

  lemma MarkedOrders(s: State, a: Simple, r: ReqId, f: Fresh)
    requires r in s.reqs && Plan(s, s.reqs[r], f).next.Refreshing?
    ensures SimAfter(s, a, r, f).orders == a.orders
  {
    hide Plan, Apply, FamiliesAfter, VerdictOf, SawOwner, SawTurned, SawOther;
  }

  lemma NoOrder(q: Request)
    requires q.Refreshing?
    ensures OrderOf(q) == None
  {}

  lemma RepAfter(s: State, a: Simple, r: ReqId, f: Fresh)
    requires Inv(s) && CanAct(s, r, f) && Rep(s, a)
    ensures Rep(After(s, r, f), SimAfter(s, a, r, f))
  {
    AfterStore(s, a, r, f);
    AfterKeeps(s, r, f);
    OrdersBeside(s, a, r, f);
    if s.reqs[r].Refreshing? { AsksAfter(s, a, r, f); } else { AsksBeside(s, a, r, f); }
    hide Inv, Plan, PlanRefresh, Apply, After, FamiliesAre, AsksAre, FamiliesAfter, VerdictOf, SawOwner, SawTurned,
      SawOther, OrdersAre, OrdersAfter;
  }

  lemma SimAfterRefresh(s: State, a: Simple, r: ReqId, f: Fresh)
    requires r in s.reqs && s.reqs[r].Refreshing? && Rep(s, a)
    ensures var (e, pc) := PlanRefresh(s, s.reqs[r], f);
            SimAfter(s, a, r, f) == Marked(a.(born := Apply(s.table, e).born,
                                              families := FamiliesAfter(s.table, a.families, e),
                                              turned := Apply(s.table, e).suspects), r, pc)
  {
    hide PlanRefresh, Apply, FamiliesAfter, Marked, FamiliesAre, AsksAre, OrdersAre;
  }

  lemma MarkedGranted(b: Simple, r: ReqId, st: Stored, id: Id)
    ensures Marked(b, r, Done200(st, id)) == b.(verdicts := b.verdicts[r := Granted(id)])
  {}

  lemma MarkedRefused(b: Simple, r: ReqId)
    ensures Marked(b, r, Done401) == b.(verdicts := b.verdicts[r := Refused])
  {}

  lemma Asked(s: State, a: Simple, r: ReqId)
    requires Rep(s, a) && r in s.reqs && s.reqs[r].Refreshing?
    ensures Asking(a, r, VerdictOf(s.reqs[r].pc)) && MarksAre(s.reqs[r], r, a)
    ensures a.asks[r].client == s.reqs[r].client && a.asks[r].hash == s.reqs[r].hash && a.asks[r].op == s.reqs[r].op
    ensures a.users == s.users && a.born == s.table.born && a.turned == s.table.suspects && a.now == s.now
    ensures s.reqs[r].pc.Timed? ==> a.asks[r].since <= s.reqs[r].pc.at
  {
    hide FamiliesAre, OrdersAre, VerdictOf, MarksAre;
  }

  // The stored token is the presented one, and its owner, once known, is the client's.
  ghost predicate HoldsToken(s: State, a: Simple, r: ReqId, q: Request) {
    && q.Refreshing? && q.pc != Start && q.pc != Done401
    && var t := q.pc.st.id;
       && t in a.born && a.born[t].tokenHash == q.hash && a.born[t].userId == q.pc.st.row.userId
       && (Owned(s, q.client, q.pc.st) ==> Presents(a, r, t))
       && (forall x :: x in a.born && a.born[x].tokenHash == q.hash ==> x == t)
       && (t in s.table.rows ==> s.table.rows[t].userId == q.pc.st.row.userId)
  }

  lemma Presented(s: State, a: Simple, r: ReqId)
    requires Inv(s) && Rep(s, a) && r in s.reqs && s.reqs[r].Refreshing?
    requires s.reqs[r].pc != Start && s.reqs[r].pc != Done401
    ensures HoldsToken(s, a, r, s.reqs[r])
  {
    InvParts(s, r);
    Asked(s, a, r);
    forall x | x in a.born && a.born[x].tokenHash == s.reqs[r].hash ensures x == s.reqs[r].pc.st.id {
      SameToken(s, s.reqs[r], x);
    }
    StoredIsKnown(s, s.reqs[r]);
    hide Inv, TableInv, ReqInv, FamiliesAre, AsksAre, OrdersAre;
  }

  lemma StoredIsKnown(s: State, q: Request)
    requires q.Refreshing? && ReqInv(s, q) && q.pc != Start && q.pc != Done401
    ensures Known(s, q.hash, q.pc.st)
  {
    hide Known;
  }

  // What holds of the presented token and its request when a transaction commits.
  lemma CommitFacts(s: State, a: Simple, r: ReqId, p: Prepared)
    requires Inv(s) && Rep(s, a) && r in s.reqs && s.reqs[r].Refreshing?
    requires (s.reqs[r].pc.Timed? || s.reqs[r].pc.RetryTx?) && p == s.reqs[r].pc.p
    ensures var q := s.reqs[r]; var t := q.pc.st.id;
            && Asking(a, r, Undecided) && FreshFor(a.born, p)
            && Presents(a, r, t) && r in a.vouched && a.asks[r].op == q.op
            && (q.pc.Timed? ==> a.asks[r].since <= q.pc.at <= a.now)
            && a.grace == s.cfg.grace && a.now == s.now && a.born == s.table.born && a.turned == s.table.suspects
            && (t in s.table.rows ==> s.table.rows[t].userId == q.pc.st.row.userId)
  {
    InvParts(s, r);
    Asked(s, a, r);
    Presented(s, a, r);
    CommitKnows(s, s.reqs[r]);
    GraceIs(s, a);
    hide TableInv, ReqInv, Rep, Inv, Presents, Owned, Asking, FreshFor;
  }

  lemma CommitKnows(s: State, q: Request)
    requires q.Refreshing? && ReqInv(s, q) && (q.pc.Timed? || q.pc.RetryTx?)
    ensures Owned(s, q.client, q.pc.st) && FreshFor(s.table.born, q.pc.p) && (q.pc.Timed? ==> q.pc.at <= s.now)
    ensures SawOwner(q.pc) && VerdictOf(q.pc) == Undecided
  {
    hide Known, Owned, FreshFor;
  }

  lemma GraceIs(s: State, a: Simple)
    requires Rep(s, a)
    ensures a.grace == s.cfg.grace
  {
    hide FamiliesAre, AsksAre, OrdersAre;
  }

  lemma RotationStep(s: State, a: Simple, r: ReqId, f: Fresh)
    requires Inv(s) && CanAct(s, r, f) && Rep(s, a) && s.reqs[r].Refreshing? && PlanRefresh(s, s.reqs[r], f).0.Rotate?
    ensures SimpleMoves(a, SimAfter(s, a, r, f))
  {
    hide Inv, Rep, SimAfter, PlanRefresh, Plan, CanRotate, FreshFor, Mine, Rows, SimpleMoves, Presents, Asking, Marked;
    var q := s.reqs[r];
    RefreshVerdict(s, q, f);
    SimAfterRefresh(s, a, r, f);
    CommitFacts(s, a, r, q.pc.p);
    RotationGuard(s, a, r, f);
    MarkedGranted(a.(born := Apply(s.table, PlanRefresh(s, q, f).0).born,
                     families := FamiliesAfter(s.table, a.families, PlanRefresh(s, q, f).0),
                     turned := Apply(s.table, PlanRefresh(s, q, f).0).suspects), r, q.pc.st, q.pc.p.id);
    RotationMove(a, r, q.pc.st.id, q.op, q.pc.at, q.pc.p, SimAfter(s, a, r, f));
  }

  lemma RotationMove(a: Simple, r: ReqId, t: Id, op: Hash, at: Time, p: Prepared, b: Simple)
    requires Asking(a, r, Undecided) && FreshFor(a.born, p) && a.asks[r].op == op
    requires Presents(a, r, t) && r in a.vouched
    requires CanRotate(a, t, at) && a.asks[r].since <= at <= a.now && a.born[t].root in a.families
    requires var root := a.born[t].root;
             b == a.(born := Registered(a, p, root), families :=
                     a.families[root := AfterRotation(a.families[root], t, op, at, p.id)],
                     verdicts := a.verdicts[r := Granted(p.id)], turned := a.turned + {t})
    ensures SimpleMoves(a, b)
  {
    hide FreshFor, Mine, CanRotate, AfterRotation, Registered;
    assert SimpleNext(a, GrantRotation(r, t, at, p), b);
  }

  lemma RotationGuard(s: State, a: Simple, r: ReqId, f: Fresh)
    requires Inv(s) && Rep(s, a) && r in s.reqs && s.reqs[r].Refreshing? && PlanRefresh(s, s.reqs[r], f).0.Rotate?
    requires s.reqs[r].pc.Timed?
    ensures var t := s.reqs[r].pc.st.id;
            CanRotate(a, t, s.reqs[r].pc.at) && RootOf(s.table, t) in a.families && RootOf(s.table, t) == a.born[t].root
  {
    InvParts(s, r);
    hide TableInv, ReqInv, Inv, FamiliesAre, AsksAre, OrdersAre, CanRotate;
    RotatableIsCanRotate(s, a, s.reqs[r].pc.st.id, s.reqs[r].pc.at);
    RootIsFamily(s.table, a.families, s.reqs[r].pc.st.id);
  }

  lemma RetryStep(s: State, a: Simple, r: ReqId, f: Fresh)
    requires Inv(s) && CanAct(s, r, f) && Rep(s, a) && s.reqs[r].Refreshing? && PlanRefresh(s, s.reqs[r], f).0.Replace?
    ensures SimpleMoves(a, SimAfter(s, a, r, f))
  {
    hide Inv, Rep, SimAfter, PlanRefresh, Plan, CanRetry, FreshFor, Mine, Rows, SimpleMoves, Presents, Asking, Marked;
    var q := s.reqs[r];
    RefreshVerdict(s, q, f);
    SimAfterRefresh(s, a, r, f);
    CommitFacts(s, a, r, q.pc.p);
    RetryGuard(s, a, r, f);
    MarkedGranted(a.(born := Apply(s.table, PlanRefresh(s, q, f).0).born,
                     families := FamiliesAfter(s.table, a.families, PlanRefresh(s, q, f).0),
                     turned := Apply(s.table, PlanRefresh(s, q, f).0).suspects), r, q.pc.st, q.pc.p.id);
    RetryMove(a, r, q.pc.st.id, q.op, q.pc.p, SimAfter(s, a, r, f));
  }

  lemma RetryMove(a: Simple, r: ReqId, t: Id, op: Hash, p: Prepared, b: Simple)
    requires Asking(a, r, Undecided) && FreshFor(a.born, p) && a.asks[r].op == op
    requires Presents(a, r, t) && r in a.vouched
    requires CanRetry(a, t, op) && a.born[t].root in a.families
    requires var root := a.born[t].root;
             b == a.(born := Registered(a, p, root), families := a.families[root := AfterRetry(a.families[root], p.id)],
                     verdicts := a.verdicts[r := Granted(p.id)])
    ensures SimpleMoves(a, b)
  {
    hide FreshFor, Mine, CanRetry, AfterRetry, Registered;
    assert SimpleNext(a, GrantRetry(r, t, p), b);
  }

  lemma RetryGuard(s: State, a: Simple, r: ReqId, f: Fresh)
    requires Inv(s) && Rep(s, a) && r in s.reqs && s.reqs[r].Refreshing? && PlanRefresh(s, s.reqs[r], f).0.Replace?
    requires s.reqs[r].pc.RetryTx?
    ensures var t := s.reqs[r].pc.st.id;
            CanRetry(a, t, s.reqs[r].op) && RootOf(s.table, t) in a.families && t in a.born
                && RootOf(s.table, t) == a.born[t].root
  {
    InvParts(s, r);
    CommitFacts(s, a, r, s.reqs[r].pc.p);
    hide TableInv, ReqInv, Inv, FamiliesAre, AsksAre, OrdersAre, CanRetry, Presents, Asking;
    ReplaceableIsCanRetry(s, a, s.reqs[r].pc.st.id, s.reqs[r].op);
    RootIsFamily(s.table, a.families, s.reqs[r].pc.st.id);
  }

  // ----- Steps that write nothing -----

  lemma FirstReadAfter(s: State, a: Simple, r: ReqId, f: Fresh)
    requires Rep(s, a) && r in s.reqs && s.reqs[r].Refreshing? && PlanRefresh(s, s.reqs[r], f).0 == NoChange
    ensures SimAfter(s, a, r, f) == Marked(a, r, PlanRefresh(s, s.reqs[r], f).1)
  {
    SimAfterRefresh(s, a, r, f);
    SameTable(s.table);
    hide PlanRefresh, Apply, SimAfter, Marked, FamiliesAre, AsksAre, OrdersAre;
  }

  lemma QuietAfter(s: State, a: Simple, r: ReqId, f: Fresh)
    requires Rep(s, a) && r in s.reqs && s.reqs[r].Refreshing? && s.reqs[r].pc != Start
    requires PlanRefresh(s, s.reqs[r], f).0 == NoChange
    ensures var pc := PlanRefresh(s, s.reqs[r], f).1;
            SimAfter(s, a, r, f) == a.(vouched := if SawOwner(pc) then a.vouched + {r} else a.vouched,
                                       verdicts := a.verdicts[r := VerdictOf(pc)])
  {
    FirstReadAfter(s, a, r, f);
    Asked(s, a, r);
    RefreshMarks(s, s.reqs[r], f);
    hide PlanRefresh, SimAfter, Rep, VerdictOf, SawOwner, SawTurned, SawOther;
    assert r in a.accused ==> a.accused + {r} == a.accused;
    assert r in a.cleared ==> a.cleared + {r} == a.cleared;
  }

  lemma FirstRead(s: State, a: Simple, r: ReqId, f: Fresh)
    requires Inv(s) && CanAct(s, r, f) && Rep(s, a) && s.reqs[r].Refreshing? && s.reqs[r].pc == Start
    ensures SimpleMoves(a, SimAfter(s, a, r, f))
  {
    hide Inv, Rep, SimAfter, PlanRefresh, SimpleMoves, MayDeny, IsClear, HeldTurned, Denied, TurnsDown;
    var q, b := s.reqs[r], SimAfter(s, a, r, f);
    SelectsOnly(s, q, f);
    var pc := PlanRefresh(s, q, f).1;
    FirstReadAfter(s, a, r, f);
    Asked(s, a, r);
    if pc == Done401 {
      MarkedRefused(a, r);
      DeniedHere(s, a, r, f);
      NoRowIsClear(s, a, r, f);
      RefuseMove(a, r, b);
    } else {
      ReadToken(s, a, r, f);
      assert a.verdicts[r := Undecided] == a.verdicts by { hide Marked; }
      if SeenAsRotated(pc.st.row) { AccuseMove(a, r, pc.st.id, b); } else { ClearMove(a, r, b); }
    }
  }

  lemma SelectsOnly(s: State, q: Request, f: Fresh)
    requires q.Refreshing? && q.pc == Start
    ensures var (e, pc) := PlanRefresh(s, q, f); e == NoChange && (pc == Done401 || pc.HasStored?)
    ensures PlanRefresh(s, q, f).1 == Done401 ==> TurnsDown(s, q, f)
  {}

  lemma NoRowIsClear(s: State, a: Simple, r: ReqId, f: Fresh)
    requires Inv(s) && Rep(s, a) && r in s.reqs && s.reqs[r].Refreshing? && s.reqs[r].pc == Start
    requires PlanRefresh(s, s.reqs[r], f).1 == Done401
    ensures IsClear(a, r)
  {
    InvParts(s, r);
    Asked(s, a, r);
    NothingFound(s, s.reqs[r], f);
    hide PlanRefresh, Inv, TableInv, ReqInv, Rep, HeldTurned, Mine, VerdictOf;
    forall t | t in a.born && a.born[t].tokenHash == a.asks[r].hash ensures !HeldTurned(a, t) {
      HeldTurnedIsRotated(s, a, t);
    }
  }

  lemma NothingFound(s: State, q: Request, f: Fresh)
    requires TableInv(s.table) && q.Refreshing? && q.pc == Start && PlanRefresh(s, q, f).1 == Done401
    ensures forall t :: t in s.table.born && s.table.born[t].tokenHash == q.hash ==> t !in s.table.rows
  {
    hide HashesDistinct, Ordered, Rooted, Recorded, OneActive, LinkedOnce, Linked;
  }

  lemma ReadToken(s: State, a: Simple, r: ReqId, f: Fresh)
    requires Inv(s) && Rep(s, a) && r in s.reqs && s.reqs[r].Refreshing? && s.reqs[r].pc == Start
    requires PlanRefresh(s, s.reqs[r], f).1.HasStored?
    ensures var st := PlanRefresh(s, s.reqs[r], f).1.st;
            if SeenAsRotated(st.row)
            then st.id in a.born && a.born[st.id].tokenHash == a.asks[r].hash && HeldTurned(a, st.id)
            else IsClear(a, r)
  {
    InvParts(s, r);
    Asked(s, a, r);
    Found(s, s.reqs[r], f);
    var st := PlanRefresh(s, s.reqs[r], f).1.st;
    HeldTurnedIsRotated(s, a, st.id);
    hide PlanRefresh, Inv, TableInv, ReqInv, Rep, HeldTurned, Mine, VerdictOf, SeenAsRotated;
  }

  lemma Found(s: State, q: Request, f: Fresh)
    requires TableInv(s.table) && q.Refreshing? && q.pc == Start && PlanRefresh(s, q, f).1.HasStored?
    ensures var st := PlanRefresh(s, q, f).1.st;
            && st.id in s.table.born && s.table.born[st.id].tokenHash == q.hash
            && st.id in s.table.rows && s.table.rows[st.id] == st.row
            && (forall t :: t in s.table.born && s.table.born[t].tokenHash == q.hash ==> t == st.id)
  {
    hide Ordered, Rooted, Recorded, OneActive, LinkedOnce, Linked;
  }

  lemma QuietRefreshStep(s: State, a: Simple, r: ReqId, f: Fresh)
    requires Inv(s) && CanAct(s, r, f) && Rep(s, a) && s.reqs[r].Refreshing? && s.reqs[r].pc != Start
    requires PlanRefresh(s, s.reqs[r], f).0 == NoChange
    ensures SimpleMoves(a, SimAfter(s, a, r, f))
  {
    hide Inv, Rep, SimAfter, PlanRefresh, VerdictOf, SimpleMoves, SawOwner, Denied, Presents, IsClear, HeldTurned, Live;
    var q, b := s.reqs[r], SimAfter(s, a, r, f);
    var pc := PlanRefresh(s, q, f).1;
    QuietAfter(s, a, r, f);
    Asked(s, a, r);
    RefreshMarks(s, q, f);
    if VerdictOf(pc) == VerdictOf(q.pc) {
      assert a.verdicts[r := VerdictOf(pc)] == a.verdicts;
      if SawOwner(pc) && r !in a.vouched {
        OwnerSeen(s, a, r, f);
        VouchMove(a, r, q.pc.st.id, b);
      } else {
        assert r in a.vouched ==> a.vouched + {r} == a.vouched;
        StutterMove(a, b);
      }
    } else {
      QuietKinds(s, q, f);
      DeniedHere(s, a, r, f);
      if VerdictOf(pc) == Refused { RefusedIsClear(s, a, r, f); RefuseMove(a, r, b); }
      else if pc.Replay? { CondemnedWasSeen(s, a, r, f); CondemnMove(a, r, q.pc.st.id, b); }
      else { TurnDownRight(s, a, r, f); DeclineMove(a, r, b); }
    }
  }

  // How a verdict changes without a write.
  lemma QuietKinds(s: State, q: Request, f: Fresh)
    requires q.Refreshing? && q.pc != Start && PlanRefresh(s, q, f).0 == NoChange
    ensures var pc := PlanRefresh(s, q, f).1;
            VerdictOf(pc) != VerdictOf(q.pc) ==>
              && !SawOwner(pc)
              && (TurnsDown(s, q, f) || (VerdictOf(q.pc) == Declined && (pc == Done401 || pc.Replay?)))
              && (VerdictOf(pc) == Refused && pc != Done401 ==> q.pc.HasStored? && pc == HasOwner(q.pc.st, None))
              && (VerdictOf(pc) == Condemned <==> pc.Replay?) && q.pc != Done401
              && (pc.Replay? ==> !q.pc.Replay?)
              && (VerdictOf(pc) == Refused || pc.Replay? || (VerdictOf(pc) == Declined && TurnsDown(s, q, f)))
  {
    hide Lookup, Rotatable, Replaceable, Retryable;
  }

  lemma DeniedHere(s: State, a: Simple, r: ReqId, f: Fresh)
    requires Inv(s) && Rep(s, a) && r in s.reqs && s.reqs[r].Refreshing?
    requires TurnsDown(s, s.reqs[r], f) || VerdictOf(s.reqs[r].pc) == Declined
    ensures Denied(a, r)
  {
    hide Inv, Rep, PlanRefresh, VerdictOf, MayDeny, TurnsDown;
    Asked(s, a, r);
    if TurnsDown(s, s.reqs[r], f) { TurnDownRight(s, a, r, f); UndecidedNow(s, s.reqs[r], f); }
  }

  lemma UndecidedNow(s: State, q: Request, f: Fresh)
    requires TurnsDown(s, q, f)
    ensures VerdictOf(q.pc) == Undecided
  {
    hide PlanRefresh, VerdictOf;
  }

  // A plain refusal: the row was not read as rotated, or the owner is not the client's.
  lemma RefusedIsClear(s: State, a: Simple, r: ReqId, f: Fresh)
    requires Inv(s) && Rep(s, a) && r in s.reqs && s.reqs[r].Refreshing? && s.reqs[r].pc != Start
    requires PlanRefresh(s, s.reqs[r], f).0 == NoChange
    requires VerdictOf(PlanRefresh(s, s.reqs[r], f).1) == Refused && VerdictOf(s.reqs[r].pc) != Refused
    ensures r in a.cleared || IsClear(a, r)
  {
    var q := s.reqs[r];
    Asked(s, a, r);
    PlainlyRefused(s, q, f);
    if !SawOther(q.pc) {
      Presented(s, a, r);
      HeldTurnedIsRotated(s, a, q.pc.st.id);
    }
    hide Inv, Rep, PlanRefresh, VerdictOf, HeldTurned, SawOwner, SawTurned, Asking;
  }

  lemma PlainlyRefused(s: State, q: Request, f: Fresh)
    requires q.Refreshing? && q.pc != Start && PlanRefresh(s, q, f).0 == NoChange
    requires VerdictOf(PlanRefresh(s, q, f).1) == Refused && VerdictOf(q.pc) != Refused
    ensures || SawOther(q.pc)
            || (q.pc.HasStored? && OwnerOf(s.users, q.pc.st.row.userId, q.client).None?)
            || (q.pc.Latest? && !(q.pc.st.id in s.table.rows && SeenAsRotated(s.table.rows[q.pc.st.id])))
  {
    hide Lookup, Rotatable, Replaceable, Retryable;
  }

  // A replay is called only on a row that was read as rotated, for an owner of the client.
  lemma CondemnedWasSeen(s: State, a: Simple, r: ReqId, f: Fresh)
    requires Inv(s) && Rep(s, a) && r in s.reqs && s.reqs[r].Refreshing? && s.reqs[r].pc != Start
    requires PlanRefresh(s, s.reqs[r], f).1.Replay? && !s.reqs[r].pc.Replay?
    ensures Presents(a, r, s.reqs[r].pc.st.id) && (r in a.accused || HeldTurned(a, s.reqs[r].pc.st.id))
  {
    var q := s.reqs[r];
    InvParts(s, r);
    Asked(s, a, r);
    CalledReplay(s, q, f);
    Presented(s, a, r);
    HeldTurnedIsRotated(s, a, q.pc.st.id);
    hide Inv, Rep, PlanRefresh, VerdictOf, HeldTurned, SawOwner, Asking, Presents, TableInv;
  }

  lemma CalledReplay(s: State, q: Request, f: Fresh)
    requires q.Refreshing? && q.pc != Start && PlanRefresh(s, q, f).1.Replay? && !q.pc.Replay? && ReqInv(s, q)
    ensures q.pc != Done401 && Owned(s, q.client, q.pc.st)
    ensures SawTurned(q.pc) || (q.pc.st.id in s.table.rows && SeenAsRotated(s.table.rows[q.pc.st.id]))
  {
    hide Lookup, Rotatable, Replaceable, Retryable, Known, Heir, Spent, Unrotatable, Candidate, Answered;
  }

  // A request comes to know an active owner only by reading one.
  lemma OwnerSeen(s: State, a: Simple, r: ReqId, f: Fresh)
    requires Inv(s) && Rep(s, a) && r in s.reqs && s.reqs[r].Refreshing? && r !in a.vouched
    requires SawOwner(PlanRefresh(s, s.reqs[r], f).1)
    ensures s.reqs[r].pc.HasStored? && Asking(a, r, Undecided)
    ensures Presents(a, r, s.reqs[r].pc.st.id) && Live(a, s.reqs[r].pc.st.id, a.asks[r].client)
  {
    Asked(s, a, r);
    ReadsOwner(s, s.reqs[r], f);
    Presented(s, a, r);
    hide Inv, Rep, PlanRefresh;
  }

  lemma ReadsOwner(s: State, q: Request, f: Fresh)
    requires q.Refreshing? && !SawOwner(q.pc) && SawOwner(PlanRefresh(s, q, f).1)
    ensures q.pc.HasStored?
    ensures var owner := OwnerOf(s.users, q.pc.st.row.userId, q.client); owner.Some? && owner.value.isActive
  {
    hide Lookup, Retryable, Replaceable, Rotatable;
  }

  lemma VouchMove(a: Simple, r: ReqId, t: Id, b: Simple)
    requires Asking(a, r, Undecided) && Presents(a, r, t) && Live(a, t, a.asks[r].client)
    requires b == a.(vouched := a.vouched + {r})
    ensures SimpleMoves(a, b)
  {
    hide Presents, Live;
    assert SimpleNext(a, Vouch(r, t), b);
  }

  lemma AccuseMove(a: Simple, r: ReqId, t: Id, b: Simple)
    requires Asking(a, r, Undecided) && t in a.born && a.born[t].tokenHash == a.asks[r].hash && HeldTurned(a, t)
    requires b == a.(accused := a.accused + {r})
    ensures SimpleMoves(a, b)
  {
    hide HeldTurned;
    assert SimpleNext(a, Accuse(r, t), b);
  }

  lemma ClearMove(a: Simple, r: ReqId, b: Simple)
    requires Asking(a, r, Undecided) && IsClear(a, r)
    requires b == a.(cleared := a.cleared + {r})
    ensures SimpleMoves(a, b)
  {
    hide IsClear;
    assert SimpleNext(a, Clear(r), b);
  }

  lemma RefuseMove(a: Simple, r: ReqId, b: Simple)
    requires Denied(a, r) && (r in a.cleared || IsClear(a, r))
    requires b == a.(verdicts := a.verdicts[r := Refused])
    ensures SimpleMoves(a, b)
  {
    hide Denied, IsClear;
    assert SimpleNext(a, Refuse(r), b);
  }

  lemma DeclineMove(a: Simple, r: ReqId, b: Simple)
    requires Asking(a, r, Undecided) && MayDeny(a, r)
    requires b == a.(verdicts := a.verdicts[r := Declined])
    ensures SimpleMoves(a, b)
  {
    hide MayDeny;
    assert SimpleNext(a, Decline(r), b);
  }

  lemma CondemnMove(a: Simple, r: ReqId, t: Id, b: Simple)
    requires Denied(a, r) && Presents(a, r, t) && (r in a.accused || HeldTurned(a, t))
    requires b == a.(verdicts := a.verdicts[r := Condemned])
    ensures SimpleMoves(a, b)
  {
    hide Denied, Presents, HeldTurned;
    assert SimpleNext(a, Condemn(r, t), b);
  }

  // ----- The replay revocation -----

  lemma KillStep(s: State, a: Simple, r: ReqId, f: Fresh)
    requires Inv(s) && CanAct(s, r, f) && Rep(s, a) && s.reqs[r].Refreshing? && PlanRefresh(s, s.reqs[r], f).0.Revoke?
    ensures SimpleMoves(a, SimAfter(s, a, r, f))
  {
    hide Inv, Rep, SimAfter, PlanRefresh, Plan, SimpleMoves, Rows, Marked, Asking, Presents, ActiveOf, IsHeadOf;
    var q := s.reqs[r];
    RefreshVerdict(s, q, f);
    SimAfterRefresh(s, a, r, f);
    KillGuard(s, a, r, f);
    MarkedRefused(a.(families := FamiliesAfter(s.table, a.families, PlanRefresh(s, q, f).0)), r);
    KillMove(a, r, q.pc.st.id, PlanRefresh(s, q, f).0.ids, SimAfter(s, a, r, f));
  }

  lemma KillGuard(s: State, a: Simple, r: ReqId, f: Fresh)
    requires Inv(s) && Rep(s, a) && r in s.reqs && s.reqs[r].Refreshing? && s.reqs[r].pc.Replay?
    ensures var t := s.reqs[r].pc.st.id; var (e, pc) := PlanRefresh(s, s.reqs[r], f);
            && Asking(a, r, Condemned) && Presents(a, r, t) && t in a.turned
            && a.turned == s.table.suspects && a.born == s.table.born && a.users == s.users
            && e == Revoke(ActiveOf(s.table.rows, a.born[t].userId), Security)
            && (forall x :: x in ActiveOf(s.table.rows, a.born[t].userId) <==> IsHeadOf(a, a.born[t].userId, x))
  {
    hide TableInv, FamiliesAre, Inv, IsHeadOf, ActiveOf, Rep, PlanRefresh, Presents;
    var user := s.reqs[r].pc.st.row.userId;
    ReplayerKnows(s, a, r);
    Asked(s, a, r);
    Presented(s, a, r);
    ReplayRevokes(s, s.reqs[r], f);
    InvTable(s);
    forall x: Id ensures x in ActiveOf(s.table.rows, user) <==> IsHeadOf(a, user, x) { HeadsAreActive(s, a, user, x); }
  }

  lemma InvTable(s: State)
    requires Inv(s)
    ensures TableInv(s.table)
  {
    hide TableInv;
  }

  lemma ReplayerKnows(s: State, a: Simple, r: ReqId)
    requires Inv(s) && Rep(s, a) && r in s.reqs && s.reqs[r].Refreshing? && s.reqs[r].pc.Replay?
    ensures Owned(s, s.reqs[r].client, s.reqs[r].pc.st) && s.reqs[r].pc.st.id in a.turned
  {
    hide TableInv, FamiliesAre, Inv, AsksAre, OrdersAre;
    InvParts(s, r);
  }

  lemma ReplayRevokes(s: State, q: Request, f: Fresh)
    requires q.Refreshing? && q.pc.Replay?
    ensures PlanRefresh(s, q, f).0 == Revoke(ActiveOf(s.table.rows, q.pc.st.row.userId), Security)
  {
    hide ActiveOf;
  }

  lemma KillMove(a: Simple, r: ReqId, t: Id, ids: set<Id>, b: Simple)
    requires Asking(a, r, Condemned) && Presents(a, r, t) && t in a.turned
    requires forall x :: x in ids <==> IsHeadOf(a, a.born[t].userId, x)
    requires b == a.(families := Ended(a, ids), verdicts := a.verdicts[r := Refused])
    ensures SimpleMoves(a, b)
  {
    hide Ended, IsHeadOf;
    assert SimpleNext(a, Kill(r, t, ids), b);
  }

  // ----- One step of any other request -----

  lemma SimAfterOther(s: State, a: Simple, r: ReqId, f: Fresh)
    requires Rep(s, a) && r in s.reqs && !s.reqs[r].Refreshing?
    ensures var m := Plan(s, s.reqs[r], f);
            && SimAfter(s, a, r, f) == a.(users := m.users, born := Apply(s.table, m.effect).born,
                                          families := FamiliesAfter(s.table, a.families, m.effect),
                                          orders := OrdersAfter(a, r, m.next))
            && a.users == s.users && a.born == s.table.born && a.now == s.now
            && (r in a.orders <==> OrderOf(s.reqs[r]).Some?)
            && (r in a.orders ==> a.orders[r] == OrderOf(s.reqs[r]).value)
  {
    KindKept(s, s.reqs[r], f);
    SuspectsStay(s, s.reqs[r], f);
    hide Plan, Apply, FamiliesAfter, OrdersAfter, FamiliesAre, AsksAre, OrderOf;
  }

  lemma SuspectsStay(s: State, q: Request, f: Fresh)
    requires !q.Refreshing?
    ensures Apply(s.table, Plan(s, q, f).effect).suspects == s.table.suspects
  {
    hide Lookup;
  }

  lemma SignOutMove(a: Simple, r: ReqId, ids: set<Id>, b: Simple)
    requires r in a.orders && Ends(a, a.orders[r], ids)
    requires b == a.(families := Ended(a, ids), orders := a.orders - {r})
    ensures SimpleMoves(a, b)
  {
    hide Ended, Ends;
    assert SimpleNext(a, SignOut(r, ids), b);
  }

  lemma LapseMove(a: Simple, r: ReqId, b: Simple)
    requires r in a.orders && MayLapse(a, a.orders[r]) && b == a.(orders := a.orders - {r})
    ensures SimpleMoves(a, b)
  {
    hide MayLapse;
    assert SimpleNext(a, Lapse(r), b);
  }

  // A request that changes nothing and asks for the same as before.
  lemma WaitMove(a: Simple, r: ReqId, q: Request, b: Simple)
    requires (r in a.orders <==> OrderOf(q).Some?) && (r in a.orders ==> a.orders[r] == OrderOf(q).value)
    requires b == a.(orders := OrdersAfter(a, r, q))
    ensures SimpleMoves(a, b)
  {
    hide OrderOf;
    assert OrdersAfter(a, r, q) == a.orders;
    StutterMove(a, b);
  }

  lemma LogoutStep(s: State, a: Simple, r: ReqId, f: Fresh)
    requires Inv(s) && CanAct(s, r, f) && Rep(s, a) && s.reqs[r].LoggingOut?
    ensures SimpleMoves(a, SimAfter(s, a, r, f))
  {
    hide Inv, Rep, SimAfter, Plan, Apply, SimpleMoves, Ends, MayLapse, PlanLogout;
    var q, b := s.reqs[r], SimAfter(s, a, r, f);
    SimAfterOther(s, a, r, f);
    LogoutKinds(s, q, f);
    SameTable(s.table);
    var lpc := Plan(s, q, f).next.lpc;
    if lpc != LogoutDone || q.lpc == LogoutDone { WaitMove(a, r, Plan(s, q, f).next, b); }
    else if q.lpc.LogoutOwned? {
      LogoutEnds(s, a, r);
      EndedRows(s, a, Revoke({q.lpc.st.id}, Logout));
      SignOutMove(a, r, {q.lpc.st.id}, b);
    } else {
      LogoutLapses(s, a, r, f);
      LapseMove(a, r, b);
    }
  }

  lemma LogoutKinds(s: State, q: Request, f: Fresh)
    requires q.LoggingOut?
    ensures var m := Plan(s, q, f); var (e, lpc) := PlanLogout(s, q);
            && m == Move(e, s.users, q.(lpc := lpc))
            && (if q.lpc.LogoutOwned? then e == Revoke({q.lpc.st.id}, Logout) && lpc == LogoutDone else e == NoChange)
            && (q.lpc == LogoutDone ==> lpc == LogoutDone)
  {}

  lemma EndedRows(s: State, a: Simple, e: Effect)
    requires e.Revoke?
    ensures FamiliesAfter(s.table, a.families, e) == Ended(a, e.ids) && Apply(s.table, e).born == s.table.born
  {}

  lemma LogoutEnds(s: State, a: Simple, r: ReqId)
    requires Inv(s) && Rep(s, a) && r in s.reqs && s.reqs[r].LoggingOut? && s.reqs[r].lpc.LogoutOwned?
    ensures Ends(a, LogOut(s.reqs[r].client, s.reqs[r].hash), {s.reqs[r].lpc.st.id})
  {
    InvParts(s, r);
    hide Inv, FamiliesAre, AsksAre, OrdersAre, Ordered, Rooted, Recorded, OneActive, LinkedOnce, Linked, Certified;
  }

  lemma LogoutLapses(s: State, a: Simple, r: ReqId, f: Fresh)
    requires Inv(s) && Rep(s, a) && r in s.reqs && s.reqs[r].LoggingOut? && !s.reqs[r].lpc.LogoutOwned?
    requires PlanLogout(s, s.reqs[r]).1 == LogoutDone && s.reqs[r].lpc != LogoutDone
    ensures MayLapse(a, LogOut(s.reqs[r].client, s.reqs[r].hash))
  {
    hide Inv, TableInv, ReqInv, Rep, PlanLogout, IsKnownOf, Mine;
    var q := s.reqs[r];
    InvParts(s, r);
    RepParts(s, a);
    LogoutFinds(s, q);
    forall x | x in a.born && a.born[x].tokenHash == q.hash && Mine(a, x, q.client)
      ensures !IsKnownOf(a, a.born[x].userId, x)
    {
      KnownAreAll(s, a, a.born[x].userId, x);
      MineIs(a, x, q.client);
    }
  }

  lemma MineIs(a: Simple, x: Id, client: ClientId)
    requires x in a.born
    ensures Mine(a, x, client) <==> OwnerOf(a.users, a.born[x].userId, client).Some?
  {}

  lemma LogoutFinds(s: State, q: Request)
    requires TableInv(s.table) && ReqInv(s, q) && q.LoggingOut? && !q.lpc.LogoutOwned?
    requires PlanLogout(s, q).1 == LogoutDone && q.lpc != LogoutDone
    ensures forall x :: x in s.table.born && s.table.born[x].tokenHash == q.hash ==>
              x !in s.table.rows || OwnerOf(s.users, s.table.born[x].userId, q.client).None?
  {
    hide Ordered, Rooted, Recorded, OneActive, LinkedOnce, Linked;
  }

  lemma RepParts(s: State, a: Simple)
    requires Rep(s, a)
    ensures a.users == s.users && a.born == s.table.born && a.now == s.now && FamiliesAre(s.table, a.families)
  {
    hide FamiliesAre, AsksAre, OrdersAre;
  }

  lemma SignInStep(s: State, a: Simple, r: ReqId, f: Fresh)
    requires Inv(s) && CanAct(s, r, f) && Rep(s, a) && s.reqs[r].SigningIn?
    ensures SimpleMoves(a, SimAfter(s, a, r, f))
  {
    var q := s.reqs[r];
    InvParts(s, r);
    hide Inv, TableInv, Rep, SimAfter, Apply, SimpleMoves, FreshFor, MayLapse, OrdersAfter;
    var b := SimAfter(s, a, r, f);
    SimAfterOther(s, a, r, f);
    SameTable(s.table);
    var next := PlanSignIn(s, q, f).1;
    match q.spc
    case SignInStart =>
      if next == SignInDone { AbsentLapses(a, q.user); LapseMove(a, r, b) by { EndsOrder(a, r, q.(spc := next)); } }
      else { AdmitMove(a, r, b) by { MovesOrder(a, r, q.(spc := next)); } }
    case SignInInsert(p) => IssuedRow(s, a, p); EndsOrder(a, r, q.(spc := next)); IssueMove(a, r, p, b);
    case _ => WaitMove(a, r, q.(spc := next), b);
  }

  lemma EndsOrder(a: Simple, r: ReqId, q: Request)
    requires OrderOf(q).None?
    ensures OrdersAfter(a, r, q) == a.orders - {r}
  {}

  lemma MovesOrder(a: Simple, r: ReqId, q: Request)
    requires OrderOf(q).Some?
    ensures OrdersAfter(a, r, q) == a.orders[r := OrderOf(q).value]
  {}

  lemma AbsentLapses(a: Simple, user: UserId)
    requires !(user in a.users && a.users[user].isActive)
    ensures MayLapse(a, SignIn(user))
  {}

  lemma IssuedRow(s: State, a: Simple, p: Prepared)
    requires a.born == s.table.born
    ensures Apply(s.table, InsertRoot(p)).born == Registered(a, p, p.id)
    ensures FamiliesAfter(s.table, a.families, InsertRoot(p)) ==
            a.families[p.id := Family(p.userId, Some(p.id), None, map[])]
  {}

  lemma AdmitMove(a: Simple, r: ReqId, b: Simple)
    requires r in a.orders && a.orders[r].SignIn? && a.orders[r].user in a.users && a.users[a.orders[r].user].isActive
    requires b == a.(orders := a.orders[r := Admitted(a.orders[r].user)])
    ensures SimpleMoves(a, b)
  {
    assert SimpleNext(a, Admit(r), b);
  }

  lemma IssueMove(a: Simple, r: ReqId, p: Prepared, b: Simple)
    requires r in a.orders && a.orders[r] == Admitted(p.userId) && FreshFor(a.born, p)
    requires b == a.(born := Registered(a, p, p.id), orders := a.orders - {r}, families :=
                     a.families[p.id := Family(p.userId, Some(p.id), None, map[])])
    ensures SimpleMoves(a, b)
  {
    hide Registered, FreshFor;
    assert SimpleNext(a, Issue(r, p), b);
  }

  // The sessions API, and the sign-out after a reset or change.
  lemma RevocationStep(s: State, a: Simple, r: ReqId, f: Fresh)
    requires Inv(s) && CanAct(s, r, f) && Rep(s, a)
    requires s.reqs[r].RevokingOne? || s.reqs[r].RevokingAll? || s.reqs[r].SigningOut?
    ensures SimpleMoves(a, SimAfter(s, a, r, f))
  {
    hide Inv, Rep, SimAfter, Apply, SimpleMoves, Ends, ActiveOf, AllOf, OrdersAfter;
    var q, b := s.reqs[r], SimAfter(s, a, r, f);
    var m := Plan(s, q, f);
    SimAfterOther(s, a, r, f);
    SameTable(s.table);
    if q.done { WaitMove(a, r, m.next, b); }
    else {
      EndedRows(s, a, m.effect);
      if q.SigningOut? { AllEnd(s, a, q.user); } else { HeadsEnd(s, a, q.user); }
      EndsOrder(a, r, m.next);
      SignOutMove(a, r, m.effect.ids, b);
    }
  }

  lemma HeadsEnd(s: State, a: Simple, user: UserId)
    requires Inv(s) && Rep(s, a)
    ensures Ends(a, EndSessions(user), ActiveOf(s.table.rows, user))
    ensures forall id :: Ends(a, EndSession(user, id), ActiveOf(s.table.rows, user) * {id})
  {
    hide TableInv, FamiliesAre, Inv, IsHeadOf, ActiveOf, Rep;
    InvTable(s);
    forall x: Id ensures x in ActiveOf(s.table.rows, user) <==> IsHeadOf(a, user, x) { HeadsAreActive(s, a, user, x); }
  }

  lemma AllEnd(s: State, a: Simple, user: UserId)
    requires Inv(s) && Rep(s, a)
    ensures Ends(a, EndAll(user), AllOf(s.table.rows, user))
  {
    hide TableInv, FamiliesAre, Inv, IsKnownOf, AllOf, Rep;
    InvTable(s);
    forall x: Id ensures x in AllOf(s.table.rows, user) <==> IsKnownOf(a, user, x) { KnownAreAll(s, a, user, x); }
  }

  lemma SetActiveStep(s: State, a: Simple, r: ReqId, f: Fresh)
    requires Inv(s) && CanAct(s, r, f) && Rep(s, a) && s.reqs[r].SettingActive?
    ensures SimpleMoves(a, SimAfter(s, a, r, f))
  {
    hide Inv, Rep, SimAfter, Apply, SimpleMoves, Ends, AllOf, OrdersAfter, OwnerOf, MayLapse;
    var q, b := s.reqs[r], SimAfter(s, a, r, f);
    var m := Plan(s, q, f);
    SimAfterOther(s, a, r, f);
    SameTable(s.table);
    match q.apc
    case ActiveStart =>
      if OwnerOf(s.users, q.user, q.client).Some? {
        if q.active { EndsOrder(a, r, m.next); } else { MovesOrder(a, r, m.next); }
        PatchMove(a, r, b);
      } else {
        EndsOrder(a, r, m.next);
        OthersLapse(a, q.client, q.user, q.active);
        LapseMove(a, r, b);
      }
    case ActiveRevoke =>
      EndedRows(s, a, m.effect);
      AllEnd(s, a, q.user);
      EndsOrder(a, r, m.next);
      SignOutMove(a, r, m.effect.ids, b);
    case ActiveDone => WaitMove(a, r, m.next, b);
  }

  lemma OthersLapse(a: Simple, client: ClientId, user: UserId, active: bool)
    requires OwnerOf(a.users, user, client).None?
    ensures MayLapse(a, Order.SetActive(client, user, active))
  {}

  lemma PatchMove(a: Simple, r: ReqId, b: Simple)
    requires r in a.orders && a.orders[r].SetActive?
    requires var o := a.orders[r];
             && OwnerOf(a.users, o.user, o.client).Some?
             && b == a.(users := a.users[o.user := User(o.client, o.active)],
                        orders := if o.active then a.orders - {r} else a.orders[r := EndAll(o.user)])
    ensures SimpleMoves(a, b)
  {
    hide OwnerOf;
    assert SimpleNext(a, Patch(r), b);
  }

  lemma CleanupStep(s: State, a: Simple, r: ReqId, f: Fresh)
    requires Inv(s) && CanAct(s, r, f) && Rep(s, a) && s.reqs[r].CleaningUp?
    ensures SimpleMoves(a, SimAfter(s, a, r, f))
  {
    hide Inv, TableInv, ReqInv, Rep, SimAfter, Apply, SimpleMoves, AfterForget, Plan, FamiliesAfter;
    var q, b := s.reqs[r], SimAfter(s, a, r, f);
    InvParts(s, r);
    CleanupKinds(s, q, f);
    SimAfterOther(s, a, r, f);
    SameTable(s.table);
    assert OrdersAfter(a, r, Plan(s, q, f).next) == a.orders;
    NothingForgotten(s, a);
    if q.cpc.CleanupCut? {
      DeletedRows(s, a, q.cpc.cutoff);
      ForgetMove(a, q.cpc.cutoff, b);
    } else {
      StutterMove(a, b);
    }
  }

  lemma CleanupKinds(s: State, q: Request, f: Fresh)
    requires q.CleaningUp? && ReqInv(s, q)
    ensures var m := Plan(s, q, f);
            && m.users == s.users && m.next.CleaningUp?
            && m.effect == (if q.cpc.CleanupCut? then Delete(q.cpc.cutoff) else NoChange)
            && (q.cpc.CleanupCut? ==> q.cpc.cutoff <= s.now - RETENTION)
  {}

  lemma NothingForgotten(s: State, a: Simple)
    ensures FamiliesAfter(s.table, a.families, NoChange) == a.families
  {}

  lemma DeletedRows(s: State, a: Simple, cutoff: Time)
    requires a.born == s.table.born
    ensures Apply(s.table, Delete(cutoff)).born == s.table.born
    ensures FamiliesAfter(s.table, a.families, Delete(cutoff)) ==
            map f | f in a.families :: AfterForget(a.families[f], a.born, cutoff)
  {}

  lemma ForgetMove(a: Simple, cutoff: Time, b: Simple)
    requires cutoff <= a.now - RETENTION
    requires b == a.(families := map f | f in a.families :: AfterForget(a.families[f], a.born, cutoff))
    ensures SimpleMoves(a, b)
  {
    hide AfterForget;
    assert SimpleNext(a, Forget(cutoff), b);
  }

  lemma StutterMove(a: Simple, b: Simple)
    requires b == a
    ensures SimpleMoves(a, b)
  {
    assert SimpleNext(a, Stutter, b);
  }

  // ----- Every step -----

  lemma ActSimulated(s: State, a: Simple, r: ReqId, f: Fresh)
    requires Inv(s) && CanAct(s, r, f) && Rep(s, a)
    ensures Rep(After(s, r, f), SimAfter(s, a, r, f)) && SimpleMoves(a, SimAfter(s, a, r, f))
  {
    RepAfter(s, a, r, f);
    if s.reqs[r].Refreshing? { AfterRefresh(s, r, f); }
    hide Inv, After, SimAfter, Rep, CanAct, SimpleMoves, Plan, PlanRefresh, Apply;
    match s.reqs[r]
    case Refreshing(_, _, _, pc) =>
      if pc == Start { FirstRead(s, a, r, f); }
      else if PlanRefresh(s, s.reqs[r], f).0.Rotate? { RotationStep(s, a, r, f); }
      else if PlanRefresh(s, s.reqs[r], f).0.Replace? { RetryStep(s, a, r, f); }
      else if PlanRefresh(s, s.reqs[r], f).0.Revoke? { KillStep(s, a, r, f); }
      else { QuietRefreshStep(s, a, r, f); }
    case LoggingOut(_, _, _) => LogoutStep(s, a, r, f);
    case SigningIn(_, _) => SignInStep(s, a, r, f);
    case SettingActive(_, _, _, _) => SetActiveStep(s, a, r, f);
    case CleaningUp(_) => CleanupStep(s, a, r, f);
    case _ => RevocationStep(s, a, r, f);
  }

  lemma ReceiveSimulated(s: State, r: ReqId, q: Request, s': State, a: Simple) returns (b: Simple)
    requires NextStep(s, Spawn(r, q), s') && Rep(s, a) && q.Refreshing?
    ensures Rep(s', b) && SimpleMoves(a, b)
  {
    hide FamiliesAre, AsksAre, OrdersAre, SimpleMoves;
    b := a.(asks := a.asks[r := Ask(q.client, q.hash, q.op, a.now)], verdicts := a.verdicts[r := Undecided]);
    AsksReceive(s, r, q, s', a, b);
    ReceiveMove(a, r, Ask(q.client, q.hash, q.op, a.now), b);
    OrdersSpawn(s, r, q, s', a, b);
  }

  lemma AsksReceive(s: State, r: ReqId, q: Request, s': State, a: Simple, b: Simple)
    requires r !in s.reqs && s' == s.(reqs := s.reqs[r := q]) && a.now == s.now
    requires AsksAre(s, a) && q.Refreshing? && q.pc == Start
    requires b == a.(asks := a.asks[r := Ask(q.client, q.hash, q.op, a.now)], verdicts := a.verdicts[r := Undecided])
    ensures AsksAre(s', b) && r !in a.asks
  {
    forall x | x in b.asks ensures MarksAre(s'.reqs[x], x, b) { assert x != r ==> MarksAre(s.reqs[x], x, a); }
  }

  lemma ReceiveMove(a: Simple, r: ReqId, ask: Ask, b: Simple)
    requires r !in a.asks && ask.since == a.now
    requires b == a.(asks := a.asks[r := ask], verdicts := a.verdicts[r := Undecided])
    ensures SimpleMoves(a, b)
  {
    assert SimpleNext(a, Receive(r, ask), b);
  }

  lemma OrdersSpawn(s: State, r: ReqId, q: Request, s': State, a: Simple, b: Simple)
    requires r !in s.reqs && s' == s.(reqs := s.reqs[r := q]) && OrdersAre(s, a)
    requires b.orders == (match OrderOf(q) case None => a.orders case Some(o) => a.orders[r := o])
    ensures OrdersAre(s', b)
  {
    hide OrderOf;
  }

  lemma TakeSimulated(s: State, r: ReqId, q: Request, s': State, a: Simple) returns (b: Simple)
    requires NextStep(s, Spawn(r, q), s') && Rep(s, a) && !q.Refreshing?
    ensures Rep(s', b) && SimpleMoves(a, b)
  {
    BeginsWithOrder(q);
    hide FamiliesAre, OrderOf, Begins, AsksAre, OrdersAre, SimpleMoves;
    b := a.(orders := match OrderOf(q) case None => a.orders case Some(o) => a.orders[r := o]);
    AsksSpawn(s, r, q, s', a, b);
    OrdersSpawn(s, r, q, s', a, b);
    if OrderOf(q).Some? { TakeMove(s, a, r, OrderOf(q).value, b); } else { StutterMove(a, b); }
  }

  lemma AsksSpawn(s: State, r: ReqId, q: Request, s': State, a: Simple, b: Simple)
    requires r !in s.reqs && s' == s.(reqs := s.reqs[r := q]) && AsksAre(s, a) && !q.Refreshing?
    requires b == a.(orders := b.orders)
    ensures AsksAre(s', b)
  {
    forall x | x in b.asks ensures MarksAre(s'.reqs[x], x, b) { assert MarksAre(s.reqs[x], x, a); }
    hide SawOwner, SawTurned, SawOther;
  }

  lemma TakeMove(s: State, a: Simple, r: ReqId, o: Order, b: Simple)
    requires OrdersAre(s, a) && r !in s.reqs && !o.Admitted? && b == a.(orders := a.orders[r := o])
    ensures SimpleMoves(a, b)
  {
    hide OrderOf;
    assert SimpleNext(a, Take(r, o), b);
  }

  lemma BeginsWithOrder(q: Request)
    requires Begins(q) && !q.Refreshing?
    ensures OrderOf(q).None? <==> q.CleaningUp?
    ensures OrderOf(q).Some? ==> !OrderOf(q).value.Admitted?
  {}

  lemma QuietSimulated(s: State, e: Step, s': State, a: Simple) returns (b: Simple)
    requires Inv(s) && NextStep(s, e, s') && !e.Act? && Rep(s, a)
    ensures Rep(s', b) && SimpleMoves(a, b)
  {
    hide Inv, FamiliesAre, OrderOf;
    if e.Spawn? {
      hide SimpleMoves, Rep;
      if e.q.Refreshing? { b := ReceiveSimulated(s, e.r, e.q, s', a); } else { b := TakeSimulated(s, e.r, e.q, s', a); }
    } else {
      b := a.(now := s'.now, users := s'.users);
      if e.Tick? { assert SimpleNext(a, Wait(s'.now), b); } else { assert SimpleNext(a, Join(e.u, e.client), b); }
    }
  }

  /** Every step of the code is one step of the simple machine, or none. */
  lemma StepSimulated(s: State, e: Step, s': State, a: Simple) returns (b: Simple)
    requires Inv(s) && NextStep(s, e, s') && Rep(s, a)
    ensures Rep(s', b) && SimpleMoves(a, b)
  {
    hide Inv, Rep, SimpleMoves, SimAfter, After;
    if e.Act? {
      ActSimulated(s, a, e.r, e.f);
      b := SimAfter(s, a, e.r, e.f);
    } else {
      b := QuietSimulated(s, e, s', a);
    }
  }

  // ----- Whole runs -----

  // The families at the start are the legacy rows, each its own login.
  ghost predicate SimpleInit(a: Simple) {
    && a.asks == map[] && a.verdicts == map[] && a.orders == map[]
    && a.vouched == {} && a.accused == {} && a.cleared == {}
    && (forall x :: x in a.turned <==> x in a.families && x in a.families[x].spent && a.families[x].spent[x] == Turned)
    && (forall f :: f in a.families ==> a.families[f].link.None?)
    && (forall f :: f in a.families <==> f in a.born)
  }

  ghost predicate SimpleRun(srun: seq<Simple>) {
    |srun| > 0 && SimpleInit(srun[0]) && forall i :: 0 <= i < |srun| - 1 ==> SimpleMoves(srun[i], srun[i + 1])
  }

  function LegacyFamily(t: Table, f: Id): Family
    requires f in t.born
  {
    if f !in t.rows then Family(t.born[f].userId, None, None, map[])
    else if !t.rows[f].revoked then Family(t.born[f].userId, Some(f), None, map[])
    else Family(t.born[f].userId, None, None, map[f := MarkOf(t.rows[f])])
  }

  lemma LegacyDescribes(t: Table, f: Id)
    requires LegacyTable(t) && f in t.born
    ensures Describes(t, f, LegacyFamily(t, f))
  {
    forall y ensures IsHead(t, f, y) <==> y == f && f in t.rows && !t.rows[f].revoked {}
    forall y ensures IsSpent(t, f, y) <==> y == f && f in t.rows && t.rows[f].revoked {}
    hide HashesDistinct, Ordered, Certified;
  }

  lemma LegacyFamilies(t: Table, families: map<Id, Family>)
    requires LegacyTable(t) && families == map f | f in t.born :: LegacyFamily(t, f)
    ensures FamiliesAre(t, families) && (forall f | f in families :: families[f].link.None?)
  {
    forall f | f in families ensures Describes(t, f, families[f]) { LegacyDescribes(t, f); }
    hide Describes, HashesDistinct, Ordered, Certified;
  }

  lemma InitRep(s: State) returns (a: Simple)
    requires Init(s)
    ensures Rep(s, a) && SimpleInit(a)
  {
    hide FamiliesAre, LegacyTable, LegacyFamily;
    var families := map f | f in s.table.born :: LegacyFamily(s.table, f);
    a := Simple(s.cfg.grace, s.now, s.users, s.table.born, families, map[], map[], map[], s.table.suspects, {}, {}, {});
    LegacyFamilies(s.table, families);
    LegacyTurned(s.table, families);
  }

  lemma LegacyTurned(t: Table, families: map<Id, Family>)
    requires LegacyTable(t) && families == map f | f in t.born :: LegacyFamily(t, f)
    ensures forall x :: x in t.suspects <==> x in families && x in families[x].spent && families[x].spent[x] == Turned
  {
    hide HashesDistinct, Ordered;
  }

  // The simple machine's verdicts are the answers the code gives.
  ghost predicate SameAnswers(s: State, a: Simple) {
    forall r :: r in s.reqs && s.reqs[r].Refreshing? ==>
      && r in a.verdicts
      && (s.reqs[r].pc.Done401? ==> a.verdicts[r] == Refused)
      && (s.reqs[r].pc.Done200? ==> a.verdicts[r] == Granted(s.reqs[r].pc.id))
  }

  lemma RepAnswers(s: State, a: Simple)
    requires Rep(s, a)
    ensures SameAnswers(s, a)
  {
    forall r | r in s.reqs && s.reqs[r].Refreshing?
      ensures r in a.verdicts && a.verdicts[r] == VerdictOf(s.reqs[r].pc)
    {
      Asked(s, a, r);
    }
  }

  /**
   * Every history of the code is, state by state, a run of the simple machine, and every
   * 200 or 401 the code gives is the one the simple machine decided in one atomic step.
   */
  lemma {:induction false} HistorySimulated(run: seq<State>) returns (srun: seq<Simple>)
    requires IsHistory(run)
    ensures |srun| == |run| && SimpleRun(srun)
    ensures forall i :: 0 <= i < |run| ==> Rep(run[i], srun[i]) && SameAnswers(run[i], srun[i])
    decreases |run|
  {
    hide Inv, Init, NextStep, SimpleMoves, SimpleInit, Rep, SameAnswers;
    if |run| == 1 {
      var a := InitRep(run[0]);
      RepAnswers(run[0], a);
      srun := [a];
    } else {
      var n := |run| - 1;
      var shorter := run[..n];
      forall i | 0 <= i < |shorter| - 1 ensures Next(shorter[i], shorter[i + 1]) { assert Next(run[i], run[i + 1]); }
      var pre := HistorySimulated(shorter);
      HistoryInv(run, n - 1);
      assert Next(run[n - 1], run[n - 1 + 1]);
      var e :| NextStep(run[n - 1], e, run[n]);
      assert Rep(shorter[n - 1], pre[n - 1]);
      var b := StepSimulated(run[n - 1], e, run[n], pre[n - 1]);
      RepAnswers(run[n], b);
      srun := pre + [b];
    }
  }
}
