/** When a state of the simple machine stands for one of the code, and how their decisions agree. */
module RefreshAbstraction {
  import opened Wrappers
  import opened TokenTable
  import opened RefreshMachine
  import opened RefreshInvariant
  import opened SimpleMachine
  import opened RefreshFamilies

  // ----- The abstraction relation -----

  function VerdictOf(pc: RefreshPc): Verdict {
    match pc
    case HasOwner(_, owner) =>
      if owner.None? then Refused else if owner.value.isActive then Undecided else Declined
    case Latest(_) => Declined
    case Replay(_) => Condemned
    case Done401 => Refused
    case Done200(_, id) => Granted(id)
    case _ => Undecided
  }

  // The owner was read as an active user of the client.
  predicate SawOwner(pc: RefreshPc) {
    match pc
    case HasOwner(_, owner) => owner.Some? && owner.value.isActive
    case ToPrepare(_) => true
    case HasSuccessor(_, _) => true
    case Timed(_, _, _) => true
    case RetryRead(_, _) => true
    case RetryCheck(_, _, _) => true
    case RetryPrepare(_, _) => true
    case RetryTx(_, _, _) => true
    case _ => false
  }

  // The row was read as rotated, or was not.
  predicate SawTurned(pc: RefreshPc) {
    match pc
    case HasStored(st) => SeenAsRotated(st.row)
    case HasOwner(st, _) => SeenAsRotated(st.row)
    case RetryRead(_, late) => !late
    case RetryCheck(_, late, _) => !late
    case RetryPrepare(_, late) => !late
    case RetryTx(_, late, _) => !late
    case _ => false
  }

  predicate SawOther(pc: RefreshPc) {
    match pc
    case HasStored(st) => !SeenAsRotated(st.row)
    case HasOwner(st, _) => !SeenAsRotated(st.row)
    case _ => false
  }

  predicate AskIs(q: Request, ask: Ask, v: Verdict, now: Time) {
    && q.Refreshing? && ask.client == q.client && ask.hash == q.hash && ask.op == q.op && ask.since <= now
    && v == VerdictOf(q.pc)
    && (q.pc.Timed? ==> ask.since <= q.pc.at)
  }

  ghost predicate AsksAre(s: State, a: Simple) {
    && a.asks.Keys == a.verdicts.Keys
    && (forall r :: r in a.asks <==> r in s.reqs && s.reqs[r].Refreshing?)
    && (forall r :: r in a.asks ==> AskIs(s.reqs[r], a.asks[r], a.verdicts[r], s.now))
    && (forall r :: r in a.asks ==> MarksAre(s.reqs[r], r, a))
  }

  predicate MarksAre(q: Request, r: ReqId, a: Simple) {
    && q.Refreshing?
    && (SawOwner(q.pc) ==> r in a.vouched)
    && (SawTurned(q.pc) ==> r in a.accused)
    && (SawOther(q.pc) ==> r in a.cleared)
  }

  // What a request other than a refresh still asks for.
  function OrderOf(q: Request): Option<Order> {
    match q
    case LoggingOut(client, hash, lpc) => if lpc == LogoutDone then None else Some(LogOut(client, hash))
    case SigningIn(user, SignInStart) => Some(SignIn(user))
    case SigningIn(user, SignInPrepare) => Some(Admitted(user))
    case SigningIn(user, SignInInsert(_)) => Some(Admitted(user))
    case RevokingOne(user, id, done) => if done then None else Some(EndSession(user, id))
    case RevokingAll(user, done) => if done then None else Some(EndSessions(user))
    case SigningOut(user, done) => if done then None else Some(EndAll(user))
    case SettingActive(client, user, active, ActiveStart) => Some(Order.SetActive(client, user, active))
    case SettingActive(_, user, _, ActiveRevoke) => Some(EndAll(user))
    case _ => None
  }

  ghost predicate OrdersAre(s: State, a: Simple) {
    && (forall r :: r in a.orders <==> r in s.reqs && OrderOf(s.reqs[r]).Some?)
    && (forall r :: r in a.orders ==> OrderOf(s.reqs[r]) == Some(a.orders[r]))
  }

  ghost predicate Rep(s: State, a: Simple) {
    && a.grace == s.cfg.grace && a.now == s.now && a.users == s.users && a.born == s.table.born
    && a.turned == s.table.suspects && FamiliesAre(s.table, a.families) && AsksAre(s, a)
    && OrdersAre(s, a)
  }

  // ----- Decisions agree -----

  lemma RotatableIsCanRotate(s: State, a: Simple, t: Id, at: Time)
    requires Rep(s, a) && TableInv(s.table)
    ensures Rotatable(s.table.rows, t, at) <==> t in s.table.rows && CanRotate(a, t, at)
    ensures t !in s.table.rows ==> !CanRotate(a, t, at)
  {
    hide HashesDistinct, Ordered, Recorded, OneActive, LinkedOnce, Linked, AsksAre, OrdersAre;
    if t in s.table.rows { RootIsFamily(s.table, a.families, t); }
    if OfFamily(a, t) {
      var f := a.born[t].root;
      assert Describes(s.table, f, a.families[f]);
      assert IsHead(s.table, f, t) <==> a.families[f].head == Some(t);
    }
  }

  lemma ReplaceableIsCanRetry(s: State, a: Simple, t: Id, op: Hash)
    requires Rep(s, a) && TableInv(s.table) && t in s.table.rows
    ensures Replaceable(s.table.rows, t, s.table.rows[t].userId, op, s.now, s.cfg.grace) <==> CanRetry(a, t, op)
  {
    hide HashesDistinct, Ordered, AsksAre, OrdersAre;
    RootIsFamily(s.table, a.families, t);
    var f := a.born[t].root;
    var fam := a.families[f];
    assert Describes(s.table, f, fam);
    assert t in fam.spent <==> IsSpent(s.table, f, t);
    if Replaceable(s.table.rows, t, s.table.rows[t].userId, op, s.now, s.cfg.grace) {
      var x := s.table.rows[t].replacedBy.value;
      assert Links(s.table, t, x);
      assert IsHead(s.table, f, x);
      assert fam.head == Some(x);
      assert fam.link.Some? && fam.link.value.pred == t;
    }
    if CanRetry(a, t, op) {
      assert IsHead(s.table, f, fam.head.value);
      assert Links(s.table, t, fam.head.value);
    }
  }

  lemma GoneCannotRetry(s: State, a: Simple, t: Id, op: Hash)
    requires Rep(s, a) && t !in s.table.rows
    ensures !CanRetry(a, t, op)
  {
    if OfFamily(a, t) {
      assert Describes(s.table, a.born[t].root, a.families[a.born[t].root]);
      assert !IsSpent(s.table, a.born[t].root, t);
    }
  }

  lemma HeadsAreActive(s: State, a: Simple, user: UserId, x: Id)
    requires Rep(s, a) && TableInv(s.table)
    ensures x in ActiveOf(s.table.rows, user) <==> IsHeadOf(a, user, x)
  {
    hide HashesDistinct, Ordered, Recorded, OneActive, LinkedOnce, Linked, AsksAre, OrdersAre;
    if x in s.table.rows { RootIsFamily(s.table, a.families, x); }
    if OfFamily(a, x) {
      var f := a.born[x].root;
      assert Describes(s.table, f, a.families[f]);
      assert IsHead(s.table, f, x) <==> a.families[f].head == Some(x);
    }
  }

  lemma KnownAreAll(s: State, a: Simple, user: UserId, x: Id)
    requires Rep(s, a) && TableInv(s.table)
    ensures x in AllOf(s.table.rows, user) <==> IsKnownOf(a, user, x)
    ensures IsKnownOf(a, user, x) ==> x in s.table.rows
  {
    hide HashesDistinct, Ordered, Recorded, OneActive, LinkedOnce, Linked, AsksAre, OrdersAre;
    if x in s.table.rows { RootIsFamily(s.table, a.families, x); }
    if OfFamily(a, x) {
      var f := a.born[x].root;
      assert Describes(s.table, f, a.families[f]);
      assert IsHead(s.table, f, x) <==> a.families[f].head == Some(x);
      assert IsSpent(s.table, f, x) <==> x in a.families[f].spent;
    }
  }

  lemma HeldTurnedIsRotated(s: State, a: Simple, t: Id)
    requires Rep(s, a) && Inv(s)
    ensures HeldTurned(a, t) <==> t in s.table.rows && SeenAsRotated(s.table.rows[t])
  {
    hide HashesDistinct, Ordered, Recorded, OneActive, LinkedOnce, Linked, AsksAre, OrdersAre, Timely, Covered,
      Retained, ReqsInv, PendingDistinct;
    if t in s.table.rows { RootIsFamily(s.table, a.families, t); }
    if OfFamily(a, t) {
      var f := a.born[t].root;
      assert Describes(s.table, f, a.families[f]);
      assert IsSpent(s.table, f, t) <==> t in a.families[f].spent;
    }
  }

  // Why a refusal is right for the presented token.
  ghost predicate Refusable(s: State, client: ClientId, op: Hash, t: Id) {
    || (t in s.table.born && OwnerOf(s.users, s.table.born[t].userId, client).None?)
    || (t in s.table.born && OwnerOf(s.users, s.table.born[t].userId, client).Some?
        && !OwnerOf(s.users, s.table.born[t].userId, client).value.isActive)
    || (t in s.table.born && s.table.born[t].expiresAt <= s.now)
    || t !in s.table.rows
    || (s.table.rows[t].revoked
        && !Replaceable(s.table.rows, t, s.table.rows[t].userId, op, s.now, s.cfg.grace))
  }

  lemma RefusableToken(s: State, a: Simple, client: ClientId, op: Hash, t: Id)
    requires Rep(s, a) && TableInv(s.table) && t in s.table.born && Refusable(s, client, op, t)
    ensures !Live(a, t, client) || a.born[t].expiresAt <= a.now || (!CanRotate(a, t, a.now) && !CanRetry(a, t, op))
  {
    hide TableInv, FamiliesAre, AsksAre, OrdersAre, CanRotate, CanRetry, Replaceable;
    RotatableIsCanRotate(s, a, t, s.now);
    if t in s.table.rows { ReplaceableIsCanRetry(s, a, t, op); } else { GoneCannotRetry(s, a, t, op); }
  }

  lemma RefusableMayDeny(s: State, a: Simple, r: ReqId)
    requires Rep(s, a) && TableInv(s.table) && r in a.asks
    requires forall t :: t in s.table.born && s.table.born[t].tokenHash == a.asks[r].hash ==>
               Refusable(s, a.asks[r].client, a.asks[r].op, t)
    ensures MayDeny(a, r)
  {
    hide TableInv, FamiliesAre, AsksAre, OrdersAre, CanRotate, CanRetry, Refusable, Live;
    forall t | t in a.born && a.born[t].tokenHash == a.asks[r].hash
      ensures || !Live(a, t, a.asks[r].client) || a.born[t].expiresAt <= a.now
              || (!CanRotate(a, t, a.now) && !CanRetry(a, t, a.asks[r].op))
    {
      RefusableToken(s, a, a.asks[r].client, a.asks[r].op, t);
    }
  }

  // ----- When the code refuses, the refusal is right at that moment -----

  ghost predicate TurnsDown(s: State, q: Request, f: Fresh) {
    q.Refreshing? && VerdictOf(q.pc) == Undecided && Denies(VerdictOf(PlanRefresh(s, q, f).1))
  }

  predicate Denies(v: Verdict) {
    v == Declined || v == Condemned || v == Refused
  }

  lemma UnknownRefused(s: State, q: Request, f: Fresh, t: Id)
    requires TableInv(s.table) && TurnsDown(s, q, f) && q.pc == Start
    requires t in s.table.born && s.table.born[t].tokenHash == q.hash
    ensures Refusable(s, q.client, q.op, t)
  {
    hide HashesDistinct, Ordered, Rooted, Recorded, OneActive, LinkedOnce, Linked;
  }

  lemma ReadRefused(s: State, q: Request, f: Fresh)
    requires TableInv(s.table) && TurnsDown(s, q, f) && ReqInv(s, q) && (q.pc.HasStored? || q.pc.HasOwner?)
    ensures Refusable(s, q.client, q.op, q.pc.st.id)
  {
    hide HashesDistinct, Ordered, Rooted, Recorded, OneActive, LinkedOnce, Linked;
  }

  lemma CheckRefused(s: State, q: Request, f: Fresh)
    requires TableInv(s.table) && TurnsDown(s, q, f) && ReqInv(s, q) && (q.pc.RetryCheck? || q.pc.RetryTx?)
    ensures Refusable(s, q.client, q.op, q.pc.st.id)
  {
    hide HashesDistinct, Ordered, Rooted, OneActive, LinkedOnce, Linked;
  }

  lemma TurnDownToken(s: State, q: Request, f: Fresh, t: Id)
    requires TableInv(s.table) && ReqInv(s, q) && TurnsDown(s, q, f)
    requires t in s.table.born && s.table.born[t].tokenHash == q.hash
    ensures Refusable(s, q.client, q.op, t)
  {
    if q.pc == Start {
      UnknownRefused(s, q, f, t);
    } else {
      SameToken(s, q, t);
      if q.pc.HasStored? || q.pc.HasOwner? { ReadRefused(s, q, f); } else { CheckRefused(s, q, f); }
    }
    hide TableInv, ReqInv, Refusable;
  }

  lemma TurnDownRight(s: State, a: Simple, r: ReqId, f: Fresh)
    requires Inv(s) && Rep(s, a) && r in s.reqs && TurnsDown(s, s.reqs[r], f)
    ensures r in a.asks && MayDeny(a, r)
  {
    var q := s.reqs[r];
    InvParts(s, r);
    hide TableInv, ReqInv, Refusable, Inv, PlanRefresh, FamiliesAre;
    forall t | t in s.table.born && s.table.born[t].tokenHash == q.hash
      ensures Refusable(s, q.client, q.op, t)
    {
      TurnDownToken(s, q, f, t);
    }
    RefusableMayDeny(s, a, r);
  }
}
