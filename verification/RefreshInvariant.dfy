/** The inductive invariant of the refresh machine, kept by every step of every request. */
module RefreshInvariant {
  import opened Wrappers
  import opened TokenTable
  import opened RefreshMachine

  // ----- What a request knows at each point -----

  // A stale row still describes the row it was read from.
  ghost predicate Known(s: State, hash: Hash, st: Stored) {
    && st.id in s.table.born
    && Matches(st.row, s.table.born[st.id])
    && st.row.tokenHash == hash
    && (st.id in s.table.rows ==> Evolves(st.row, s.table.rows[st.id]))
    && (SeenAsRotated(st.row) ==> st.id in s.table.suspects)
  }

  predicate Owned(s: State, client: ClientId, st: Stored) {
    OwnerOf(s.users, st.row.userId, client).Some?
  }

  // A prepared session nobody has inserted.
  ghost predicate Pending(s: State, p: Prepared) {
    && p.id in s.usedIds && p.tokenHash in s.usedHashes
    && FreshFor(s.table.born, p)
    && p.expiresAt <= s.now + s.cfg.lifetime
    && p.userId in s.users
  }

  ghost predicate Heir(s: State, st: Stored, p: Prepared) {
    Pending(s, p) && p.userId == st.row.userId && p.expiresAt >= st.row.expiresAt
  }

  predicate Spent(s: State, st: Stored) {
    st.id in s.table.rows ==> s.table.rows[st.id].revoked
  }

  predicate Unrotatable(s: State, st: Stored) {
    st.id in s.table.rows ==> s.table.rows[st.id].revoked || st.row.expiresAt <= s.now
  }

  ghost predicate Candidate(s: State, st: Stored, candidate: Option<Row>) {
    match candidate
    case None => st.id !in s.table.rows
    case Some(row) =>
      && (st.id in s.table.rows ==> Evolves(row, s.table.rows[st.id]))
      && row.expiresAt == st.row.expiresAt && Whole(row)
      && (row.revoked || st.row.expiresAt <= s.now)
  }

  ghost predicate Answered(s: State, op: Hash, st: Stored, id: Id) {
    && st.id in s.table.spun && st.id in s.table.born && s.table.spun[st.id].op == op
    && id in s.table.born && s.table.born[id].root == s.table.born[st.id].root
    && s.table.born[id].order > s.table.born[st.id].order
  }

  ghost predicate RefreshInv(s: State, client: ClientId, hash: Hash, op: Hash, pc: RefreshPc) {
    match pc
    case Start => true
    case HasStored(st) => Known(s, hash, st)
    case HasOwner(st, owner) => Known(s, hash, st) && (owner.Some? ==> Owned(s, client, st))
    case ToPrepare(st) => Known(s, hash, st) && Owned(s, client, st)
    case HasSuccessor(st, p) => Known(s, hash, st) && Owned(s, client, st) && Heir(s, st, p)
    case Timed(st, p, at) => Known(s, hash, st) && Owned(s, client, st) && Heir(s, st, p) && at <= s.now
    case RetryRead(st, late) => Known(s, hash, st) && Owned(s, client, st) && Unrotatable(s, st)
    case RetryCheck(st, late, candidate) => Known(s, hash, st) && Owned(s, client, st) && Candidate(s, st, candidate)
    case RetryPrepare(st, late) => Known(s, hash, st) && Owned(s, client, st) && Spent(s, st)
    case RetryTx(st, late, p) => Known(s, hash, st) && Owned(s, client, st) && Spent(s, st) && Heir(s, st, p)
    case Latest(st) => Known(s, hash, st) && Owned(s, client, st)
    case Replay(st) => Known(s, hash, st) && Owned(s, client, st) && st.id in s.table.suspects
    case Done200(st, id) => Known(s, hash, st) && Owned(s, client, st) && Answered(s, op, st, id)
    case Done401 => true
  }

  // How the first read left the branch: only a row read as rotated enters the
  // retry path directly, only a row read as active reaches the rotation.
  predicate ReadAs(st: Stored, late: bool) {
    if late then !st.row.revoked else SeenAsRotated(st.row)
  }

  predicate Routed(pc: RefreshPc) {
    match pc
    case ToPrepare(st) => ReadAs(st, true)
    case HasSuccessor(st, _) => ReadAs(st, true)
    case Timed(st, _, _) => ReadAs(st, true)
    case RetryRead(st, late) => ReadAs(st, late)
    case RetryCheck(st, late, _) => ReadAs(st, late)
    case RetryPrepare(st, late) => ReadAs(st, late)
    case RetryTx(st, late, _) => ReadAs(st, late)
    case Latest(st) => ReadAs(st, true)
    case Replay(st) => ReadAs(st, true) || ReadAs(st, false)
    case Done200(st, _) => ReadAs(st, true) || ReadAs(st, false)
    case _ => true
  }

  ghost predicate ReqInv(s: State, q: Request) {
    match q
    case Refreshing(client, hash, op, pc) => RefreshInv(s, client, hash, op, pc) && Routed(pc)
    case LoggingOut(client, hash, LogoutStored(st)) => Known(s, hash, st)
    case LoggingOut(client, hash, LogoutOwned(st)) => Known(s, hash, st) && Owned(s, client, st)
    case SigningIn(user, SignInPrepare) => user in s.users
    case SigningIn(user, SignInInsert(p)) => Pending(s, p) && p.userId == user
    case CleaningUp(CleanupCut(cutoff)) => cutoff <= s.now - RETENTION
    case _ => true
  }

  function PendingOf(q: Request): Option<Prepared> {
    match q
    case Refreshing(_, _, _, HasSuccessor(_, p)) => Some(p)
    case Refreshing(_, _, _, Timed(_, p, _)) => Some(p)
    case Refreshing(_, _, _, RetryTx(_, _, p)) => Some(p)
    case SigningIn(_, SignInInsert(p)) => Some(p)
    case _ => None
  }

  predicate Clash(a: Request, b: Request) {
    && PendingOf(a).Some? && PendingOf(b).Some?
    && (PendingOf(a).value.id == PendingOf(b).value.id || PendingOf(a).value.tokenHash == PendingOf(b).value.tokenHash)
  }

  ghost predicate PendingDistinct(s: State) {
    forall a, b :: a in s.reqs && b in s.reqs && Clash(s.reqs[a], s.reqs[b]) ==> a == b
  }

  ghost predicate ReqsInv(s: State) {
    forall r :: r in s.reqs ==> ReqInv(s, s.reqs[r])
  }

  // ----- What the table keeps over time -----

  ghost predicate Timely(s: State) {
    && s.cfg.grace <= MAX_GRACE
    && (forall id :: id in s.table.born ==> s.table.born[id].expiresAt <= s.now + s.cfg.lifetime)
    && (forall id :: id in s.table.spun ==> s.table.spun[id].at <= s.now)
  }

  ghost predicate Covered(s: State) {
    && (forall id :: id in s.table.born ==>
          id in s.usedIds && s.table.born[id].tokenHash in s.usedHashes && s.table.born[id].userId in s.users)
  }

  // The cleanup job never removes a rotated row while a retry could still need it.
  ghost predicate Retained(s: State) {
    forall id :: id in s.table.spun && s.now <= s.table.spun[id].at + RETENTION ==> id in s.table.rows
  }

  ghost predicate Inv(s: State) {
    TableInv(s.table) && Timely(s) && Covered(s) && Retained(s) && ReqsInv(s) && PendingDistinct(s)
  }

  // ----- Every effect runs under its own guard -----

  lemma RefreshAllowed(s: State, q: Request, f: Fresh)
    requires TableInv(s.table) && q.Refreshing? && ReqInv(s, q)
    ensures Allowed(s.table, PlanRefresh(s, q, f).0)
  {
    hide HashesDistinct, Ordered, Rooted, Recorded, OneActive, Linked, LinkedOnce;
  }

  lemma PlanAllowed(s: State, q: Request, f: Fresh)
    requires TableInv(s.table) && ReqInv(s, q)
    ensures Allowed(s.table, Plan(s, q, f).effect)
  {
    if q.Refreshing? {
      RefreshAllowed(s, q, f);
    }
    hide TableInv, PlanRefresh, RefreshInv;
  }

  // ----- Other requests' knowledge survives a step -----

  // p is the session the step inserted, if any.
  ghost predicate Advances(s: State, s': State, inserted: Option<Prepared>) {
    && s'.cfg == s.cfg && s.now <= s'.now
    && s.usedIds <= s'.usedIds && s.usedHashes <= s'.usedHashes
    && (forall u :: u in s.users ==> u in s'.users && s'.users[u].clientId == s.users[u].clientId)
    && Grows(s.table, s'.table)
    && (forall id :: id in s'.table.born && id !in s.table.born ==>
          inserted.Some? && id == inserted.value.id && s'.table.born[id].tokenHash == inserted.value.tokenHash)
  }

  predicate Untouched(p: Prepared, inserted: Option<Prepared>) {
    inserted.Some? ==> p.id != inserted.value.id && p.tokenHash != inserted.value.tokenHash
  }

  lemma KnownLater(s: State, s': State, ins: Option<Prepared>, hash: Hash, st: Stored)
    requires Advances(s, s', ins) && Known(s, hash, st)
    ensures Known(s', hash, st)
    ensures Spent(s, st) ==> Spent(s', st)
    ensures Unrotatable(s, st) ==> Unrotatable(s', st)
    ensures forall c :: Candidate(s, st, c) ==> Candidate(s', st, c)
    ensures forall op, id :: Answered(s, op, st, id) ==> Answered(s', op, st, id)
    ensures forall client :: Owned(s, client, st) ==> Owned(s', client, st)
  {}

  lemma PendingLater(s: State, s': State, ins: Option<Prepared>, p: Prepared)
    requires Advances(s, s', ins) && Pending(s, p) && Untouched(p, ins)
    ensures Pending(s', p)
  {}

  lemma ReqLater(s: State, s': State, ins: Option<Prepared>, q: Request)
    requires Advances(s, s', ins) && ReqInv(s, q)
    requires PendingOf(q).Some? ==> Untouched(PendingOf(q).value, ins)
    ensures ReqInv(s', q)
  {
    match q
    case Refreshing(client, hash, op, pc) =>
      if PendingOf(q).Some? { PendingLater(s, s', ins, PendingOf(q).value); }
      if pc != Start && pc != Done401 { KnownLater(s, s', ins, hash, pc.st); }
      hide Advances, Known, Owned, Pending, Spent, Unrotatable, Candidate, Answered;
    case LoggingOut(client, hash, LogoutStored(st)) => KnownLater(s, s', ins, hash, st);
    case LoggingOut(client, hash, LogoutOwned(st)) => KnownLater(s, s', ins, hash, st);
    case SigningIn(user, SignInInsert(p)) => PendingLater(s, s', ins, p);
    case _ =>
  }

  // ----- The acting request -----

  function Inserted(e: Effect): Option<Prepared> {
    match e
    case InsertRoot(p) => Some(p)
    case Rotate(_, _, _, p) => Some(p)
    case Replace(_, _, p) => Some(p)
    case _ => None
  }

  lemma InsertedIsPending(s: State, q: Request, f: Fresh)
    ensures var ins := Inserted(Plan(s, q, f).effect); ins.Some? ==> ins == PendingOf(q) && !Draws(q)
  {}

  lemma ApplyBirths(t: Table, e: Effect)
    ensures forall id :: id in Apply(t, e).born && id !in t.born ==>
              Inserted(e).Some? && id == Inserted(e).value.id
              && Apply(t, e).born[id].tokenHash == Inserted(e).value.tokenHash
              && Apply(t, e).born[id].expiresAt == Inserted(e).value.expiresAt
              && Apply(t, e).born[id].userId == Inserted(e).value.userId
  {}

  lemma PlanUsers(s: State, q: Request, f: Fresh)
    ensures forall u :: u in s.users ==>
              u in Plan(s, q, f).users && Plan(s, q, f).users[u].clientId == s.users[u].clientId
  {
    hide PlanRefresh, PlanLogout;
  }

  lemma ActAdvances(s: State, r: ReqId, f: Fresh)
    requires Inv(s) && CanAct(s, r, f)
    ensures Advances(s, After(s, r, f), Inserted(Plan(s, s.reqs[r], f).effect))
    ensures TableInv(After(s, r, f).table)
  {
    var q := s.reqs[r];
    PlanAllowed(s, q, f);
    var e := Plan(s, q, f).effect;
    ApplyKeepsInv(s.table, e);
    ApplyBirths(s.table, e);
    PlanUsers(s, q, f);
    hide TableInv, Allowed, Grows, Plan, Apply, Inserted, ReqInv, Timely, Covered, Retained, PendingDistinct, PendingOf;
  }

  // s' differs from s only in the requests.
  predicate SameStore(s: State, s': State) {
    && s'.table == s.table && s'.users == s.users && s'.now == s.now && s'.cfg == s.cfg
    && s'.usedIds == s.usedIds && s'.usedHashes == s.usedHashes
  }

  lemma SelectStep(s: State, q: Request, f: Fresh, s': State)
    requires q.Refreshing? && q.pc == Start && TableInv(s.table) && SameStore(s, s')
    ensures ReqInv(s', q.(pc := PlanRefresh(s, q, f).1))
  {
    hide HashesDistinct, Ordered, Rooted, OneActive, Linked, LinkedOnce;
    var found := Lookup(s.table.rows, q.hash);
    if found.Some? { assert found.value.id in s.table.rows; }
  }

  lemma ReadStep(s: State, q: Request, f: Fresh, s': State)
    requires q.Refreshing? && q.pc != Start && !Draws(q) && ReqInv(s, q) && TableInv(s.table) && SameStore(s, s')
    requires PlanRefresh(s, q, f).0 == NoChange
    ensures ReqInv(s', q.(pc := PlanRefresh(s, q, f).1))
  {
    hide HashesDistinct, Ordered, Rooted, Certified, OneActive, Linked, LinkedOnce, Matches, Whole, FreshFor;
  }

  lemma DrawStep(s: State, q: Request, f: Fresh, s': State)
    requires Draws(q) && ReqInv(s, q) && Covered(s) && Timely(s)
    requires f.id !in s.usedIds && f.tokenHash !in s.usedHashes
    requires s'.table == s.table && s'.users == s.users && s'.now == s.now && s'.cfg == s.cfg
    requires s'.usedIds == s.usedIds + {f.id} && s'.usedHashes == s.usedHashes + {f.tokenHash}
    ensures ReqInv(s', Plan(s, q, f).next)
  {
    if q.Refreshing? {
      assert q.pc.st.id in s.table.born;
    }
  }

  lemma RotateStep(s: State, q: Request, f: Fresh, s': State)
    requires q.Refreshing? && q.pc.Timed? && ReqInv(s, q)
    requires PlanRefresh(s, q, f).0.Rotate?
    requires s'.table == Apply(s.table, PlanRefresh(s, q, f).0) && s'.users == s.users && Grows(s.table, s'.table)
    requires TableInv(s.table)
    ensures ReqInv(s', q.(pc := PlanRefresh(s, q, f).1))
  {
    hide HashesDistinct, Rooted, OneActive, Linked, LinkedOnce, FreshFor, Rows;
  }

  lemma ReplaceStep(s: State, q: Request, f: Fresh, s': State)
    requires q.Refreshing? && q.pc.RetryTx? && ReqInv(s, q)
    requires PlanRefresh(s, q, f).0.Replace?
    requires s'.table == Apply(s.table, PlanRefresh(s, q, f).0) && s'.users == s.users && Grows(s.table, s'.table)
    requires TableInv(s.table)
    ensures ReqInv(s', q.(pc := PlanRefresh(s, q, f).1))
  {
    hide HashesDistinct, Rooted, OneActive, Linked, LinkedOnce, FreshFor, Rows;
  }

  lemma ReplayStep(s: State, q: Request, f: Fresh, s': State)
    requires q.Refreshing? && !Draws(q) && PlanRefresh(s, q, f).0.Revoke?
    ensures ReqInv(s', q.(pc := PlanRefresh(s, q, f).1))
  {}

  lemma AfterRefresh(s: State, r: ReqId, f: Fresh)
    requires r in s.reqs && s.reqs[r].Refreshing?
    ensures var q := s.reqs[r]; var s' := After(s, r, f); var (e, pc) := PlanRefresh(s, q, f);
            && s'.table == Apply(s.table, e) && s'.users == s.users && s'.now == s.now && s'.cfg == s.cfg
            && s'.reqs[r] == q.(pc := pc)
            && Plan(s, q, f).effect == e && Plan(s, q, f).next == s'.reqs[r]
            && s'.usedIds == (if Draws(q) then s.usedIds + {f.id} else s.usedIds)
            && s'.usedHashes == (if Draws(q) then s.usedHashes + {f.tokenHash} else s.usedHashes)
            && (Draws(q) || q.pc == Start ==> e == NoChange) && (e.Rotate? ==> q.pc.Timed?)
               && (e.Replace? ==> q.pc.RetryTx?)
            && (e.NoChange? || e.Rotate? || e.Replace? || e.Revoke?)
  {
    hide Apply;
  }

  lemma RefreshStep(s: State, r: ReqId, f: Fresh)
    requires Inv(s) && CanAct(s, r, f) && s.reqs[r].Refreshing?
    ensures ReqInv(After(s, r, f), After(s, r, f).reqs[r])
  {
    var q := s.reqs[r];
    var s' := After(s, r, f);
    assert ReqInv(s, q);
    ActAdvances(s, r, f);
    AfterRefresh(s, r, f);
    NothingEffect(s.table);
    hide TableInv, Timely, Covered, Retained, ReqsInv, ReqInv, PendingDistinct, Grows, Allowed;
    hide After, Plan, PlanRefresh, Apply;
    var e := PlanRefresh(s, q, f).0;
    if Draws(q) {
      DrawStep(s, q, f, s');
    } else if q.pc == Start {
      SelectStep(s, q, f, s');
    } else if e.Rotate? {
      RotateStep(s, q, f, s');
    } else if e.Replace? {
      ReplaceStep(s, q, f, s');
    } else if e == NoChange {
      ReadStep(s, q, f, s');
    } else {
      ReplayStep(s, q, f, s');
    }
  }

  lemma OtherStep(s: State, r: ReqId, f: Fresh)
    requires Inv(s) && CanAct(s, r, f) && !s.reqs[r].Refreshing?
    ensures ReqInv(After(s, r, f), After(s, r, f).reqs[r])
  {
    var q := s.reqs[r];
    assert ReqInv(s, q);
    if Draws(q) {
      DrawStep(s, q, f, After(s, r, f));
    }
    hide HashesDistinct, Ordered, Rooted, OneActive, Linked, LinkedOnce;
    hide Retained, PendingDistinct, PlanRefresh, RefreshInv, Allowed;
  }

  lemma OthersUntouched(s: State, r: ReqId, f: Fresh, a: ReqId)
    requires PendingDistinct(s) && r in s.reqs && a in s.reqs && a != r && PendingOf(s.reqs[a]).Some?
    ensures Untouched(PendingOf(s.reqs[a]).value, Inserted(Plan(s, s.reqs[r], f).effect))
  {
    InsertedIsPending(s, s.reqs[r], f);
    assert !Clash(s.reqs[a], s.reqs[r]);
    hide Plan, Inserted, PendingOf;
  }

  lemma ActKeepsReqs(s: State, r: ReqId, f: Fresh)
    requires Inv(s) && CanAct(s, r, f)
    ensures ReqsInv(After(s, r, f))
  {
    var s' := After(s, r, f);
    var ins := Inserted(Plan(s, s.reqs[r], f).effect);
    ActAdvances(s, r, f);
    if s.reqs[r].Refreshing? { RefreshStep(s, r, f); } else { OtherStep(s, r, f); }
    forall a | a in s'.reqs
      ensures ReqInv(s', s'.reqs[a])
    {
      hide TableInv, Timely, Covered, Retained, Plan, Advances, Inserted, ReqInv, PendingOf;
      if a != r {
        if PendingOf(s.reqs[a]).Some? { OthersUntouched(s, r, f, a); }
        ReqLater(s, s', ins, s.reqs[a]);
      }
    }
  }

  lemma NextPending(s: State, q: Request, f: Fresh)
    ensures var n := PendingOf(Plan(s, q, f).next);
            n.Some? ==> if Draws(q) then n.value.id == f.id && n.value.tokenHash == f.tokenHash
                        else n == PendingOf(q)
  {}

  lemma ActKeepsPending(s: State, r: ReqId, f: Fresh)
    requires Inv(s) && CanAct(s, r, f)
    ensures PendingDistinct(After(s, r, f))
  {
    var s' := After(s, r, f);
    NextPending(s, s.reqs[r], f);
    forall a, b | a in s'.reqs && b in s'.reqs && Clash(s'.reqs[a], s'.reqs[b])
      ensures a == b
    {
      PendingUsed(s, a);
      PendingUsed(s, b);
      hide TableInv, Timely, Covered, Retained, Plan, ReqInv, ReqsInv, PendingOf;
      if a != b {
        assert false;
      }
    }
  }

  lemma PendingUsed(s: State, a: ReqId)
    requires ReqsInv(s) && a in s.reqs
    ensures PendingOf(s.reqs[a]).Some? ==>
              PendingOf(s.reqs[a]).value.id in s.usedIds && PendingOf(s.reqs[a]).value.tokenHash in s.usedHashes
  {
    assert ReqInv(s, s.reqs[a]);
  }

  lemma RotationTime(s: State, q: Request, f: Fresh)
    requires ReqInv(s, q)
    ensures var e := Plan(s, q, f).effect; e.Rotate? ==> e.at <= s.now
    ensures var e := Plan(s, q, f).effect; e.Delete? ==> e.cutoff <= s.now - RETENTION
  {
    hide Known, Owned, Heir, Candidate, Answered, Rotatable, Replaceable;
  }

  lemma ApplyRotations(t: Table, e: Effect)
    ensures forall id :: id in Apply(t, e).spun && id !in t.spun ==> e.Rotate? && Apply(t, e).spun[id].at == e.at
    ensures forall id :: id in Apply(t, e).spun && id in t.spun ==>
              Apply(t, e).spun[id] == t.spun[id] || (e.Rotate? && Apply(t, e).spun[id].at == e.at)
  {}

  lemma InsertedPending(s: State, q: Request, f: Fresh)
    requires ReqInv(s, q)
    ensures var ins := Inserted(Plan(s, q, f).effect); ins.Some? ==> Pending(s, ins.value)
  {
    hide Known, Owned, Candidate, Answered, Rotatable, Replaceable;
  }

  lemma ActKeepsTimely(s: State, r: ReqId, f: Fresh)
    requires Inv(s) && CanAct(s, r, f)
    ensures Timely(After(s, r, f))
  {
    hide TableInv, Covered, Retained, PendingDistinct, Plan, Inserted, Apply, FreshFor, ReqInv;
    var q := s.reqs[r];
    var e := Plan(s, q, f).effect;
    assert ReqInv(s, q);
    ApplyBirths(s.table, e);
    ApplyRotations(s.table, e);
    ActAdvances(s, r, f);
    RotationTime(s, q, f);
    InsertedPending(s, q, f);
    hide ReqsInv;
  }

  lemma ActKeepsCovered(s: State, r: ReqId, f: Fresh)
    requires Inv(s) && CanAct(s, r, f)
    ensures Covered(After(s, r, f))
  {
    hide TableInv, Timely, Retained, PendingDistinct, Plan, Inserted, Apply, FreshFor, ReqInv;
    var q := s.reqs[r];
    var e := Plan(s, q, f).effect;
    assert ReqInv(s, q);
    ApplyBirths(s.table, e);
    ActAdvances(s, r, f);
    InsertedPending(s, q, f);
    hide ReqsInv;
  }

  lemma ActKeepsRetained(s: State, r: ReqId, f: Fresh)
    requires Inv(s) && CanAct(s, r, f)
    ensures Retained(After(s, r, f))
  {
    hide HashesDistinct, Ordered, Rooted, OneActive, Linked, LinkedOnce, Covered, Timely, PendingDistinct, Plan, Apply,
      Allowed, ReqInv;
    var q := s.reqs[r];
    var s' := After(s, r, f);
    var e := Plan(s, q, f).effect;
    assert ReqInv(s, q);
    PlanAllowed(s, q, f);
    RotationTime(s, q, f);
    RetainedEffect(s.table, e, s.now);
    hide ReqsInv;
  }

  lemma RetainedEffect(t: Table, e: Effect, now: Time)
    requires TableInv(t) && Allowed(t, e)
    requires e.Delete? ==> e.cutoff <= now - RETENTION
    requires forall id :: id in t.spun && now <= t.spun[id].at + RETENTION ==> id in t.rows
    ensures var t' := Apply(t, e); forall id :: id in t'.spun && now <= t'.spun[id].at + RETENTION ==> id in t'.rows
  {
    hide HashesDistinct, Ordered, Rooted, OneActive, Linked, LinkedOnce, FreshFor;
  }

  lemma ActKeepsInv(s: State, r: ReqId, f: Fresh)
    requires Inv(s) && CanAct(s, r, f)
    ensures Inv(After(s, r, f))
  {
    ActAdvances(s, r, f);
    ActKeepsTimely(s, r, f);
    ActKeepsCovered(s, r, f);
    ActKeepsRetained(s, r, f);
    ActKeepsReqs(s, r, f);
    ActKeepsPending(s, r, f);
    hide After, TableInv, Timely, Covered, Retained, ReqsInv, PendingDistinct, Advances;
  }

  lemma QuietState(s: State, e: Step, s': State)
    requires NextStep(s, e, s') && !e.Act?
    ensures s'.table == s.table && s'.cfg == s.cfg && s.now <= s'.now
    ensures s'.usedIds == s.usedIds && s'.usedHashes == s.usedHashes
    ensures forall u :: u in s.users ==> u in s'.users && s'.users[u] == s.users[u]
  {}

  lemma QuietAdvances(s: State, e: Step, s': State)
    requires Inv(s) && NextStep(s, e, s') && !e.Act?
    ensures Advances(s, s', None)
    ensures TableInv(s'.table) && Timely(s') && Covered(s') && Retained(s')
  {
    QuietState(s, e, s');
    assert Grows(s.table, s.table) by {
      NothingEffect(s.table);
      assert Apply(s.table, NoChange) == s.table;
    }
    hide TableInv, Grows, ReqsInv, PendingDistinct, NextStep, Apply;
  }

  lemma QuietReqs(s: State, e: Step, s': State)
    requires ReqsInv(s) && Advances(s, s', None) && NextStep(s, e, s') && !e.Act?
    ensures ReqsInv(s')
  {
    forall r | r in s'.reqs
      ensures ReqInv(s', s'.reqs[r])
    {
      hide Advances;
      if r in s.reqs { ReqLater(s, s', None, s.reqs[r]); }
    }
  }

  lemma QuietPending(s: State, e: Step, s': State)
    requires PendingDistinct(s) && NextStep(s, e, s') && !e.Act?
    ensures PendingDistinct(s')
  {}

  lemma QuietKeepsInv(s: State, e: Step, s': State)
    requires Inv(s) && NextStep(s, e, s') && !e.Act?
    ensures Inv(s') && Advances(s, s', None)
  {
    QuietAdvances(s, e, s');
    QuietReqs(s, e, s');
    QuietPending(s, e, s');
    hide TableInv, Advances, PendingDistinct, ReqsInv, Timely, Covered, Retained, NextStep;
  }

  /** The invariant holds before the first request and survives every step of every request. */
  lemma NextKeepsInv(s: State, e: Step, s': State)
    requires Inv(s) && NextStep(s, e, s')
    ensures Inv(s')
  {
    hide Inv;
    if e.Act? { ActKeepsInv(s, e.r, e.f); } else { QuietKeepsInv(s, e, s'); }
  }

  lemma InitInv(s: State)
    requires Init(s)
    ensures Inv(s)
  {}

  lemma {:induction false} HistoryInv(run: seq<State>, i: nat)
    requires IsHistory(run) && i < |run|
    ensures Inv(run[i])
  {
    hide Inv, Init, NextStep;
    if i == 0 {
      InitInv(run[0]);
    } else {
      HistoryInv(run, i - 1);
      assert Next(run[i - 1], run[i - 1 + 1]);
      var e :| NextStep(run[i - 1], e, run[i]);
      NextKeepsInv(run[i - 1], e, run[i]);
    }
  }

  lemma InvParts(s: State, r: ReqId)
    requires Inv(s) && r in s.reqs
    ensures TableInv(s.table) && ReqInv(s, s.reqs[r])
  {
    hide TableInv, ReqInv;
  }

  // A request past its first read holds the row of the token it presents.
  lemma SameToken(s: State, q: Request, t: Id)
    requires TableInv(s.table) && q.Refreshing? && ReqInv(s, q) && q.pc != Start && q.pc != Done401
    requires t in s.table.born && s.table.born[t].tokenHash == q.hash
    ensures t == q.pc.st.id
  {
    hide Ordered, Rooted, Recorded, OneActive, LinkedOnce, Linked, Certified;
  }
}
