/**
 * The refresh_tokens table. A statement or transaction of the source changes
 * the table by exactly one Effect; the table invariant is kept by every effect
 * whose own WHERE clause held when it ran.
 *
 * Three history components sit beside the rows and survive the cleanup job:
 * the birth certificate of every row ever inserted, the first rotation of every
 * row ever rotated, and the ids that were ever revoked as rotated.
 */
module TokenTable {
  import opened Wrappers

  type Id = nat
  type Hash = nat
  type UserId = nat
  type ClientId = nat
  type Time = int // milliseconds

  datatype Reason = Rotated | Retry | Logout | UserRevoked | Security

  datatype Row = Row(
    userId: UserId,
    tokenHash: Hash,
    revoked: bool,
    reason: Option<Reason>,
    opHash: Option<Hash>,
    rotatedAt: Option<Time>,
    replacedBy: Option<Id>,
    expiresAt: Time)

  // A session built by prepareSession but not yet inserted.
  datatype Prepared = Prepared(id: Id, userId: UserId, tokenHash: Hash, expiresAt: Time)

  function NewRow(p: Prepared): Row {
    Row(p.userId, p.tokenHash, false, None, None, None, None, p.expiresAt)
  }

  // What never changes about a row: root is the login that started its family,
  // order its place in the insertion order of the whole table.
  datatype Birth = Birth(userId: UserId, tokenHash: Hash, expiresAt: Time, root: Id, order: nat)

  datatype Rotation = Rotation(op: Hash, at: Time)

  datatype Table = Table(
    rows: map<Id, Row>,
    born: map<Id, Birth>,
    spun: map<Id, Rotation>,
    suspects: set<Id>)

  // ----- Row predicates of the source -----

  // revoked, and (revokedReason ?? "rotated") === "rotated"
  predicate SeenAsRotated(r: Row) {
    r.revoked && (r.reason == None || r.reason == Some(Rotated))
  }

  // The WHERE clause of the first rotation; now is the caller's own reading.
  predicate Rotatable(rows: map<Id, Row>, t: Id, now: Time) {
    t in rows && !rows[t].revoked && rows[t].expiresAt > now
  }

  // The six-way test a retry must pass, on the row as read.
  predicate Retryable(r: Row, op: Hash, cutoff: Time) {
    && SeenAsRotated(r)
    && r.opHash == Some(op)
    && r.rotatedAt.Some?
    && r.rotatedAt.value >= cutoff
    && r.replacedBy.Some?
  }

  // The locked re-check and the conditional update of the successor.
  predicate Replaceable(rows: map<Id, Row>, t: Id, user: UserId, op: Hash, now: Time, grace: nat) {
    && t in rows
    && Retryable(rows[t], op, now - grace)
    && rows[t].replacedBy.value in rows
    && var s := rows[rows[t].replacedBy.value];
       s.userId == user && !s.revoked && s.expiresAt > now
  }

  // ----- Effects -----

  datatype Effect =
    | NoChange
    | InsertRoot(p: Prepared)
    | Rotate(t: Id, op: Hash, at: Time, p: Prepared)
    | Replace(t: Id, prev: Id, p: Prepared)
    | Revoke(ids: set<Id>, why: Reason)
    | Delete(cutoff: Time)

  function Consumed(r: Row, op: Hash, at: Time, successor: Id): Row {
    r.(revoked := true, reason := Some(Rotated), opHash := Some(op),
       rotatedAt := Some(at), replacedBy := Some(successor))
  }

  function Struck(r: Row, why: Reason): Row {
    r.(revoked := true, reason := Some(why))
  }

  function RevokeRows(rows: map<Id, Row>, ids: set<Id>, why: Reason): map<Id, Row> {
    map id | id in rows :: if id in ids then Struck(rows[id], why) else rows[id]
  }

  function RotateRows(rows: map<Id, Row>, t: Id, op: Hash, at: Time, p: Prepared): map<Id, Row>
    requires t in rows
  {
    rows[t := Consumed(rows[t], op, at, p.id)][p.id := NewRow(p)]
  }

  function ReplaceRows(rows: map<Id, Row>, t: Id, prev: Id, p: Prepared): map<Id, Row>
    requires t in rows && prev in rows
  {
    rows[prev := Struck(rows[prev], Retry)][p.id := NewRow(p)][t := rows[t].(replacedBy := Some(p.id))]
  }

  function DeleteRows(rows: map<Id, Row>, cutoff: Time): map<Id, Row> {
    map id | id in rows && rows[id].expiresAt >= cutoff :: rows[id]
  }

  function Rows(rows: map<Id, Row>, e: Effect): map<Id, Row> {
    match e
    case NoChange => rows
    case InsertRoot(p) => rows[p.id := NewRow(p)]
    case Rotate(t, op, at, p) => if t in rows then RotateRows(rows, t, op, at, p) else rows
    case Replace(t, prev, p) => if t in rows && prev in rows then ReplaceRows(rows, t, prev, p) else rows
    case Revoke(ids, why) => RevokeRows(rows, ids, why)
    case Delete(cutoff) => DeleteRows(rows, cutoff)
  }

  function BirthOf(t: Table, p: Prepared, root: Id): Birth {
    Birth(p.userId, p.tokenHash, p.expiresAt, root, |t.born|)
  }

  function RootOf(t: Table, id: Id): Id {
    if id in t.born then t.born[id].root else id
  }

  function Apply(t: Table, e: Effect): Table {
    var rows := Rows(t.rows, e);
    match e
    case InsertRoot(p) =>
      t.(rows := rows, born := t.born[p.id := BirthOf(t, p, p.id)])
    case Rotate(x, op, at, p) =>
      Table(rows, t.born[p.id := BirthOf(t, p, RootOf(t, x))], t.spun[x := Rotation(op, at)], t.suspects + {x})
    case Replace(x, prev, p) =>
      t.(rows := rows, born := t.born[p.id := BirthOf(t, p, RootOf(t, x))])
    case _ => t.(rows := rows)
  }

  // ----- Invariant -----

  ghost predicate HashesDistinct(born: map<Id, Birth>) {
    forall a, b :: a in born && b in born && born[a].tokenHash == born[b].tokenHash ==> a == b
  }

  ghost predicate Ordered(born: map<Id, Birth>) {
    && (forall a, b :: a in born && b in born && born[a].order == born[b].order ==> a == b)
    && (forall a :: a in born ==> born[a].order < |born|)
  }

  ghost predicate Rooted(born: map<Id, Birth>) {
    forall a :: a in born ==>
      && born[a].root in born
      && born[born[a].root].root == born[a].root
      && born[born[a].root].userId == born[a].userId
  }

  predicate Matches(r: Row, b: Birth) {
    r.userId == b.userId && r.tokenHash == b.tokenHash && r.expiresAt == b.expiresAt
  }

  ghost predicate Certified(t: Table) {
    forall id :: id in t.rows ==> id in t.born && Matches(t.rows[id], t.born[id])
  }

  predicate Whole(r: Row) {
    && r.opHash.Some? == r.rotatedAt.Some? == r.replacedBy.Some?
    && (r.opHash.Some? ==> r.revoked && r.reason.Some?)
  }

  ghost predicate Recorded(t: Table) {
    && (forall id :: id in t.rows ==>
          && Whole(t.rows[id])
          && (id in t.spun <==> t.rows[id].opHash.Some?)
          && (id in t.spun ==> t.rows[id].opHash == Some(t.spun[id].op) && t.rows[id].rotatedAt == Some(t.spun[id].at))
          && (SeenAsRotated(t.rows[id]) ==> id in t.suspects))
    && (forall id :: id in t.spun ==> id in t.born && t.spun[id].at < t.born[id].expiresAt && id in t.suspects)
    && t.suspects <= t.born.Keys
  }

  // Two active rows never share a family.
  ghost predicate OneActive(t: Table) {
    forall a, b :: (a in t.rows && b in t.rows && !t.rows[a].revoked && !t.rows[b].revoked
                   && RootOf(t, a) == RootOf(t, b)) ==> a == b
  }

  predicate Links(t: Table, p: Id, x: Id) {
    p in t.rows && t.rows[p].replacedBy == Some(x)
  }

  predicate Succeeds(t: Table, p: Id, x: Id) {
    && p in t.born && x in t.born && x in t.rows
    && t.born[x].root == t.born[p].root
    && t.born[x].order > t.born[p].order
    && t.born[x].expiresAt >= t.born[p].expiresAt
  }

  // A successor pointer stays in its family, points forward in the insertion
  // order, never dangles, and the successor never expires first.
  ghost predicate Linked(t: Table) {
    forall p, x :: Links(t, p, x) ==> Succeeds(t, p, x)
  }

  ghost predicate LinkedOnce(t: Table) {
    forall p, q, x :: Links(t, p, x) && Links(t, q, x) ==> p == q
  }

  ghost predicate TableInv(t: Table) {
    && HashesDistinct(t.born) && Ordered(t.born) && Rooted(t.born)
    && Certified(t) && Recorded(t) && OneActive(t) && Linked(t) && LinkedOnce(t)
  }

  ghost predicate FreshFor(born: map<Id, Birth>, p: Prepared) {
    p.id !in born && (forall a :: a in born ==> born[a].tokenHash != p.tokenHash)
  }

  // The condition under which the source lets each effect happen.
  ghost predicate Allowed(t: Table, e: Effect) {
    match e
    case NoChange => true
    case InsertRoot(p) => FreshFor(t.born, p)
    case Rotate(x, op, at, p) =>
      && FreshFor(t.born, p) && Rotatable(t.rows, x, at)
      && p.userId == t.rows[x].userId && p.expiresAt >= t.rows[x].expiresAt
    case Replace(x, prev, p) =>
      && FreshFor(t.born, p) && x in t.rows && prev in t.rows
      && SeenAsRotated(t.rows[x]) && t.rows[x].replacedBy == Some(prev)
      && !t.rows[prev].revoked
      && p.userId == t.rows[x].userId && p.expiresAt >= t.rows[x].expiresAt
    case Revoke(ids, why) => why != Rotated
    case Delete(cutoff) => true
  }

  // ----- How a row may look later -----

  predicate Evolves(a: Row, b: Row) {
    && a.userId == b.userId && a.tokenHash == b.tokenHash && a.expiresAt == b.expiresAt
    && (!b.revoked ==> a == b)
    && (a.revoked && !SeenAsRotated(a) ==> !SeenAsRotated(b))
    && (a.opHash.Some? ==> b.opHash == a.opHash && b.rotatedAt == a.rotatedAt)
    && (a.replacedBy.Some? ==> b.replacedBy.Some?)
    && (a.revoked && a.opHash.None? ==> b.opHash.None?)
  }

  // Rows never come back, history never shrinks.
  ghost predicate Grows(t: Table, t': Table) {
    && (forall id :: id in t.born ==> id in t'.born && t'.born[id] == t.born[id])
    && (forall id :: id in t.spun ==> id in t'.spun && t'.spun[id] == t.spun[id])
    && t.suspects <= t'.suspects
    && (forall id :: id in t'.rows && id in t.born ==> id in t.rows && Evolves(t.rows[id], t'.rows[id]))
  }

  // ----- Preservation, one effect at a time -----

  lemma InsertKeepsHashes(t: Table, p: Prepared, root: Id)
    requires HashesDistinct(t.born) && FreshFor(t.born, p)
    ensures HashesDistinct(t.born[p.id := BirthOf(t, p, root)])
  {}

  lemma InsertKeepsOrder(t: Table, p: Prepared, root: Id)
    requires Ordered(t.born) && p.id !in t.born
    ensures Ordered(t.born[p.id := BirthOf(t, p, root)])
  {
    var b := t.born[p.id := BirthOf(t, p, root)];
    assert b.Keys == t.born.Keys + {p.id};
    assert |b.Keys| == |t.born.Keys| + 1;
  }

  lemma InsertKeepsRoots(t: Table, p: Prepared, root: Id)
    requires Rooted(t.born) && p.id !in t.born
    requires root == p.id || (root in t.born && t.born[root].root == root && t.born[root].userId == p.userId)
    ensures Rooted(t.born[p.id := BirthOf(t, p, root)])
  {
    var b := t.born[p.id := BirthOf(t, p, root)];
    forall a | a in b
      ensures b[a].root in b && b[b[a].root].root == b[a].root && b[b[a].root].userId == b[a].userId
    {
      assert a != p.id ==> a in t.born;
    }
  }

  lemma RootCertified(t: Table, p: Prepared)
    requires Certified(t) && Allowed(t, InsertRoot(p))
    ensures Certified(Apply(t, InsertRoot(p)))
  {}

  lemma RootRecorded(t: Table, p: Prepared)
    requires Certified(t) && Recorded(t) && Allowed(t, InsertRoot(p))
    ensures Recorded(Apply(t, InsertRoot(p)))
  {}

  lemma RootOneActive(t: Table, p: Prepared)
    requires Certified(t) && Rooted(t.born) && OneActive(t) && Allowed(t, InsertRoot(p))
    ensures OneActive(Apply(t, InsertRoot(p)))
  {}

  lemma RootLinked(t: Table, p: Prepared)
    requires Ordered(t.born) && Certified(t) && Recorded(t) && Linked(t) && LinkedOnce(t) && Allowed(t, InsertRoot(p))
    ensures Linked(Apply(t, InsertRoot(p))) && LinkedOnce(Apply(t, InsertRoot(p)))
  {
    forall a, x | Links(Apply(t, InsertRoot(p)), a, x) ensures Links(t, a, x) {}
  }

  lemma RootGrows(t: Table, p: Prepared)
    requires Certified(t) && Recorded(t) && Allowed(t, InsertRoot(p))
    ensures Grows(t, Apply(t, InsertRoot(p)))
  {}

  lemma RevokeCertified(t: Table, ids: set<Id>, why: Reason)
    requires Certified(t) && why != Rotated
    ensures Certified(Apply(t, Revoke(ids, why)))
  {}

  lemma RevokeRecorded(t: Table, ids: set<Id>, why: Reason)
    requires Certified(t) && Recorded(t) && why != Rotated
    ensures Recorded(Apply(t, Revoke(ids, why)))
  {}

  lemma RevokeOneActive(t: Table, ids: set<Id>, why: Reason)
    requires Certified(t) && OneActive(t) && why != Rotated
    ensures OneActive(Apply(t, Revoke(ids, why)))
  {}

  lemma RevokeLinked(t: Table, ids: set<Id>, why: Reason)
    requires Ordered(t.born) && Certified(t) && Recorded(t) && Linked(t) && LinkedOnce(t) && why != Rotated
    ensures Linked(Apply(t, Revoke(ids, why))) && LinkedOnce(Apply(t, Revoke(ids, why)))
  {
    forall a, x | Links(Apply(t, Revoke(ids, why)), a, x) ensures Links(t, a, x) {}
  }

  lemma RevokeGrows(t: Table, ids: set<Id>, why: Reason)
    requires Certified(t) && Recorded(t) && why != Rotated
    ensures Grows(t, Apply(t, Revoke(ids, why)))
  {}

  lemma DeleteCertified(t: Table, cutoff: Time)
    requires Certified(t)
    ensures Certified(Apply(t, Delete(cutoff)))
  {}

  lemma DeleteRecorded(t: Table, cutoff: Time)
    requires Certified(t) && Recorded(t)
    ensures Recorded(Apply(t, Delete(cutoff)))
  {}

  lemma DeleteOneActive(t: Table, cutoff: Time)
    requires Certified(t) && OneActive(t)
    ensures OneActive(Apply(t, Delete(cutoff)))
  {}

  lemma DeleteLinked(t: Table, cutoff: Time)
    requires Ordered(t.born) && Certified(t) && Recorded(t) && Linked(t) && LinkedOnce(t)
    ensures Linked(Apply(t, Delete(cutoff))) && LinkedOnce(Apply(t, Delete(cutoff)))
  {
    forall a, x | Links(Apply(t, Delete(cutoff)), a, x) ensures Links(t, a, x) {}
  }

  lemma DeleteGrows(t: Table, cutoff: Time)
    requires Certified(t) && Recorded(t)
    ensures Grows(t, Apply(t, Delete(cutoff)))
  {}

  lemma RotateCertified(t: Table, x: Id, op: Hash, at: Time, p: Prepared)
    requires Certified(t) && Allowed(t, Rotate(x, op, at, p))
    ensures Certified(Apply(t, Rotate(x, op, at, p)))
  {}

  lemma RotateRecorded(t: Table, x: Id, op: Hash, at: Time, p: Prepared)
    requires Certified(t) && Recorded(t) && Allowed(t, Rotate(x, op, at, p))
    ensures Recorded(Apply(t, Rotate(x, op, at, p)))
  {}

  lemma RotateOneActive(t: Table, x: Id, op: Hash, at: Time, p: Prepared)
    requires Certified(t) && OneActive(t) && Allowed(t, Rotate(x, op, at, p))
    ensures OneActive(Apply(t, Rotate(x, op, at, p)))
  {}

  lemma RotateLinked(t: Table, x: Id, op: Hash, at: Time, p: Prepared)
    requires Ordered(t.born) && Certified(t) && Recorded(t) && Linked(t) && Allowed(t, Rotate(x, op, at, p))
    ensures Linked(Apply(t, Rotate(x, op, at, p)))
  {
    var t' := Apply(t, Rotate(x, op, at, p));
    forall a, y | Links(t', a, y) ensures Succeeds(t', a, y) {
      assert a == x || Links(t, a, y);
    }
  }

  lemma RotateLinkedOnce(t: Table, x: Id, op: Hash, at: Time, p: Prepared)
    requires Certified(t) && Recorded(t) && Linked(t) && LinkedOnce(t) && Allowed(t, Rotate(x, op, at, p))
    ensures LinkedOnce(Apply(t, Rotate(x, op, at, p)))
  {
    var t' := Apply(t, Rotate(x, op, at, p));
    forall a, b, y | Links(t', a, y) && Links(t', b, y) ensures a == b {
      assert a == x || Links(t, a, y);
      assert b == x || Links(t, b, y);
    }
  }

  lemma RotateGrows(t: Table, x: Id, op: Hash, at: Time, p: Prepared)
    requires Certified(t) && Recorded(t) && Allowed(t, Rotate(x, op, at, p))
    ensures Grows(t, Apply(t, Rotate(x, op, at, p)))
  {}

  lemma ReplaceCertified(t: Table, x: Id, prev: Id, p: Prepared)
    requires Certified(t) && Allowed(t, Replace(x, prev, p))
    ensures Certified(Apply(t, Replace(x, prev, p)))
  {}

  lemma ReplaceRecorded(t: Table, x: Id, prev: Id, p: Prepared)
    requires Certified(t) && Recorded(t) && Allowed(t, Replace(x, prev, p))
    ensures Recorded(Apply(t, Replace(x, prev, p)))
  {
    var t' := Apply(t, Replace(x, prev, p));
    assert p.id !in t.spun && x != prev && x != p.id && prev != p.id;
    assert t'.rows[p.id] == NewRow(p) && t'.rows[prev] == Struck(t.rows[prev], Retry);
    assert t'.rows[x] == t.rows[x].(replacedBy := Some(p.id));
    assert forall id :: id in t'.rows ==>
        id == p.id || (id in t.rows && (id == x || id == prev || t'.rows[id] == t.rows[id]));
    assert t'.spun == t.spun && t'.suspects == t.suspects;
  }

  lemma ReplaceOneActive(t: Table, x: Id, prev: Id, p: Prepared)
    requires Certified(t) && OneActive(t) && Linked(t) && Allowed(t, Replace(x, prev, p))
    ensures OneActive(Apply(t, Replace(x, prev, p)))
  {
    assert Links(t, x, prev);
    var t' := Apply(t, Replace(x, prev, p));
    forall a | a in t'.rows && !t'.rows[a].revoked && RootOf(t', a) == RootOf(t', p.id)
      ensures a == p.id
    {
      if a != p.id {
        assert false;
      }
    }
  }

  lemma ReplaceLinked(t: Table, x: Id, prev: Id, p: Prepared)
    requires Ordered(t.born) && Certified(t) && Recorded(t) && Linked(t) && Allowed(t, Replace(x, prev, p))
    ensures Linked(Apply(t, Replace(x, prev, p)))
  {
    var t' := Apply(t, Replace(x, prev, p));
    forall a, y | Links(t', a, y) ensures Succeeds(t', a, y) {
      assert a == x || Links(t, a, y);
    }
  }

  lemma ReplaceLinkedOnce(t: Table, x: Id, prev: Id, p: Prepared)
    requires Certified(t) && Recorded(t) && Linked(t) && LinkedOnce(t) && Allowed(t, Replace(x, prev, p))
    ensures LinkedOnce(Apply(t, Replace(x, prev, p)))
  {
    var t' := Apply(t, Replace(x, prev, p));
    forall a, b, y | Links(t', a, y) && Links(t', b, y) ensures a == b {
      assert a == x || Links(t, a, y);
      assert b == x || Links(t, b, y);
    }
  }

  lemma ReplaceGrows(t: Table, x: Id, prev: Id, p: Prepared)
    requires Certified(t) && Recorded(t) && Allowed(t, Replace(x, prev, p))
    ensures Grows(t, Apply(t, Replace(x, prev, p)))
  {}

  lemma RootEffect(t: Table, p: Prepared)
    requires TableInv(t) && Allowed(t, InsertRoot(p))
    ensures TableInv(Apply(t, InsertRoot(p))) && Grows(t, Apply(t, InsertRoot(p)))
  {
    InsertKeepsHashes(t, p, p.id);
    InsertKeepsOrder(t, p, p.id);
    InsertKeepsRoots(t, p, p.id);
    RootCertified(t, p);
    RootRecorded(t, p);
    RootOneActive(t, p);
    RootLinked(t, p);
    RootGrows(t, p);
    hide HashesDistinct, Ordered, Rooted, Certified, Recorded, OneActive, Linked, LinkedOnce, Grows;
  }

  lemma RevokeEffect(t: Table, ids: set<Id>, why: Reason)
    requires TableInv(t) && why != Rotated
    ensures TableInv(Apply(t, Revoke(ids, why))) && Grows(t, Apply(t, Revoke(ids, why)))
  {
    RevokeCertified(t, ids, why);
    RevokeRecorded(t, ids, why);
    RevokeOneActive(t, ids, why);
    RevokeLinked(t, ids, why);
    RevokeGrows(t, ids, why);
    hide HashesDistinct, Ordered, Rooted, Certified, Recorded, OneActive, Linked, LinkedOnce, Grows;
  }

  lemma DeleteEffect(t: Table, cutoff: Time)
    requires TableInv(t)
    ensures TableInv(Apply(t, Delete(cutoff))) && Grows(t, Apply(t, Delete(cutoff)))
  {
    DeleteCertified(t, cutoff);
    DeleteRecorded(t, cutoff);
    DeleteOneActive(t, cutoff);
    DeleteLinked(t, cutoff);
    DeleteGrows(t, cutoff);
    hide HashesDistinct, Ordered, Rooted, Certified, Recorded, OneActive, Linked, LinkedOnce, Grows;
  }

  lemma RotateEffect(t: Table, x: Id, op: Hash, at: Time, p: Prepared)
    requires TableInv(t) && Allowed(t, Rotate(x, op, at, p))
    ensures TableInv(Apply(t, Rotate(x, op, at, p))) && Grows(t, Apply(t, Rotate(x, op, at, p)))
  {
    InsertKeepsHashes(t, p, RootOf(t, x));
    InsertKeepsOrder(t, p, RootOf(t, x));
    InsertKeepsRoots(t, p, RootOf(t, x));
    RotateCertified(t, x, op, at, p);
    RotateRecorded(t, x, op, at, p);
    RotateOneActive(t, x, op, at, p);
    RotateLinked(t, x, op, at, p);
    RotateLinkedOnce(t, x, op, at, p);
    RotateGrows(t, x, op, at, p);
    hide HashesDistinct, Ordered, Rooted, Certified, Recorded, OneActive, Linked, LinkedOnce, Grows;
  }

  lemma ReplaceEffect(t: Table, x: Id, prev: Id, p: Prepared)
    requires TableInv(t) && Allowed(t, Replace(x, prev, p))
    ensures TableInv(Apply(t, Replace(x, prev, p))) && Grows(t, Apply(t, Replace(x, prev, p)))
  {
    InsertKeepsHashes(t, p, RootOf(t, x));
    InsertKeepsOrder(t, p, RootOf(t, x));
    InsertKeepsRoots(t, p, RootOf(t, x));
    ReplaceCertified(t, x, prev, p);
    ReplaceRecorded(t, x, prev, p);
    ReplaceOneActive(t, x, prev, p);
    ReplaceLinked(t, x, prev, p);
    ReplaceLinkedOnce(t, x, prev, p);
    ReplaceGrows(t, x, prev, p);
    hide HashesDistinct, Ordered, Rooted, Certified, Recorded, OneActive, Linked, LinkedOnce, Grows;
  }

  lemma NothingEffect(t: Table)
    requires TableInv(t)
    ensures TableInv(Apply(t, NoChange)) && Grows(t, Apply(t, NoChange))
  {
    hide TableInv;
  }

  /** Whatever a statement does under its own guard, the table invariant survives it. */
  lemma ApplyKeepsInv(t: Table, e: Effect)
    requires TableInv(t) && Allowed(t, e)
    ensures TableInv(Apply(t, e)) && Grows(t, Apply(t, e))
  {
    hide TableInv, Grows, Apply;
    match e
    case NoChange => NothingEffect(t);
    case InsertRoot(p) => RootEffect(t, p);
    case Rotate(x, op, at, p) => RotateEffect(t, x, op, at, p);
    case Replace(x, prev, p) => ReplaceEffect(t, x, prev, p);
    case Revoke(ids, why) => RevokeEffect(t, ids, why);
    case Delete(cutoff) => DeleteEffect(t, cutoff);
  }
}
