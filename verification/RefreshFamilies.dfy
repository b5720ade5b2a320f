/** How the login families of the simple machine lie in the token table. */
module RefreshFamilies {
  import opened Wrappers
  import opened TokenTable
  import opened RefreshMachine
  import opened RefreshInvariant
  import opened SimpleMachine

  // ----- How a family looks in the table -----

  predicate IsHead(t: Table, f: Id, x: Id) {
    x in t.rows && !t.rows[x].revoked && RootOf(t, x) == f
  }

  function MarkOf(r: Row): Mark {
    if SeenAsRotated(r) then Turned else Plain
  }

  ghost predicate HeadIs(t: Table, f: Id, fam: Family) {
    forall x: Id :: IsHead(t, f, x) <==> fam.head == Some(x)
  }

  predicate LinkIs(t: Table, h: Id, link: SimpleMachine.Link) {
    && Links(t, link.pred, h)
    && t.rows[link.pred].opHash == Some(link.op) && t.rows[link.pred].rotatedAt == Some(link.at)
  }

  ghost predicate LinkMatches(t: Table, fam: Family) {
    && (fam.link.Some? ==> fam.head.Some? && LinkIs(t, fam.head.value, fam.link.value))
    && (fam.link.None? && fam.head.Some? ==> forall p: Id :: !Links(t, p, fam.head.value))
  }

  predicate IsSpent(t: Table, f: Id, x: Id) {
    x in t.rows && t.rows[x].revoked && RootOf(t, x) == f
  }

  ghost predicate SpentIs(t: Table, f: Id, fam: Family) {
    forall x: Id :: (x in fam.spent <==> IsSpent(t, f, x)) && (x in fam.spent ==> fam.spent[x] == MarkOf(t.rows[x]))
  }

  ghost predicate Describes(t: Table, f: Id, fam: Family) {
    f in t.born && fam.user == t.born[f].userId && HeadIs(t, f, fam) && LinkMatches(t, fam) && SpentIs(t, f, fam)
  }

  // ----- Each effect is one operation on families -----

  lemma RotateHeads(t: Table, x: Id, op: Hash, at: Time, p: Prepared, f: Id, fam: Family)
    requires TableInv(t) && Allowed(t, Rotate(x, op, at, p)) && HeadIs(t, f, fam)
    ensures HeadIs(Apply(t, Rotate(x, op, at, p)), f, if t.born[x].root == f then AfterRotation(fam, x, op, at, p.id)
                   else fam)
    ensures t.born[x].root == f ==> fam.head == Some(x)
  {
    hide HashesDistinct, Ordered, Rooted, Recorded, Linked, LinkedOnce;
    assert IsHead(t, t.born[x].root, x);
    var t' := Apply(t, Rotate(x, op, at, p));
    forall y ensures IsHead(t', f, y) <==> if t.born[x].root == f then y == p.id else IsHead(t, f, y) {}
  }

  lemma RotateSpent(t: Table, x: Id, op: Hash, at: Time, p: Prepared, f: Id, fam: Family)
    requires TableInv(t) && Allowed(t, Rotate(x, op, at, p)) && SpentIs(t, f, fam)
    ensures SpentIs(Apply(t, Rotate(x, op, at, p)), f, if t.born[x].root == f then AfterRotation(fam, x, op, at, p.id)
                    else fam)
  {
    hide HashesDistinct, Ordered, Rooted, Recorded, OneActive, Linked, LinkedOnce;
    var t' := Apply(t, Rotate(x, op, at, p));
    forall y ensures IsSpent(t', f, y) <==> IsSpent(t, f, y) || (y == x && t.born[x].root == f) {}
    forall y | IsSpent(t, f, y) && y != x ensures t'.rows[y] == t.rows[y] {}
  }

  lemma RotateLinks(t: Table, x: Id, op: Hash, at: Time, p: Prepared, f: Id, fam: Family)
    requires TableInv(t) && Allowed(t, Rotate(x, op, at, p)) && LinkMatches(t, fam) && HeadIs(t, f, fam)
    ensures LinkMatches(Apply(t, Rotate(x, op, at, p)), if t.born[x].root == f then AfterRotation(fam, x, op, at, p.id)
                        else fam)
  {
    hide HashesDistinct, Ordered, Rooted, OneActive, Linked, LinkedOnce;
    var t' := Apply(t, Rotate(x, op, at, p));
    assert fam.head.Some? ==> IsHead(t, f, fam.head.value);
    if t.born[x].root == f {
      assert LinkIs(t', p.id, SimpleMachine.Link(x, op, at));
    } else if fam.link.Some? {
      assert fam.link.value.pred != x;
    }
    forall q, y | y in t.rows ensures Links(t', q, y) ==> Links(t, q, y) {}
  }

  lemma ReplaceHeads(t: Table, x: Id, prev: Id, p: Prepared, f: Id, fam: Family)
    requires TableInv(t) && Allowed(t, Replace(x, prev, p)) && HeadIs(t, f, fam)
    ensures HeadIs(Apply(t, Replace(x, prev, p)), f, if t.born[x].root == f then AfterRetry(fam, p.id) else fam)
    ensures t.born[x].root == f ==> fam.head == Some(prev)
  {
    hide HashesDistinct, Ordered, Rooted, Recorded, LinkedOnce;
    assert Links(t, x, prev);
    assert IsHead(t, t.born[x].root, prev);
    var t' := Apply(t, Replace(x, prev, p));
    forall y ensures IsHead(t', f, y) <==> if t.born[x].root == f then y == p.id else IsHead(t, f, y) {}
  }

  lemma ReplaceSpent(t: Table, x: Id, prev: Id, p: Prepared, f: Id, fam: Family)
    requires TableInv(t) && Allowed(t, Replace(x, prev, p)) && SpentIs(t, f, fam)
    requires t.born[x].root == f ==> fam.head == Some(prev)
    ensures SpentIs(Apply(t, Replace(x, prev, p)), f, if t.born[x].root == f then AfterRetry(fam, p.id) else fam)
  {
    hide HashesDistinct, Ordered, Rooted, Recorded, OneActive, LinkedOnce;
    assert Links(t, x, prev);
    var t' := Apply(t, Replace(x, prev, p));
    forall y ensures IsSpent(t', f, y) <==> IsSpent(t, f, y) || (y == prev && t.born[x].root == f) {}
    forall y | IsSpent(t, f, y) ensures MarkOf(t'.rows[y]) == MarkOf(t.rows[y]) {}
  }

  lemma ReplaceLinks(t: Table, x: Id, prev: Id, p: Prepared, f: Id, fam: Family)
    requires TableInv(t) && Allowed(t, Replace(x, prev, p)) && LinkMatches(t, fam) && HeadIs(t, f, fam)
    requires t.born[x].root == f ==> fam.head == Some(prev)
    ensures LinkMatches(Apply(t, Replace(x, prev, p)), if t.born[x].root == f then AfterRetry(fam, p.id) else fam)
  {
    hide HashesDistinct, Ordered, Rooted, OneActive, Recorded;
    var t' := Apply(t, Replace(x, prev, p));
    assert Links(t, x, prev);
    assert fam.head.Some? ==> IsHead(t, f, fam.head.value);
    if t.born[x].root == f {
      assert fam.link.Some? && fam.link.value.pred == x;
      assert LinkIs(t', p.id, fam.link.value);
    } else if fam.link.Some? {
      assert Links(t, fam.link.value.pred, fam.head.value);
      assert fam.link.value.pred != x;
    }
    forall q, y | y in t.rows ensures Links(t', q, y) ==> Links(t, q, y) {}
  }

  lemma StrikeLinks(t: Table, ids: set<Id>, why: Reason, fam: Family)
    requires LinkMatches(t, fam)
    ensures LinkMatches(Apply(t, Revoke(ids, why)), AfterStrike(fam, ids))
  {
    forall q, y ensures Links(Apply(t, Revoke(ids, why)), q, y) <==> Links(t, q, y) {}
  }

  lemma StrikeDescribes(t: Table, ids: set<Id>, why: Reason, f: Id, fam: Family)
    requires why != Reason.Rotated && Describes(t, f, fam)
    ensures Describes(Apply(t, Revoke(ids, why)), f, AfterStrike(fam, ids))
  {
    StrikeLinks(t, ids, why, fam);
    StrikeHead(t, ids, why, f, fam);
    StrikeSpent(t, ids, why, f, fam);
    hide LinkMatches, HeadIs, SpentIs;
  }

  lemma StrikeHead(t: Table, ids: set<Id>, why: Reason, f: Id, fam: Family)
    requires HeadIs(t, f, fam)
    ensures HeadIs(Apply(t, Revoke(ids, why)), f, AfterStrike(fam, ids))
  {
    var t' := Apply(t, Revoke(ids, why));
    forall y ensures IsHead(t', f, y) <==> IsHead(t, f, y) && y !in ids {}
  }

  lemma StrikeSpent(t: Table, ids: set<Id>, why: Reason, f: Id, fam: Family)
    requires why != Reason.Rotated && HeadIs(t, f, fam) && SpentIs(t, f, fam)
    ensures SpentIs(Apply(t, Revoke(ids, why)), f, AfterStrike(fam, ids))
  {
    var t' := Apply(t, Revoke(ids, why));
    forall y ensures IsSpent(t', f, y) <==> IsSpent(t, f, y) || (IsHead(t, f, y) && y in ids) {}
  }

  lemma ForgetDescribes(t: Table, cutoff: Time, f: Id, fam: Family)
    requires TableInv(t) && Describes(t, f, fam)
    ensures Describes(Apply(t, Delete(cutoff)), f, AfterForget(fam, t.born, cutoff))
  {
    hide HashesDistinct, Ordered, Rooted, OneActive, Linked, LinkedOnce;
    var t' := Apply(t, Delete(cutoff));
    var fam' := AfterForget(fam, t.born, cutoff);
    forall y ensures IsHead(t', f, y) <==> IsHead(t, f, y) && t.born[y].expiresAt >= cutoff {}
    forall y ensures IsSpent(t', f, y) <==> IsSpent(t, f, y) && t.born[y].expiresAt >= cutoff {}
    assert HeadIs(t', f, fam');
    assert SpentIs(t', f, fam');
    ForgetLinks(t, cutoff, f, fam);
  }

  lemma ForgetLinks(t: Table, cutoff: Time, f: Id, fam: Family)
    requires TableInv(t) && Describes(t, f, fam)
    ensures LinkMatches(Apply(t, Delete(cutoff)), AfterForget(fam, t.born, cutoff))
  {
    hide HashesDistinct, Ordered, Rooted, OneActive;
    var t' := Apply(t, Delete(cutoff));
    forall q, y ensures Links(t', q, y) <==> Links(t, q, y) && t.born[q].expiresAt >= cutoff {}
    if fam.link.Some? {
      var q := fam.link.value.pred;
      assert Links(t, q, fam.head.value);
      assert IsSpent(t, f, q);
    }
  }

  // ----- All families -----

  ghost predicate FamiliesAre(t: Table, families: map<Id, Family>) {
    && (forall f :: f in families <==> f in t.born && t.born[f].root == f)
    && (forall f :: f in families ==> Describes(t, f, families[f]))
  }

  lemma RotateBirths(t: Table, x: Id, op: Hash, at: Time, p: Prepared, f: Id)
    requires Allowed(t, Rotate(x, op, at, p)) && f in t.born && Certified(t)
    ensures var t' := Apply(t, Rotate(x, op, at, p)); f in t'.born && t'.born[f] == t.born[f] && x in t.born
  {}

  lemma ReplaceBirths(t: Table, x: Id, prev: Id, p: Prepared, f: Id)
    requires Allowed(t, Replace(x, prev, p)) && f in t.born && Certified(t)
    ensures var t' := Apply(t, Replace(x, prev, p)); f in t'.born && t'.born[f] == t.born[f] && x in t.born
  {}

  lemma RotateDescribes(t: Table, x: Id, op: Hash, at: Time, p: Prepared, f: Id, fam: Family)
    requires TableInv(t) && Allowed(t, Rotate(x, op, at, p)) && Describes(t, f, fam)
    ensures Describes(Apply(t, Rotate(x, op, at, p)), f, if t.born[x].root == f then AfterRotation(fam, x, op, at, p.id)
                      else fam)
  {
    RotateBirths(t, x, op, at, p, f);
    hide TableInv, HeadIs, SpentIs, LinkMatches, Apply, Allowed;
    RotateHeads(t, x, op, at, p, f, fam);
    RotateSpent(t, x, op, at, p, f, fam);
    RotateLinks(t, x, op, at, p, f, fam);
  }

  lemma ReplaceDescribes(t: Table, x: Id, prev: Id, p: Prepared, f: Id, fam: Family)
    requires TableInv(t) && Allowed(t, Replace(x, prev, p)) && Describes(t, f, fam)
    ensures Describes(Apply(t, Replace(x, prev, p)), f, if t.born[x].root == f then AfterRetry(fam, p.id) else fam)
  {
    ReplaceBirths(t, x, prev, p, f);
    hide TableInv, HeadIs, SpentIs, LinkMatches, Apply, Allowed;
    ReplaceHeads(t, x, prev, p, f, fam);
    ReplaceSpent(t, x, prev, p, f, fam);
    ReplaceLinks(t, x, prev, p, f, fam);
  }

  lemma IssueDescribes(t: Table, p: Prepared, f: Id, fam: Family)
    requires TableInv(t) && Allowed(t, InsertRoot(p)) && Describes(t, f, fam)
    ensures Describes(Apply(t, InsertRoot(p)), f, fam)
  {
    hide HashesDistinct, Ordered, Recorded, OneActive, LinkedOnce, Linked;
    var t' := Apply(t, InsertRoot(p));
    forall y ensures IsHead(t', f, y) <==> IsHead(t, f, y) {}
    forall y ensures IsSpent(t', f, y) <==> IsSpent(t, f, y) {}
    forall q, y ensures Links(t', q, y) <==> Links(t, q, y) {}
  }

  lemma IssueNew(t: Table, p: Prepared)
    requires TableInv(t) && Allowed(t, InsertRoot(p))
    ensures Describes(Apply(t, InsertRoot(p)), p.id, Family(p.userId, Some(p.id), None, map[]))
  {
    hide HashesDistinct, Ordered, Recorded, OneActive, LinkedOnce;
    var t' := Apply(t, InsertRoot(p));
    forall y ensures IsHead(t', p.id, y) <==> y == p.id {}
    forall y ensures !IsSpent(t', p.id, y) {}
    forall q ensures !Links(t', q, p.id) { assert Links(t', q, p.id) ==> Links(t, q, p.id); }
  }

  function FamiliesAfter(t: Table, families: map<Id, Family>, e: Effect): map<Id, Family> {
    match e
    case NoChange => families
    case InsertRoot(p) => families[p.id := Family(p.userId, Some(p.id), None, map[])]
    case Rotate(x, op, at, p) =>
      var root := RootOf(t, x);
      if root in families then families[root := AfterRotation(families[root], x, op, at, p.id)] else families
    case Replace(x, prev, p) =>
      var root := RootOf(t, x);
      if root in families then families[root := AfterRetry(families[root], p.id)] else families
    case Revoke(ids, why) => map f | f in families :: AfterStrike(families[f], ids)
    case Delete(cutoff) => map f | f in families :: AfterForget(families[f], t.born, cutoff)
  }

  lemma RootIsFamily(t: Table, families: map<Id, Family>, x: Id)
    requires TableInv(t) && FamiliesAre(t, families) && x in t.rows
    ensures RootOf(t, x) in families && x in t.born && RootOf(t, x) == t.born[x].root
  {
    hide HashesDistinct, Ordered, Recorded, OneActive, LinkedOnce, Linked, Describes;
  }

  lemma EffectDescribes(t: Table, families: map<Id, Family>, e: Effect, f: Id)
    requires TableInv(t) && Allowed(t, e) && FamiliesAre(t, families) && f in FamiliesAfter(t, families, e)
    ensures Describes(Apply(t, e), f, FamiliesAfter(t, families, e)[f])
  {
    hide TableInv, Describes, Apply, AfterStrike, AfterForget, AfterRotation, AfterRetry;
    match e
    case NoChange => SameTable(t);
    case InsertRoot(p) => if f == p.id { IssueNew(t, p); } else { IssueDescribes(t, p, f, families[f]); }
    case Rotate(x, op, at, p) => RotationDescribes(t, families, x, op, at, p, f);
    case Replace(x, prev, p) => RetryDescribes(t, families, x, prev, p, f);
    case Revoke(ids, why) => StrikeDescribes(t, ids, why, f, families[f]);
    case Delete(cutoff) => ForgetDescribes(t, cutoff, f, families[f]);
  }

  lemma RotationDescribes(t: Table, families: map<Id, Family>, x: Id, op: Hash, at: Time, p: Prepared, f: Id)
    requires TableInv(t) && Allowed(t, Rotate(x, op, at, p)) && FamiliesAre(t, families)
    requires f in FamiliesAfter(t, families, Rotate(x, op, at, p))
    ensures Describes(Apply(t, Rotate(x, op, at, p)), f, FamiliesAfter(t, families, Rotate(x, op, at, p))[f])
  {
    RootIsFamily(t, families, x);
    hide TableInv, Describes, Apply, AfterRotation, RootOf;
    RotateDescribes(t, x, op, at, p, f, families[f]);
  }

  lemma RetryDescribes(t: Table, families: map<Id, Family>, x: Id, prev: Id, p: Prepared, f: Id)
    requires TableInv(t) && Allowed(t, Replace(x, prev, p)) && FamiliesAre(t, families)
    requires f in FamiliesAfter(t, families, Replace(x, prev, p))
    ensures Describes(Apply(t, Replace(x, prev, p)), f, FamiliesAfter(t, families, Replace(x, prev, p))[f])
  {
    RootIsFamily(t, families, x);
    hide TableInv, Describes, Apply, AfterRetry, RootOf;
    ReplaceDescribes(t, x, prev, p, f, families[f]);
  }

  lemma SameTable(t: Table)
    ensures Apply(t, NoChange) == t
  {}

  lemma RootsAfter(t: Table, families: map<Id, Family>, e: Effect, f: Id)
    requires TableInv(t) && Allowed(t, e) && FamiliesAre(t, families)
    ensures f in FamiliesAfter(t, families, e) <==> f in Apply(t, e).born && Apply(t, e).born[f].root == f
  {
    hide HashesDistinct, Ordered, Recorded, OneActive, LinkedOnce, Linked, Describes;
  }

  lemma EffectFamilies(t: Table, families: map<Id, Family>, e: Effect)
    requires TableInv(t) && Allowed(t, e) && FamiliesAre(t, families)
    ensures FamiliesAre(Apply(t, e), FamiliesAfter(t, families, e))
  {
    hide TableInv, Allowed, Describes, Apply, FamiliesAfter;
    forall f: Id ensures f in FamiliesAfter(t, families, e) <==>
          f in Apply(t, e).born && Apply(t, e).born[f].root == f {
      hide FamiliesAre;
      RootsAfter(t, families, e, f);
    }
    forall f | f in FamiliesAfter(t, families, e) ensures Describes(Apply(t, e), f, FamiliesAfter(t, families, e)[f]) {
      hide FamiliesAre;
      EffectDescribes(t, families, e, f);
    }
  }
}
