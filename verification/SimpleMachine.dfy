/**
 * What refresh rotation promises, without rows, stale reads or transactions. A login
 * family is one head or dead, the head's immediate predecessor with its operation and
 * time, and the spent tokens, each turned (rotated away) or plain (revoked otherwise).
 * A refresh is granted or denied in one atomic step; a denied one whose token was held as
 * turned ever since it arrived is refused only after the kill. Every other loss of a
 * token carries out one order of one request, or forgets what expired long ago.
 */
module SimpleMachine {
  import opened Wrappers
  import opened TokenTable
  import opened RefreshMachine

  datatype Mark = Turned | Plain
  datatype Link = Link(pred: Id, op: Hash, at: Time)
  datatype Family = Family(user: UserId, head: Option<Id>, link: Option<Link>, spent: map<Id, Mark>)

  // since is the time the refresh arrived.
  datatype Ask = Ask(client: ClientId, hash: Hash, op: Hash, since: Time)

  // A declined refresh will get no session; whether it was a replay is still to be looked
  // at. A condemned one was a replay, and is refused only after the kill.
  datatype Verdict = Undecided | Granted(id: Id) | Declined | Condemned | Refused

  // What other requests ask for, until it is done or has lapsed.
  datatype Order =
    | SignIn(user: UserId)
    | Admitted(user: UserId)
    | LogOut(client: ClientId, hash: Hash)
    | EndSession(user: UserId, id: Id)
    | EndSessions(user: UserId)
    | EndAll(user: UserId) // reset, change, and the second half of a deactivation
    | SetActive(client: ClientId, user: UserId, active: bool)

  // turned holds every token ever rotated away. At some instant since it arrived, the owner
  // of a vouched request was an active user of the client, the token of an accused one was
  // held as turned, and that of a cleared one was not.
  datatype Simple = Simple(
    grace: nat,
    now: Time,
    users: map<UserId, User>,
    born: map<Id, Birth>,
    families: map<Id, Family>,
    asks: map<ReqId, Ask>,
    verdicts: map<ReqId, Verdict>,
    orders: map<ReqId, Order>,
    turned: set<Id>,
    vouched: set<ReqId>,
    accused: set<ReqId>,
    cleared: set<ReqId>)

  // ----- One family -----

  function AfterRotation(f: Family, t: Id, op: Hash, at: Time, id: Id): Family {
    Family(f.user, Some(id), Some(Link(t, op, at)), f.spent[t := Turned])
  }

  function AfterRetry(f: Family, id: Id): Family {
    if f.head.None? then f else Family(f.user, Some(id), f.link, f.spent[f.head.value := Plain])
  }

  function AfterStrike(f: Family, ids: set<Id>): Family {
    var spent := map x | x in f.spent :: if x in ids then Plain else f.spent[x];
    if f.head.Some? && f.head.value in ids
    then Family(f.user, None, None, spent[f.head.value := Plain])
    else f.(spent := spent)
  }

  // Tokens that expired before the cutoff are forgotten.
  function AfterForget(f: Family, born: map<Id, Birth>, cutoff: Time): Family {
    var spent := map x | x in f.spent && x in born && born[x].expiresAt >= cutoff :: f.spent[x];
    if f.head.Some? && f.head.value in born && born[f.head.value].expiresAt >= cutoff
    then Family(f.user, f.head, if f.link.Some? && f.link.value.pred in spent then f.link else None, spent)
    else Family(f.user, None, None, spent)
  }

  // ----- The decision -----

  predicate OfFamily(a: Simple, t: Id) {
    t in a.born && a.born[t].root in a.families
  }

  predicate CanRotate(a: Simple, t: Id, at: Time) {
    OfFamily(a, t) && a.families[a.born[t].root].head == Some(t) && a.born[t].expiresAt > at
  }

  predicate CanRetry(a: Simple, t: Id, op: Hash) {
    && OfFamily(a, t)
    && var f := a.families[a.born[t].root];
       && t in f.spent && f.spent[t] == Turned
       && f.link.Some? && f.link.value.pred == t && f.link.value.op == op && a.now <= f.link.value.at + a.grace
       && f.head.Some? && f.head.value in a.born && a.born[f.head.value].expiresAt > a.now
  }

  predicate Mine(a: Simple, t: Id, client: ClientId) {
    t in a.born && OwnerOf(a.users, a.born[t].userId, client).Some?
  }

  predicate Live(a: Simple, t: Id, client: ClientId) {
    Mine(a, t, client) && OwnerOf(a.users, a.born[t].userId, client).value.isActive
  }

  // r presented t, a token of its own client.
  predicate Presents(a: Simple, r: ReqId, t: Id) {
    r in a.asks && t in a.born && a.born[t].tokenHash == a.asks[r].hash && Mine(a, t, a.asks[r].client)
  }

  predicate IsHeadOf(a: Simple, user: UserId, x: Id) {
    OfFamily(a, x) && a.born[x].userId == user && a.families[a.born[x].root].head == Some(x)
  }

  predicate IsKnownOf(a: Simple, user: UserId, x: Id) {
    OfFamily(a, x) && a.born[x].userId == user && (IsHeadOf(a, user, x) || x in a.families[a.born[x].root].spent)
  }

  predicate HeldTurned(a: Simple, t: Id) {
    OfFamily(a, t) && var f := a.families[a.born[t].root]; t in f.spent && f.spent[t] == Turned
  }

  // No token of the client with the presented secret is held as turned.
  ghost predicate IsClear(a: Simple, r: ReqId) {
    && r in a.asks
    && forall t :: t in a.born && a.born[t].tokenHash == a.asks[r].hash ==>
         !Mine(a, t, a.asks[r].client) || !HeldTurned(a, t)
  }

  // A session is rightly denied when no live, unexpired token of the client's active user
  // carries the presented secret and is either the head or retryable.
  ghost predicate MayDeny(a: Simple, r: ReqId) {
    && r in a.asks
    && forall t :: t in a.born && a.born[t].tokenHash == a.asks[r].hash ==>
         || !Live(a, t, a.asks[r].client)
         || a.born[t].expiresAt <= a.now
         || (!CanRotate(a, t, a.now) && !CanRetry(a, t, a.asks[r].op))
  }

  // Exactly the tokens an order ends.
  ghost predicate Ends(a: Simple, o: Order, ids: set<Id>) {
    match o
    case LogOut(client, hash) =>
      ids != {} && forall x :: x in ids <==> x in a.born && a.born[x].tokenHash == hash && Mine(a, x, client)
    case EndSession(user, id) => forall x :: x in ids <==> x == id && IsHeadOf(a, user, x)
    case EndSessions(user) => forall x :: x in ids <==> IsHeadOf(a, user, x)
    case EndAll(user) => forall x :: x in ids <==> IsKnownOf(a, user, x)
    case _ => false
  }

  // An order comes to nothing only when it has nothing to act on.
  ghost predicate MayLapse(a: Simple, o: Order) {
    match o
    case SignIn(user) => !(user in a.users && a.users[user].isActive)
    case LogOut(client, hash) =>
      forall x :: x in a.born && a.born[x].tokenHash == hash && Mine(a, x, client) ==>
          !IsKnownOf(a, a.born[x].userId, x)
    case SetActive(client, user, _) => OwnerOf(a.users, user, client).None?
    case _ => false
  }

  // ----- Steps -----

  datatype SimpleStep =
    | Wait(now: Time)
    | Join(u: UserId, client: ClientId)
    | Receive(r: ReqId, ask: Ask)
    | Take(r: ReqId, order: Order)
    | Lapse(r: ReqId)
    | Admit(r: ReqId)
    | Issue(r: ReqId, p: Prepared)
    | Patch(r: ReqId)
    | SignOut(r: ReqId, ids: set<Id>)
    | GrantRotation(r: ReqId, t: Id, at: Time, p: Prepared)
    | GrantRetry(r: ReqId, t: Id, p: Prepared)
    | Decline(r: ReqId)
    | Refuse(r: ReqId)
    | Condemn(r: ReqId, t: Id)
    | Kill(r: ReqId, t: Id, ids: set<Id>)   // replay: every head of the token's user
    | Vouch(r: ReqId, t: Id)
    | Accuse(r: ReqId, t: Id)
    | Clear(r: ReqId)
    | Forget(cutoff: Time)
    | Stutter

  function Registered(a: Simple, p: Prepared, root: Id): map<Id, Birth> {
    a.born[p.id := Birth(p.userId, p.tokenHash, p.expiresAt, root, |a.born|)]
  }

  function Ended(a: Simple, ids: set<Id>): map<Id, Family> {
    map f | f in a.families :: AfterStrike(a.families[f], ids)
  }

  predicate Asking(a: Simple, r: ReqId, v: Verdict) {
    r in a.asks && r in a.verdicts && a.verdicts[r] == v
  }

  // No session for r now, or that was settled before.
  ghost predicate Denied(a: Simple, r: ReqId) {
    Asking(a, r, Declined) || (Asking(a, r, Undecided) && MayDeny(a, r))
  }

  ghost predicate SimpleNext(a: Simple, e: SimpleStep, b: Simple) {
    match e
    case Wait(now) => a.now <= now && b == a.(now := now)
    case Join(u, client) => u !in a.users && b == a.(users := a.users[u := User(client, true)])
    case Receive(r, ask) =>
      r !in a.asks && ask.since == a.now && b == a.(asks := a.asks[r := ask], verdicts := a.verdicts[r := Undecided])
    case Take(r, o) => r !in a.orders && !o.Admitted? && b == a.(orders := a.orders[r := o])
    case Lapse(r) => r in a.orders && MayLapse(a, a.orders[r]) && b == a.(orders := a.orders - {r})
    case Admit(r) =>
      && r in a.orders && a.orders[r].SignIn? && a.orders[r].user in a.users && a.users[a.orders[r].user].isActive
      && b == a.(orders := a.orders[r := Admitted(a.orders[r].user)])
    case Issue(r, p) =>
      && r in a.orders && a.orders[r] == Admitted(p.userId) && FreshFor(a.born, p)
      && b == a.(born := Registered(a, p, p.id), orders := a.orders - {r},
                 families := a.families[p.id := Family(p.userId, Some(p.id), None, map[])])
    case Patch(r) =>
      && r in a.orders && a.orders[r].SetActive?
      && var o := a.orders[r];
         && OwnerOf(a.users, o.user, o.client).Some?
         && b == a.(users := a.users[o.user := User(o.client, o.active)],
                    orders := if o.active then a.orders - {r} else a.orders[r := EndAll(o.user)])
    case SignOut(r, ids) =>
      && r in a.orders && Ends(a, a.orders[r], ids)
      && b == a.(families := Ended(a, ids), orders := a.orders - {r})
    case GrantRotation(r, t, at, p) =>
      && Asking(a, r, Undecided) && FreshFor(a.born, p)
      && Presents(a, r, t) && r in a.vouched && CanRotate(a, t, at) && a.asks[r].since <= at <= a.now
      && var root := a.born[t].root;
         b == a.(born := Registered(a, p, root),
                 families := a.families[root := AfterRotation(a.families[root], t, a.asks[r].op, at, p.id)],
                 verdicts := a.verdicts[r := Granted(p.id)], turned := a.turned + {t})
    case GrantRetry(r, t, p) =>
      && Asking(a, r, Undecided) && FreshFor(a.born, p)
      && Presents(a, r, t) && r in a.vouched && CanRetry(a, t, a.asks[r].op)
      && var root := a.born[t].root;
         b == a.(born := Registered(a, p, root),
                 families := a.families[root := AfterRetry(a.families[root], p.id)],
                 verdicts := a.verdicts[r := Granted(p.id)])
    case Decline(r) => Asking(a, r, Undecided) && MayDeny(a, r) && b == a.(verdicts := a.verdicts[r := Declined])
    case Refuse(r) =>
      Denied(a, r) && (r in a.cleared || IsClear(a, r)) && b == a.(verdicts := a.verdicts[r := Refused])
    case Condemn(r, t) =>
      && Denied(a, r) && Presents(a, r, t) && (r in a.accused || HeldTurned(a, t))
      && b == a.(verdicts := a.verdicts[r := Condemned])
    case Kill(r, t, ids) =>
      && Asking(a, r, Condemned) && Presents(a, r, t) && t in a.turned
      && (forall x :: x in ids <==> IsHeadOf(a, a.born[t].userId, x))
      && b == a.(families := Ended(a, ids), verdicts := a.verdicts[r := Refused])
    case Vouch(r, t) =>
      && Asking(a, r, Undecided) && Presents(a, r, t) && Live(a, t, a.asks[r].client)
      && b == a.(vouched := a.vouched + {r})
    case Accuse(r, t) =>
      && Asking(a, r, Undecided) && t in a.born && a.born[t].tokenHash == a.asks[r].hash && HeldTurned(a, t)
      && b == a.(accused := a.accused + {r})
    case Clear(r) => Asking(a, r, Undecided) && IsClear(a, r) && b == a.(cleared := a.cleared + {r})
    case Forget(cutoff) =>
      && cutoff <= a.now - RETENTION
      && b == a.(families := map f | f in a.families :: AfterForget(a.families[f], a.born, cutoff))
    case Stutter => b == a
  }

  ghost predicate SimpleMoves(a: Simple, b: Simple) {
    exists e :: SimpleNext(a, e, b)
  }
}
