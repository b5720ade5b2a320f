/**
 * What each OAuth handler does in every run of its own steps only, time passing between
 * them as it likes, with every condition and every written field spelled out.
 */
module OAuthAlone {
  import opened Wrappers
  import opened OAuthMachine
  import opened OAuthTheorems

  // What the provider tells the callback r: a grant or an error, and then a profile or none.
  predicate Heard(q: Request, i: Input, granted: bool, profile: Option<Profile>) {
    && (q.Callback? && q.cpc == CbAccepted ==> i.ok == granted)
    && (q.Callback? && q.cpc.CbClient? ==>
          i.ok == profile.Some? && (i.ok ==> profile == Some(Profile(i.email, i.id))))
  }

  ghost predicate OwnAct(s: State, s': State, r: ReqId, granted: bool, profile: Option<Profile>) {
    exists i :: CanAct(s, r, i) && s' == After(s, r, i) && Heard(s.reqs[r], i, granted, profile)
  }

  // One step of r, or time passing.
  ghost predicate OwnStep(s: State, s': State, r: ReqId, granted: bool, profile: Option<Profile>) {
    (s.now <= s'.now && s' == s.(now := s'.now)) || OwnAct(s, s', r, granted, profile)
  }

  ghost predicate Alone(run: seq<State>, r: ReqId, granted: bool, profile: Option<Profile>) {
    |run| > 0 && forall k :: 0 <= k < |run| - 1 ==> OwnStep(run[k], run[k + 1], r, granted, profile)
  }

  predicate IsClient(s: State, app: AppId, c: ClientId) {
    c in s.clients && s.clients[c].app == app && s.clients[c].isActive
  }

  // ----- The callback -----

  // A genuine state of this provider, at most ten minutes old.
  predicate Young(s: State, q: Request, at: Time)
    requires q.Callback?
  {
    && q.token in s.initiated && s.initiated[q.token].sealed.iat != 0
    && at - s.initiated[q.token].sealed.iat <= 600000
    && s.initiated[q.token].sealed.provider == q.provider
  }

  // No marker of its nonce is live.
  predicate Unused(s: State, q: Request, at: Time)
    requires q.Callback? && q.token in s.initiated
  {
    var nonce := s.initiated[q.token].sealed.nonce; nonce !in s.nonces || s.nonces[nonce] < at
  }

  predicate AtAddress(s: State, u: UserId, c: ClientId, email: nat) {
    u in s.users && s.users[u].client == c && s.users[u].email == email
  }

  // New, unlinked, or linked to exactly this identity; an unlinked or new user is linked.
  predicate Recognised(s: State, t: State, c: ClientId, u: UserId, email: nat, link: Link) {
    if u in s.users then
      && AtAddress(s, u, c, email) && s.users[u].isActive
      && ((s.users[u].link == Some(link) && t.users == s.users)
          || (s.users[u].link == None && t.users == s.users[u := User(c, email, Some(link), true)]))
    else
      && (forall v :: v in s.users ==> !AtAddress(s, v, c, email))
      && t.users == s.users[u := User(c, email, Some(link), true)]
  }

  // Inactive, or linked to another identity.
  predicate Rejected(s: State, c: ClientId, u: UserId, email: nat, link: Link) {
    && AtAddress(s, u, c, email)
    && (!s.users[u].isActive || (s.users[u].link.Some? && s.users[u].link != Some(link)))
  }

  predicate SameTables(s: State, t: State) {
    t.clients == s.clients && t.initiated == s.initiated && t.sessions == s.sessions && s.now <= t.now
  }

  predicate Untouched(s: State, t: State) {
    t.users == s.users && t.codes == s.codes
  }

  predicate Marks(s: State, t: State, q: Request, checkedAt: Time, setAt: Time)
    requires q.Callback?
  {
    && s.now <= checkedAt <= setAt <= t.now && Young(s, q, checkedAt) && Unused(s, q, setAt)
    && t.nonces == s.nonces[s.initiated[q.token].sealed.nonce := setAt + 600000]
  }

  ghost predicate Accepts(s: State, t: State, q: Request)
    requires q.Callback?
  {
    exists checkedAt, setAt :: Marks(s, t, q, checkedAt, setAt)
  }

  ghost predicate Admits(s: State, t: State, q: Request, granted: bool, c: ClientId)
    requires q.Callback?
  {
    Accepts(s, t, q) && granted && q.token in s.initiated && IsClient(s, s.initiated[q.token].sealed.app, c)
  }

  predicate Identified(q: Request, profile: Option<Profile>, email: nat, link: Link)
    requires q.Callback?
  {
    profile == Some(Profile(email, link.id)) && link.provider == q.provider
  }

  ghost predicate Found(s: State, t: State, q: Request, profile: Option<Profile>, c: ClientId, u: UserId)
    requires q.Callback?
  {
    exists email, link :: Identified(q, profile, email, link) && Recognised(s, t, c, u, email, link)
  }

  // The code stands for that user, that client and the sealed transaction, for a minute.
  predicate Stores(s: State, t: State, q: Request, c: ClientId, u: UserId, code: Code, at: Time)
    requires q.Callback?
  {
    && q.token in s.initiated && code !in s.granted && s.now <= at <= t.now
    && var b := s.initiated[q.token].sealed;
       t.codes == s.codes[code := Entry(CodeData(u, c, b.app, b.uri, b.challenge), at + 60000)]
  }

  ghost predicate Welcomes(s: State, t: State, q: Request, granted: bool, profile: Option<Profile>, code: Code)
    requires q.Callback?
  {
    exists c, u, at :: Admits(s, t, q, granted, c) && Found(s, t, q, profile, c, u) && Stores(s, t, q, c, u, code, at)
  }

  ghost predicate NoClient(s: State, app: AppId) {
    forall c :: c in s.clients ==> !IsClient(s, app, c)
  }

  // Why a callback that began in s may have ended without a code by then.
  ghost predicate Denies(s: State, q: Request, granted: bool, profile: Option<Profile>, end: Time)
    requires q.Callback?
  {
    || !Young(s, q, end)
    || !Unused(s, q, s.now)
    || !granted || profile == None
    || NoClient(s, s.initiated[q.token].sealed.app)
    || (exists c, u, email, link :: Identified(q, profile, email, link) && Rejected(s, c, u, email, link)
                                    && IsClient(s, s.initiated[q.token].sealed.app, c))
  }

  ghost predicate CallbackStage(s: State, t: State, q: Request, granted: bool, profile: Option<Profile>, pc: CallbackPc)
    requires q.Callback?
  {
    SameTables(s, t) && t.granted.Keys >= s.granted.Keys &&
    match pc
    case CbStart => Untouched(s, t) && t.nonces == s.nonces
    case CbChecked(at) => Untouched(s, t) && t.nonces == s.nonces && s.now <= at <= t.now && Young(s, q, at)
    case CbAccepted => Untouched(s, t) && Accepts(s, t, q)
    case CbClient(c) => Untouched(s, t) && Admits(s, t, q, granted, c)
    case CbIdentity(c, email, link) =>
      Untouched(s, t) && Admits(s, t, q, granted, c) && Identified(q, profile, email, link)
    case CbInsert(c, email, link) =>
      && Untouched(s, t) && Admits(s, t, q, granted, c) && Identified(q, profile, email, link)
      && forall v :: v in s.users ==> !AtAddress(s, v, c, email)
    case CbLink(c, u, link) =>
      && Untouched(s, t) && Admits(s, t, q, granted, c)
      && (exists email :: Identified(q, profile, email, link) && AtAddress(s, u, c, email))
      && s.users[u].isActive && s.users[u].link == None
    case CbStore(c, u) => t.codes == s.codes && Admits(s, t, q, granted, c) && Found(s, t, q, profile, c, u)
    case CbEnd(Some(code)) => Welcomes(s, t, q, granted, profile, code)
    case CbEnd(None) => Untouched(s, t) && Denies(s, q, granted, profile, t.now)
  }

  predicate SameAsk(t: State, r: ReqId, q: Request)
    requires q.Callback?
  {
    r in t.reqs && t.reqs[r].Callback? && t.reqs[r] == q.(cpc := t.reqs[r].cpc)
  }

  // One step of the callback, on its tables.
  ghost predicate CallbackStep(s: State, t: State, t': State, r: ReqId, q: Request, i: Input, granted: bool,
                               profile: Option<Profile>)
    requires q.Callback?
  {
    && SameAsk(t, r, q) && CanAct(t, r, i) && Heard(t.reqs[r], i, granted, profile)
    && CallbackStage(s, t, q, granted, profile, t.reqs[r].cpc)
    && var (e, pc) := PlanCallback(t, t.reqs[r], i);
       t' == Apply(t, e).(reqs := t.reqs[r := q.(cpc := pc)])
  }

  lemma OpensStage(s: State, t: State, t': State, r: ReqId, q: Request, i: Input, granted: bool,
                   profile: Option<Profile>)
    requires q.Callback? && CallbackStep(s, t, t', r, q, i, granted, profile) && t.reqs[r].cpc == CbStart
    ensures CallbackStage(s, t', q, granted, profile, t'.reqs[r].cpc)
  {
    hide Recognise, UserByEmail, ActiveClient, Rejected, NoClient, Unused;
  }

  lemma MarkEffects(s: State, t: State, t': State, r: ReqId, q: Request, i: Input, granted: bool,
                    profile: Option<Profile>)
    requires q.Callback? && CallbackStep(s, t, t', r, q, i, granted, profile) && t.reqs[r].cpc.CbChecked?
    ensures SameTables(s, t') && Untouched(s, t') && t'.granted == t.granted && t'.now == t.now
    ensures q.token in s.initiated && t.granted.Keys >= s.granted.Keys && t.nonces == s.nonces
    ensures s.now <= t.reqs[r].cpc.checkedAt <= t.now && Young(s, q, t.reqs[r].cpc.checkedAt)
    ensures var nonce := s.initiated[q.token].sealed.nonce;
            if Unused(s, q, t.now)
            then t'.reqs[r].cpc == CbAccepted && t'.nonces == s.nonces[nonce := t.now + 600000]
            else t'.reqs[r].cpc == CbEnd(None)
  {
    hide Recognise, UserByEmail, ActiveClient, Young, Heard;
  }

  lemma MarksStage(s: State, t: State, t': State, r: ReqId, q: Request, i: Input, granted: bool,
                   profile: Option<Profile>)
    requires q.Callback? && CallbackStep(s, t, t', r, q, i, granted, profile) && t.reqs[r].cpc.CbChecked?
    ensures CallbackStage(s, t', q, granted, profile, t'.reqs[r].cpc)
  {
    MarkEffects(s, t, t', r, q, i, granted, profile);
    hide CallbackStep, Young, NoClient;
    if t'.reqs[r].cpc == CbAccepted { assert Marks(s, t', q, t.reqs[r].cpc.checkedAt, t.now); }
  }

  lemma ClientStage(s: State, t: State, t': State, r: ReqId, q: Request, i: Input, granted: bool,
                    profile: Option<Profile>)
    requires q.Callback? && CallbackStep(s, t, t', r, q, i, granted, profile)
    requires t.reqs[r].cpc == CbAccepted || t.reqs[r].cpc.CbClient?
    ensures CallbackStage(s, t', q, granted, profile, t'.reqs[r].cpc)
  {
    AcceptsLater(s, t, t', q);
    hide Recognise, UserByEmail, Found, Recognised, Accepts, Rejected, Young;
  }

  lemma AcceptsLater(s: State, t: State, t': State, q: Request)
    requires q.Callback? && t'.nonces == t.nonces && t.now <= t'.now
    ensures Accepts(s, t, q) ==> Accepts(s, t', q)
  {
    if Accepts(s, t, q) {
      var checkedAt, setAt :| Marks(s, t, q, checkedAt, setAt);
      assert Marks(s, t', q, checkedAt, setAt);
    }
  }

  lemma IdentityStage(s: State, t: State, t': State, r: ReqId, q: Request, i: Input, granted: bool,
                      profile: Option<Profile>)
    requires q.Callback? && CallbackStep(s, t, t', r, q, i, granted, profile) && t.reqs[r].cpc.CbIdentity?
    ensures CallbackStage(s, t', q, granted, profile, t'.reqs[r].cpc)
  {
    AcceptsLater(s, t, t', q);
    hide Accepts, Young, Unused, Stores;
    var pc := t.reqs[r].cpc;
    var u := UserByEmail(t.users, pc.client, pc.email);
    if u.Some? {
      assert AtAddress(s, u.value, pc.client, pc.email);
      if t'.reqs[r].cpc == CbEnd(None) { assert Rejected(s, pc.client, u.value, pc.email, pc.link); }
      if t'.reqs[r].cpc.CbStore? { assert Recognised(s, t', pc.client, u.value, pc.email, pc.link); }
    }
  }

  lemma UserStage(s: State, t: State, t': State, r: ReqId, q: Request, i: Input, granted: bool,
                  profile: Option<Profile>)
    requires q.Callback? && CallbackStep(s, t, t', r, q, i, granted, profile)
    requires t.reqs[r].cpc.CbInsert? || t.reqs[r].cpc.CbLink?
    ensures CallbackStage(s, t', q, granted, profile, t'.reqs[r].cpc)
  {
    AcceptsLater(s, t, t', q);
    hide Accepts, Young, Unused, Stores;
    var pc := t.reqs[r].cpc;
    if pc.CbInsert? {
      assert UserByEmail(t.users, pc.client, pc.email).None? by {
        assert forall v :: v in s.users ==> !AtAddress(s, v, pc.client, pc.email);
      }
      assert Recognised(s, t', pc.client, i.drawn, pc.email, pc.link);
    } else {
      var email :| Identified(q, profile, email, pc.link) && AtAddress(s, pc.user, pc.client, email);
      assert Recognised(s, t', pc.client, pc.user, email, pc.link);
    }
  }

  lemma CodeStage(s: State, t: State, t': State, r: ReqId, q: Request, i: Input, granted: bool,
                  profile: Option<Profile>)
    requires q.Callback? && CallbackStep(s, t, t', r, q, i, granted, profile) && t.reqs[r].cpc.CbStore?
    ensures CallbackStage(s, t', q, granted, profile, t'.reqs[r].cpc)
  {
    AcceptsLater(s, t, t', q);
    var pc := t.reqs[r].cpc;
    FoundLater(s, t, t', q, profile, pc.client, pc.user);
    hide Accepts, Young, Unused, Found, IsClient;
    assert Stores(s, t', q, pc.client, pc.user, i.drawn, t.now);
    assert Admits(s, t', q, granted, pc.client);
  }

  lemma FoundLater(s: State, t: State, t': State, q: Request, profile: Option<Profile>, c: ClientId, u: UserId)
    requires q.Callback? && t'.users == t.users && Found(s, t, q, profile, c, u)
    ensures Found(s, t', q, profile, c, u)
  {
    var email, link :| Identified(q, profile, email, link) && Recognised(s, t, c, u, email, link);
    assert Recognised(s, t', c, u, email, link);
  }

  // Nothing but the clock and the requests may have moved.
  lemma RestStage(s: State, t: State, t': State, q: Request, granted: bool, profile: Option<Profile>, pc: CallbackPc)
    requires q.Callback? && CallbackStage(s, t, q, granted, profile, pc)
    requires t.now <= t'.now && t' == t.(now := t'.now, reqs := t'.reqs)
    ensures CallbackStage(s, t', q, granted, profile, pc)
  {
    AcceptsLater(s, t, t', q);
    match pc
    case CbStore(c, u) => FoundLater(s, t, t', q, profile, c, u); hide Accepts, Found;
    case CbEnd(Some(code)) =>
      var c, u, at :| Admits(s, t, q, granted, c) && Found(s, t, q, profile, c, u) && Stores(s, t, q, c, u, code, at);
      FoundLater(s, t, t', q, profile, c, u);
      hide Accepts, Found;
      assert Admits(s, t', q, granted, c) && Stores(s, t', q, c, u, code, at);
    case CbEnd(None) => hide Rejected, IsClient, Identified;
    case _ => hide Accepts;
  }

  lemma CallbackActs(s: State, t: State, t': State, r: ReqId, q: Request, i: Input, granted: bool,
                     profile: Option<Profile>)
    requires q.Callback? && CallbackStep(s, t, t', r, q, i, granted, profile)
    ensures SameAsk(t', r, q) && CallbackStage(s, t', q, granted, profile, t'.reqs[r].cpc)
  {
    var pc := t.reqs[r].cpc;
    if pc.CbEnd? {
      assert t' == t.(reqs := t'.reqs);
      RestStage(s, t, t', q, granted, profile, pc);
    }
    hide CallbackStage, PlanCallback, Apply, CanAct, Heard;
    match pc
    case CbStart => OpensStage(s, t, t', r, q, i, granted, profile);
    case CbChecked(_) => MarksStage(s, t, t', r, q, i, granted, profile);
    case CbAccepted => ClientStage(s, t, t', r, q, i, granted, profile);
    case CbClient(_) => ClientStage(s, t, t', r, q, i, granted, profile);
    case CbIdentity(_, _, _) => IdentityStage(s, t, t', r, q, i, granted, profile);
    case CbInsert(_, _, _) => UserStage(s, t, t', r, q, i, granted, profile);
    case CbLink(_, _, _) => UserStage(s, t, t', r, q, i, granted, profile);
    case CbStore(_, _) => CodeStage(s, t, t', r, q, i, granted, profile);
    case CbEnd(_) =>
  }

  lemma CallbackMoves(s: State, t: State, t': State, r: ReqId, q: Request, granted: bool, profile: Option<Profile>)
    requires q.Callback? && SameAsk(t, r, q) && CallbackStage(s, t, q, granted, profile, t.reqs[r].cpc)
    requires OwnStep(t, t', r, granted, profile)
    ensures SameAsk(t', r, q) && CallbackStage(s, t', q, granted, profile, t'.reqs[r].cpc)
  {
    hide CallbackStage, PlanCallback, Apply, CanAct, Heard;
    if t.now <= t'.now && t' == t.(now := t'.now) {
      RestStage(s, t, t', q, granted, profile, t.reqs[r].cpc);
    } else {
      var i :| CanAct(t, r, i) && t' == After(t, r, i) && Heard(t.reqs[r], i, granted, profile);
      AfterIs(t, r, i);
      CallbackActs(s, t, t', r, q, i, granted, profile);
    }
  }

  lemma {:induction false} CallbackStages(run: seq<State>, r: ReqId, granted: bool, profile: Option<Profile>, k: nat)
    requires Alone(run, r, granted, profile) && k < |run|
    requires r in run[0].reqs && run[0].reqs[r].Callback? && run[0].reqs[r].cpc == CbStart
    ensures SameAsk(run[k], r, run[0].reqs[r])
    ensures CallbackStage(run[0], run[k], run[0].reqs[r], granted, profile, run[k].reqs[r].cpc)
  {
    hide OwnStep;
    if k == 0 {
    } else {
      hide CallbackStage;
      CallbackStages(run, r, granted, profile, k - 1);
      assert OwnStep(run[k - 1], run[k - 1 + 1], r, granted, profile);
      CallbackMoves(run[0], run[k - 1], run[k], r, run[0].reqs[r], granted, profile);
    }
  }

  /**
   * Every run of a callback's own steps: it ends with a code only if the state was genuine,
   * young, of this provider and unused, the provider granted and gave a profile, the client
   * is active and its user with that email is new, unlinked or linked to exactly this
   * identity; the code is then that user's. It ends without one only if one of these fails,
   * and then touches no user and no code.
   */
  lemma CallbackExactly(run: seq<State>, r: ReqId, granted: bool, profile: Option<Profile>)
    requires Alone(run, r, granted, profile)
    requires r in run[0].reqs && run[0].reqs[r].Callback? && run[0].reqs[r].cpc == CbStart
    ensures var s, t := run[0], run[|run| - 1]; var q := s.reqs[r];
            && r in t.reqs && t.reqs[r].Callback?
            && (forall code :: t.reqs[r].cpc == CbEnd(Some(code)) ==> Welcomes(s, t, q, granted, profile, code))
            && (t.reqs[r].cpc == CbEnd(None) ==> Untouched(s, t) && Denies(s, q, granted, profile, t.now))
  {
    CallbackStages(run, r, granted, profile, |run| - 1);
    hide Alone, Welcomes, Denies, Untouched;
  }

  // ----- Initiate -----

  predicate MayBegin(s: State, q: Request, c: ClientId)
    requires q.Initiate?
  {
    && IsClient(s, q.app, c) && q.uri in s.clients[c].uris
    && (s.clients[c].isPublic ==> q.challenge.Some?)
  }

  predicate Seals(s: State, t: State, q: Request, c: ClientId, token: Token, nonce: Nonce, at: Time)
    requires q.Initiate?
  {
    && MayBegin(s, q, c) && token !in s.initiated && s.now <= at <= t.now
    && (forall x :: x in s.initiated ==> s.initiated[x].sealed.nonce != nonce)
    && var sealed := Sealed(q.app, q.uri, q.provider, nonce, q.challenge, at);
       t.initiated == s.initiated[token := Initiation(sealed, c, s.clients[c].uris)]
  }

  ghost predicate SealedIn(s: State, t: State, q: Request, token: Token)
    requires q.Initiate?
  {
    exists c, nonce, at :: Seals(s, t, q, c, token, nonce, at)
  }

  ghost predicate InitiateStage(s: State, t: State, q: Request, pc: InitiatePc)
    requires q.Initiate?
  {
    t.clients == s.clients && Untouched(s, t) && s.now <= t.now &&
    match pc
    case InStart => t.initiated == s.initiated
    case InSeal(c, registered) =>
      t.initiated == s.initiated && MayBegin(s, q, c) && registered == s.clients[c].uris
    case InEnd(Some(token)) => SealedIn(s, t, q, token)
    case InEnd(None) => t.initiated == s.initiated && forall c :: c in s.clients ==> !MayBegin(s, q, c)
  }

  predicate SameInitiate(t: State, r: ReqId, q: Request)
    requires q.Initiate?
  {
    r in t.reqs && t.reqs[r].Initiate? && t.reqs[r] == q.(ipc := t.reqs[r].ipc)
  }

  lemma SealedLater(s: State, t: State, t': State, q: Request, token: Token)
    requires q.Initiate? && SealedIn(s, t, q, token) && t'.initiated == t.initiated && t.now <= t'.now
    ensures SealedIn(s, t', q, token)
  {
    var c, nonce, at :| Seals(s, t, q, c, token, nonce, at);
    assert Seals(s, t', q, c, token, nonce, at);
  }

  // One step of the initiation, on its tables.
  ghost predicate InitiateStep(s: State, t: State, t': State, r: ReqId, q: Request, i: Input) {
    && q.Initiate? && SameInitiate(t, r, q) && InitiateStage(s, t, q, t.reqs[r].ipc) && CanAct(t, r, i)
    && var (e, pc) := PlanInitiate(t, t.reqs[r], i);
       t' == Apply(t, e).(reqs := t.reqs[r := q.(ipc := pc)])
  }

  lemma RoutesInitiate(s: State, t: State, t': State, r: ReqId, q: Request, i: Input)
    requires ClientsInv(s) && InitiateStep(s, t, t', r, q, i) && t.reqs[r].ipc == InStart
    ensures InitiateStage(s, t', q, t'.reqs[r].ipc)
  {
    hide SealedIn, CanAct;
    var c := ActiveClient(t.clients, q.app);
    if c.Some? { forall d | d in s.clients && IsClient(s, q.app, d) ensures d == c.value {} }
    hide ClientsInv, ActiveClient;
  }

  lemma SealsInitiate(s: State, t: State, t': State, r: ReqId, q: Request, i: Input)
    requires InitiateStep(s, t, t', r, q, i) && t.reqs[r].ipc.InSeal?
    ensures InitiateStage(s, t', q, t'.reqs[r].ipc)
  {
    hide MayBegin;
    assert Seals(s, t', q, t.reqs[r].ipc.client, i.drawn, i.nonce, t.now);
  }

  lemma InitiateRests(s: State, t: State, t': State, q: Request, pc: InitiatePc)
    requires q.Initiate? && InitiateStage(s, t, q, pc) && t.now <= t'.now
    requires t' == t.(now := t'.now, reqs := t'.reqs)
    ensures InitiateStage(s, t', q, pc)
  {
    if pc.InEnd? && pc.token.Some? { SealedLater(s, t, t', q, pc.token.value); }
    hide MayBegin, SealedIn;
  }

  lemma InitiateActs(s: State, t: State, t': State, r: ReqId, q: Request, i: Input)
    requires ClientsInv(s) && InitiateStep(s, t, t', r, q, i)
    ensures SameInitiate(t', r, q) && InitiateStage(s, t', q, t'.reqs[r].ipc)
  {
    var pc := t.reqs[r].ipc;
    if pc.InEnd? {
      assert t' == t.(reqs := t'.reqs);
      InitiateRests(s, t, t', q, pc);
    }
    hide ClientsInv, InitiateStage, PlanInitiate, Apply, CanAct;
    match pc
    case InStart => RoutesInitiate(s, t, t', r, q, i);
    case InSeal(_, _) => SealsInitiate(s, t, t', r, q, i);
    case InEnd(_) =>
  }

  lemma InitiateMoves(s: State, t: State, t': State, r: ReqId, q: Request)
    requires ClientsInv(s) && q.Initiate? && SameInitiate(t, r, q) && InitiateStage(s, t, q, t.reqs[r].ipc)
    requires OwnStep(t, t', r, true, None)
    ensures SameInitiate(t', r, q) && InitiateStage(s, t', q, t'.reqs[r].ipc)
  {
    hide ClientsInv, InitiateStage, PlanInitiate, Apply, CanAct;
    if t.now <= t'.now && t' == t.(now := t'.now) {
      InitiateRests(s, t, t', q, t.reqs[r].ipc);
    } else {
      var i :| CanAct(t, r, i) && t' == After(t, r, i) && Heard(t.reqs[r], i, true, None);
      AfterIs(t, r, i);
      InitiateActs(s, t, t', r, q, i);
    }
  }

  lemma {:induction false} InitiateStages(run: seq<State>, r: ReqId, k: nat)
    requires Alone(run, r, true, None) && ClientsInv(run[0]) && k < |run|
    requires r in run[0].reqs && run[0].reqs[r].Initiate? && run[0].reqs[r].ipc == InStart
    ensures SameInitiate(run[k], r, run[0].reqs[r])
    ensures InitiateStage(run[0], run[k], run[0].reqs[r], run[k].reqs[r].ipc)
  {
    hide OwnStep, ClientsInv;
    if k == 0 {
    } else {
      hide InitiateStage;
      InitiateStages(run, r, k - 1);
      assert OwnStep(run[k - 1], run[k - 1 + 1], r, true, None);
      InitiateMoves(run[0], run[k - 1], run[k], r, run[0].reqs[r]);
    }
  }

  /**
   * Every run of an initiation's own steps: it seals a state if and only if an active client
   * of that identifier lists the URI, with a challenge when it is public; the state then
   * holds exactly the request, a new nonce and the time.
   */
  lemma InitiateExactly(run: seq<State>, r: ReqId)
    requires Alone(run, r, true, None) && ClientsInv(run[0])
    requires r in run[0].reqs && run[0].reqs[r].Initiate? && run[0].reqs[r].ipc == InStart
    ensures var s, t := run[0], run[|run| - 1]; var q := s.reqs[r];
            && r in t.reqs && t.reqs[r].Initiate?
            && (forall token :: t.reqs[r].ipc == InEnd(Some(token)) ==> SealedIn(s, t, q, token))
            && (t.reqs[r].ipc == InEnd(None) ==>
                  t.initiated == s.initiated && forall c :: c in s.clients ==> !MayBegin(s, q, c))
  {
    InitiateStages(run, r, |run| - 1);
    hide Alone, SealedIn, MayBegin, ClientsInv;
  }

  // ----- Redemption -----

  predicate Unexpired(s: State, code: Code, at: Time) {
    code in s.codes && at <= s.codes[code].expiresAt
  }

  // The presentation is by the code's client, for its URI, and with its verifier.
  predicate Fits(s: State, q: Request)
    requires q.Redeem? && q.code in s.codes
  {
    var d := s.codes[q.code].data;
    && d.app == q.app && d.uri == q.uri && IsClient(s, q.app, d.client)
    && (s.clients[d.client].isPublic || q.secretOk)
    && (d.challenge == None || (q.verifier.Some? && d.challenge == Some(S256(q.verifier.value))))
  }

  predicate ActiveUser(s: State, u: UserId) {
    u in s.users && s.users[u].isActive
  }

  predicate Spends(s: State, t: State, q: Request, at: Time)
    requires q.Redeem?
  {
    s.now <= at <= t.now && Unexpired(s, q.code, at) && Fits(s, q) && t.codes == s.codes - {q.code}
  }

  ghost predicate SpentIn(s: State, t: State, q: Request)
    requires q.Redeem?
  {
    exists at :: Spends(s, t, q, at)
  }

  predicate Issues(s: State, t: State, q: Request)
    requires q.Redeem? && q.code in s.codes
  {
    var d := s.codes[q.code].data;
    ActiveUser(s, d.user) && t.sessions == s.sessions + [Session(q.code, d.client, d.user, q.uri, q.verifier)]
  }

  // It was no good by then, or was spent for nobody.
  ghost predicate Fails(s: State, t: State, q: Request)
    requires q.Redeem?
  {
    && t.sessions == s.sessions
    && (|| (t.codes == s.codes && !(Unexpired(s, q.code, t.now) && Fits(s, q)))
        || (SpentIn(s, t, q) && q.code in s.codes && !ActiveUser(s, s.codes[q.code].data.user)))
  }

  ghost predicate RedeemStage(s: State, t: State, q: Request, pc: RedeemPc)
    requires q.Redeem?
  {
    && t.clients == s.clients && t.users == s.users && s.now <= t.now
    && match pc
       case RdStart => t.codes == s.codes && t.sessions == s.sessions
       case RdResolved(d) =>
         && t.codes == s.codes && t.sessions == s.sessions
         && Unexpired(s, q.code, s.now) && d == s.codes[q.code].data
       case RdBound(d, c) =>
         && t.codes == s.codes && t.sessions == s.sessions
         && Unexpired(s, q.code, s.now) && d == s.codes[q.code].data && Fits(s, q) && c == d.client
       case RdConsumed(d, c) =>
         && t.sessions == s.sessions && SpentIn(s, t, q)
         && q.code in s.codes && d == s.codes[q.code].data && c == d.client
       case RdUser(u, c) =>
         && t.sessions == s.sessions && SpentIn(s, t, q) && q.code in s.codes
         && u == s.codes[q.code].data.user && c == s.codes[q.code].data.client && ActiveUser(s, u)
       case RdDone => SpentIn(s, t, q) && q.code in s.codes && Issues(s, t, q)
       case RdFailed => Fails(s, t, q)
  }

  predicate SameRedeem(t: State, r: ReqId, q: Request)
    requires q.Redeem?
  {
    r in t.reqs && t.reqs[r].Redeem? && t.reqs[r] == q.(rpc := t.reqs[r].rpc)
  }

  lemma SpentLater(s: State, t: State, t': State, q: Request)
    requires q.Redeem? && SpentIn(s, t, q) && t'.codes == t.codes && t.now <= t'.now
    ensures SpentIn(s, t', q) && q.code in s.codes
  {
    var at :| Spends(s, t, q, at);
    assert Spends(s, t', q, at);
  }

  lemma RedeemRests(s: State, t: State, t': State, q: Request, pc: RedeemPc)
    requires q.Redeem? && RedeemStage(s, t, q, pc) && t.now <= t'.now && t' == t.(now := t'.now, reqs := t'.reqs)
    ensures RedeemStage(s, t', q, pc)
  {
    if SpentIn(s, t, q) { SpentLater(s, t, t', q); }
    hide SpentIn, Fits;
  }

  lemma BindsExactly(s: State, t: State, q: Request, d: CodeData)
    requires ClientsInv(s) && t.clients == s.clients && q.Redeem? && q.code in s.codes && d == s.codes[q.code].data
    ensures Binds(t, q, d) == if Fits(s, q) then Some(d.client) else None
  {}

  lemma RedeemReads(s: State, t: State, t': State, r: ReqId, q: Request)
    requires ClientsInv(s) && q.Redeem? && SameRedeem(t, r, q) && RedeemStage(s, t, q, t.reqs[r].rpc)
    requires t.reqs[r].rpc == RdStart || t.reqs[r].rpc.RdResolved?
    requires var (e, pc) := PlanRedeem(t, t.reqs[r], r); t' == Apply(t, e).(reqs := t.reqs[r := q.(rpc := pc)])
    ensures RedeemStage(s, t', q, t'.reqs[r].rpc)
  {
    if t.reqs[r].rpc.RdResolved? {
      BindsExactly(s, t, t.reqs[r], t.reqs[r].rpc.data);
      assert Fits(s, t.reqs[r]) == Fits(s, q);
    }
    hide ClientsInv, Binds, Fits, SpentIn;
  }

  lemma RedeemWrites(s: State, t: State, t': State, r: ReqId, q: Request)
    requires q.Redeem? && SameRedeem(t, r, q) && RedeemStage(s, t, q, t.reqs[r].rpc)
    requires t.reqs[r].rpc.RdBound? || t.reqs[r].rpc.RdConsumed? || t.reqs[r].rpc.RdUser?
    requires var (e, pc) := PlanRedeem(t, t.reqs[r], r); t' == Apply(t, e).(reqs := t.reqs[r := q.(rpc := pc)])
    ensures RedeemStage(s, t', q, t'.reqs[r].rpc)
  {
    hide Binds, Fits;
    if t.reqs[r].rpc.RdBound? {
      if t'.reqs[r].rpc.RdConsumed? { assert Spends(s, t', q, t.now); }
    } else {
      SpentLater(s, t, t', q);
      hide SpentIn;
    }
  }

  lemma RedeemActs(s: State, t: State, t': State, r: ReqId, q: Request, i: Input)
    requires ClientsInv(s) && q.Redeem? && SameRedeem(t, r, q) && RedeemStage(s, t, q, t.reqs[r].rpc)
    requires CanAct(t, r, i)
    requires var (e, pc) := PlanRedeem(t, t.reqs[r], r); t' == Apply(t, e).(reqs := t.reqs[r := q.(rpc := pc)])
    ensures SameRedeem(t', r, q) && RedeemStage(s, t', q, t'.reqs[r].rpc)
  {
    var pc := t.reqs[r].rpc;
    if pc == RdDone || pc == RdFailed {
      assert t' == t.(reqs := t'.reqs);
      RedeemRests(s, t, t', q, pc);
    }
    hide ClientsInv, RedeemStage, PlanRedeem, Apply, CanAct;
    if pc == RdStart || pc.RdResolved? { RedeemReads(s, t, t', r, q); }
    else if pc != RdDone && pc != RdFailed { RedeemWrites(s, t, t', r, q); }
  }

  lemma RedeemMoves(s: State, t: State, t': State, r: ReqId, q: Request)
    requires ClientsInv(s) && q.Redeem? && SameRedeem(t, r, q) && RedeemStage(s, t, q, t.reqs[r].rpc)
    requires OwnStep(t, t', r, true, None)
    ensures SameRedeem(t', r, q) && RedeemStage(s, t', q, t'.reqs[r].rpc)
  {
    hide ClientsInv, RedeemStage, PlanRedeem, Apply, CanAct;
    if t.now <= t'.now && t' == t.(now := t'.now) {
      RedeemRests(s, t, t', q, t.reqs[r].rpc);
    } else {
      var i :| CanAct(t, r, i) && t' == After(t, r, i) && Heard(t.reqs[r], i, true, None);
      AfterIs(t, r, i);
      RedeemActs(s, t, t', r, q, i);
    }
  }

  lemma {:induction false} RedeemStages(run: seq<State>, r: ReqId, k: nat)
    requires Alone(run, r, true, None) && ClientsInv(run[0]) && k < |run|
    requires r in run[0].reqs && run[0].reqs[r].Redeem? && run[0].reqs[r].rpc == RdStart
    ensures SameRedeem(run[k], r, run[0].reqs[r])
    ensures RedeemStage(run[0], run[k], run[0].reqs[r], run[k].reqs[r].rpc)
  {
    hide OwnStep, ClientsInv;
    if k == 0 {
    } else {
      hide RedeemStage;
      RedeemStages(run, r, k - 1);
      assert OwnStep(run[k - 1], run[k - 1 + 1], r, true, None);
      RedeemMoves(run[0], run[k - 1], run[k], r, run[0].reqs[r]);
    }
  }

  /**
   * Every run of a redemption's own steps: it issues one session, for the code's user and
   * client, only if the code is unexpired and the client, credentials, URI and verifier
   * fit it and its user is active, and spends the code; it fails only if one of these does
   * not hold by the end, issues nothing, and spends the code only when the user is at fault.
   */
  lemma RedeemExactly(run: seq<State>, r: ReqId)
    requires Alone(run, r, true, None) && ClientsInv(run[0])
    requires r in run[0].reqs && run[0].reqs[r].Redeem? && run[0].reqs[r].rpc == RdStart
    ensures var s, t := run[0], run[|run| - 1]; var q := s.reqs[r];
            && r in t.reqs && t.reqs[r].Redeem? && t.users == s.users
            && (t.reqs[r].rpc == RdDone ==> SpentIn(s, t, q) && q.code in s.codes && Issues(s, t, q))
            && (t.reqs[r].rpc == RdFailed ==> Fails(s, t, q))
  {
    RedeemStages(run, r, |run| - 1);
    hide Alone, SpentIn, Issues, Fails, ClientsInv;
  }
}
