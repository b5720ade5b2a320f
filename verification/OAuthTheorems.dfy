/** Provenance and single use of OAuth sessions and states, over whole runs. */
module OAuthTheorems {
  import opened Wrappers
  import opened Traces
  import opened OAuthMachine

  // ----- Invariant -----

  ghost predicate ClientsInv(s: State) {
    forall c, d :: c in s.clients && d in s.clients && s.clients[c].app == s.clients[d].app ==> c == d
  }

  ghost predicate UsersInv(s: State) {
    forall u, v :: u in s.users && v in s.users && SameAddress(s.users[u], s.users[v]) ==> u == v
  }

  predicate Registered(s: State, app: AppId, uri: Uri, challenge: Option<Challenge>, c: ClientId,
                       registered: set<Uri>) {
    && c in s.clients && s.clients[c].app == app && uri in registered
    && (s.clients[c].isPublic ==> challenge.Some?)
  }

  predicate Began(s: State, t: Token) {
    && t in s.initiated
    && var i := s.initiated[t];
       Registered(s, i.sealed.app, i.sealed.uri, i.sealed.challenge, i.client, i.registered) && i.sealed.iat <= s.now
  }

  ghost predicate InitiatedInv(s: State) {
    && (forall t :: t in s.initiated ==> Began(s, t))
    && (forall t, u ::
          t in s.initiated && u in s.initiated && s.initiated[t].sealed.nonce == s.initiated[u].sealed.nonce ==> t == u)
  }

  predicate UserOf(s: State, u: UserId, c: ClientId) {
    u in s.users && s.users[u].client == c
  }

  predicate Granted(s: State, code: Code) {
    && code in s.granted && s.granted[code].token in s.initiated
    && var g := s.granted[code]; var i := s.initiated[g.token];
       && g.data.client == i.client && g.data.app == i.sealed.app && g.data.uri == i.sealed.uri
       && g.data.challenge == i.sealed.challenge && UserOf(s, g.data.user, g.data.client)
  }

  ghost predicate CodesInv(s: State) {
    GrantedInv(s) && StoredInv(s)
  }

  ghost predicate GrantedInv(s: State) {
    forall code :: code in s.granted ==> Granted(s, code)
  }

  ghost predicate StoredInv(s: State) {
    && (forall code :: code in s.codes ==>
          && code in s.granted && s.codes[code].data == s.granted[code].data && code !in s.consumer
          && s.codes[code].expiresAt == s.granted[code].storedAt + CODE_TTL)
    && (forall code :: code in s.consumer ==> code in s.granted)
    && (forall code :: code in s.granted ==> code in s.codes || code in s.consumer)
  }

  predicate CallbackInv(s: State, token: Token, pc: CallbackPc) {
    match pc
    case CbStart => true
    case CbEnd(_) => true
    case CbChecked(at) => token in s.initiated && at <= s.now && at - s.initiated[token].sealed.iat <= STATE_MAX_AGE
    case CbAccepted => token in s.initiated
    case CbClient(c) => token in s.initiated && c == s.initiated[token].client
    case CbIdentity(c, _, _) => token in s.initiated && c == s.initiated[token].client
    case CbInsert(c, _, _) => token in s.initiated && c == s.initiated[token].client
    case CbLink(c, u, _) => token in s.initiated && c == s.initiated[token].client && UserOf(s, u, c)
    case CbStore(c, u) => token in s.initiated && c == s.initiated[token].client && UserOf(s, u, c)
  }

  // The binding checks this request passed, on the data the code was stored with.
  predicate Bound(s: State, q: Request, data: CodeData, c: ClientId) {
    && q.Redeem? && q.code in s.granted && data == s.granted[q.code].data
    && data.client == c && data.app == q.app && data.uri == q.uri && VerifierFits(data.challenge, q.verifier)
    && c in s.clients && (s.clients[c].isPublic || q.secretOk)
  }

  predicate ConsumedBy(s: State, code: Code, r: ReqId) {
    code in s.consumer && s.consumer[code].req == r
  }

  predicate RedeemInv(s: State, r: ReqId, q: Request)
    requires q.Redeem?
  {
    match q.rpc
    case RdStart => true
    case RdFailed => true
    case RdResolved(data) => q.code in s.granted && data == s.granted[q.code].data
    case RdBound(data, c) => Bound(s, q, data, c)
    case RdConsumed(data, c) => Bound(s, q, data, c) && ConsumedBy(s, q.code, r)
    case RdUser(u, c) =>
      q.code in s.granted && Bound(s, q, s.granted[q.code].data, c) && u == s.granted[q.code].data.user
          && ConsumedBy(s, q.code, r)
    case RdDone => ConsumedBy(s, q.code, r)
  }

  predicate ReqInv(s: State, r: ReqId, q: Request) {
    match q
    case Initiate(app, uri, _, challenge, pc) => pc.InSeal? ==>
        Registered(s, app, uri, challenge, pc.client, pc.registered)
    case Callback(token, _, pc) => CallbackInv(s, token, pc)
    case Redeem(_, _, _, _, _, _) => RedeemInv(s, r, q)
  }

  ghost predicate ReqsInv(s: State) {
    forall r :: r in s.reqs ==> ReqInv(s, r, s.reqs[r])
  }

  // Whoever consumed a code did so within its lifetime and had passed every binding check on it.
  predicate Entitled(s: State, code: Code) {
    && code in s.granted && code in s.consumer && s.consumer[code].req in s.reqs
    && s.consumer[code].at <= s.granted[code].storedAt + CODE_TTL
    && var q := s.reqs[s.consumer[code].req];
       q.Redeem? && q.code == code && Bound(s, q, s.granted[code].data, s.granted[code].data.client)
  }

  ghost predicate ConsumersInv(s: State) {
    forall code :: code in s.consumer ==> Entitled(s, code)
  }

  /** What every issued session traces to. */
  predicate Provenance(s: State, x: Session) {
    && Granted(s, x.code)
    && var i := s.initiated[s.granted[x.code].token];
       && x.client == i.client && x.client in s.clients
       && x.uri == i.sealed.uri && x.uri in i.registered
       && UserOf(s, x.user, x.client)
       && (i.sealed.challenge.Some? ==> x.verifier.Some? && i.sealed.challenge == Some(S256(x.verifier.value)))
       && (s.clients[x.client].isPublic ==> x.verifier.Some? && i.sealed.challenge == Some(S256(x.verifier.value)))
  }

  predicate Finished(s: State, code: Code) {
    && code in s.consumer && s.consumer[code].req in s.reqs
    && s.reqs[s.consumer[code].req].Redeem? && s.reqs[s.consumer[code].req].rpc == RdDone
  }

  ghost predicate SessionsInv(s: State) {
    && (forall k :: 0 <= k < |s.sessions| ==> Provenance(s, s.sessions[k]) && Finished(s, s.sessions[k].code))
    && (forall j, k :: 0 <= j < k < |s.sessions| ==> s.sessions[j].code != s.sessions[k].code)
  }

  predicate Marked(s: State, a: Acceptance) {
    && a.token in s.initiated
    && var i := s.initiated[a.token].sealed;
       && i.nonce in s.nonces && s.nonces[i.nonce] >= a.setAt + STATE_TTL
       && i.iat <= a.setAt <= s.now && a.checkedAt <= a.setAt && a.checkedAt - i.iat <= STATE_MAX_AGE
  }

  // b accepted the state again, after a: b waited longer between its check and its
  // SET than the state was old when a accepted it.
  predicate Waited(s: State, a: Acceptance, b: Acceptance) {
    a.token in s.initiated && b.setAt - b.checkedAt > a.setAt - s.initiated[a.token].sealed.iat
  }

  ghost predicate AcceptedInv(s: State) {
    && (forall k :: 0 <= k < |s.accepted| ==> Marked(s, s.accepted[k]))
    && (forall j, k :: 0 <= j < k < |s.accepted| && s.accepted[j].token == s.accepted[k].token ==>
        Waited(s, s.accepted[j], s.accepted[k]))
  }

  ghost predicate Inv(s: State) {
    ClientsInv(s) && UsersInv(s) && InitiatedInv(s) && CodesInv(s) && ReqsInv(s) && ConsumersInv(s) && SessionsInv(s)
        && AcceptedInv(s)
  }

  // ----- What a step leaves true -----

  ghost predicate Later(s: State, s': State) {
    && s.now <= s'.now
    && (forall c :: c in s.clients ==>
          c in s'.clients && s'.clients[c].app == s.clients[c].app && s'.clients[c].isPublic == s.clients[c].isPublic)
    && (forall u :: u in s.users ==> u in s'.users && s'.users[u].client == s.users[u].client)
    && (forall t :: t in s.initiated ==> t in s'.initiated && s'.initiated[t] == s.initiated[t])
    && (forall code :: code in s.granted ==> code in s'.granted && s'.granted[code] == s.granted[code])
    && (forall code :: code in s.consumer ==> code in s'.consumer && s'.consumer[code] == s.consumer[code])
  }

  // The condition under which the protocol lets each effect happen.
  ghost predicate Allowed(s: State, e: Effect) {
    match e
    case Nothing => true
    case Mark(token, at) =>
      && token in s.initiated && !MarkerLive(s, s.initiated[token].sealed.nonce)
      && at <= s.now && at - s.initiated[token].sealed.iat <= STATE_MAX_AGE
    case Seal(token, i) =>
      && token !in s.initiated && (forall x :: x in s.initiated ==> s.initiated[x].sealed.nonce != i.sealed.nonce)
      && Registered(s, i.sealed.app, i.sealed.uri, i.sealed.challenge, i.client, i.registered) && i.sealed.iat <= s.now
    case NewUser(u, user) => u !in s.users && UserByEmail(s.users, user.client, user.email).None?
    case Relink(_, _) => true
    case Store(code, token, data) =>
      && code !in s.granted && token in s.initiated
      && var i := s.initiated[token];
         data.client == i.client && data.app == i.sealed.app && data.uri == i.sealed.uri
         && data.challenge == i.sealed.challenge && UserOf(s, data.user, data.client)
    case Consume(code, r) => CodeLive(s, code)
    case Issue(x) => Provenance(s, x) && x.code in s.consumer && forall k :: 0 <= k < |s.sessions| ==>
        s.sessions[k].code != x.code
  }

  lemma ApplyLater(s: State, e: Effect)
    requires CodesInv(s) && Allowed(s, e)
    ensures Later(s, Apply(s, e))
  {}

  lemma ApplyKeepsTables(s: State, e: Effect)
    requires ClientsInv(s) && UsersInv(s) && InitiatedInv(s) && Allowed(s, e)
    ensures var s1 := Apply(s, e); ClientsInv(s1) && UsersInv(s1) && InitiatedInv(s1)
  {
    ApplyKeepsUsers(s, e);
    ApplyKeepsInitiated(s, e);
    hide UsersInv, InitiatedInv, Allowed;
  }

  lemma ApplyKeepsUsers(s: State, e: Effect)
    requires UsersInv(s) && Allowed(s, e)
    ensures UsersInv(Apply(s, e))
  {
    hide Provenance, Registered, MarkerLive, UserOf;
  }

  lemma ApplyKeepsInitiated(s: State, e: Effect)
    requires InitiatedInv(s) && Allowed(s, e)
    ensures InitiatedInv(Apply(s, e))
  {
    hide Provenance, MarkerLive, UserOf, UserByEmail;
  }

  lemma ApplyKeepsCodes(s: State, e: Effect)
    requires InitiatedInv(s) && CodesInv(s) && Allowed(s, e)
    ensures CodesInv(Apply(s, e))
  {
    ApplyKeepsGranted(s, e);
    ApplyKeepsStored(s, e);
    hide GrantedInv, StoredInv, Allowed, Apply;
  }

  lemma ApplyKeepsGranted(s: State, e: Effect)
    requires CodesInv(s) && Allowed(s, e)
    ensures GrantedInv(Apply(s, e))
  {
    ApplyLater(s, e);
    var s1 := Apply(s, e);
    hide Allowed, Apply, Granted, StoredInv;
    forall code | code in s1.granted ensures Granted(s1, code) {
      hide Later;
      if code in s.granted { GrantedLater(s, s1, code); } else { StoreGrants(s, e, code); }
    }
  }

  lemma ApplyKeepsStored(s: State, e: Effect)
    requires StoredInv(s) && Allowed(s, e)
    ensures StoredInv(Apply(s, e))
  {
    hide Provenance, MarkerLive, UserByEmail, Registered, UserOf;
  }

  lemma ApplyKeepsAccepted(s: State, e: Effect)
    requires InitiatedInv(s) && AcceptedInv(s) && Allowed(s, e)
    ensures AcceptedInv(Apply(s, e))
  {
    hide Provenance, UserOf;
  }

  lemma StoreGrants(s: State, e: Effect, code: Code)
    requires Allowed(s, e) && code !in s.granted && code in Apply(s, e).granted
    ensures Granted(Apply(s, e), code)
  {
    hide Provenance, MarkerLive, UserByEmail;
  }

  lemma BeganLater(s: State, s': State, t: Token)
    requires Later(s, s') && Began(s, t)
    ensures Began(s', t)
  {}

  lemma GrantedLater(s: State, s': State, code: Code)
    requires Later(s, s') && Granted(s, code)
    ensures Granted(s', code)
  {}

  lemma ProvenanceLater(s: State, s': State, x: Session)
    requires Later(s, s') && Provenance(s, x)
    ensures Provenance(s', x)
  {}

  lemma ReqLater(s: State, s': State, r: ReqId, q: Request)
    requires Later(s, s')
    ensures ReqInv(s, r, q) ==> ReqInv(s', r, q)
  {
    hide VerifierFits;
  }

  // ----- The acting request -----

  lemma ClientIsUnique(s: State, t: Token)
    requires ClientsInv(s) && Began(s, t)
    ensures var c := ActiveClient(s.clients, s.initiated[t].sealed.app); c.Some? ==> c.value == s.initiated[t].client
  {}

  lemma InitiateAllowed(s: State, r: ReqId, q: Request, i: Input)
    requires q.Initiate? && ReqInv(s, r, q)
    requires q.ipc.InSeal? ==>
               i.drawn !in s.initiated && forall x :: x in s.initiated ==> s.initiated[x].sealed.nonce != i.nonce
    ensures Allowed(s, PlanInitiate(s, q, i).0)
    ensures var (e, pc) := PlanInitiate(s, q, i); ReqInv(Apply(s, e), r, q.(ipc := pc))
  {}

  lemma CallbackAllowed(s: State, q: Request, i: Input)
    requires ClientsInv(s) && InitiatedInv(s) && q.Callback? && CallbackInv(s, q.token, q.cpc)
    requires q.cpc.CbInsert? ==> i.drawn !in s.users
    requires q.cpc.CbStore? ==> i.drawn !in s.granted
    requires q.cpc != CbStart ==> q.token in s.initiated
    ensures Allowed(s, PlanCallback(s, q, i).0)
    ensures var (e, pc) := PlanCallback(s, q, i); CallbackInv(Apply(s, e), q.token, pc)
  {
    if q.cpc == CbAccepted { assert Began(s, q.token); ClientIsUnique(s, q.token); }
    hide InitiatedInv, ClientsInv, MarkerLive;
  }

  lemma BindsMeans(s: State, q: Request, data: CodeData)
    requires q.Redeem? && Binds(s, q, data).Some?
    ensures var c := Binds(s, q, data).value;
            && data.client == c && data.app == q.app && data.uri == q.uri && VerifierFits(data.challenge, q.verifier)
            && c in s.clients && (s.clients[c].isPublic || q.secretOk)
  {}

  lemma NotYetIssued(s: State, r: ReqId, q: Request)
    requires SessionsInv(s) && r in s.reqs && s.reqs[r] == q && q.Redeem? && q.rpc.RdUser? && RedeemInv(s, r, q)
    ensures forall k :: 0 <= k < |s.sessions| ==> s.sessions[k].code != q.code
  {
    forall k | 0 <= k < |s.sessions| ensures s.sessions[k].code != q.code {
      assert Finished(s, s.sessions[k].code);
    }
  }

  lemma IssueAllowed(s: State, r: ReqId, q: Request)
    requires InitiatedInv(s) && CodesInv(s) && SessionsInv(s)
    requires r in s.reqs && s.reqs[r] == q && q.Redeem? && q.rpc.RdUser? && RedeemInv(s, r, q)
    ensures Allowed(s, PlanRedeem(s, q, r).0)
  {
    NotYetIssued(s, r, q);
    assert Granted(s, q.code);
    assert Began(s, s.granted[q.code].token);
    hide SessionsInv, InitiatedInv, Binds;
  }

  lemma ReadAllowed(s: State, r: ReqId, q: Request)
    requires q.Redeem? && !q.rpc.RdUser?
    ensures Allowed(s, PlanRedeem(s, q, r).0)
  {
    hide Binds;
  }

  lemma RedeemKeeps(s: State, r: ReqId, q: Request)
    requires CodesInv(s) && q.Redeem? && RedeemInv(s, r, q)
    ensures var (e, pc) := PlanRedeem(s, q, r); RedeemInv(Apply(s, e), r, q.(rpc := pc))
  {
    if q.rpc.RdResolved? && Binds(s, q, q.rpc.data).Some? { BindsMeans(s, q, q.rpc.data); }
    hide GrantedInv, Binds;
  }

  lemma RedeemAllowed(s: State, r: ReqId, q: Request)
    requires InitiatedInv(s) && CodesInv(s) && SessionsInv(s)
    requires r in s.reqs && s.reqs[r] == q && q.Redeem? && RedeemInv(s, r, q)
    ensures Allowed(s, PlanRedeem(s, q, r).0)
    ensures var (e, pc) := PlanRedeem(s, q, r); RedeemInv(Apply(s, e), r, q.(rpc := pc))
  {
    hide SessionsInv, InitiatedInv, CodesInv, RedeemInv, PlanRedeem, Allowed, Apply;
    if q.rpc.RdUser? { IssueAllowed(s, r, q); } else { ReadAllowed(s, r, q); }
    RedeemKeeps(s, r, q);
  }

  // What the step leaves of the request itself.
  lemma SameRequest(s: State, r: ReqId, i: Input)
    requires CanAct(s, r, i) && s.reqs[r].Redeem?
    ensures var q := Plan(s, r, i).1; q == s.reqs[r].(rpc := q.rpc)
    ensures s.reqs[r].rpc == RdDone ==> Plan(s, r, i).1 == s.reqs[r]
    ensures var e := Plan(s, r, i).0; e.Issue? ==> e.session.code == s.reqs[r].code && Plan(s, r, i).1.rpc == RdDone
    ensures var e := Plan(s, r, i).0; e.Consume? ==> e == Consume(s.reqs[r].code, r) && s.reqs[r].rpc.RdBound?
  {
    hide Binds;
  }

  lemma PlanAllowed(s: State, r: ReqId, i: Input)
    requires Inv(s) && CanAct(s, r, i)
    ensures Allowed(s, Plan(s, r, i).0)
    ensures var (e, q) := Plan(s, r, i); var s1 := Apply(s, e);
            ReqInv(s1, r, q)
  {
    var q := s.reqs[r];
    assert ReqInv(s, r, q);
    if q.Initiate? { InitiateAllowed(s, r, q, i); }
    else if q.Callback? { CallbackAllowed(s, q, i); }
    else { RedeemAllowed(s, r, q); }
    hide ClientsInv, UsersInv, InitiatedInv, CodesInv, ConsumersInv, SessionsInv, AcceptedInv, CallbackInv, RedeemInv,
      Allowed, Apply;
  }

  lemma OtherEffects(s: State, r: ReqId, i: Input)
    requires CanAct(s, r, i) && !s.reqs[r].Redeem?
    ensures var e := Plan(s, r, i).0; !e.Issue? && !e.Consume?
  {}

  // After is Apply with only the acting request replaced.
  lemma AfterIs(s: State, r: ReqId, i: Input)
    requires CanAct(s, r, i)
    ensures var (e, q) := Plan(s, r, i); After(s, r, i) == Apply(s, e).(reqs := s.reqs[r := q])
  {
    hide Plan, Apply;
  }

  lemma ApplyIs(s: State, e: Effect)
    ensures var s1 := Apply(s, e);
            && s1.reqs == s.reqs && s1.clients == s.clients && s1.now == s.now
            && s1.sessions == (if e.Issue? then s.sessions + [e.session] else s.sessions)
            && s1.consumer == (if e.Consume? then s.consumer[e.code := Use(e.r, s.now)] else s.consumer)
  {}

  lemma LaterIgnoresReqs(s: State, s1: State, s': State)
    requires Later(s, s1) && s' == s1.(reqs := s'.reqs)
    ensures Later(s, s') && Later(s1, s')
  {}

  lemma ActLater(s: State, r: ReqId, i: Input)
    requires CodesInv(s) && CanAct(s, r, i) && Allowed(s, Plan(s, r, i).0)
    ensures Later(s, After(s, r, i)) && Later(Apply(s, Plan(s, r, i).0), After(s, r, i))
  {
    var e := Plan(s, r, i).0;
    ApplyLater(s, e);
    AfterIs(s, r, i);
    hide CodesInv, Plan, Apply, Allowed, After, Later, CanAct;
    LaterIgnoresReqs(s, Apply(s, e), After(s, r, i));
  }

  lemma ActKeepsStores(s: State, r: ReqId, i: Input)
    requires Inv(s) && CanAct(s, r, i) && Allowed(s, Plan(s, r, i).0)
    ensures var s' := After(s, r, i); ClientsInv(s') && UsersInv(s') && InitiatedInv(s')
  {
    AfterIs(s, r, i);
    ApplyKeepsTables(s, Plan(s, r, i).0);
    hide CodesInv, ReqsInv, ConsumersInv, SessionsInv, AcceptedInv, Plan, Apply, Allowed, After, CanAct;
  }

  lemma OnlyReqsDiffer(s: State, s': State)
    requires s' == s.(reqs := s'.reqs)
    ensures CodesInv(s) ==> CodesInv(s')
    ensures AcceptedInv(s) ==> AcceptedInv(s')
  {}

  lemma ActKeepsCodes(s: State, r: ReqId, i: Input)
    requires Inv(s) && CanAct(s, r, i) && Allowed(s, Plan(s, r, i).0)
    ensures CodesInv(After(s, r, i)) && AcceptedInv(After(s, r, i))
  {
    var e := Plan(s, r, i).0;
    ApplyKeepsCodes(s, e);
    ApplyKeepsAccepted(s, e);
    AfterIs(s, r, i);
    OnlyReqsDiffer(Apply(s, e), After(s, r, i));
    hide ClientsInv, UsersInv, InitiatedInv, CodesInv, ReqsInv, ConsumersInv, SessionsInv, AcceptedInv, Plan, Apply,
      Allowed, After, CanAct;
  }

  lemma ActKeepsReqs(s: State, r: ReqId, i: Input)
    requires Inv(s) && CanAct(s, r, i)
    ensures ReqsInv(After(s, r, i))
  {
    PlanAllowed(s, r, i);
    AfterIs(s, r, i);
    ActLater(s, r, i);
    var (e, q) := Plan(s, r, i);
    var s1, s' := Apply(s, e), After(s, r, i);
    assert ReqsInv(s);
    hide Inv, Plan, Apply, Allowed, After, CanAct;
    forall a | a in s'.reqs
      ensures ReqInv(s', a, s'.reqs[a])
    {
      hide Later, ReqInv;
      if a == r { ReqLater(s1, s', a, q); } else { ReqLater(s, s', a, s.reqs[a]); }
    }
  }

  // Requests keep all but their position, and a finished redemption keeps that too.
  predicate Continues(s: State, s': State) {
    forall r :: r in s.reqs && s.reqs[r].Redeem? ==>
      && r in s'.reqs && s'.reqs[r].Redeem? && s'.reqs[r] == s.reqs[r].(rpc := s'.reqs[r].rpc)
      && (s.reqs[r].rpc == RdDone ==> s'.reqs[r] == s.reqs[r])
  }

  lemma ActContinues(s: State, r: ReqId, i: Input)
    requires CanAct(s, r, i)
    ensures Continues(s, After(s, r, i))
  {
    AfterIs(s, r, i);
    if s.reqs[r].Redeem? { SameRequest(s, r, i); }
    hide Plan, Apply, After;
  }

  lemma EntitledLater(s: State, s': State, code: Code)
    requires Later(s, s') && Continues(s, s') && Entitled(s, code)
    ensures Entitled(s', code)
  {
    hide VerifierFits;
  }

  lemma FinishedLater(s: State, s': State, code: Code)
    requires Later(s, s') && Continues(s, s') && Finished(s, code)
    ensures Finished(s', code)
  {}

  lemma ConsumeEntitles(s: State, r: ReqId, i: Input)
    requires Inv(s) && CanAct(s, r, i) && Plan(s, r, i).0.Consume?
    ensures s.reqs[r].Redeem? && Entitled(After(s, r, i), s.reqs[r].code)
  {
    hide Plan, Apply, After, VerifierFits, ClientsInv, UsersInv, InitiatedInv, SessionsInv, AcceptedInv, ConsumersInv,
      GrantedInv, Began, Granted;
    if !s.reqs[r].Redeem? { OtherEffects(s, r, i); }
    SameRequest(s, r, i);
    AfterIs(s, r, i);
    ApplyIs(s, Plan(s, r, i).0);
    PlanAllowed(s, r, i);
    ActLater(s, r, i);
    assert RedeemInv(s, r, s.reqs[r]);
    hide Inv, ReqsInv, Allowed;
  }

  lemma ActKeepsConsumers(s: State, r: ReqId, i: Input)
    requires Inv(s) && CanAct(s, r, i)
    ensures ConsumersInv(After(s, r, i))
  {
    PlanAllowed(s, r, i);
    AfterIs(s, r, i);
    ActLater(s, r, i);
    ActContinues(s, r, i);
    var e, s' := Plan(s, r, i).0, After(s, r, i);
    ApplyIs(s, e);
    if s.reqs[r].Redeem? { SameRequest(s, r, i); } else { OtherEffects(s, r, i); }
    if e.Consume? { ConsumeEntitles(s, r, i); }
    assert ConsumersInv(s);
    hide Inv, Plan, Apply, After, CanAct, Allowed;
    forall code | code in s'.consumer ensures Entitled(s', code) {
      if code in s.consumer && !(e.Consume? && code == e.code) { EntitledLater(s, s', code); }
      hide Entitled, Later, Continues, ConsumersInv;
    }
  }

  lemma IssuerConsumed(s: State, r: ReqId, i: Input)
    requires Inv(s) && CanAct(s, r, i) && s.reqs[r].Redeem? && Plan(s, r, i).0.Issue?
    ensures ConsumedBy(s, s.reqs[r].code, r)
  {
    assert ReqInv(s, r, s.reqs[r]);
    hide Inv, Binds, Bound;
  }

  lemma IssueFinishes(s: State, r: ReqId, i: Input)
    requires Inv(s) && CanAct(s, r, i) && Plan(s, r, i).0.Issue?
    ensures Finished(After(s, r, i), Plan(s, r, i).0.session.code)
  {
    hide Inv, Plan, Apply, After, Allowed, ReqInv;
    if !s.reqs[r].Redeem? { OtherEffects(s, r, i); }
    PlanAllowed(s, r, i);
    SameRequest(s, r, i);
    AfterIs(s, r, i);
    ApplyIs(s, Plan(s, r, i).0);
    IssuerConsumed(s, r, i);
  }

  lemma ActKeepsSessions(s: State, r: ReqId, i: Input)
    requires Inv(s) && CanAct(s, r, i)
    ensures SessionsInv(After(s, r, i))
  {
    PlanAllowed(s, r, i);
    AfterIs(s, r, i);
    ActLater(s, r, i);
    ActContinues(s, r, i);
    var e, s' := Plan(s, r, i).0, After(s, r, i);
    ApplyIs(s, e);
    if e.Issue? { IssueFinishes(s, r, i); }
    assert SessionsInv(s);
    hide Inv, Plan, Apply, After, CanAct, Allowed, Provenance, Finished, Later, Continues, SessionsInv;
    SessionsGrow(s, e, s');
  }

  lemma SessionsGrow(s: State, e: Effect, s': State)
    requires SessionsInv(s) && Allowed(s, e) && Later(s, s') && Continues(s, s')
    requires s'.sessions == if e.Issue? then s.sessions + [e.session] else s.sessions
    requires e.Issue? ==> Finished(s', e.session.code)
    ensures SessionsInv(s')
  {
    hide Provenance, Finished, Later, Continues;
    forall k | 0 <= k < |s'.sessions|
      ensures Provenance(s', s'.sessions[k]) && Finished(s', s'.sessions[k].code)
    {
      ProvenanceLater(s, s', s'.sessions[k]);
      if k < |s.sessions| { FinishedLater(s, s', s.sessions[k].code); }
    }
  }

  lemma ActKeepsInv(s: State, r: ReqId, i: Input)
    requires Inv(s) && CanAct(s, r, i)
    ensures Inv(After(s, r, i))
  {
    PlanAllowed(s, r, i);
    ActKeepsStores(s, r, i);
    ActKeepsCodes(s, r, i);
    ActKeepsReqs(s, r, i);
    ActKeepsConsumers(s, r, i);
    ActKeepsSessions(s, r, i);
    hide ClientsInv, UsersInv, InitiatedInv, CodesInv, ReqsInv, ConsumersInv, SessionsInv, AcceptedInv, After, Plan,
      Apply, CanAct, Allowed;
  }

  lemma QuietLater(s: State, e: Step, s': State)
    requires NextStep(s, e, s') && !e.Act?
    ensures Later(s, s') && Continues(s, s')
    ensures s'.nonces == s.nonces && s'.codes == s.codes && s'.granted == s.granted && s'.consumer == s.consumer
    ensures s'.accepted == s.accepted && s'.sessions == s.sessions
    ensures forall r :: r in s.reqs ==> r in s'.reqs && s'.reqs[r] == s.reqs[r]
    ensures forall r :: r in s'.reqs && r !in s.reqs ==> Starting(s'.reqs[r])
    ensures s'.initiated == s.initiated
  {}

  lemma QuietTables(s: State, e: Step, s': State)
    requires ClientsInv(s) && UsersInv(s) && InitiatedInv(s) && NextStep(s, e, s') && !e.Act?
    ensures ClientsInv(s') && UsersInv(s') && InitiatedInv(s')
  {
    QuietLater(s, e, s');
    QuietClients(s, e, s');
    hide NextStep, ClientsInv, UsersInv, Continues;
    forall t | t in s'.initiated ensures Began(s', t) {
      hide Later;
      BeganLater(s, s', t);
    }
  }

  lemma QuietClients(s: State, e: Step, s': State)
    requires ClientsInv(s) && UsersInv(s) && NextStep(s, e, s') && !e.Act?
    ensures ClientsInv(s') && UsersInv(s')
  {
  }

  lemma QuietCodes(s: State, e: Step, s': State)
    requires CodesInv(s) && NextStep(s, e, s') && !e.Act?
    ensures CodesInv(s')
  {
    QuietLater(s, e, s');
    hide NextStep, GrantedInv, Later, Continues;
    QuietGranted(s, s');
  }

  lemma QuietGranted(s: State, s': State)
    requires GrantedInv(s) && Later(s, s') && s'.granted == s.granted
    ensures GrantedInv(s')
  {
    hide Granted, Later;
    forall c | c in s'.granted ensures Granted(s', c) { GrantedLater(s, s', c); }
  }

  lemma QuietConsumers(s: State, e: Step, s': State)
    requires ConsumersInv(s) && NextStep(s, e, s') && !e.Act?
    ensures ConsumersInv(s')
  {
    QuietLater(s, e, s');
    hide NextStep, Entitled, Later, Continues;
    forall c | c in s'.consumer ensures Entitled(s', c) { EntitledLater(s, s', c); }
  }

  lemma QuietSessions(s: State, e: Step, s': State)
    requires SessionsInv(s) && NextStep(s, e, s') && !e.Act?
    ensures SessionsInv(s')
  {
    QuietLater(s, e, s');
    hide NextStep, Provenance, Finished, Later, Continues;
    forall k | 0 <= k < |s'.sessions| ensures Provenance(s', s'.sessions[k]) && Finished(s', s'.sessions[k].code) {
      ProvenanceLater(s, s', s.sessions[k]);
      FinishedLater(s, s', s.sessions[k].code);
    }
  }

  lemma QuietAccepted(s: State, e: Step, s': State)
    requires AcceptedInv(s) && NextStep(s, e, s') && !e.Act?
    ensures AcceptedInv(s')
  {
    QuietLater(s, e, s');
    hide NextStep, Continues;
  }

  lemma QuietReqs(s: State, e: Step, s': State)
    requires ReqsInv(s) && NextStep(s, e, s') && !e.Act?
    ensures ReqsInv(s')
  {
    QuietLater(s, e, s');
    hide NextStep;
    forall a | a in s'.reqs
      ensures ReqInv(s', a, s'.reqs[a])
    {
      hide Later;
      if a in s.reqs { ReqLater(s, s', a, s.reqs[a]); }
    }
  }

  lemma NextKeepsInv(s: State, e: Step, s': State)
    requires Inv(s) && NextStep(s, e, s')
    ensures Inv(s')
  {
    if e.Act? { ActKeepsInv(s, e.r, e.i); }
    else {
      QuietTables(s, e, s');
      QuietCodes(s, e, s');
      QuietConsumers(s, e, s');
      QuietSessions(s, e, s');
      QuietAccepted(s, e, s');
      QuietReqs(s, e, s');
    }
    hide ClientsInv, UsersInv, InitiatedInv, CodesInv, ReqsInv, ConsumersInv, SessionsInv, AcceptedInv, After, CanAct;
  }

  lemma {:induction false} HistoryInv(run: seq<State>, i: nat)
    requires IsHistory(run) && i < |run|
    ensures Inv(run[i])
  {
    hide Inv, NextStep;
    if i == 0 { InitInv(run[0]); }
    else {
      HistoryInv(run, i - 1);
      assert Next(run[i - 1], run[i - 1 + 1]);
      var e :| NextStep(run[i - 1], e, run[i]);
      NextKeepsInv(run[i - 1], e, run[i]);
    }
  }

  lemma InitInv(s: State)
    requires Init(s)
    ensures Inv(s)
  {}

  // ----- Theorems -----

  // The client's row is active and holds exactly these URIs.
  predicate ListsUris(s: State, app: AppId, c: ClientId, uris: set<Uri>) {
    c in s.clients && s.clients[c].app == app && s.clients[c].isActive && s.clients[c].uris == uris
  }

  lemma StepOf(run: seq<State>, i: nat) returns (e: Step)
    requires IsRun(run) && 0 < i < |run|
    ensures NextStep(run[i - 1], e, run[i])
  {
    assert Next(run[i - 1], run[i - 1 + 1]);
    e :| NextStep(run[i - 1], e, run[i]);
  }

  predicate Sealing(s: State, r: ReqId) {
    r in s.reqs && s.reqs[r].Initiate? && s.reqs[r].ipc.InSeal?
  }

  lemma SealingAct(s: State, r: ReqId, i: Input)
    requires CanAct(s, r, i) && s.reqs[r].Initiate? && Plan(s, r, i).1.Initiate? && Plan(s, r, i).1.ipc.InSeal?
    ensures var q := Plan(s, r, i).1; ListsUris(s, q.app, q.ipc.client, q.ipc.registered)
  {}

  lemma SameKind(s: State, r: ReqId, i: Input)
    requires CanAct(s, r, i)
    ensures Plan(s, r, i).1.Initiate? <==> s.reqs[r].Initiate?
  {
    hide PlanInitiate, PlanCallback, PlanRedeem;
  }

  lemma SealingStep(s: State, e: Step, s': State, r: ReqId)
    requires NextStep(s, e, s') && Sealing(s', r)
    ensures var q := s'.reqs[r];
            (Sealing(s, r) && s.reqs[r] == q) || ListsUris(s, q.app, q.ipc.client, q.ipc.registered)
  {
    hide NextStep, Plan, Apply, After, CanAct, ListsUris;
    if e.Act? {
      ActIs(s, e, s');
      AfterIs(s, e.r, e.i);
      if e.r == r {
        SameKind(s, r, e.i);
        SealingAct(s, r, e.i);
      }
    } else {
      QuietStep(s, e, s');
    }
  }

  lemma QuietStep(s: State, e: Step, s': State)
    requires NextStep(s, e, s') && !e.Act?
    ensures s'.initiated == s.initiated
    ensures forall r :: r in s'.reqs ==> if r in s.reqs then s'.reqs[r] == s.reqs[r] else Starting(s'.reqs[r])
  {}

  // What a request is about to seal was read from the client's row in an earlier state.
  lemma {:induction false} SealingWasRead(run: seq<State>, i: nat, r: ReqId) returns (j: nat)
    requires IsHistory(run) && i < |run| && Sealing(run[i], r)
    ensures j <= i && ListsUris(run[j], run[i].reqs[r].app, run[i].reqs[r].ipc.client, run[i].reqs[r].ipc.registered)
  {
    hide NextStep, ListsUris;
    if i == 0 {
      assert false;
    } else {
      var e := StepOf(run, i);
      SealingStep(run[i - 1], e, run[i], r);
      if Sealing(run[i - 1], r) && run[i - 1].reqs[r] == run[i].reqs[r] { j := SealingWasRead(run, i - 1, r); }
      else { j := i - 1; }
    }
  }

  lemma OnlyInitiateSeals(s: State, r: ReqId, i: Input)
    requires CanAct(s, r, i)
    ensures var e := Plan(s, r, i).0; e.Seal? ==>
              && Sealing(s, r) && e.initiation.sealed.app == s.reqs[r].app
              && e.initiation.client == s.reqs[r].ipc.client && e.initiation.registered == s.reqs[r].ipc.registered
  {
    hide Binds, Recognise;
  }

  lemma ApplySeals(s: State, e: Effect, t: Token)
    requires t in Apply(s, e).initiated
    ensures || (t in s.initiated && Apply(s, e).initiated[t] == s.initiated[t])
            || (e.Seal? && Apply(s, e).initiated[t] == e.initiation)
  {}

  lemma ActIs(s: State, e: Step, s': State)
    requires NextStep(s, e, s') && e.Act?
    ensures CanAct(s, e.r, e.i) && s' == After(s, e.r, e.i)
  {
    hide CanAct, After;
  }

  lemma SealStep(s: State, e: Step, s': State, t: Token)
    requires NextStep(s, e, s') && t in s'.initiated
    ensures || (t in s.initiated && s'.initiated[t] == s.initiated[t])
            || (e.Act? && Sealing(s, e.r) && var q := s.reqs[e.r]; var b := s'.initiated[t];
                b.sealed.app == q.app && b.client == q.ipc.client && b.registered == q.ipc.registered)
  {
    hide NextStep, Plan, Apply, After, CanAct, Sealing;
    if e.Act? {
      ActIs(s, e, s');
      AfterIs(s, e.r, e.i);
      OnlyInitiateSeals(s, e.r, e.i);
      ApplySeals(s, Plan(s, e.r, e.i).0, t);
    } else {
      QuietStep(s, e, s');
    }
  }

  lemma {:induction false} InitiatedWasRead(run: seq<State>, i: nat, t: Token) returns (j: nat)
    requires IsHistory(run) && i < |run| && t in run[i].initiated
    ensures var b := run[i].initiated[t]; j <= i && ListsUris(run[j], b.sealed.app, b.client, b.registered)
  {
    hide NextStep, ListsUris;
    if i == 0 {
      assert false;
    } else {
      var e := StepOf(run, i);
      SealStep(run[i - 1], e, run[i], t);
      if t in run[i - 1].initiated && run[i].initiated[t] == run[i - 1].initiated[t] {
        j := InitiatedWasRead(run, i - 1, t);
      } else {
        j := SealingWasRead(run, i - 1, e.r);
      }
    }
  }

  /**
   * Every session ever issued traces to one initiation, with its client, URI, user and
   * verifier, and in some earlier state the client was active and its row held that URI.
   */
  lemma SessionsHaveProvenance(run: seq<State>, i: nat, k: nat) returns (j: nat)
    requires IsHistory(run) && i < |run| && k < |run[i].sessions|
    ensures var x := run[i].sessions[k];
            && Provenance(run[i], x) && j <= i
            && x.client in run[j].clients && run[j].clients[x.client].isActive && x.uri in run[j].clients[x.client].uris
  {
    HistoryInv(run, i);
    assert Provenance(run[i], run[i].sessions[k]);
    j := InitiatedWasRead(run, i, run[i].granted[run[i].sessions[k].code].token);
    hide IsHistory, ClientsInv, UsersInv, InitiatedInv, CodesInv, ReqsInv, ConsumersInv, AcceptedInv, SessionsInv;
  }

  /** However redemptions interleave, a code issues at most one session. */
  lemma OneSessionPerCode(run: seq<State>, i: nat, j: nat, k: nat)
    requires IsHistory(run) && i < |run| && j < |run[i].sessions| && k < |run[i].sessions|
    requires run[i].sessions[j].code == run[i].sessions[k].code
    ensures j == k
  {
    HistoryInv(run, i);
    hide Provenance, IsHistory, ClientsInv, UsersInv, InitiatedInv, CodesInv, ReqsInv, ConsumersInv, AcceptedInv;
  }

  /**
   * A granted code leaves the store only through a request that had passed every binding
   * check: presentations that fail one leave it usable until it expires.
   */
  lemma OnlyEntitledConsume(run: seq<State>, i: nat, code: Code)
    requires IsHistory(run) && i < |run| && code in run[i].granted && code !in run[i].codes
    ensures Entitled(run[i], code)
  {
    HistoryInv(run, i);
    hide IsHistory, ClientsInv, UsersInv, InitiatedInv, ReqsInv, SessionsInv, AcceptedInv, Granted, Entitled;
  }

  /**
   * However many presentations failed, a granted code that nobody consumed stays live,
   * with the data it was stored with, for its whole lifetime.
   */
  lemma UnconsumedStaysLive(run: seq<State>, i: nat, code: Code)
    requires IsHistory(run) && i < |run| && code in run[i].granted && code !in run[i].consumer
    requires run[i].now <= run[i].granted[code].storedAt + CODE_TTL
    ensures CodeLive(run[i], code) && run[i].codes[code].data == run[i].granted[code].data
  {
    HistoryInv(run, i);
    hide IsHistory, ClientsInv, UsersInv, InitiatedInv, ReqsInv, ConsumersInv, SessionsInv, AcceptedInv, GrantedInv;
  }

  /** Two acceptances of one state force the second to have waited longer than the state was old at the first. */
  lemma SecondAcceptanceWaited(run: seq<State>, i: nat, j: nat, k: nat)
    requires IsHistory(run) && i < |run| && j < k < |run[i].accepted|
    requires run[i].accepted[j].token == run[i].accepted[k].token
    ensures Waited(run[i], run[i].accepted[j], run[i].accepted[k])
  {
    HistoryInv(run, i);
    hide Provenance, IsHistory, ClientsInv, UsersInv, InitiatedInv, CodesInv, ReqsInv, ConsumersInv, SessionsInv,
      Marked;
  }

  /** When every check shares an instant with its SET, a state is accepted at most once over all time. */
  lemma AcceptedOnceWhenPrompt(run: seq<State>, i: nat, j: nat, k: nat)
    requires IsHistory(run) && i < |run| && j <= k < |run[i].accepted|
    requires run[i].accepted[j].token == run[i].accepted[k].token
    requires run[i].accepted[k].setAt == run[i].accepted[k].checkedAt
    ensures j == k
  {
    HistoryInv(run, i);
    if j < k { assert Marked(run[i], run[i].accepted[j]); SecondAcceptanceWaited(run, i, j, k); }
    hide Provenance, IsHistory, ClientsInv, UsersInv, InitiatedInv, CodesInv, ReqsInv, ConsumersInv, SessionsInv;
  }

  // ----- The bound on a second acceptance is tight -----

  // One confidential client with one URI.
  function Before(): State {
    State(1, map[0 := Client(0, false, true, {0})], map[], map[], map[], map[], map[], map[], map[], [], [])
  }

  function Sent(): State {
    Before().(initiated := map[0 := Initiation(Sealed(0, 0, 0, 0, None, 1), 0, {0})],
              reqs := map[2 := Initiate(0, 0, 0, None, InEnd(Some(0)))])
  }

  // A first callback has accepted the state at this age; a second one is waiting.
  predicate OnceAccepted(s: State, age: Time, now: Time, pc: CallbackPc) {
    && s.now == now && s.initiated.Keys == {0} && s.initiated[0].sealed.iat == 1
    && s.initiated[0].sealed.provider == 0 && s.initiated[0].sealed.nonce == 0
    && s.nonces == map[0 := 1 + age + STATE_TTL] && s.accepted == [Acceptance(0, 1 + age, 1 + age)]
    && 1 in s.reqs && s.reqs[1] == Callback(0, 0, pc)
  }

  lemma StepIsNext(s: State, e: Step, s': State)
    requires NextStep(s, e, s')
    ensures Next(s, s')
  {}

  lemma Initiated() returns (run: seq<State>)
    ensures IsRun(run) && run[0] == Before() && run[|run| - 1] == Sent()
  {
    var i := Input(true, 0, 0, 0, 0);
    var s0 := Before();
    assert 0 in s0.clients && ActiveClient(s0.clients, 0) == Some(0);
    var s1 := s0.(reqs := map[2 := Initiate(0, 0, 0, None, InStart)]);
    var s2 := After(s1, 2, i);
    assert s2 == s0.(reqs := map[2 := Initiate(0, 0, 0, None, InSeal(0, {0}))]);
    var s3 := After(s2, 2, i);
    StepIsNext(s0, Arrive(2, Initiate(0, 0, 0, None, InStart)), s1);
    StepIsNext(s1, Act(2, i), s2);
    StepIsNext(s2, Act(2, i), s3);
    run := [s0, s1, s2, s3];
    hide Next;
  }

  lemma FirstAcceptance(age: Time) returns (run: seq<State>)
    requires 0 <= age <= STATE_MAX_AGE
    ensures IsRun(run) && run[0] == Sent() && OnceAccepted(run[|run| - 1], age, 1 + age, CbStart)
  {
    var s1 := Sent();
    var s2 := s1.(reqs := s1.reqs[0 := Callback(0, 0, CbStart)]);
    var s3 := s2.(reqs := s2.reqs[1 := Callback(0, 0, CbStart)]);
    var s4 := s3.(now := 1 + age);
    StepIsNext(s1, Arrive(0, Callback(0, 0, CbStart)), s2);
    StepIsNext(s2, Arrive(1, Callback(0, 0, CbStart)), s3);
    StepIsNext(s3, Tick(1 + age), s4);
    var s5, s6 := FirstChecksAndSets(s4, age);
    run := [s1, s2, s3, s4, s5, s6];
    hide Next;
  }

  lemma FirstChecksAndSets(s: State, age: Time) returns (s1: State, s2: State)
    requires 0 <= age <= STATE_MAX_AGE
    requires s == Sent().(now := 1 + age, reqs :=
                          Sent().reqs[0 := Callback(0, 0, CbStart)][1 := Callback(0, 0, CbStart)])
    ensures Next(s, s1) && Next(s1, s2) && OnceAccepted(s2, age, 1 + age, CbStart)
  {
    var i := Input(true, 0, 0, 0, 0);
    s1 := After(s, 0, i);
    StepIsNext(s, Act(0, i), s1);
    assert s1 == s.(reqs := s.reqs[0 := Callback(0, 0, CbChecked(1 + age))]);
    s2 := After(s1, 0, i);
    StepIsNext(s1, Act(0, i), s2);
    hide Next;
  }

  lemma SecondCheck(s: State, age: Time, i: Input) returns (s': State)
    requires OnceAccepted(s, age, 1 + STATE_MAX_AGE, CbStart)
    ensures Next(s, s') && OnceAccepted(s', age, 1 + STATE_MAX_AGE, CbChecked(1 + STATE_MAX_AGE))
    ensures s'.initiated == s.initiated
  {
    s' := After(s, 1, i);
    StepIsNext(s, Act(1, i), s');
    hide Next;
  }

  lemma SecondSet(s: State, age: Time, gap: Time, i: Input) returns (s': State)
    requires OnceAccepted(s, age, 1 + STATE_MAX_AGE + gap, CbChecked(1 + STATE_MAX_AGE)) && gap > age
    ensures Next(s, s') && s'.initiated == s.initiated
    ensures s'.accepted == s.accepted + [Acceptance(0, 1 + STATE_MAX_AGE, 1 + STATE_MAX_AGE + gap)]
  {
    s' := After(s, 1, i);
    StepIsNext(s, Act(1, i), s');
    hide Next;
  }

  lemma SecondAcceptance(s: State, age: Time, gap: Time) returns (run: seq<State>)
    requires OnceAccepted(s, age, 1 + age, CbStart) && 0 <= age <= STATE_MAX_AGE && gap > age
    ensures IsRun(run) && run[0] == s && run[|run| - 1].initiated == s.initiated
    ensures run[|run| - 1].accepted == s.accepted + [Acceptance(0, 1 + STATE_MAX_AGE, 1 + STATE_MAX_AGE + gap)]
  {
    var i := Input(true, 0, 0, 0, 0);
    var s1 := s.(now := 1 + STATE_MAX_AGE);
    StepIsNext(s, Tick(1 + STATE_MAX_AGE), s1);
    var s2 := SecondCheck(s1, age, i);
    var s3 := s2.(now := 1 + STATE_MAX_AGE + gap);
    StepIsNext(s2, Tick(1 + STATE_MAX_AGE + gap), s3);
    var s4 := SecondSet(s3, age, gap, i);
    run := [s, s1, s2, s3, s4];
    hide Next;
  }

  /**
   * The waiting time that a second acceptance needs is exactly the first one's age: for
   * every age and every longer gap some history accepts the state twice.
   */
  lemma LongWaitAcceptsTwice(age: Time, gap: Time) returns (run: seq<State>)
    requires 0 <= age <= STATE_MAX_AGE && gap > age
    ensures IsHistory(run) && |run[|run| - 1].accepted| == 2
    ensures var s := run[|run| - 1]; var a, b := s.accepted[0], s.accepted[1];
            a.token == b.token && a.token in s.initiated && a.setAt - s.initiated[a.token].sealed.iat == age
                && b.setAt - b.checkedAt == gap
  {
    var r0 := Initiated();
    var r1 := FirstAcceptance(age);
    var r2 := SecondAcceptance(r1[|r1| - 1], age, gap);
    Joined(r0, r1, Next);
    run := r0 + r1[1..];
    Joined(run, r2, Next);
    run := run + r2[1..];
    hide IsRun;
  }
}
