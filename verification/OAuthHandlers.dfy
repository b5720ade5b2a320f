/**
 * The three OAuth handlers over mutable tables and Redis maps. Every statement method
 * performs one step of the OAuth machine and Yield stands for whatever other requests
 * do at an await, so each handler's trace is a run of the machine.
 */
module OAuthHandlers {
  import opened Wrappers
  import opened Traces
  import opened OAuthMachine
  import opened OAuthTheorems

  const NO_INPUT := Input(false, 0, 0, 0, 0)

  ghost predicate Traced(trace: seq<State>) {
    IsRun(trace) && Inv(trace[|trace| - 1])
  }

  lemma TraceStep(trace: seq<State>, e: Step, s: State)
    requires Traced(trace) && NextStep(trace[|trace| - 1], e, s)
    ensures Traced(trace + [s])
  {
    hide Inv, NextStep;
    NextKeepsInv(trace[|trace| - 1], e, s);
    Extended(trace, s, Next);
  }

  // The writing steps of a callback, each as one record update.
  lemma CallbackStep(s: State, r: ReqId, i: Input, q: Request)
    requires CanAct(s, r, i) && s.reqs[r] == q && q.Callback?
    ensures var e := PlanCallback(s, q, i).0; var done := q.(cpc := PlanCallback(s, q, i).1);
            After(s, r, i) == Apply(s, e).(reqs := s.reqs[r := done])
  {
    hide PlanCallback, PlanRedeem, PlanInitiate, Apply;
  }

  lemma StoreStep(s: State, r: ReqId, i: Input, q: Request)
    requires CanAct(s, r, i) && s.reqs[r] == q && q.Callback? && q.cpc.CbStore?
    ensures var data := CodeFor(s.initiated[q.token].sealed, q.cpc.client, q.cpc.user);
            After(s, r, i) == s.(codes := s.codes[i.drawn := Entry(data, s.now + CODE_TTL)],
                                 granted := s.granted[i.drawn := Grant(q.token, data, s.now)],
                                 reqs := s.reqs[r := q.(cpc := CbEnd(Some(i.drawn)))])
  {
    CallbackStep(s, r, i, q);
    hide After, CanAct;
  }

  lemma MarkStep(s: State, r: ReqId, i: Input, q: Request)
    requires CanAct(s, r, i) && s.reqs[r] == q && q.Callback? && q.cpc.CbChecked?
    ensures var nonce := s.initiated[q.token].sealed.nonce;
            After(s, r, i) ==
            if MarkerLive(s, nonce) then s.(reqs := s.reqs[r := q.(cpc := CbEnd(None))])
            else s.(nonces := s.nonces[nonce := s.now + STATE_TTL], accepted :=
                    s.accepted + [Acceptance(q.token, q.cpc.checkedAt, s.now)],
                    reqs := s.reqs[r := q.(cpc := CbAccepted)])
  {
    CallbackStep(s, r, i, q);
    hide After, CanAct;
  }

  lemma LinkStep(s: State, r: ReqId, i: Input, q: Request)
    requires CanAct(s, r, i) && s.reqs[r] == q && q.Callback? && q.cpc.CbLink? && q.cpc.user in s.users
    ensures var u := q.cpc.user;
            After(s, r, i) == s.(users := s.users[u := s.users[u].(link := Some(q.cpc.link))],
                                 reqs := s.reqs[r := q.(cpc := CbStore(q.cpc.client, u))])
  {
    CallbackStep(s, r, i, q);
    hide After, CanAct;
  }

  lemma InsertStep(s: State, r: ReqId, i: Input, q: Request)
    requires CanAct(s, r, i) && s.reqs[r] == q && q.Callback? && q.cpc.CbInsert?
    ensures After(s, r, i) ==
            if UserByEmail(s.users, q.cpc.client, q.cpc.email).Some?
                then s.(reqs := s.reqs[r := q.(cpc := CbEnd(None))])
            else s.(users := s.users[i.drawn := User(q.cpc.client, q.cpc.email, Some(q.cpc.link), true)],
                    reqs := s.reqs[r := q.(cpc := CbStore(q.cpc.client, i.drawn))])
  {
    CallbackStep(s, r, i, q);
    hide After, CanAct, UserByEmail;
  }

  lemma BindStep(s: State, r: ReqId, i: Input, q: Request)
    requires CanAct(s, r, i) && s.reqs[r] == q && q.Redeem? && q.rpc.RdResolved?
    ensures var c := Binds(s, q, q.rpc.data);
            After(s, r, i) == s.(reqs :=
                                 s.reqs[r := q.(rpc := if c.Some? then RdBound(q.rpc.data, c.value) else RdFailed)])
  {
    hide Binds;
  }

  // The user found is active and linked to this identity, or to none yet, or there is none.
  predicate Recognises(users: map<UserId, User>, pc: CallbackPc, email: nat, link: Link) {
    match pc
    case CbStore(c, u) =>
      && u in users && users[u].client == c && users[u].email == email && users[u].isActive
      && users[u].link == Some(link)
    case CbLink(c, u, l) =>
      && u in users && users[u].client == c && users[u].email == email && users[u].isActive
      && users[u].link == None && l == link
    case CbInsert(c, e, l) =>
      && e == email && l == link
      && forall u :: u in users && users[u].client == c ==> users[u].email != email
    case _ => false
  }

  class OAuthService {
    var clients: map<ClientId, Client>
    var users: map<UserId, User>
    var nonces: map<Nonce, Time>
    var codes: map<Code, Entry>
    var seals: map<Token, Sealed> // what each genuine state value decrypts to
    var clock: Time
    var drawn: nat // no random value at or above it has been drawn
    ghost var trace: seq<State>

    ghost predicate Valid()
      reads this
    {
      && Traced(trace)
      && Mirrors(trace[|trace| - 1])
    }

    ghost predicate Mirrors(s: State)
      reads this
    {
      && s.now == clock && s.clients == clients && s.users == users && s.nonces == nonces && s.codes == codes
      && s.initiated.Keys == seals.Keys
      && (forall t :: t in seals ==> seals[t] == s.initiated[t].sealed && t < drawn && seals[t].nonce < drawn)
      && (forall u :: u in users ==> u < drawn)
      && (forall code :: code in s.granted ==> code < drawn)
    }

    ghost function Last(): State
      requires trace != []
      reads this
    {
      trace[|trace| - 1]
    }

    ghost predicate At(r: ReqId, q: Request)
      reads this
    {
      trace != [] && r in Last().reqs && Last().reqs[r] == q
    }

    // Takes over the stores in any state of any history.
    constructor (ghost history: seq<State>, clients: map<ClientId, Client>, users: map<UserId, User>, nonces: map<Nonce,
                 Time>,
                 codes: map<Code, Entry>, seals: map<Token, Sealed>, clock: Time, drawn: nat)
      requires Traced(history)
      requires var s := history[|history| - 1];
               && s.now == clock && s.clients == clients && s.users == users && s.nonces == nonces && s.codes == codes
               && s.initiated.Keys == seals.Keys
               && (forall t :: t in seals ==> seals[t] == s.initiated[t].sealed && t < drawn && seals[t].nonce < drawn)
               && (forall u :: u in users ==> u < drawn)
               && (forall code :: code in s.granted ==> code < drawn)
      ensures Valid() && trace == history
    {
      hide Inv, IsRun;
      this.clients, this.users, this.nonces, this.codes, this.seals := clients, users, nonces, codes, seals;
      this.clock, this.drawn := clock, drawn;
      trace := history;
    }

    // Another request may run any statements here; this request's own position stays.
    method Yield(ghost r: ReqId)
      requires Valid() && r in Last().reqs
      modifies this
      ensures Valid() && old(trace) <= trace && At(r, old(Last().reqs[r]))
    {}

    // The statement just performed is request r's step.
    ghost method Record(r: ReqId, i: Input)
      requires Traced(trace) && CanAct(Last(), r, i) && Mirrors(After(Last(), r, i))
      modifies this`trace
      ensures Valid() && trace == old(trace) + [After(old(Last()), r, i)]
    {
      hide After, Inv, CanAct;
      assert NextStep(Last(), Act(r, i), After(Last(), r, i));
      TraceStep(trace, Act(r, i), After(Last(), r, i));
      trace := trace + [After(Last(), r, i)];
    }

    lemma InvOfLast()
      requires Valid()
      ensures trace != [] && ClientsInv(Last()) && UsersInv(Last()) && ReqsInv(Last())
    {
      hide ClientsInv, UsersInv, InitiatedInv, CodesInv, ReqsInv, ConsumersInv, SessionsInv, AcceptedInv;
    }

    // A callback past its first check holds a genuine state.
    lemma TokenKnown(r: ReqId)
      requires Valid() && r in Last().reqs && Last().reqs[r].Callback?
      ensures var q := Last().reqs[r];
              q.cpc != CbStart && !q.cpc.CbEnd? ==> q.token in seals && (q.cpc.CbLink? ==> q.cpc.user in users)
    {
      InvOfLast();
      assert ReqInv(Last(), r, Last().reqs[r]);
      hide Inv, IsRun, ReqsInv;
    }

    // SELECT ... WHERE client_id = ? AND is_active = true LIMIT 1
    method SelectActiveClient(app: AppId) returns (c: Option<ClientId>)
      requires Valid()
      ensures c == ActiveClient(clients, app)
      ensures forall x :: x in clients && clients[x].app == app && clients[x].isActive ==> c == Some(x)
    {
      InvOfLast();
      hide Traced;
      var found := set c | c in clients && clients[c].app == app && clients[c].isActive;
      if found == {} {
        assert forall c :: c in clients ==> c !in found;
        c := None;
      } else {
        var id :| id in found;
        c := Some(id);
      }
    }

    method SelectUserByEmail(client: ClientId, email: nat) returns (u: Option<UserId>)
      requires Valid()
      ensures u == UserByEmail(users, client, email)
    {
      InvOfLast();
      hide Traced;
      var found := set u | u in users && users[u].client == client && users[u].email == email;
      if found == {} {
        assert forall u :: u in users ==> u !in found;
        u := None;
      } else {
        var id :| id in found;
        u := Some(id);
      }
    }

    // ----- GET /auth/oauth/:provider -----

    method CheckClient(provider: Provider, app: AppId, uri: Uri, challenge: Option<Challenge>, ghost r: ReqId)
      returns (client: Option<ClientId>, ghost registered: set<Uri>)
      requires Valid() && At(r, Request.Initiate(app, uri, provider, challenge, InStart))
      modifies this`trace
      ensures Valid() && trace == old(trace) + [After(old(Last()), r, NO_INPUT)]
      ensures At(r, Request.Initiate(app, uri, provider, challenge, if client.None? then InEnd(None)
                                     else InSeal(client.value, registered)))
      ensures forall c :: client == Some(c) <==>
                && c in clients && clients[c].app == app && clients[c].isActive && uri in clients[c].uris
                && (clients[c].isPublic ==> challenge.Some?)
      ensures client.Some? ==> registered == clients[client.value].uris
    {
      hide Traced, Inv;
      client := SelectActiveClient(app);
      hide ActiveClient;
      registered := {};
      if client.Some? {
        registered := clients[client.value].uris;
        if uri !in clients[client.value].uris { client := None; }
        else if clients[client.value].isPublic && challenge.None? { client := None; }
      }
      Record(r, NO_INPUT);
    }

    method EncryptState(provider: Provider, app: AppId, uri: Uri, challenge: Option<Challenge>,
                        ghost c: ClientId, ghost registered: set<Uri>, ghost r: ReqId) returns (token: Token)
      requires Valid() && At(r, Request.Initiate(app, uri, provider, challenge, InSeal(c, registered)))
      modifies this
      ensures Valid() && old(trace) <= trace && |trace| == |old(trace)| + 1
      ensures At(r, Request.Initiate(app, uri, provider, challenge, InEnd(Some(token))))
      ensures seals == old(seals)[token := Sealed(app, uri, provider, token, challenge, old(clock))]
      ensures token !in old(seals)
    {
      hide Traced, Inv;
      token := drawn;
      drawn := drawn + 1;
      seals := seals[token := Sealed(app, uri, provider, token, challenge, clock)];
      Record(r, Input(true, 0, 0, token, token));
    }

    method Initiate(provider: Provider, app: AppId, uri: Uri, challenge: Option<Challenge>, ghost r: ReqId)
      returns (token: Option<Token>)
      requires Valid() && At(r, Request.Initiate(app, uri, provider, challenge, InStart))
      modifies this
      ensures Valid() && old(trace) <= trace && At(r, Request.Initiate(app, uri, provider, challenge, InEnd(token)))
      ensures token.Some? ==> Began(Last(), token.value)
    {
      hide Traced, Inv, After, Mirrors;
      var client, registered := CheckClient(provider, app, uri, challenge, r);
      if client.None? { return None; }
      Yield(r);
      var sealed := EncryptState(provider, app, uri, challenge, client.value, registered, r);
      token := Some(sealed);
      SealBegan(sealed);
    }

    lemma SealBegan(t: Token)
      requires Valid() && t in seals
      ensures Began(Last(), t)
    {
      hide ClientsInv, UsersInv, CodesInv, ReqsInv, ConsumersInv, SessionsInv, AcceptedInv, Began;
    }

    // ----- GET /auth/oauth/:provider/callback -----

    // decryptState and the provider comparison; no store is touched.
    method DecryptState(provider: Provider, token: Token, ghost r: ReqId) returns (good: bool, ghost at: Time)
      requires Valid() && At(r, Request.Callback(token, provider, CbStart))
      modifies this`trace
      ensures Valid() && trace == old(trace) + [After(old(Last()), r, NO_INPUT)]
      ensures At(r, Request.Callback(token, provider, if good then CbChecked(at) else CbEnd(None)))
      ensures good <==>
                && token in seals && seals[token].iat != 0 && clock - seals[token].iat <= 600000
                && seals[token].provider == provider
    {
      hide Traced, Inv;
      good := token in seals && seals[token].iat != 0 && clock - seals[token].iat <= STATE_MAX_AGE
          && seals[token].provider == provider;
      at := clock;
      Record(r, NO_INPUT);
    }

    // SET oauth:state:<nonce> 1 EX ttl NX
    method ConsumeStateNonce(ghost provider: Provider, token: Token, ghost at: Time, ghost r: ReqId) returns (ok: bool)
      requires Valid() && At(r, Request.Callback(token, provider, CbChecked(at)))
      modifies this
      ensures Valid() && trace == old(trace) + [After(old(Last()), r, NO_INPUT)]
      ensures At(r, Request.Callback(token, provider, if ok then CbAccepted else CbEnd(None)))
      ensures token in seals && nonces == if ok then old(nonces)[seals[token].nonce := clock + 600000]
                else old(nonces)
      ensures ok <==> (seals[token].nonce in old(nonces) ==> old(nonces)[seals[token].nonce] < clock)
    {
      hide Traced, Inv;
      TokenKnown(r);
      MarkStep(Last(), r, NO_INPUT, Last().reqs[r]);
      hide After, Plan, Apply, CanAct;
      var nonce := seals[token].nonce;
      ok := !(nonce in nonces && clock <= nonces[nonce]);
      if ok { nonces := nonces[nonce := clock + STATE_TTL]; }
      Record(r, NO_INPUT);
    }

    // The provider's error parameter, a missing code, or an inactive client end it here.
    method FindClient(ghost provider: Provider, token: Token, granted: bool, ghost r: ReqId)
      returns (client: Option<ClientId>)
      requires Valid() && At(r, Request.Callback(token, provider, CbAccepted))
      modifies this`trace
      ensures Valid() && trace == old(trace) + [After(old(Last()), r, NO_INPUT.(ok := granted))]
      ensures At(r, Request.Callback(token, provider, if client.Some? then CbClient(client.value) else CbEnd(None)))
      ensures token in seals
      ensures forall c :: client == Some(c) <==>
                granted && c in clients && clients[c].app == seals[token].app && clients[c].isActive
    {
      hide Traced, Inv;
      TokenKnown(r);
      client := None;
      if granted { client := SelectActiveClient(seals[token].app); }
      hide ActiveClient;
      Record(r, NO_INPUT.(ok := granted));
    }

    method FetchProfile(provider: Provider, ghost token: Token, client: ClientId, profile: Option<Profile>,
                        ghost r: ReqId)
      requires Valid() && At(r, Request.Callback(token, provider, CbClient(client)))
      modifies this`trace
      ensures Valid() && old(trace) <= trace
      ensures profile.None? ==> At(r, Request.Callback(token, provider, CbEnd(None)))
      ensures profile.Some? ==>
                var link := Link(provider, profile.value.id);
                At(r, Request.Callback(token, provider, CbIdentity(client, profile.value.email, link)))
    {
      hide Traced, Inv;
      TokenKnown(r);
      ghost var i := match profile case None => NO_INPUT case Some(p) => Input(true, p.email, p.id, 0, 0);
      Record(r, i);
    }

    // An active user of the client with that email.
    predicate Known(client: ClientId, email: nat, u: UserId)
      reads this`users
    {
      u in users && users[u].client == client && users[u].email == email && users[u].isActive
    }

    lemma OneUserPerAddress()
      requires Valid()
      ensures forall u, v :: u in users && v in users && SameAddress(users[u], users[v]) ==> u == v
    {
      InvOfLast();
      hide Traced;
    }

    // Find the user, and decide: inactive, new, to be linked, mismatched, or known.
    method FindUser(ghost provider: Provider, ghost token: Token, client: ClientId, email: nat, link: Link,
                    ghost r: ReqId)
      returns (pc: CallbackPc)
      requires Valid() && At(r, Request.Callback(token, provider, CbIdentity(client, email, link)))
      modifies this`trace
      ensures Valid() && trace == old(trace) + [After(old(Last()), r, NO_INPUT)]
      ensures At(r, Request.Callback(token, provider, pc))
      ensures forall u :: pc == CbStore(client, u) <==> Known(client, email, u) && users[u].link == Some(link)
      ensures forall u :: pc == CbLink(client, u, link) <==> Known(client, email, u) && users[u].link == None
      ensures pc == CbInsert(client, email, link) <==>
                forall u :: u in users && users[u].client == client ==> users[u].email != email
      ensures pc.CbStore? || pc.CbLink? || pc.CbInsert? || pc == CbEnd(None)
      ensures pc.CbStore? || pc.CbInsert? ==> pc.client == client
      ensures pc.CbLink? ==> pc.client == client && pc.link == link
      ensures pc.CbInsert? ==> pc.email == email && pc.link == link
      ensures pc == CbEnd(None) || Recognises(Last().users, pc, email, link)
    {
      hide Traced, Inv;
      TokenKnown(r);
      var user := SelectUserByEmail(client, email);
      OneUserPerAddress();
      hide UserByEmail;
      if user.Some? && !users[user.value].isActive {
        pc := CbEnd(None);
      } else if user.None? {
        pc := CbInsert(client, email, link);
      } else if users[user.value].link.None? {
        pc := CbLink(client, user.value, link);
      } else if users[user.value].link.value.provider != link.provider || users[user.value].link.value.id != link.id {
        pc := CbEnd(None);
      } else {
        pc := CbStore(client, user.value);
      }
      Record(r, NO_INPUT);
    }

    method InsertUser(ghost provider: Provider, ghost token: Token, client: ClientId, email: nat, link: Link,
                      ghost r: ReqId)
      returns (user: Option<UserId>)
      requires Valid() && At(r, Request.Callback(token, provider, CbInsert(client, email, link)))
      modifies this
      ensures Valid() && old(trace) <= trace
      ensures At(r, Request.Callback(token, provider, if user.Some? then CbStore(client, user.value) else CbEnd(None)))
      ensures users == if user.Some? then old(users)[user.value := User(client, email, Some(link), true)]
                else old(users)
      ensures user.Some? <==>
              forall u :: u in old(users) && old(users)[u].client == client ==> old(users)[u].email != email
      ensures user.Some? ==> user.value !in old(users)
    {
      hide Traced, Inv;
      TokenKnown(r);
      var taken := SelectUserByEmail(client, email);
      InsertStep(Last(), r, Input(true, 0, 0, drawn, 0), Last().reqs[r]);
      hide UserByEmail, After, Plan, Apply, CanAct;
      ghost var i := Input(true, 0, 0, drawn, 0);
      if taken.Some? {
        user := None;
      } else {
        user := Some(drawn);
        users := users[drawn := User(client, email, Some(link), true)];
        drawn := drawn + 1;
      }
      Record(r, i);
    }

    // The link update is unconditional on what was read.
    method LinkUser(ghost provider: Provider, ghost token: Token, ghost client: ClientId, user: UserId, link: Link,
                    ghost r: ReqId)
      requires Valid() && At(r, Request.Callback(token, provider, CbLink(client, user, link)))
      modifies this
      ensures Valid() && trace == old(trace) + [After(old(Last()), r, NO_INPUT)]
      ensures At(r, Request.Callback(token, provider, CbStore(client, user)))
      ensures user in old(users) && users == old(users)[user := old(users)[user].(link := Some(link))]
    {
      hide Traced, Inv;
      TokenKnown(r);
      LinkStep(Last(), r, NO_INPUT, Last().reqs[r]);
      hide After, Plan, Apply, CanAct;
      users := users[user := users[user].(link := Some(link))];
      Record(r, NO_INPUT);
    }

    // SETEX oauth:code:<hash> 60 data
    method StoreAuthCode(ghost provider: Provider, token: Token, client: ClientId, user: UserId, ghost r: ReqId)
      returns (code: Code)
      requires Valid() && At(r, Request.Callback(token, provider, CbStore(client, user)))
      modifies this
      ensures Valid() && old(trace) <= trace && |trace| == |old(trace)| + 1
      ensures At(r, Request.Callback(token, provider, CbEnd(Some(code))))
      ensures token in seals && code !in old(codes)
      ensures var sealed := seals[token]; var data := CodeData(user, client, sealed.app, sealed.uri, sealed.challenge);
              codes == old(codes)[code := Entry(data, clock + 60000)]
    {
      hide Traced, Inv;
      TokenKnown(r);
      CodesDrawn();
      StoreStep(Last(), r, Input(true, 0, 0, drawn, 0), Last().reqs[r]);
      hide After, Plan, Apply, CanAct;
      code := drawn;
      drawn := drawn + 1;
      codes := codes[code := Entry(CodeFor(seals[token], client, user), clock + CODE_TTL)];
      Record(r, Input(true, 0, 0, code, 0));
    }

    lemma CodesDrawn()
      requires Valid()
      ensures forall code :: code in codes ==> code < drawn
    {
      hide ClientsInv, UsersInv, InitiatedInv, ReqsInv, ConsumersInv, SessionsInv, AcceptedInv, Granted;
    }

    // The code stands for the client and, unless it was just inserted, the user found.
    predicate CodeIsFor(code: Code, pc: CallbackPc)
      requires pc.CbInsert? || pc.CbLink? || pc.CbStore?
      reads this`codes
    {
      code in codes && codes[code].data.client == pc.client && (!pc.CbInsert? ==> codes[code].data.user == pc.user)
    }

    // Insert or link the user, then store a code for it.
    method FinishCallback(ghost provider: Provider, token: Token, pc: CallbackPc, ghost r: ReqId)
      returns (code: Option<Code>)
      requires Valid() && At(r, Request.Callback(token, provider, pc))
      requires pc.CbInsert? || pc.CbLink? || pc.CbStore?
      modifies this
      ensures Valid() && old(trace) <= trace && At(r, Request.Callback(token, provider, CbEnd(code)))
      ensures code.Some? ==> CodeIsFor(code.value, pc)
    {
      hide Traced, Inv, Mirrors, After;
      var client, user := pc.client, 0;
      if pc.CbInsert? {
        var inserted := InsertUser(provider, token, client, pc.email, pc.link, r);
        if inserted.None? { return None; }
        user := inserted.value;
        Yield(r);
      } else if pc.CbLink? {
        user := pc.user;
        LinkUser(provider, token, client, user, pc.link, r);
        Yield(r);
      } else {
        user := pc.user;
      }
      var stored := StoreAuthCode(provider, token, client, user, r);
      code := Some(stored);
    }

    // Authentic, young, for this provider, and never seen before.
    method VerifyState(provider: Provider, token: Token, ghost r: ReqId) returns (ok: bool)
      requires Valid() && At(r, Request.Callback(token, provider, CbStart))
      modifies this
      ensures Valid() && old(trace) <= trace
      ensures At(r, Request.Callback(token, provider, if ok then CbAccepted else CbEnd(None)))
    {
      hide Traced, Inv, Mirrors, After;
      var good, at := DecryptState(provider, token, r);
      if !good { return false; }
      Yield(r);
      ok := ConsumeStateNonce(provider, token, at, r);
    }

    method IdentifyUser(provider: Provider, token: Token, granted: bool, profile: Option<Profile>, ghost r: ReqId)
      returns (pc: CallbackPc)
      requires Valid() && At(r, Request.Callback(token, provider, CbAccepted))
      modifies this
      ensures Valid() && old(trace) <= trace && At(r, Request.Callback(token, provider, pc))
      ensures pc == CbEnd(None) || pc.CbInsert? || pc.CbLink? || pc.CbStore?
      ensures pc != CbEnd(None) ==>
                granted && profile.Some?
                && Recognises(Last().users, pc, profile.value.email, Link(provider, profile.value.id))
    {
      hide Traced, Inv, Mirrors, After, Recognises;
      var client := FindClient(provider, token, granted, r);
      if client.None? { return CbEnd(None); }
      Yield(r);
      FetchProfile(provider, token, client.value, profile, r);
      if profile.None? { return CbEnd(None); }
      Yield(r);
      pc := FindUser(provider, token, client.value, profile.value.email, Link(provider, profile.value.id), r);
    }

    /**
     * GET /auth/oauth/:provider/callback: the trace is a run and the answer is its outcome, a
     * code or none. A code is given only if at some point of the trace the user was new,
     * unlinked or linked to exactly the identity the provider gave, and it stands for that user.
     */
    method Callback(provider: Provider, token: Token, granted: bool, profile: Option<Profile>, ghost r: ReqId)
      returns (code: Option<Code>)
      requires Valid() && At(r, Request.Callback(token, provider, CbStart))
      modifies this
      ensures Valid() && old(trace) <= trace && At(r, Request.Callback(token, provider, CbEnd(code)))
      ensures code.Some? ==>
                granted && profile.Some? && exists k: nat, pc ::
                  k < |trace| && Recognises(trace[k].users, pc, profile.value.email, Link(provider, profile.value.id))
                  && CodeIsFor(code.value, pc)
    {
      hide Traced, Inv, Mirrors, After, Recognises, CodeIsFor;
      var ok := VerifyState(provider, token, r);
      if !ok { return None; }
      Yield(r);
      var pc := IdentifyUser(provider, token, granted, profile, r);
      if pc.CbEnd? { return None; }
      ghost var k := |trace| - 1;
      Yield(r);
      code := FinishCallback(provider, token, pc, r);
      assert k < |trace| && (code.Some? ==> CodeIsFor(code.value, pc));
    }

    // ----- POST /auth/oauth/token -----

    method ResolveAuthCode(ghost q: Request, code: Code, ghost r: ReqId) returns (data: Option<CodeData>)
      requires Valid() && q.Redeem? && q.rpc == RdStart && q.code == code && At(r, q)
      modifies this`trace
      ensures Valid() && trace == old(trace) + [After(old(Last()), r, NO_INPUT)]
      ensures At(r, q.(rpc := if data.Some? then RdResolved(data.value) else RdFailed))
      ensures data == if code in codes && clock <= codes[code].expiresAt then Some(codes[code].data) else None
    {
      hide Traced, Inv;
      data := if code in codes && clock <= codes[code].expiresAt then Some(codes[code].data) else None;
      Record(r, NO_INPUT);
    }

    // The code was made for this active client, its URI and the verifier's challenge.
    predicate Redeemable(data: CodeData, app: AppId, secretOk: bool, uri: Uri, verifier: Option<Verifier>)
      reads this`clients
    {
      && data.client in clients && clients[data.client].app == app && clients[data.client].isActive
      && (clients[data.client].isPublic || secretOk)
      && data.app == app && data.uri == uri
      && (data.challenge == None || (verifier.Some? && data.challenge == Some(S256(verifier.value))))
    }

    // Client id, credentials, client, redirect URI and PKCE, in that order.
    method CheckBindings(ghost q: Request, data: CodeData, app: AppId, secretOk: bool, uri: Uri,
                         verifier: Option<Verifier>, ghost r: ReqId)
      returns (client: Option<ClientId>)
      requires Valid() && q.Redeem? && q.rpc == RdResolved(data) && At(r, q)
      requires q.app == app && q.secretOk == secretOk && q.uri == uri && q.verifier == verifier
      modifies this`trace
      ensures Valid() && trace == old(trace) + [After(old(Last()), r, NO_INPUT)]
      ensures At(r, q.(rpc := if client.Some? then RdBound(data, client.value) else RdFailed))
      ensures client == if Redeemable(data, app, secretOk, uri, verifier) then Some(data.client) else None
    {
      hide Traced, Inv;
      client := SelectActiveClient(app);
      BindStep(Last(), r, NO_INPUT, q);
      hide ActiveClient, After, Plan, CanAct;
      if data.app != app { client := None; }
      else if client.None? {}
      else if !clients[client.value].isPublic && !secretOk { client := None; }
      else if data.client != client.value { client := None; }
      else if data.uri != uri { client := None; }
      else if data.challenge.Some? && (verifier.None? || data.challenge.value != S256(verifier.value)) {
        client := None;
      }
      Record(r, NO_INPUT);
    }

    // GET and DEL in one script.
    method ConsumeAuthCode(ghost q: Request, code: Code, ghost bound: CodeData, client: ClientId, ghost r: ReqId)
      returns (data: Option<CodeData>)
      requires Valid() && q.Redeem? && q.rpc == RdBound(bound, client) && q.code == code && At(r, q)
      modifies this
      ensures Valid() && trace == old(trace) + [After(old(Last()), r, NO_INPUT)]
      ensures At(r, q.(rpc := if data.Some? then RdConsumed(data.value, client) else RdFailed))
      ensures codes == if data.Some? then old(codes) - {code} else old(codes)
      ensures data == if code in old(codes) && clock <= old(codes)[code].expiresAt then Some(old(codes)[code].data)
                else None
    {
      hide Traced, Inv;
      data := None;
      if code in codes && clock <= codes[code].expiresAt {
        data := Some(codes[code].data);
        codes := codes - {code};
      }
      Record(r, NO_INPUT);
    }

    // By id alone; that the user belongs to the client is a property of the whole run.
    method LoadUser(ghost q: Request, data: CodeData, client: ClientId, ghost r: ReqId) returns (found: bool)
      requires Valid() && q.Redeem? && q.rpc == RdConsumed(data, client) && At(r, q)
      modifies this`trace
      ensures Valid() && trace == old(trace) + [After(old(Last()), r, NO_INPUT)]
      ensures At(r, q.(rpc := if found then RdUser(data.user, client) else RdFailed))
      ensures found <==> data.user in users && users[data.user].isActive
    {
      hide Traced, Inv;
      found := data.user in users && users[data.user].isActive;
      Record(r, NO_INPUT);
    }

    method IssueSession(ghost q: Request, user: UserId, client: ClientId, ghost r: ReqId)
      requires Valid() && q.Redeem? && q.rpc == RdUser(user, client) && At(r, q)
      modifies this`trace
      ensures Valid() && old(trace) <= trace && At(r, q.(rpc := RdDone))
      ensures Last().sessions == old(Last().sessions) + [Session(q.code, client, user, q.uri, q.verifier)]
    {
      hide Traced, Inv;
      Record(r, NO_INPUT);
    }

    lemma SessionTraces(k: nat)
      requires Valid() && k < |Last().sessions|
      ensures Provenance(Last(), Last().sessions[k])
    {
      hide ClientsInv, UsersInv, InitiatedInv, CodesInv, ReqsInv, ConsumersInv, AcceptedInv, Provenance;
    }

    /**
     * POST /auth/oauth/token. A session is issued only at the end of the trace, for this
     * code, and with full provenance.
     */
    method Redeem(code: Code, app: AppId, secretOk: bool, uri: Uri, verifier: Option<Verifier>, ghost r: ReqId)
      returns (session: Option<UserId>)
      requires Valid() && At(r, Request.Redeem(code, app, secretOk, uri, verifier, RdStart))
      modifies this
      ensures Valid() && old(trace) <= trace
      ensures At(r, Request.Redeem(code, app, secretOk, uri, verifier, if session.Some? then RdDone else RdFailed))
      ensures session.Some? ==>
                && Last().sessions != []
                && var x := Last().sessions[|Last().sessions| - 1];
                   x.code == code && x.user == session.value && x.uri == uri && x.verifier == verifier
                       && Provenance(Last(), x)
    {
      hide Traced, Inv, Mirrors, After, Provenance;
      ghost var q := Request.Redeem(code, app, secretOk, uri, verifier, RdStart);
      var data, client := CheckCode(q, code, app, secretOk, uri, verifier, r);
      if data.None? || client.None? { return None; }
      Yield(r);
      q := q.(rpc := RdBound(data.value, client.value));
      session := ConsumeAndIssue(q, code, data.value, client.value, r);
    }

    method CheckCode(ghost q: Request, code: Code, app: AppId, secretOk: bool, uri: Uri, verifier: Option<Verifier>,
                     ghost r: ReqId)
      returns (data: Option<CodeData>, client: Option<ClientId>)
      requires Valid() && q == Request.Redeem(code, app, secretOk, uri, verifier, RdStart) && At(r, q)
      modifies this
      ensures Valid() && old(trace) <= trace
      ensures At(r, q.(rpc := if data.Some? && client.Some? then RdBound(data.value, client.value) else RdFailed))
    {
      hide Traced, Inv, Mirrors, After;
      client := None;
      data := ResolveAuthCode(q, code, r);
      if data.None? { return; }
      Yield(r);
      client := CheckBindings(q.(rpc := RdResolved(data.value)), data.value, app, secretOk, uri, verifier, r);
    }

    method ConsumeAndIssue(ghost q: Request, code: Code, ghost bound: CodeData, client: ClientId, ghost r: ReqId)
      returns (session: Option<UserId>)
      requires Valid() && q.Redeem? && q.code == code && q.rpc == RdBound(bound, client) && At(r, q)
      modifies this
      ensures Valid() && old(trace) <= trace && At(r, q.(rpc := if session.Some? then RdDone else RdFailed))
      ensures session.Some? ==>
                && Last().sessions != []
                && Last().sessions[|Last().sessions| - 1] == Session(code, client, session.value, q.uri, q.verifier)
                && Provenance(Last(), Last().sessions[|Last().sessions| - 1])
    {
      hide Traced, Inv, Mirrors, After, Provenance;
      var consumed := ConsumeAuthCode(q, code, bound, client, r);
      if consumed.None? { return None; }
      Yield(r);
      var found := LoadUser(q.(rpc := RdConsumed(consumed.value, client)), consumed.value, client, r);
      if !found { return None; }
      Yield(r);
      IssueSession(q.(rpc := RdUser(consumed.value.user, client)), consumed.value.user, client, r);
      SessionTraces(|Last().sessions| - 1);
      session := Some(consumed.value.user);
    }
  }
}
