/**
 * The OAuth transaction: initiate, callback, store code, redeem. The sealed state
 * travels through the browser, the nonce marker and the code live in Redis, and every
 * read, Redis command and SQL statement is one atomic step, so callbacks and
 * redemptions interleave freely. Sealing is ideal: only outputs of the platform's own
 * encryption open.
 */
module OAuthMachine {
  import opened Wrappers

  type Time = int // milliseconds
  type ClientId = nat // internal id
  type AppId = nat    // the public cl_ identifier
  type Uri = nat
  type Provider = nat
  type Nonce = nat
  type Token = nat    // a sealed state value
  type Code = nat
  type UserId = nat
  type Verifier = nat
  type ReqId = nat

  const STATE_MAX_AGE: Time := 10 * 60 * 1000
  const STATE_TTL: Time := 10 * 60 * 1000 // ceil(max age in seconds), in milliseconds
  const CODE_TTL: Time := 60 * 1000

  // A challenge is the S256 image of a verifier, or a string that is nobody's image.
  datatype Challenge = S256(v: Verifier) | NoImage(n: nat)

  datatype Client = Client(app: AppId, isPublic: bool, isActive: bool, uris: set<Uri>)
  datatype Link = Link(provider: Provider, id: nat)
  datatype User = User(client: ClientId, email: nat, link: Option<Link>, isActive: bool)
  datatype Sealed = Sealed(app: AppId, uri: Uri, provider: Provider, nonce: Nonce, challenge: Option<Challenge>,
                           iat: Time)
  datatype CodeData = CodeData(user: UserId, client: ClientId, app: AppId, uri: Uri, challenge: Option<Challenge>)
  datatype Entry = Entry(data: CodeData, expiresAt: Time)

  // History: what was true when a transaction began, which state a code came from, who
  // consumed it, and every session issued and state accepted.
  datatype Initiation = Initiation(sealed: Sealed, client: ClientId, registered: set<Uri>)
  datatype Grant = Grant(token: Token, data: CodeData, storedAt: Time)
  datatype Use = Use(req: ReqId, at: Time)
  datatype Session = Session(code: Code, client: ClientId, user: UserId, uri: Uri, verifier: Option<Verifier>)
  datatype Acceptance = Acceptance(token: Token, checkedAt: Time, setAt: Time)

  datatype InitiatePc = InStart | InSeal(client: ClientId, registered: set<Uri>) | InEnd(token: Option<Token>)

  datatype CallbackPc =
    | CbStart
    | CbChecked(checkedAt: Time)
    | CbAccepted
    | CbClient(client: ClientId)
    | CbIdentity(client: ClientId, email: nat, link: Link)
    | CbInsert(client: ClientId, email: nat, link: Link)
    | CbLink(client: ClientId, user: UserId, link: Link)
    | CbStore(client: ClientId, user: UserId)
    | CbEnd(code: Option<Code>)

  datatype RedeemPc =
    | RdStart
    | RdResolved(data: CodeData)
    | RdBound(data: CodeData, client: ClientId)
    | RdConsumed(data: CodeData, client: ClientId)
    | RdUser(user: UserId, client: ClientId)
    | RdDone
    | RdFailed

  datatype Request =
    | Initiate(app: AppId, uri: Uri, provider: Provider, challenge: Option<Challenge>, ipc: InitiatePc)
    | Callback(token: Token, provider: Provider, cpc: CallbackPc)
    | Redeem(code: Code, app: AppId, secretOk: bool, uri: Uri, verifier: Option<Verifier>, rpc: RedeemPc)

  datatype State = State(
    now: Time,
    clients: map<ClientId, Client>,
    users: map<UserId, User>,
    nonces: map<Nonce, Time>,       // marker -> instant it expires
    codes: map<Code, Entry>,
    reqs: map<ReqId, Request>,
    initiated: map<Token, Initiation>,
    granted: map<Code, Grant>,
    consumer: map<Code, Use>,
    accepted: seq<Acceptance>,
    sessions: seq<Session>)

  // ----- Reads -----

  predicate CodeLive(s: State, code: Code) {
    code in s.codes && s.now <= s.codes[code].expiresAt
  }

  predicate MarkerLive(s: State, nonce: Nonce) {
    nonce in s.nonces && s.now <= s.nonces[nonce]
  }

  // SELECT ... WHERE client_id = app AND is_active; the identifier is unique.
  ghost function ActiveClient(clients: map<ClientId, Client>, app: AppId): (r: Option<ClientId>)
    ensures r.Some? ==> r.value in clients && clients[r.value].app == app && clients[r.value].isActive
    ensures r.None? ==> forall c :: c in clients && clients[c].app == app ==> !clients[c].isActive
  {
    if exists c :: c in clients && clients[c].app == app && clients[c].isActive then
      var c :| c in clients && clients[c].app == app && clients[c].isActive;
      Some(c)
    else None
  }

  ghost function UserByEmail(users: map<UserId, User>, client: ClientId, email: nat): (r: Option<UserId>)
    ensures r.Some? ==> r.value in users && users[r.value].client == client && users[r.value].email == email
    ensures r.None? ==> forall u :: u in users && users[u].client == client ==> users[u].email != email
  {
    if exists u :: u in users && users[u].client == client && users[u].email == email then
      var u :| u in users && users[u].client == client && users[u].email == email;
      Some(u)
    else None
  }

  // decryptState and the provider check: only a genuine, young state of this provider.
  predicate Opens(s: State, token: Token, provider: Provider) {
    && token in s.initiated
    && s.initiated[token].sealed.iat != 0
    && s.now - s.initiated[token].sealed.iat <= STATE_MAX_AGE
    && s.initiated[token].sealed.provider == provider
  }

  predicate VerifierFits(challenge: Option<Challenge>, verifier: Option<Verifier>) {
    challenge.Some? ==> verifier.Some? && challenge.value == S256(verifier.value)
  }

  // Credentials, client binding, redirect URI and PKCE, in the order of the handler.
  ghost function Binds(s: State, q: Request, data: CodeData): Option<ClientId>
    requires q.Redeem?
  {
    var client := ActiveClient(s.clients, q.app);
    if data.app != q.app then None
    else if client.None? then None
    else if !s.clients[client.value].isPublic && !q.secretOk then None
    else if data.client != client.value then None
    else if data.uri != q.uri then None
    else if !VerifierFits(data.challenge, q.verifier) then None
    else client
  }

  // ----- One step of each handler -----

  // What a step does to the stores.
  datatype Effect =
    | Nothing
    | Seal(token: Token, initiation: Initiation)
    | Mark(token: Token, checkedAt: Time)      // SET nonce NX EX succeeded
    | NewUser(u: UserId, user: User)
    | Relink(u: UserId, link: Link)
    | Store(code: Code, token: Token, data: CodeData)
    | Consume(code: Code, r: ReqId)
    | Issue(session: Session)

  function Apply(s: State, e: Effect): State {
    match e
    case Nothing => s
    case Seal(token, initiation) => s.(initiated := s.initiated[token := initiation])
    case Mark(token, at) =>
      if token !in s.initiated then s else
        s.(nonces := s.nonces[s.initiated[token].sealed.nonce := s.now + STATE_TTL],
           accepted := s.accepted + [Acceptance(token, at, s.now)])
    case NewUser(u, user) => s.(users := s.users[u := user])
    case Relink(u, link) => if u in s.users then s.(users := s.users[u := s.users[u].(link := Some(link))]) else s
    case Store(code, token, data) =>
      s.(codes := s.codes[code := Entry(data, s.now + CODE_TTL)], granted :=
         s.granted[code := Grant(token, data, s.now)])
    case Consume(code, r) => s.(codes := s.codes - {code}, consumer := s.consumer[code := Use(r, s.now)])
    case Issue(session) => s.(sessions := s.sessions + [session])
  }

  // What the provider's token and profile endpoints answered.
  datatype Profile = Profile(email: nat, id: nat)

  // What comes from outside a step: the provider's answer, and fresh random values.
  datatype Input = Input(ok: bool, email: nat, id: nat, drawn: nat, nonce: Nonce)

  // An active client, one of its URIs, and PKCE when the client is public.
  ghost function PlanInitiate(s: State, q: Request, i: Input): (Effect, InitiatePc)
    requires q.Initiate?
  {
    match q.ipc
    case InStart =>
      var c := ActiveClient(s.clients, q.app);
      (Nothing,
       if c.None? || q.uri !in s.clients[c.value].uris || (s.clients[c.value].isPublic && q.challenge.None?)
           then InEnd(None)
       else InSeal(c.value, s.clients[c.value].uris))
    case InSeal(c, registered) =>
      (Seal(i.drawn, Initiation(Sealed(q.app, q.uri, q.provider, i.nonce, q.challenge, s.now), c, registered)),
       InEnd(Some(i.drawn)))
    case InEnd(token) => (Nothing, InEnd(token))
  }

  ghost function PlanCallback(s: State, q: Request, i: Input): (Effect, CallbackPc)
    requires q.Callback? && (q.cpc != CbStart ==> q.token in s.initiated)
  {
    match q.cpc
    case CbStart => (Nothing, if Opens(s, q.token, q.provider) then CbChecked(s.now) else CbEnd(None))
    case CbChecked(at) =>
      if MarkerLive(s, s.initiated[q.token].sealed.nonce) then (Nothing, CbEnd(None))
          else (Mark(q.token, at), CbAccepted)
    case CbAccepted =>
      var client := ActiveClient(s.clients, s.initiated[q.token].sealed.app);
      (Nothing, if i.ok && client.Some? then CbClient(client.value) else CbEnd(None))
    case CbClient(c) => (Nothing, if i.ok then CbIdentity(c, i.email, Link(q.provider, i.id)) else CbEnd(None))
    case CbIdentity(c, email, link) => (Nothing, Recognise(s, c, email, link))
    case CbInsert(c, email, link) =>
      if UserByEmail(s.users, c, email).Some? then (Nothing, CbEnd(None)) // unique index violated
      else (NewUser(i.drawn, User(c, email, Some(link), true)), CbStore(c, i.drawn))
    case CbLink(c, u, link) => (Relink(u, link), CbStore(c, u))
    case CbStore(c, u) => (Store(i.drawn, q.token, CodeFor(s.initiated[q.token].sealed, c, u)), CbEnd(Some(i.drawn)))
    case CbEnd(code) => (Nothing, CbEnd(code))
  }

  // Find the user of this client with the provider's email, and what to do with it.
  ghost function Recognise(s: State, c: ClientId, email: nat, link: Link): CallbackPc {
    match UserByEmail(s.users, c, email)
    case None => CbInsert(c, email, link)
    case Some(u) =>
      if !s.users[u].isActive then CbEnd(None)
      else if s.users[u].link.None? then CbLink(c, u, link)
      else if s.users[u].link != Some(link) then CbEnd(None)
      else CbStore(c, u)
  }

  function CodeFor(sealed: Sealed, c: ClientId, u: UserId): CodeData {
    CodeData(u, c, sealed.app, sealed.uri, sealed.challenge)
  }

  ghost function PlanRedeem(s: State, q: Request, r: ReqId): (Effect, RedeemPc)
    requires q.Redeem?
  {
    match q.rpc
    case RdStart => (Nothing, if CodeLive(s, q.code) then RdResolved(s.codes[q.code].data) else RdFailed)
    case RdResolved(data) =>
      (Nothing, match Binds(s, q, data) case None => RdFailed case Some(c) => RdBound(data, c))
    case RdBound(data, c) =>
      if CodeLive(s, q.code) then (Consume(q.code, r), RdConsumed(s.codes[q.code].data, c)) else (Nothing, RdFailed)
    case RdConsumed(data, c) =>
      (Nothing, if data.user in s.users && s.users[data.user].isActive then RdUser(data.user, c) else RdFailed)
    case RdUser(u, c) => (Issue(Session(q.code, c, u, q.uri, q.verifier)), RdDone)
    case RdDone => (Nothing, RdDone)
    case RdFailed => (Nothing, RdFailed)
  }

  predicate CanAct(s: State, r: ReqId, i: Input) {
    && r in s.reqs
    && (s.reqs[r].Callback? && s.reqs[r].cpc != CbStart ==> s.reqs[r].token in s.initiated)
    && (s.reqs[r].Callback? && s.reqs[r].cpc.CbInsert? ==> i.drawn !in s.users)
    && (s.reqs[r].Callback? && s.reqs[r].cpc.CbStore? ==> i.drawn !in s.granted)
    && (s.reqs[r].Initiate? && s.reqs[r].ipc.InSeal? ==>
          i.drawn !in s.initiated && forall x :: x in s.initiated ==> s.initiated[x].sealed.nonce != i.nonce)
  }

  ghost function Plan(s: State, r: ReqId, i: Input): (Effect, Request)
    requires CanAct(s, r, i)
  {
    var q := s.reqs[r];
    match q
    case Initiate(_, _, _, _, _) => var (e, pc) := PlanInitiate(s, q, i); (e, q.(ipc := pc))
    case Callback(_, _, _) => var (e, pc) := PlanCallback(s, q, i); (e, q.(cpc := pc))
    case Redeem(_, _, _, _, _, _) => var (e, pc) := PlanRedeem(s, q, r); (e, q.(rpc := pc))
  }

  ghost function After(s: State, r: ReqId, i: Input): State
    requires CanAct(s, r, i)
  {
    var (e, q) := Plan(s, r, i);
    Apply(s, e).(reqs := s.reqs[r := q])
  }

  // ----- The step relation -----

  datatype Step =
    | Tick(t: Time)
    | AddClient(c: ClientId, client: Client)
    | PatchClient(c: ClientId, isActive: bool, uris: set<Uri>)
    | AddUser(u: UserId, user: User)
    | SetActive(u: UserId, active: bool)
    | Arrive(r: ReqId, q: Request)
    | Act(r: ReqId, i: Input)

  predicate Starting(q: Request) {
    match q
    case Initiate(_, _, _, _, pc) => pc == InStart
    case Callback(_, _, pc) => pc == CbStart
    case Redeem(_, _, _, _, _, pc) => pc == RdStart
  }

  ghost predicate NextStep(s: State, e: Step, s': State) {
    match e
    case Tick(t) => s.now <= t && s' == s.(now := t)
    case AddClient(c, client) =>
      && c !in s.clients && (forall d :: d in s.clients ==> s.clients[d].app != client.app)
      && s' == s.(clients := s.clients[c := client])
    case PatchClient(c, isActive, uris) =>
      c in s.clients && s' == s.(clients := s.clients[c := s.clients[c].(isActive := isActive, uris := uris)])
    case AddUser(u, user) =>
      && u !in s.users && UserByEmail(s.users, user.client, user.email).None?
      && s' == s.(users := s.users[u := user])
    case SetActive(u, active) => u in s.users && s' == s.(users := s.users[u := s.users[u].(isActive := active)])
    case Arrive(r, q) => r !in s.reqs && Starting(q) && s' == s.(reqs := s.reqs[r := q])
    case Act(r, i) => CanAct(s, r, i) && s' == After(s, r, i)
  }

  ghost predicate Next(s: State, s': State) {
    exists e :: NextStep(s, e, s')
  }

  predicate SameAddress(a: User, b: User) {
    a.client == b.client && a.email == b.email
  }

  // Any clients and users within their unique indexes, and nothing in flight.
  ghost predicate Init(s: State) {
    && (forall u, v :: u in s.users && v in s.users && SameAddress(s.users[u], s.users[v]) ==> u == v)
    && (forall c, d :: c in s.clients && d in s.clients && s.clients[c].app == s.clients[d].app ==> c == d)
    && s.nonces == map[] && s.codes == map[] && s.reqs == map[] && s.initiated == map[]
    && s.granted == map[] && s.consumer == map[] && s.accepted == [] && s.sessions == []
  }

  ghost predicate IsRun(run: seq<State>) {
    |run| > 0 && forall i :: 0 <= i < |run| - 1 ==> Next(run[i], run[i + 1])
  }

  ghost predicate IsHistory(run: seq<State>) {
    IsRun(run) && Init(run[0])
  }
}
