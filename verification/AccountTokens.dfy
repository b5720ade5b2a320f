/**
 * Emailed single-use tokens: password reset and email verification. A presentation
 * resolves the token, checks that its owner is an active user of the calling client,
 * consumes it with one conditional update and then writes the user. Clock reads and SQL
 * statements are separate steps, and any number of presentations interleave.
 */
module AccountTokens {
  import opened Wrappers

  type Time = int // milliseconds
  type ClientId = nat
  type UserId = nat
  type Token = nat
  type ReqId = nat

  const RETENTION: Time := 30 * 24 * 60 * 60 * 1000

  datatype Purpose = PasswordReset | EmailVerify
  datatype User = User(client: ClientId, isActive: bool, password: nat, verified: bool)
  datatype Row = Row(user: UserId, purpose: Purpose, expiresAt: Time, usedAt: Option<Time>)

  datatype Pc =
    | Start
    | Asked(at: Time)
    | Resolved(user: UserId)
    | Owned(user: UserId)
    | Timed(user: UserId, at: Time)
    | Consumed(user: UserId, at: Time)
    | Done
    | Failed

  datatype Request = Present(token: Token, purpose: Purpose, client: ClientId, password: nat, pc: Pc)
  datatype Completion = Completion(token: Token, purpose: Purpose, client: ClientId, user: UserId, at: Time)

  // issued, consumer and completions are history: what was emailed, who marked it used, what was written for it.
  datatype State = State(
    now: Time,
    users: map<UserId, User>,
    tokens: map<Token, Row>,
    reqs: map<ReqId, Request>,
    issued: map<Token, Row>,
    consumer: map<Token, ReqId>,
    completions: seq<Completion>)

  predicate Live(tokens: map<Token, Row>, token: Token, purpose: Purpose, at: Time) {
    token in tokens && tokens[token].purpose == purpose && tokens[token].usedAt.None? && tokens[token].expiresAt > at
  }

  predicate ActiveUserOf(users: map<UserId, User>, user: UserId, client: ClientId) {
    user in users && users[user].client == client && users[user].isActive
  }

  // A reset sets the password and proves the mailbox; a verification only the latter.
  function Completed(u: User, purpose: Purpose, password: nat): User {
    match purpose
    case PasswordReset => u.(password := password, verified := true)
    case EmailVerify => u.(verified := true)
  }

  // The consume statement on a live row, and the write that follows it.
  function MarkUsed(s: State, t: Token, at: Time, r: ReqId): State
    requires t in s.tokens
  {
    s.(tokens := s.tokens[t := s.tokens[t].(usedAt := Some(at))], consumer := s.consumer[t := r])
  }

  function WriteUser(s: State, q: Request, u: UserId, at: Time): State {
    s.(users := if u in s.users then s.users[u := Completed(s.users[u], q.purpose, q.password)] else s.users,
       completions := s.completions + [Completion(q.token, q.purpose, q.client, u, at)])
  }

  function NextPc(s: State, q: Request): Pc {
    match q.pc
    case Start => Asked(s.now)
    case Asked(at) => if Live(s.tokens, q.token, q.purpose, at) then Resolved(s.tokens[q.token].user) else Failed
    case Resolved(u) => if ActiveUserOf(s.users, u, q.client) then Owned(u) else Failed
    case Owned(u) => Timed(u, s.now)
    case Timed(u, at) => if Live(s.tokens, q.token, q.purpose, at) then Consumed(u, at) else Failed
    case Consumed(_, _) => Done
    case Done => Done
    case Failed => Failed
  }

  function Written(s: State, r: ReqId): State
    requires r in s.reqs
  {
    var q := s.reqs[r];
    if q.pc.Timed? && Live(s.tokens, q.token, q.purpose, q.pc.at) then MarkUsed(s, q.token, q.pc.at, r)
    else if q.pc.Consumed? then WriteUser(s, q, q.pc.user, q.pc.at)
    else s
  }

  function After(s: State, r: ReqId): State
    requires r in s.reqs
  {
    Written(s, r).(reqs := s.reqs[r := s.reqs[r].(pc := NextPc(s, s.reqs[r]))])
  }

  datatype Step =
    | Tick(t: Time)
    | AddUser(u: UserId, user: User)
    | EditUser(u: UserId, user: User)
    | Issue(token: Token, owner: UserId, purpose: Purpose, expiresAt: Time)
    | Cleanup(cutoff: Time)
    | Arrive(r: ReqId, q: Request)
    | Act(r: ReqId)

  ghost predicate NextStep(s: State, e: Step, s': State) {
    match e
    case Tick(t) => s.now <= t && s' == s.(now := t)
    case AddUser(u, user) => u !in s.users && s' == s.(users := s.users[u := user])
    case EditUser(u, user) => u in s.users && user.client == s.users[u].client && s' == s.(users := s.users[u := user])
    case Issue(token, owner, purpose, expiresAt) =>
      && token !in s.issued && owner in s.users
      && var row := Row(owner, purpose, expiresAt, None);
         s' == s.(tokens := s.tokens[token := row], issued := s.issued[token := row])
    case Cleanup(cutoff) =>
      cutoff <= s.now - RETENTION
          && s' == s.(tokens := map t | t in s.tokens && s.tokens[t].expiresAt >= cutoff :: s.tokens[t])
    case Arrive(r, q) => r !in s.reqs && q.pc == Start && s' == s.(reqs := s.reqs[r := q])
    case Act(r) => r in s.reqs && s' == After(s, r)
  }

  ghost predicate Next(s: State, s': State) {
    exists e :: NextStep(s, e, s')
  }

  ghost predicate Init(s: State) {
    s.tokens == map[] && s.reqs == map[] && s.issued == map[] && s.consumer == map[] && s.completions == []
  }

  ghost predicate IsRun(run: seq<State>) {
    |run| > 0 && forall i :: 0 <= i < |run| - 1 ==> Next(run[i], run[i + 1])
  }

  // ----- Invariant -----

  ghost predicate TokensInv(s: State) {
    && (forall t :: t in s.issued ==> s.issued[t].user in s.users)
    && (forall t :: t in s.tokens ==> t in s.issued && s.tokens[t] == s.issued[t].(usedAt := s.tokens[t].usedAt))
    && (forall t :: t in s.tokens && s.tokens[t].usedAt.Some? ==> t in s.consumer)
    && (forall t :: t in s.tokens && t in s.consumer ==> s.tokens[t].usedAt.Some?)
    && (forall t :: t in s.consumer ==> t in s.issued)
    && (forall t :: t in s.issued && t !in s.tokens ==> s.issued[t].expiresAt < s.now - RETENTION)
  }

  // The presentation was made for the token's own purpose, by its owner's client.
  predicate OwnersClient(s: State, q: Request, u: UserId) {
    && q.token in s.issued && s.issued[q.token].user == u && s.issued[q.token].purpose == q.purpose
    && u in s.users && s.users[u].client == q.client
  }

  predicate ReqInv(s: State, r: ReqId, q: Request) {
    match q.pc
    case Start => true
    case Asked(_) => true
    case Resolved(u) => q.token in s.issued && s.issued[q.token].user == u && s.issued[q.token].purpose == q.purpose
    case Owned(u) => OwnersClient(s, q, u)
    case Timed(u, _) => OwnersClient(s, q, u)
    case Consumed(u, at) => OwnersClient(s, q, u) && at < s.issued[q.token].expiresAt && q.token in s.consumer
        && s.consumer[q.token] == r
    case Done => q.token in s.consumer && s.consumer[q.token] == r
    case Failed => !(q.token in s.consumer && s.consumer[q.token] == r)
  }

  ghost predicate ReqsInv(s: State) {
    && (forall r :: r in s.reqs ==> ReqInv(s, r, s.reqs[r]))
    && (forall t :: t in s.consumer ==> Entitled(s, t))
  }

  /** Whoever marked the token used was its owner's client, asking for its purpose. */
  predicate Entitled(s: State, t: Token) {
    && t in s.consumer && s.consumer[t] in s.reqs && t in s.issued
    && var q := s.reqs[s.consumer[t]];
       q.token == t && OwnersClient(s, q, s.issued[t].user) && (q.pc.Consumed? || q.pc == Done)
  }

  /** A completion is for the token's owner, its purpose, the owner's client, and in time. */
  predicate Rightful(s: State, c: Completion) {
    && c.token in s.issued && s.issued[c.token].user == c.user && s.issued[c.token].purpose == c.purpose
    && c.user in s.users && s.users[c.user].client == c.client && c.at < s.issued[c.token].expiresAt
  }

  predicate Spent(s: State, t: Token) {
    t in s.consumer && s.consumer[t] in s.reqs && s.reqs[s.consumer[t]].pc == Done
  }

  ghost predicate CompletionsInv(s: State) {
    && (forall k :: 0 <= k < |s.completions| ==> Rightful(s, s.completions[k]) && Spent(s, s.completions[k].token))
    && (forall j, k :: 0 <= j < k < |s.completions| ==> s.completions[j].token != s.completions[k].token)
  }

  ghost predicate Inv(s: State) {
    TokensInv(s) && ReqsInv(s) && CompletionsInv(s)
  }

  // ----- Every step keeps it -----

  ghost predicate Later(s: State, s': State) {
    StoresLater(s, s') && ReqsLater(s, s')
  }

  ghost predicate StoresLater(s: State, s': State) {
    && (forall u :: u in s.users ==> u in s'.users && s'.users[u].client == s.users[u].client)
    && (forall t :: t in s.issued ==> t in s'.issued && s'.issued[t] == s.issued[t])
    && (forall t :: t in s.consumer ==> t in s'.consumer && s'.consumer[t] == s.consumer[t])
  }

  ghost predicate ReqsLater(s: State, s': State) {
    && (forall r :: r in s.reqs ==> r in s'.reqs && s'.reqs[r] == s.reqs[r].(pc := s'.reqs[r].pc))
    && (forall r :: r in s.reqs && s.reqs[r].pc == Done ==> s'.reqs[r].pc == Done)
  }

  lemma ActReqs(s: State, r: ReqId)
    requires r in s.reqs
    ensures var s' := After(s, r); ReqsLater(s, s') && s'.reqs == s.reqs[r := s.reqs[r].(pc := s'.reqs[r].pc)]
  {
    hide Written, Live, ActiveUserOf;
  }

  lemma ActLater(s: State, r: ReqId)
    requires TokensInv(s) && r in s.reqs
    ensures Later(s, After(s, r))
  {
    ActReqs(s, r);
    var q := s.reqs[r];
    hide TokensInv, MarkUsed, WriteUser, Live, ActiveUserOf, ReqsLater, StoresLater;
    if q.pc.Timed? && Live(s.tokens, q.token, q.purpose, q.pc.at) {
      MarkUsedLater(s, q.token, q.pc.at, r);
      ReqsAside(s, MarkUsed(s, q.token, q.pc.at, r), After(s, r));
    } else if q.pc.Consumed? {
      WriteUserLater(s, q, q.pc.user, q.pc.at);
      ReqsAside(s, WriteUser(s, q, q.pc.user, q.pc.at), After(s, r));
    } else {
      ReqsAside(s, s, After(s, r));
    }
  }

  lemma ReqsAside(s: State, s1: State, s': State)
    requires (s1 == s || StoresLater(s, s1)) && s' == s1.(reqs := s'.reqs)
    ensures StoresLater(s, s')
  {}

  lemma MarkUsedLater(s: State, t: Token, at: Time, r: ReqId)
    requires TokensInv(s) && t in s.tokens && s.tokens[t].usedAt.None?
    ensures StoresLater(s, MarkUsed(s, t, at, r)) && TokensInv(MarkUsed(s, t, at, r))
    ensures MarkUsed(s, t, at, r).reqs == s.reqs
  {}

  lemma WriteUserLater(s: State, q: Request, u: UserId, at: Time)
    ensures StoresLater(s, WriteUser(s, q, u, at)) && WriteUser(s, q, u, at).reqs == s.reqs
    ensures TokensInv(s) ==> TokensInv(WriteUser(s, q, u, at))
  {}

  lemma OnlyReqsDiffer(s: State, s': State)
    requires TokensInv(s) && s' == s.(reqs := s'.reqs)
    ensures TokensInv(s')
  {}

  lemma ActKeepsTokens(s: State, r: ReqId)
    requires TokensInv(s) && r in s.reqs
    ensures TokensInv(After(s, r))
  {
    var q := s.reqs[r];
    if q.pc.Timed? && Live(s.tokens, q.token, q.purpose, q.pc.at) {
      MarkUsedLater(s, q.token, q.pc.at, r);
      OnlyReqsDiffer(MarkUsed(s, q.token, q.pc.at, r), After(s, r));
    } else if q.pc.Consumed? {
      WriteUserLater(s, q, q.pc.user, q.pc.at);
      OnlyReqsDiffer(WriteUser(s, q, q.pc.user, q.pc.at), After(s, r));
    } else {
      OnlyReqsDiffer(s, After(s, r));
    }
    hide TokensInv, MarkUsed, WriteUser, Live, ActiveUserOf, After;
  }

  lemma ActKeepsReqs(s: State, r: ReqId)
    requires TokensInv(s) && ReqsInv(s) && r in s.reqs
    ensures ReqsInv(After(s, r))
  {
    var s' := After(s, r);
    ActLater(s, r);
    hide TokensInv, MarkUsed, WriteUser, Live, ActiveUserOf;
    forall a | a in s'.reqs ensures ReqInv(s', a, s'.reqs[a]) {
      assert ReqInv(s, a, s.reqs[a]);
      hide After, Later, ReqInv;
      if a != r { OthersKeep(s, r, a); } else { OwnKeeps(s, r); }
    }
    forall t | t in s'.consumer ensures Entitled(s', t) {
      hide Later, ReqInv, Entitled, After;
      if t in s.consumer { EntitledLater(s, r, t); } else { NewlyEntitled(s, r, t); }
    }
  }

  lemma OwnKeeps(s: State, r: ReqId)
    requires TokensInv(s) && ReqsInv(s) && r in s.reqs
    ensures ReqInv(After(s, r), r, After(s, r).reqs[r])
  {
    assert ReqInv(s, r, s.reqs[r]);
    assert s.reqs[r].token in s.consumer ==> Entitled(s, s.reqs[r].token);
    hide ActiveUserOf, ReqsInv;
  }

  lemma EntitledLater(s: State, r: ReqId, t: Token)
    requires TokensInv(s) && r in s.reqs && t in s.consumer && Entitled(s, t)
    ensures Entitled(After(s, r), t)
  {
    ActLater(s, r);
    ActReqs(s, r);
    if s.consumer[t] == r { OwnDone(s, r); }
    hide TokensInv, After;
  }

  lemma OwnDone(s: State, r: ReqId)
    requires r in s.reqs && (s.reqs[r].pc.Consumed? || s.reqs[r].pc == Done)
    ensures After(s, r).reqs[r].pc == Done
  {}

  lemma NewlyEntitled(s: State, r: ReqId, t: Token)
    requires TokensInv(s) && r in s.reqs && ReqInv(s, r, s.reqs[r]) && t !in s.consumer && t in After(s, r).consumer
    ensures Entitled(After(s, r), t)
  {}

  lemma OthersKeep(s: State, r: ReqId, a: ReqId)
    requires TokensInv(s) && r in s.reqs && a in s.reqs && a != r && ReqInv(s, a, s.reqs[a])
    ensures a in After(s, r).reqs && ReqInv(After(s, r), a, After(s, r).reqs[a])
  {
    ActLater(s, r);
    hide TokensInv, MarkUsed, WriteUser, Live, ActiveUserOf;
  }

  lemma ActKeepsCompletions(s: State, r: ReqId)
    requires Inv(s) && r in s.reqs
    ensures CompletionsInv(After(s, r))
  {
    var s' := After(s, r);
    ActLater(s, r);
    assert ReqInv(s, r, s.reqs[r]);
    forall k | 0 <= k < |s'.completions| ensures Rightful(s', s'.completions[k]) && Spent(s', s'.completions[k].token) {
      if k < |s.completions| { assert Rightful(s, s.completions[k]) && Spent(s, s.completions[k].token); }
    }
    hide ReqsInv, TokensInv;
  }

  lemma QuietLater(s: State, e: Step, s': State)
    requires NextStep(s, e, s') && !e.Act?
    ensures Later(s, s') && s'.consumer == s.consumer && s'.completions == s.completions
    ensures forall r :: r in s'.reqs ==> if r in s.reqs then s'.reqs[r] == s.reqs[r] else s'.reqs[r].pc == Start
  {}

  lemma QuietKeepsTokens(s: State, e: Step, s': State)
    requires TokensInv(s) && NextStep(s, e, s') && !e.Act?
    ensures TokensInv(s')
  {}

  lemma QuietKeepsReqs(s: State, e: Step, s': State)
    requires ReqsInv(s) && NextStep(s, e, s') && !e.Act?
    ensures ReqsInv(s')
  {
    QuietLater(s, e, s');
    hide NextStep;
    forall r | r in s'.reqs ensures ReqInv(s', r, s'.reqs[r]) {
      if r in s.reqs { assert ReqInv(s, r, s.reqs[r]); }
    }
    forall t | t in s'.consumer ensures Entitled(s', t) { assert Entitled(s, t); }
  }

  lemma QuietKeepsCompletions(s: State, e: Step, s': State)
    requires CompletionsInv(s) && NextStep(s, e, s') && !e.Act?
    ensures CompletionsInv(s')
  {
    QuietLater(s, e, s');
    hide NextStep;
    forall k | 0 <= k < |s'.completions| ensures Rightful(s', s'.completions[k]) && Spent(s', s'.completions[k].token) {
      assert Rightful(s, s.completions[k]) && Spent(s, s.completions[k].token);
    }
  }

  lemma NextKeepsInv(s: State, e: Step, s': State)
    requires Inv(s) && NextStep(s, e, s')
    ensures Inv(s')
  {
    if e.Act? {
      ActKeepsTokens(s, e.r);
      ActKeepsReqs(s, e.r);
      ActKeepsCompletions(s, e.r);
    } else {
      QuietKeepsTokens(s, e, s');
      QuietKeepsReqs(s, e, s');
      QuietKeepsCompletions(s, e, s');
    }
    hide TokensInv, ReqsInv, CompletionsInv, After;
  }

  lemma {:induction false} HistoryInv(run: seq<State>, i: nat)
    requires IsRun(run) && Init(run[0]) && i < |run|
    ensures Inv(run[i])
  {
    hide Inv, NextStep;
    if i == 0 { InitInv(run[0]); }
    else {
      HistoryInv(run, i - 1);
      assert Next(run[i - 1], run[i - 1 + 1]);
      var e :| NextStep(run[i - 1], e, run[i]);
      NextKeepsInv(run[i - 1], e, run[i]);
    }
  }

  lemma InitInv(s: State)
    requires Init(s)
    ensures Inv(s)
  {}

  lemma ClockStays(t: State, r: ReqId)
    requires r in t.reqs
    ensures After(t, r).now == t.now
  {
    hide Live;
  }

  lemma {:induction false} ClockRises(run: seq<State>, i: nat, j: nat)
    requires IsRun(run) && i <= j < |run|
    ensures run[i].now <= run[j].now
  {
    hide After;
    if i == j {
    } else {
      ClockRises(run, i, j - 1);
      assert Next(run[j - 1], run[j - 1 + 1]);
      var e :| NextStep(run[j - 1], e, run[j]);
      if e.Act? { ClockStays(run[j - 1], e.r); }
    }
  }

  // ----- Theorems -----

  /** However presentations interleave, a token completes at most one reset or verification. */
  lemma OneCompletionPerToken(run: seq<State>, i: nat, j: nat, k: nat)
    requires IsRun(run) && Init(run[0]) && i < |run| && j < |run[i].completions| && k < |run[i].completions|
    requires run[i].completions[j].token == run[i].completions[k].token
    ensures j == k
  {
    HistoryInv(run, i);
    hide IsRun, TokensInv, ReqsInv;
  }

  /** Every completion is for the token's own owner and purpose, by the owner's client, before expiry. */
  lemma CompletionsAreRightful(run: seq<State>, i: nat, k: nat)
    requires IsRun(run) && Init(run[0]) && i < |run| && k < |run[i].completions|
    ensures Rightful(run[i], run[i].completions[k])
  {
    HistoryInv(run, i);
    hide IsRun, TokensInv, ReqsInv, Rightful;
  }

  /**
   * A token is marked used only by a presentation that passed every check, whose write
   * is done or next: presentations that fail leave it usable.
   */
  lemma FailuresLeaveItUnused(run: seq<State>, i: nat, t: Token)
    requires IsRun(run) && Init(run[0]) && i < |run| && t in run[i].tokens && run[i].tokens[t].usedAt.Some?
    ensures Entitled(run[i], t)
  {
    HistoryInv(run, i);
    hide IsRun, CompletionsInv, Entitled;
  }

  /**
   * However many presentations failed, a token that nobody consumed stays in the table
   * and live for its purpose until it expires.
   */
  lemma UnconsumedStaysLive(run: seq<State>, i: nat, t: Token)
    requires IsRun(run) && Init(run[0]) && i < |run|
    requires t in run[i].issued && t !in run[i].consumer && run[i].now < run[i].issued[t].expiresAt
    ensures Live(run[i].tokens, t, run[i].issued[t].purpose, run[i].now)
  {
    HistoryInv(run, i);
    hide IsRun, ReqsInv, CompletionsInv;
  }

  // ----- A presentation that runs alone, however long it takes -----

  // One step of r, or time passing.
  predicate OwnStep(s: State, s': State, r: ReqId) {
    r in s.reqs && (s' == After(s, r) || (s.now <= s'.now && s' == s.(now := s'.now)))
  }

  predicate Alone(run: seq<State>, r: ReqId) {
    |run| > 0 && forall k :: 0 <= k < |run| - 1 ==> OwnStep(run[k], run[k + 1], r)
  }

  // An unused row of that purpose, unexpired at that instant.
  predicate Unspent(s: State, q: Request, at: Time) {
    && q.token in s.tokens && s.tokens[q.token].purpose == q.purpose
    && s.tokens[q.token].usedAt == None && at < s.tokens[q.token].expiresAt
  }

  // And its owner is an active user of the client.
  predicate Usable(s: State, q: Request, at: Time) {
    && Unspent(s, q, at) && s.tokens[q.token].user in s.users
    && s.users[s.tokens[q.token].user].client == q.client && s.users[s.tokens[q.token].user].isActive
  }

  predicate Untouched(s: State, t: State) {
    t.tokens == s.tokens && t.users == s.users
  }

  predicate Spends(s: State, t: State, q: Request, at: Time) {
    && s.now <= at <= t.now && Usable(s, q, at)
    && t.tokens == s.tokens[q.token := s.tokens[q.token].(usedAt := Some(at))]
  }

  // One user is written: a reset sets the presented password and a verification keeps the
  // old one, both prove the mailbox, and nothing else of anyone changes.
  predicate Wrote(before: map<UserId, User>, after: map<UserId, User>, u: UserId, purpose: Purpose, password: nat) {
    && u in before && after.Keys == before.Keys && (forall v :: v in before && v != u ==> after[v] == before[v])
    && after[u].client == before[u].client && after[u].isActive == before[u].isActive && after[u].verified
    && (purpose == PasswordReset ==> after[u].password == password)
    && (purpose == EmailVerify ==> after[u].password == before[u].password)
  }

  // The token is marked used at that instant, and its user written.
  predicate Completes(s: State, t: State, q: Request, at: Time) {
    Spends(s, t, q, at) && Wrote(s.users, t.users, s.tokens[q.token].user, q.purpose, q.password)
  }

  ghost predicate CompletesInTime(s: State, t: State, q: Request) {
    exists at :: Completes(s, t, q, at)
  }

  // Where a presentation that began in s stands in t.
  ghost predicate Stage(s: State, t: State, q: Request, pc: Pc) {
    s.now <= t.now &&
    match pc
    case Start => Untouched(s, t)
    case Asked(at) => Untouched(s, t) && s.now <= at <= t.now
    case Resolved(u) => Untouched(s, t) && Unspent(s, q, s.now) && u == s.tokens[q.token].user
    case Owned(u) => Untouched(s, t) && Usable(s, q, s.now) && u == s.tokens[q.token].user
    case Timed(u, at) =>
      Untouched(s, t) && Usable(s, q, s.now) && u == s.tokens[q.token].user && s.now <= at <= t.now
    case Consumed(u, at) => t.users == s.users && Spends(s, t, q, at) && u == s.tokens[q.token].user
    case Done => CompletesInTime(s, t, q)
    case Failed => Untouched(s, t) && !Usable(s, q, t.now)
  }

  predicate SameAsk(t: State, r: ReqId, q: Request) {
    r in t.reqs && t.reqs[r] == q.(pc := t.reqs[r].pc)
  }

  lemma ReadStage(s: State, t: State, r: ReqId, q: Request)
    requires SameAsk(t, r, q) && Stage(s, t, q, t.reqs[r].pc)
    requires t.reqs[r].pc == Start || t.reqs[r].pc.Asked? || t.reqs[r].pc.Resolved? || t.reqs[r].pc.Owned?
    ensures SameAsk(After(t, r), r, q) && Stage(s, After(t, r), q, After(t, r).reqs[r].pc)
  {
    hide Completes;
  }

  lemma WriteStage(s: State, t: State, r: ReqId, q: Request)
    requires SameAsk(t, r, q) && Stage(s, t, q, t.reqs[r].pc)
    requires t.reqs[r].pc.Timed? || t.reqs[r].pc.Consumed?
    ensures SameAsk(After(t, r), r, q) && Stage(s, After(t, r), q, After(t, r).reqs[r].pc)
  {
    if t.reqs[r].pc.Consumed? { assert Completes(s, After(t, r), q, t.reqs[r].pc.at); }
  }

  lemma RestStage(s: State, t: State, t': State, r: ReqId, q: Request)
    requires SameAsk(t, r, q) && Stage(s, t, q, t.reqs[r].pc)
    requires || (t.now <= t'.now && t' == t.(now := t'.now))
             || (t' == After(t, r) && (t.reqs[r].pc == Done || t.reqs[r].pc == Failed))
    ensures SameAsk(t', r, q) && Stage(s, t', q, t'.reqs[r].pc)
  {
    if t.reqs[r].pc == Done {
      var at :| Completes(s, t, q, at);
      assert Completes(s, t', q, at);
    }
  }

  lemma StageStep(s: State, t: State, t': State, r: ReqId, q: Request)
    requires SameAsk(t, r, q) && Stage(s, t, q, t.reqs[r].pc) && OwnStep(t, t', r)
    ensures SameAsk(t', r, q) && Stage(s, t', q, t'.reqs[r].pc)
  {
    hide Stage, After;
    ClockStays(t, r);
    if t' == t.(now := t'.now) { RestStage(s, t, t', r, q); }
    else {
      match t.reqs[r].pc
      case Timed(_, _) => WriteStage(s, t, r, q);
      case Consumed(_, _) => WriteStage(s, t, r, q);
      case Done => RestStage(s, t, t', r, q);
      case Failed => RestStage(s, t, t', r, q);
      case _ => ReadStage(s, t, r, q);
    }
  }

  lemma {:induction false} Stages(run: seq<State>, r: ReqId, k: nat)
    requires Alone(run, r) && k < |run| && r in run[0].reqs && run[0].reqs[r].pc == Start
    ensures SameAsk(run[k], r, run[0].reqs[r]) && Stage(run[0], run[k], run[0].reqs[r], run[k].reqs[r].pc)
  {
    hide OwnStep;
    if k == 0 {
    } else {
      Stages(run, r, k - 1);
      hide Stage, SameAsk;
      assert OwnStep(run[k - 1], run[k - 1 + 1], r);
      StageStep(run[0], run[k - 1], run[k], r, run[0].reqs[r]);
    }
  }

  /**
   * In every run of its own steps only, whatever time they take, a presentation that ends
   * succeeds when its token is still usable at the end and fails when it was not at the
   * start. Success marks the token and writes its user, field by field as Wrote says;
   * failure changes no row.
   */
  lemma AloneExactly(run: seq<State>, r: ReqId)
    requires Alone(run, r) && r in run[0].reqs && run[0].reqs[r].pc == Start
    ensures var s, t := run[0], run[|run| - 1]; var q := s.reqs[r];
            && r in t.reqs
            && (t.reqs[r].pc == Done ==> Usable(s, q, s.now) && CompletesInTime(s, t, q))
            && (t.reqs[r].pc == Failed ==> !Usable(s, q, t.now) && Untouched(s, t))
  {
    Stages(run, r, |run| - 1);
    hide Alone, Wrote;
    var s, t := run[0], run[|run| - 1];
    if t.reqs[r].pc == Done {
      var at :| Completes(s, t, s.reqs[r], at);
      UsableBefore(s, s.reqs[r], at);
    }
  }

  lemma UsableBefore(s: State, q: Request, at: Time)
    requires Usable(s, q, at) && s.now <= at
    ensures Usable(s, q, s.now)
  {}
}
