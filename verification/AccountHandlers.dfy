/**
 * createAccountToken, consumeForClient and the two handlers that use it, over mutable
 * tables. Each statement method is one step of the account token machine, with any
 * interference at the awaits between them.
 */
module AccountHandlers {
  import opened Wrappers
  import opened Traces
  import opened AccountTokens

  ghost predicate Traced(trace: seq<State>) {
    IsRun(trace) && Inv(trace[|trace| - 1])
  }

  lemma TraceStep(trace: seq<State>, e: Step, s: State)
    requires Traced(trace) && NextStep(trace[|trace| - 1], e, s)
    ensures Traced(trace + [s])
  {
    hide Inv, NextStep;
    NextKeepsInv(trace[|trace| - 1], e, s);
    Extended(trace, s, Next);
  }

  class AccountService {
    var users: map<UserId, User>
    var tokens: map<Token, Row>
    var clock: Time
    var drawn: nat // no token at or above it has been drawn
    ghost var trace: seq<State>

    ghost predicate Valid()
      reads this
    {
      && Traced(trace)
      && Mirrors(trace[|trace| - 1])
    }

    ghost predicate Mirrors(s: State)
      reads this
    {
      s.users == users && s.tokens == tokens && s.now == clock && forall t :: t in s.issued ==> t < drawn
    }

    ghost function Last(): State
      requires trace != []
      reads this
    {
      trace[|trace| - 1]
    }

    ghost predicate At(r: ReqId, q: Request)
      reads this
    {
      trace != [] && r in Last().reqs && Last().reqs[r] == q
    }

    // Takes over the tables in any state of any history.
    constructor (ghost history: seq<State>, users: map<UserId, User>, tokens: map<Token, Row>, clock: Time, drawn: nat)
      requires Traced(history)
      requires var s := history[|history| - 1];
               s.users == users && s.tokens == tokens && s.now == clock && forall t :: t in s.issued ==> t < drawn
      ensures Valid() && trace == history
    {
      hide Inv, IsRun;
      this.users, this.tokens, this.clock, this.drawn := users, tokens, clock, drawn;
      trace := history;
    }

    // Another request may run any statements here; this request's own position stays.
    method Yield(ghost r: ReqId)
      requires Valid() && r in Last().reqs
      modifies this
      ensures Valid() && old(trace) <= trace && At(r, old(Last().reqs[r]))
    {}

    ghost method Record(e: Step, s: State)
      requires Traced(trace) && NextStep(Last(), e, s) && Mirrors(s)
      modifies this`trace
      ensures Valid() && trace == old(trace) + [s]
    {
      hide Inv, NextStep;
      TraceStep(trace, e, s);
      trace := trace + [s];
    }

    // The raw token for the email link; only its hash identifies the row.
    method CreateAccountToken(user: UserId, purpose: Purpose, ttl: Time) returns (token: Token)
      requires Valid() && user in users
      modifies this
      ensures Valid() && |trace| == |old(trace)| + 1 && old(trace) <= trace
      ensures token !in old(tokens) && tokens == old(tokens)[token := Row(user, purpose, clock + ttl, None)]
      ensures users == old(users) && clock == old(clock)
    {
      IssuedOfLast();
      hide Traced, Inv;
      token := drawn;
      drawn := drawn + 1;
      ghost var s := Last();
      var row := Row(user, purpose, clock + ttl, None);
      tokens := tokens[token := row];
      Record(Issue(token, user, purpose, clock + ttl),
             s.(tokens := s.tokens[token := row], issued := s.issued[token := row]));
    }

    lemma IssuedOfLast()
      requires Valid()
      ensures trace != [] && forall t :: t in tokens ==> t < drawn
    {
      hide ReqsInv, CompletionsInv;
    }

    // cleanupExpiredAccountTokens: the cutoff is read from the clock before the delete runs.
    method CleanupExpired()
      requires Valid()
      modifies this
      ensures Valid() && old(trace) <= trace && |trace| > 1
      ensures var before := trace[|trace| - 2].tokens;
              tokens == map t | t in before && before[t].expiresAt >= old(clock) - 2592000000 :: before[t]
    {
      hide Traced, Inv, Mirrors;
      var cutoff := ReadCutoff();
      Await();
      ClockRose(old(trace));
      LastTokens();
      DeleteExpired(cutoff);
    }

    // Any statements of any requests may run here.
    method Await()
      requires Valid()
      modifies this
      ensures Valid() && old(trace) <= trace
    {}

    method ReadCutoff() returns (cutoff: Time)
      requires Valid()
      ensures trace != [] && clock == Last().now && cutoff == clock - 2592000000
    {
      hide Inv;
      cutoff := clock - RETENTION;
    }

    lemma ClockRose(before: seq<State>)
      requires Valid() && before != [] && before <= trace
      ensures before[|before| - 1].now <= clock
    {
      hide Inv, IsRun;
      assert trace[|before| - 1] == before[|before| - 1];
      ClockRises(trace, |before| - 1, |trace| - 1);
    }

    lemma LastTokens()
      requires Valid()
      ensures trace != [] && Last().tokens == tokens
    {
      hide Inv;
    }

    method DeleteExpired(cutoff: Time)
      requires Valid() && cutoff <= clock - RETENTION
      modifies this
      ensures Valid() && |trace| == |old(trace)| + 1 && old(trace) <= trace
      ensures tokens == map t | t in old(tokens) && old(tokens)[t].expiresAt >= cutoff :: old(tokens)[t]
    {
      IssuedOfLast();
      hide Traced, Inv;
      var expired := set t | t in tokens && tokens[t].expiresAt < cutoff;
      ghost var was := tokens;
      tokens := tokens - expired;
      assert tokens == map t | t in was && was[t].expiresAt >= cutoff :: was[t];
      Record(Cleanup(cutoff), Last().(tokens := tokens));
    }

    method ReadClock(ghost q: Request, ghost r: ReqId) returns (now: Time)
      requires Valid() && At(r, q) && (q.pc == Start || q.pc.Owned?)
      modifies this`trace
      ensures Valid() && trace == old(trace) + [After(old(Last()), r)] && now == clock
      ensures At(r, q.(pc := if q.pc == Start then Asked(now) else Timed(q.pc.user, now)))
    {
      hide Traced, Inv;
      now := clock;
      Record(Act(r), After(Last(), r));
    }

    method SelectLiveToken(ghost q: Request, token: Token, purpose: Purpose, now: Time, ghost r: ReqId)
      returns (owner: Option<UserId>)
      requires Valid() && At(r, q) && q.pc == Asked(now) && q.token == token && q.purpose == purpose
      modifies this`trace
      ensures Valid() && trace == old(trace) + [After(old(Last()), r)]
      ensures At(r, q.(pc := if owner.Some? then Resolved(owner.value) else Failed))
      ensures owner == if Live(tokens, token, purpose, now) then Some(tokens[token].user) else None
    {
      hide Traced, Inv;
      owner := None;
      if token in tokens && tokens[token].purpose == purpose && tokens[token].usedAt == None
          && tokens[token].expiresAt > now {
        owner := Some(tokens[token].user);
      }
      Record(Act(r), After(Last(), r));
    }

    method SelectActiveUser(ghost q: Request, owner: UserId, client: ClientId, ghost r: ReqId) returns (found: bool)
      requires Valid() && At(r, q) && q.pc == Resolved(owner) && q.client == client
      modifies this`trace
      ensures Valid() && trace == old(trace) + [After(old(Last()), r)]
      ensures At(r, q.(pc := if found then Owned(owner) else Failed))
      ensures found <==> ActiveUserOf(users, owner, client)
    {
      hide Traced, Inv;
      found := owner in users && users[owner].client == client && users[owner].isActive;
      Record(Act(r), After(Last(), r));
    }

    // UPDATE account_tokens SET used_at WHERE hash, purpose, unused and unexpired RETURNING user_id
    method ConsumeAccountToken(ghost q: Request, ghost owner: UserId, token: Token, purpose: Purpose, now: Time,
                               ghost r: ReqId)
      returns (consumed: bool)
      requires Valid() && At(r, q) && q.pc == Timed(owner, now) && q.token == token && q.purpose == purpose
      modifies this
      ensures Valid() && trace == old(trace) + [After(old(Last()), r)]
      ensures consumed <==> Live(old(tokens), token, purpose, now)
      ensures tokens == if consumed then old(tokens)[token := old(tokens)[token].(usedAt := Some(now))] else old(tokens)
      ensures At(r, q.(pc := if consumed then Consumed(owner, now) else Failed))
    {
      hide Traced, Inv;
      consumed := false;
      if token in tokens && tokens[token].purpose == purpose && tokens[token].usedAt == None
          && tokens[token].expiresAt > now {
        tokens := tokens[token := tokens[token].(usedAt := Some(now))];
        consumed := true;
      }
      Record(Act(r), After(Last(), r));
    }

    method UpdateUser(ghost q: Request, owner: UserId, ghost at: Time, purpose: Purpose, password: nat, ghost r: ReqId)
      requires Valid() && At(r, q) && q.pc == Consumed(owner, at) && q.purpose == purpose && q.password == password
      modifies this
      ensures Valid() && trace == old(trace) + [After(old(Last()), r)] && At(r, q.(pc := Done))
      ensures Wrote(old(users), users, owner, purpose, password) && tokens == old(tokens)
      ensures Last().completions == old(Last().completions) + [Completion(q.token, purpose, q.client, owner, at)]
    {
      hide Traced;
      OwnerKnown(q, r);
      hide Inv;
      users := users[owner := if purpose == PasswordReset then users[owner].(password := password, verified := true)
                              else users[owner].(verified := true)];
      Record(Act(r), After(Last(), r));
    }

    lemma OwnerKnown(q: Request, r: ReqId)
      requires Valid() && At(r, q) && q.pc.Consumed?
      ensures q.pc.user in users
    {
      hide TokensInv, CompletionsInv, IsRun;
      assert ReqInv(Last(), r, Last().reqs[r]);
    }

    lemma LastUsers()
      requires Valid()
      ensures trace != [] && Last().users == users
    {
      hide Inv;
    }

    lemma LastCompletion()
      requires Valid() && Last().completions != []
      ensures Rightful(Last(), Last().completions[|Last().completions| - 1])
    {
      hide TokensInv, ReqsInv, Rightful, IsRun;
    }

    // Resolve without consuming, and check the owner.
    method ResolveForClient(token: Token, purpose: Purpose, client: ClientId, ghost password: nat, ghost r: ReqId)
      returns (owner: Option<UserId>)
      requires Valid() && At(r, Present(token, purpose, client, password, Start))
      modifies this
      ensures Valid() && old(trace) <= trace
      ensures At(r, Present(token, purpose, client, password, if owner.Some? then Owned(owner.value) else Failed))
    {
      hide Traced, Inv, Mirrors, After;
      ghost var q := Present(token, purpose, client, password, Start);
      var asked := ReadClock(q, r);
      Yield(r);
      owner := SelectLiveToken(q.(pc := Asked(asked)), token, purpose, asked, r);
      if owner.None? { return; }
      Yield(r);
      var found := SelectActiveUser(q.(pc := Resolved(owner.value)), owner.value, client, r);
      if !found { owner := None; }
    }

    method ConsumeForClient(token: Token, purpose: Purpose, client: ClientId, ghost password: nat, ghost r: ReqId)
      returns (owner: Option<UserId>, ghost at: Time)
      requires Valid() && At(r, Present(token, purpose, client, password, Start))
      modifies this
      ensures Valid() && old(trace) <= trace
      ensures At(r, Present(token, purpose, client, password, if owner.Some? then Consumed(owner.value, at)
                            else Failed))
    {
      hide Traced, Inv, Mirrors, After;
      at := 0;
      owner := ResolveForClient(token, purpose, client, password, r);
      if owner.None? { return; }
      Yield(r);
      ghost var q := Present(token, purpose, client, password, Owned(owner.value));
      var now := ReadClock(q, r);
      at := now;
      Yield(r);
      var consumed := ConsumeAccountToken(q.(pc := Timed(owner.value, now)), owner.value, token, purpose, now, r);
      if !consumed { owner := None; }
    }

    /** POST /auth/password/reset and POST /auth/email/verify, up to the user's own row. */
    method Complete(token: Token, purpose: Purpose, client: ClientId, password: nat, ghost r: ReqId)
      returns (user: Option<UserId>)
      requires Valid() && At(r, Present(token, purpose, client, password, Start))
      modifies this
      ensures Valid() && old(trace) <= trace
      ensures At(r, Present(token, purpose, client, password, if user.Some? then Done else Failed))
      ensures user.Some? ==>
                && Last().completions != []
                && var c := Last().completions[|Last().completions| - 1];
                   c.token == token && c.purpose == purpose && c.client == client && c.user == user.value
                       && Rightful(Last(), c)
      ensures user.Some? ==> |trace| > 1 && Wrote(trace[|trace| - 2].users, users, user.value, purpose, password)
    {
      hide Traced, Inv, Mirrors, After, Rightful;
      ghost var at: Time;
      user, at := ConsumeForClient(token, purpose, client, password, r);
      if user.None? { return; }
      Yield(r);
      LastUsers();
      UpdateUser(Present(token, purpose, client, password, Consumed(user.value, at)), user.value, at, purpose, password,
                 r);
      LastCompletion();
    }
  }
}
