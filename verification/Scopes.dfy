/**
 * The two permission checks: the exact and wildcard lookup for signed-in users, and the
 * splitting match for API keys. Strings split at every colon, as JavaScript does.
 */
module Scopes {

  predicate ColonFree(s: string) {
    forall i :: 0 <= i < |s| ==> s[i] != ':'
  }

  function Split(s: string): (parts: seq<string>)
    ensures |parts| >= 1
  {
    if s == "" then [""]
    else
      var rest := Split(s[1..]);
      if s[0] == ':' then [""] + rest else [[s[0]] + rest[0]] + rest[1..]
  }

  function Join(parts: seq<string>): string {
    if parts == [] then "" else if |parts| == 1 then parts[0] else parts[0] + ":" + Join(parts[1..])
  }

  lemma {:induction false} JoinSplit(s: string)
    ensures Join(Split(s)) == s && forall i :: 0 <= i < |Split(s)| ==> ColonFree(Split(s)[i])
  {
    if s == "" {
    } else {
      JoinSplit(s[1..]);
      var rest := Split(s[1..]);
      if s[0] == ':' {
        assert ([""] + rest)[1..] == rest;
      } else {
        assert ([[s[0]] + rest[0]] + rest[1..])[1..] == rest[1..];
        assert s == [s[0]] + s[1..];
      }
    }
  }

  // The first part ends at the first colon.
  lemma {:induction false} SplitFirst(head: string, tail: string)
    requires ColonFree(head)
    ensures Split(head + ":" + tail) == [head] + Split(tail)
  {
    var s := head + ":" + tail;
    if head == "" {
      assert s[1..] == tail;
    } else {
      assert s[1..] == head[1..] + ":" + tail;
      assert ColonFree(head[1..]);
      SplitFirst(head[1..], tail);
      assert [head[0]] + head[1..] == head;
    }
  }

  lemma {:induction false} SplitWhole(s: string)
    requires ColonFree(s)
    ensures Split(s) == [s]
  {
    if s == "" {
    } else {
      assert ColonFree(s[1..]);
      SplitWhole(s[1..]);
      assert [s[0]] + s[1..] == s;
    }
  }

  function Resource(s: string): string {
    Split(s)[0]
  }

  // ----- The checks -----

  predicate RequirePermission(perms: seq<string>, required: string) {
    "*" in perms || required in perms || (Resource(required) + ":*") in perms
  }

  predicate Grants(scope: string, required: string) {
    || scope == "*"
    || scope == required
    || (Resource(scope) == Resource(required) && |Split(scope)| > 1 && Split(scope)[1] == "*")
  }

  predicate HasScope(granted: seq<string>, required: string) {
    exists i :: 0 <= i < |granted| && Grants(granted[i], required)
  }

  lemma WildcardParts(required: string)
    ensures Split(Resource(required) + ":*") == [Resource(required), "*"]
  {
    JoinSplit(required);
    SplitFirst(Resource(required), "*");
    SplitWhole("*");
    assert Resource(required) + ":*" == Resource(required) + ":" + "*";
  }

  /** Whatever a signed-in user is allowed, an API key with the same list is allowed. */
  lemma PermissionImpliesScope(granted: seq<string>, required: string)
    requires RequirePermission(granted, required)
    ensures HasScope(granted, required)
  {
    WildcardParts(required);
    var wildcard := Resource(required) + ":*";
    var i :| 0 <= i < |granted| && (granted[i] == "*" || granted[i] == required || granted[i] == wildcard);
    assert Grants(granted[i], required);
  }

  // ----- Exactly when they agree -----

  // A grant such as "users:*:own": the splitting match reads it as "users:*".
  predicate DeepWildcard(scope: string) {
    |Split(scope)| > 2 && Split(scope)[1] == "*"
  }

  predicate Covered(granted: seq<string>, scope: string) {
    "*" in granted || (Resource(scope) + ":*") in granted
  }

  lemma ShallowWildcard(scope: string)
    requires |Split(scope)| == 2 && Split(scope)[1] == "*"
    ensures scope == Resource(scope) + ":*"
  {
    JoinSplit(scope);
    var parts := Split(scope);
    assert parts[1..] == ["*"];
    assert Join(parts[1..]) == "*";
    assert Join(parts) == parts[0] + ":" + Join(parts[1..]);
    assert ":" + "*" == ":*";
    assert parts[0] + ":" + "*" == parts[0] + (":" + "*");
  }

  lemma AgreeWhenCovered(granted: seq<string>, required: string)
    requires forall g :: g in granted && DeepWildcard(g) ==> Covered(granted, g)
    ensures RequirePermission(granted, required) <==> HasScope(granted, required)
  {
    if RequirePermission(granted, required) { PermissionImpliesScope(granted, required); }
    if HasScope(granted, required) {
      var i :| 0 <= i < |granted| && Grants(granted[i], required);
      var g := granted[i];
      if |Split(g)| == 2 && Split(g)[1] == "*" { ShallowWildcard(g); }
      else if DeepWildcard(g) { assert Covered(granted, g); }
    }
  }

  function Longest(granted: seq<string>): (n: nat)
    ensures forall g :: g in granted ==> |g| <= n
  {
    if granted == [] then 0
    else
      var n := Longest(granted[1..]);
      assert forall g :: g in granted ==> g == granted[0] || g in granted[1..];
      if |granted[0]| > n then |granted[0]| else n
  }

  // A string of this resource that nobody was granted by name.
  function Unlisted(granted: seq<string>, resource: string): (r: string)
    ensures r !in granted
  {
    resource + ":" + seq(Longest(granted), _ => 'x')
  }

  lemma DisagreeWhenUncovered(granted: seq<string>, g: string)
    requires g in granted && DeepWildcard(g) && !Covered(granted, g)
    ensures HasScope(granted, Unlisted(granted, Resource(g)))
    ensures !RequirePermission(granted, Unlisted(granted, Resource(g)))
  {
    var required := Unlisted(granted, Resource(g));
    JoinSplit(g);
    SplitFirst(Resource(g), seq(Longest(granted), _ => 'x'));
    assert Grants(g, required);
  }

  /**
   * For a granted list, the two checks agree on every required string if and only if
   * each of its deep wildcards is covered by "*" or by its resource's plain wildcard.
   */
  lemma ChecksAgreeExactly(granted: seq<string>)
    ensures (forall required :: RequirePermission(granted, required) <==> HasScope(granted, required))
       <==> (forall g :: g in granted && DeepWildcard(g) ==> Covered(granted, g))
  {
    if forall g :: g in granted && DeepWildcard(g) ==> Covered(granted, g) {
      forall required ensures RequirePermission(granted, required) <==> HasScope(granted, required) {
        AgreeWhenCovered(granted, required);
      }
    } else {
      var g :| g in granted && DeepWildcard(g) && !Covered(granted, g);
      DisagreeWhenUncovered(granted, g);
    }
  }

  function Colons(s: string): nat {
    if s == "" then 0 else (if s[0] == ':' then 1 else 0) + Colons(s[1..])
  }

  lemma {:induction false} PartsAreColonsPlusOne(s: string)
    ensures |Split(s)| == Colons(s) + 1
  {
    if s == "" {
    } else {
      PartsAreColonsPlusOne(s[1..]);
    }
  }

  /** In particular they agree when no granted string has more than one colon. */
  lemma OneColonAgrees(granted: seq<string>, required: string)
    requires forall g :: g in granted ==> Colons(g) <= 1
    ensures RequirePermission(granted, required) <==> HasScope(granted, required)
  {
    forall g | g in granted ensures !DeepWildcard(g) { PartsAreColonsPlusOne(g); }
    AgreeWhenCovered(granted, required);
  }

  // ----- The middleware -----

  datatype Principal = User(permissions: seq<string>) | ApiKey(scopes: seq<string>) | Anonymous
  datatype Outcome = Next | Forbidden | Unauthorized

  function Check(principal: Principal, permission: string): Outcome {
    match principal
    case User(perms) => if RequirePermission(perms, permission) then Next else Forbidden
    case ApiKey(scopes) => if HasScope(scopes, permission) then Next else Forbidden
    case Anonymous => Unauthorized
  }

  // What a signed-in user's list must hold, with the split written out.
  predicate ListAllows(perms: seq<string>, required: string) {
    exists g :: g in perms && (g == "*" || g == required || g == Split(required)[0] + ":*")
  }

  // What an API key's list must hold.
  predicate KeyAllows(scopes: seq<string>, required: string) {
    exists g :: g in scopes && (g == "*" || g == required || MatchesSplit(Split(g), Split(required)))
  }

  // The same first part, and "*" for the second.
  predicate MatchesSplit(granted: seq<string>, required: seq<string>) {
    |granted| > 1 && |required| > 0 && granted[0] == required[0] && granted[1] == "*"
  }

  predicate Allows(principal: Principal, required: string) {
    match principal
    case User(perms) => ListAllows(perms, required)
    case ApiKey(scopes) => KeyAllows(scopes, required)
    case Anonymous => false
  }

  function Listed(principal: Principal): seq<string> {
    match principal
    case User(perms) => perms
    case ApiKey(scopes) => scopes
    case Anonymous => []
  }

  /**
   * One check: the user's lookup and the key's match written out, 401 for nobody else
   * than an anonymous caller, and whoever holds the asked string itself or "*" passes.
   */
  lemma CheckExactly(principal: Principal, permission: string)
    ensures Check(principal, permission) == Next <==> Allows(principal, permission)
    ensures Check(principal, permission) == Unauthorized <==> principal == Anonymous
    ensures permission in Listed(principal) || "*" in Listed(principal) ==> Check(principal, permission) == Next
  {
    match principal
    case Anonymous =>
    case User(perms) => assert forall g :: g in perms <==> exists i :: 0 <= i < |perms| && perms[i] == g;
    case ApiKey(scopes) =>
      if Allows(principal, permission) {
        var g :| g in scopes && (g == "*" || g == permission || MatchesSplit(Split(g), Split(permission)));
        var i :| 0 <= i < |scopes| && scopes[i] == g;
        assert Grants(scopes[i], permission);
      }
      if HasScope(scopes, permission) {
        var i :| 0 <= i < |scopes| && Grants(scopes[i], permission);
        assert scopes[i] in scopes;
      }
  }

  /**
   * Lets the request through exactly when the caller's list allows one of the permissions;
   * otherwise answers 403, also to an anonymous caller.
   */
  method RequireAnyPermission(principal: Principal, permissions: seq<string>) returns (outcome: Outcome)
    ensures outcome == Next <==> exists i :: 0 <= i < |permissions| && Allows(principal, permissions[i])
    ensures outcome != Next ==> outcome == Forbidden
    ensures (exists p :: p in permissions && p in Listed(principal)) ==> outcome == Next
  {
    for i := 0 to |permissions|
      invariant forall j :: 0 <= j < i ==> !Allows(principal, permissions[j])
    {
      CheckExactly(principal, permissions[i]);
      if Check(principal, permissions[i]) == Next { return Next; }
    }
    forall p | p in permissions ensures p !in Listed(principal) { CheckExactly(principal, p); }
    outcome := Forbidden;
  }
}
