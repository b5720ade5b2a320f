/** Sequences of states in which each follows from the one before, for any step relation. */
module Traces {
  ghost predicate Steps<S(!new)>(run: seq<S>, next: (S, S) -> bool) {
    |run| > 0 && forall i :: 0 <= i < |run| - 1 ==> next(run[i], run[i + 1])
  }

  lemma Joined<S(!new)>(a: seq<S>, b: seq<S>, next: (S, S) -> bool)
    requires Steps(a, next) && Steps(b, next) && a[|a| - 1] == b[0]
    ensures var c := a + b[1..]; Steps(c, next) && c[0] == a[0] && c[|c| - 1] == b[|b| - 1]
  {
    var c := a + b[1..];
    forall i | 0 <= i < |c| - 1 ensures next(c[i], c[i + 1]) {
      if i < |a| - 1 { assert next(a[i], a[i + 1]); }
      else { assert next(b[i - |a| + 1], b[i - |a| + 1 + 1]); }
    }
  }

  lemma Extended<S(!new)>(run: seq<S>, s: S, next: (S, S) -> bool)
    requires Steps(run, next) && next(run[|run| - 1], s)
    ensures Steps(run + [s], next)
  {
    var last := run[|run| - 1];
    Joined(run, [last, s], next);
    assert run + [last, s][1..] == run + [s];
  }
}
