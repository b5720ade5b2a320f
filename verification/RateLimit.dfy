/**
 * The Redis fixed-window rate limiter: one atomic INCR, EXPIRE NX, TTL per request.
 * Arrival times are the store's clock at execution, so they never decrease; a key is
 * live while the clock has not passed its expiry. Redis is available throughout.
 */
module RateLimit {
  import opened Wrappers

  type Key = nat
  type Time = int // milliseconds

  datatype Counter = Counter(count: nat, expiresAt: Option<Time>)
  datatype Arrival = Arrival(key: Key, at: Time)

  // Math.ceil(windowMs / 1000): the least number of seconds that holds the window.
  function WindowSeconds(windowMs: nat): (seconds: nat)
    ensures windowMs <= 1000 * seconds < windowMs + 1000
  {
    (windowMs + 999) / 1000
  }

  function Window(windowMs: nat): (w: Time)
    ensures windowMs <= w < windowMs + 1000 && w % 1000 == 0
  {
    1000 * WindowSeconds(windowMs)
  }

  // ----- The three commands -----

  function Incr(store: map<Key, Counter>, key: Key, now: Time): map<Key, Counter> {
    if key in store && (store[key].expiresAt.None? || now <= store[key].expiresAt.value) then
      store[key := store[key].(count := store[key].count + 1)]
    else store[key := Counter(1, None)]
  }

  function ExpireNx(store: map<Key, Counter>, key: Key, when: Time): map<Key, Counter>
    requires key in store
  {
    if store[key].expiresAt.None? then store[key := store[key].(expiresAt := Some(when))] else store
  }

  function Hit(store: map<Key, Counter>, w: Time, a: Arrival): (r: map<Key, Counter>)
    ensures a.key in r && r[a.key].expiresAt.Some?
    ensures forall k :: k != a.key ==> (k in r <==> k in store) && (k in store ==> r[k] == store[k])
  {
    ExpireNx(Incr(store, a.key, a.at), a.key, a.at + w)
  }

  function Replay(arrivals: seq<Arrival>, w: Time): map<Key, Counter> {
    if arrivals == [] then map[]
    else Hit(Replay(arrivals[..|arrivals| - 1], w), w, arrivals[|arrivals| - 1])
  }

  // The count that INCR returned to the i-th arrival.
  function Current(arrivals: seq<Arrival>, w: Time, i: nat): nat
    requires i < |arrivals|
  {
    Hit(Replay(arrivals[..i], w), w, arrivals[i])[arrivals[i].key].count
  }

  // ----- What it should count: arrivals of one key in one window -----

  predicate InOrder(arrivals: seq<Arrival>) {
    forall i, j :: 0 <= i <= j < |arrivals| ==> arrivals[i].at <= arrivals[j].at
  }

  // The previous arrival with the same key.
  function Previous(arrivals: seq<Arrival>, key: Key, n: nat): (r: Option<nat>)
    requires n <= |arrivals|
    ensures r.Some? ==>
              r.value < n && arrivals[r.value].key == key && forall i :: r.value < i < n ==> arrivals[i].key != key
    ensures r.None? ==> forall i :: 0 <= i < n ==> arrivals[i].key != key
  {
    if n == 0 then None
    else if arrivals[n - 1].key == key then Some(n - 1)
    else Previous(arrivals, key, n - 1)
  }

  // A window opens with an arrival that comes after the key's last window has passed.
  function Opened(arrivals: seq<Arrival>, w: Time, i: nat): Time
    requires i < |arrivals|
  {
    match Previous(arrivals, arrivals[i].key, i)
    case None => arrivals[i].at
    case Some(j) => if arrivals[i].at <= Opened(arrivals, w, j) + w then Opened(arrivals, w, j) else arrivals[i].at
  }

  predicate SameWindow(arrivals: seq<Arrival>, w: Time, i: nat, j: nat)
    requires i < |arrivals| && j < |arrivals|
  {
    arrivals[i].key == arrivals[j].key && Opened(arrivals, w, i) == Opened(arrivals, w, j)
  }

  // Arrivals up to and including i in i's window.
  function Peers(arrivals: seq<Arrival>, w: Time, i: nat): set<nat>
    requires i < |arrivals|
  {
    set j: nat | 0 <= j <= i && SameWindow(arrivals, w, j, i)
  }

  lemma {:induction false} OpenedBefore(arrivals: seq<Arrival>, w: Time, i: nat)
    requires InOrder(arrivals) && 0 <= w && i < |arrivals|
    ensures Opened(arrivals, w, i) <= arrivals[i].at <= Opened(arrivals, w, i) + w
  {
    var p := Previous(arrivals, arrivals[i].key, i);
    if p == None {
    } else {
      OpenedBefore(arrivals, w, p.value);
    }
  }

  // Windows of one key follow each other; different ones are more than w apart.
  lemma {:induction false} WindowsApart(arrivals: seq<Arrival>, w: Time, i: nat, j: nat)
    requires InOrder(arrivals) && 0 <= w && i <= j < |arrivals| && arrivals[i].key == arrivals[j].key
    ensures var s, t := Opened(arrivals, w, i), Opened(arrivals, w, j); s == t || s + w < t
    ensures Opened(arrivals, w, i) < Opened(arrivals, w, j) ==> arrivals[i].at < Opened(arrivals, w, j)
    decreases j
  {
    if i == j {
    } else {
      var p := Previous(arrivals, arrivals[j].key, j);
      assert p.Some? && i <= p.value;
      WindowsApart(arrivals, w, i, p.value);
      OpenedBefore(arrivals, w, i);
      OpenedBefore(arrivals, w, p.value);
    }
  }

  // The arrival that opened i's window.
  lemma {:induction false} Opener(arrivals: seq<Arrival>, w: Time, i: nat) returns (o: nat)
    requires i < |arrivals|
    ensures o <= i && SameWindow(arrivals, w, o, i) && arrivals[o].at == Opened(arrivals, w, i)
  {
    var p := Previous(arrivals, arrivals[i].key, i);
    if p.Some? && arrivals[i].at <= Opened(arrivals, w, p.value) + w { o := Opener(arrivals, w, p.value); }
    else { o := i; }
  }

  // ----- The counter counts exactly that -----

  ghost predicate Tracks(store: map<Key, Counter>, arrivals: seq<Arrival>, w: Time, n: nat, key: Key)
    requires n <= |arrivals|
  {
    match Previous(arrivals, key, n)
    case None => key !in store
    case Some(j) => key in store && store[key] == Counter(|Peers(arrivals, w, j)|, Some(Opened(arrivals, w, j) + w))
  }

  lemma OpenedStep(arrivals: seq<Arrival>, w: Time, p: nat, i: nat)
    requires i < |arrivals| && Previous(arrivals, arrivals[i].key, i) == Some(p)
    ensures var o := Opened(arrivals, w, p); Opened(arrivals, w, i) == if arrivals[i].at <= o + w then o
              else arrivals[i].at
  {
    hide Previous;
  }

  lemma SameGroup(arrivals: seq<Arrival>, w: Time, p: nat, i: nat)
    requires InOrder(arrivals) && 0 <= w && i < |arrivals| && Previous(arrivals, arrivals[i].key, i) == Some(p)
    requires Opened(arrivals, w, i) == Opened(arrivals, w, p)
    ensures |Peers(arrivals, w, i)| == |Peers(arrivals, w, p)| + 1
  {
    hide Previous, Opened, InOrder;
    assert Peers(arrivals, w, i) == Peers(arrivals, w, p) + {i};
  }

  lemma NewGroup(arrivals: seq<Arrival>, w: Time, p: nat, i: nat)
    requires InOrder(arrivals) && 0 <= w && i < |arrivals| && Previous(arrivals, arrivals[i].key, i) == Some(p)
    requires Opened(arrivals, w, i) != Opened(arrivals, w, p)
    ensures |Peers(arrivals, w, i)| == 1
  {
    hide Previous, Opened, InOrder;
    forall j | j in Peers(arrivals, w, i) ensures j == i {
      if j < i { WindowsApart(arrivals, w, j, p); WindowsApart(arrivals, w, p, i); }
    }
    assert Peers(arrivals, w, i) == {i};
  }

  lemma FirstOfKey(arrivals: seq<Arrival>, w: Time, i: nat)
    requires i < |arrivals| && Previous(arrivals, arrivals[i].key, i).None?
    ensures Opened(arrivals, w, i) == arrivals[i].at && |Peers(arrivals, w, i)| == 1
  {
    assert Opened(arrivals, w, i) == arrivals[i].at;
    hide Previous, Opened;
    assert Peers(arrivals, w, i) == {i};
  }

  // INCR on a live counter counts on and keeps its expiry; otherwise a new counter gets one.
  lemma HitCounts(store: map<Key, Counter>, w: Time, a: Arrival)
    requires a.key in store ==> store[a.key].expiresAt.Some?
    ensures Hit(store, w, a)[a.key] ==
            if a.key in store && a.at <= store[a.key].expiresAt.value
                then Counter(store[a.key].count + 1, store[a.key].expiresAt)
            else Counter(1, Some(a.at + w))
  {}

  lemma HitTracks(store: map<Key, Counter>, arrivals: seq<Arrival>, w: Time, i: nat)
    requires InOrder(arrivals) && 0 <= w && i < |arrivals| && Tracks(store, arrivals, w, i, arrivals[i].key)
    ensures Hit(store, w, arrivals[i])[arrivals[i].key] ==
            Counter(|Peers(arrivals, w, i)|, Some(Opened(arrivals, w, i) + w))
  {
    hide InOrder, Previous, Opened, Peers, Hit;
    HitCounts(store, w, arrivals[i]);
    match Previous(arrivals, arrivals[i].key, i)
    case None => FirstOfKey(arrivals, w, i);
    case Some(p) =>
      OpenedStep(arrivals, w, p, i);
      if Opened(arrivals, w, i) == Opened(arrivals, w, p) {
        OpenedOrder(arrivals, w, p, i);
        SameGroup(arrivals, w, p, i);
      } else {
        NewGroup(arrivals, w, p, i);
      }
  }

  // An arrival past its predecessor's window opens later than that window did.
  lemma OpenedOrder(arrivals: seq<Arrival>, w: Time, p: nat, i: nat)
    requires InOrder(arrivals) && 0 <= w && p < i < |arrivals| && arrivals[p].key == arrivals[i].key
    requires Opened(arrivals, w, i) == Opened(arrivals, w, p)
    ensures arrivals[i].at <= Opened(arrivals, w, p) + w
  {
    OpenedBefore(arrivals, w, i);
    hide InOrder, Opened;
  }

  lemma ReplayStep(arrivals: seq<Arrival>, w: Time, n: nat)
    requires 0 < n <= |arrivals|
    ensures Replay(arrivals[..n], w) == Hit(Replay(arrivals[..n - 1], w), w, arrivals[n - 1])
  {
    hide Hit;
    assert arrivals[..n][..n - 1] == arrivals[..n - 1];
  }

  // A hit on another key leaves this key's counter, and its latest arrival, as they were.
  lemma OtherKeyTracks(store: map<Key, Counter>, arrivals: seq<Arrival>, w: Time, i: nat, key: Key)
    requires i < |arrivals| && arrivals[i].key != key && Tracks(store, arrivals, w, i, key)
    ensures Tracks(Hit(store, w, arrivals[i]), arrivals, w, i + 1, key)
  {
    assert Previous(arrivals, key, i + 1) == Previous(arrivals, key, i);
    hide Previous, Opened, Peers, Hit;
  }

  lemma SameKeyTracks(store: map<Key, Counter>, arrivals: seq<Arrival>, w: Time, i: nat)
    requires InOrder(arrivals) && 0 <= w && i < |arrivals| && Tracks(store, arrivals, w, i, arrivals[i].key)
    ensures Tracks(Hit(store, w, arrivals[i]), arrivals, w, i + 1, arrivals[i].key)
  {
    assert Previous(arrivals, arrivals[i].key, i + 1) == Some(i);
    hide Previous, Opened, Peers, Hit, InOrder;
    HitTracks(store, arrivals, w, i);
  }

  lemma {:induction false} ReplayTracks(arrivals: seq<Arrival>, w: Time, n: nat, key: Key)
    requires InOrder(arrivals) && 0 <= w && n <= |arrivals|
    ensures Tracks(Replay(arrivals[..n], w), arrivals, w, n, key)
  {
    hide InOrder, Hit;
    if n == 0 {
    } else {
      hide Tracks, Replay;
      var before := Replay(arrivals[..n - 1], w);
      ReplayStep(arrivals, w, n);
      ReplayTracks(arrivals, w, n - 1, key);
      if arrivals[n - 1].key == key { SameKeyTracks(before, arrivals, w, n - 1); }
      else { OtherKeyTracks(before, arrivals, w, n - 1, key); }
    }
  }

  /**
   * The count an arrival gets is the number of arrivals of its key so far in its window,
   * whatever other keys do in between.
   */
  lemma CurrentCountsTheWindow(arrivals: seq<Arrival>, w: Time, i: nat)
    requires InOrder(arrivals) && 0 <= w && i < |arrivals|
    ensures Current(arrivals, w, i) == |Peers(arrivals, w, i)|
  {
    ReplayTracks(arrivals, w, i, arrivals[i].key);
    HitTracks(Replay(arrivals[..i], w), arrivals, w, i);
  }

  // ----- Bounds -----

  // Arrivals of this key that were let through.
  function Admitted(arrivals: seq<Arrival>, w: Time, max: nat, key: Key): set<nat> {
    set i: nat | 0 <= i < |arrivals| && arrivals[i].key == key && Current(arrivals, w, i) <= max
  }

  lemma Cardinality<T>(a: set<T>, b: set<T>)
    requires a <= b
    ensures |a| <= |b|
  {
    assert b == a + (b - a);
  }

  lemma {:induction false} Largest(s: set<nat>) returns (m: nat)
    requires s != {}
    ensures m in s && forall i :: i in s ==> i <= m
    decreases |s|
  {
    var x :| x in s;
    if s == {x} { m := x; }
    else {
      assert s == {x} + (s - {x});
      var y := Largest(s - {x});
      m := if y < x then x else y;
      assert forall i :: i in s ==> i == x || i in s - {x};
    }
  }

  /** No window of a key lets more than max requests through. */
  lemma WindowBound(arrivals: seq<Arrival>, w: Time, max: nat, key: Key, s: set<nat>)
    requires InOrder(arrivals) && 0 <= w && s <= Admitted(arrivals, w, max, key)
    requires forall i, j :: i in s && j in s ==> SameWindow(arrivals, w, i, j)
    ensures |s| <= max
  {
    if s != {} {
      var m := Largest(s);
      CurrentCountsTheWindow(arrivals, w, m);
      Cardinality(s, Peers(arrivals, w, m));
    }
  }

  // A window that opened before the interval has already spent one admission.
  lemma EarlierWindowBound(arrivals: seq<Arrival>, w: Time, max: nat, key: Key, s: set<nat>, from: Time)
    requires InOrder(arrivals) && 0 <= w && max > 0 && s <= Admitted(arrivals, w, max, key)
    requires forall i, j :: i in s && j in s ==> SameWindow(arrivals, w, i, j)
    requires forall i :: i in s ==> Opened(arrivals, w, i) < from <= arrivals[i].at
    ensures |s| < max
  {
    if s != {} {
      var m := Largest(s);
      var o := Opener(arrivals, w, m);
      CurrentCountsTheWindow(arrivals, w, m);
      assert o !in s;
      Cardinality(s + {o}, Peers(arrivals, w, m));
    }
  }

  function Within(arrivals: seq<Arrival>, s: set<nat>, from: Time, to: Time): set<nat>
    requires forall i :: i in s ==> i < |arrivals|
  {
    set i | i in s && from <= arrivals[i].at <= to
  }

  // Admitted in the interval, in a window that opened before it (early) or inside it.
  function Slice(arrivals: seq<Arrival>, w: Time, max: nat, key: Key, from: Time, early: bool): set<nat> {
    set i | i in Admitted(arrivals, w, max, key) && from <= arrivals[i].at <= from + w
        && (Opened(arrivals, w, i) < from <==> early)
  }

  lemma SliceIsOneWindow(arrivals: seq<Arrival>, w: Time, max: nat, key: Key, from: Time, early: bool)
    requires InOrder(arrivals) && 0 <= w
    ensures var s := Slice(arrivals, w, max, key, from, early); forall i, j :: i in s && j in s ==>
              SameWindow(arrivals, w, i, j)
  {
    hide InOrder, Opened, SameWindow, Current;
    var s := Slice(arrivals, w, max, key, from, early);
    forall i, j | i in s && j in s ensures SameWindow(arrivals, w, i, j) { TwoInside(arrivals, w, i, j, from); }
  }

  lemma SliceBounds(arrivals: seq<Arrival>, w: Time, max: nat, key: Key, from: Time)
    requires InOrder(arrivals) && 0 <= w && max > 0
    ensures |Slice(arrivals, w, max, key, from, true)| < max && |Slice(arrivals, w, max, key, from, false)| <= max
  {
    SliceIsOneWindow(arrivals, w, max, key, from, true);
    SliceIsOneWindow(arrivals, w, max, key, from, false);
    hide InOrder, Opened, SameWindow, Current;
    EarlierWindowBound(arrivals, w, max, key, Slice(arrivals, w, max, key, from, true), from);
    WindowBound(arrivals, w, max, key, Slice(arrivals, w, max, key, from, false));
  }

  /**
   * Over any closed interval one window long, anywhere on the clock, at most 2 * max - 1
   * requests of a key are let through.
   */
  lemma SlidingBound(arrivals: seq<Arrival>, w: Time, max: nat, key: Key, from: Time)
    requires InOrder(arrivals) && 0 <= w && max > 0
    ensures |Within(arrivals, Admitted(arrivals, w, max, key), from, from + w)| <= 2 * max - 1
  {
    SliceBounds(arrivals, w, max, key, from);
    hide InOrder, Opened, Current;
    var early, late := Slice(arrivals, w, max, key, from, true), Slice(arrivals, w, max, key, from, false);
    assert Within(arrivals, Admitted(arrivals, w, max, key), from, from + w) == early + late;
  }

  // Two arrivals of one interval whose windows opened on the same side of its start share a window.
  lemma TwoInside(arrivals: seq<Arrival>, w: Time, i: nat, j: nat, from: Time)
    requires InOrder(arrivals) && 0 <= w && i < |arrivals| && j < |arrivals| && arrivals[i].key == arrivals[j].key
    requires from <= arrivals[i].at <= from + w && from <= arrivals[j].at <= from + w
    requires Opened(arrivals, w, i) < from <==> Opened(arrivals, w, j) < from
    ensures SameWindow(arrivals, w, i, j)
  {
    OpenedBefore(arrivals, w, i);
    OpenedBefore(arrivals, w, j);
    if i <= j { WindowsApart(arrivals, w, i, j); } else { WindowsApart(arrivals, w, j, i); }
    hide InOrder, Opened;
  }

  // The key's arrivals in the window's length that ends with i.
  function Recent(arrivals: seq<Arrival>, w: Time, i: nat): set<nat>
    requires i < |arrivals|
  {
    set j: nat | 0 <= j <= i && arrivals[j].key == arrivals[i].key && arrivals[i].at - w <= arrivals[j].at
  }

  /** Nobody is refused who has not sent more than max requests within one window's length. */
  lemma RefusedOnlyAfterMax(arrivals: seq<Arrival>, w: Time, max: nat, i: nat)
    requires InOrder(arrivals) && 0 <= w && i < |arrivals| && Current(arrivals, w, i) > max
    ensures |Recent(arrivals, w, i)| > max
  {
    CurrentCountsTheWindow(arrivals, w, i);
    PeersAreRecent(arrivals, w, i);
  }

  lemma PeersAreRecent(arrivals: seq<Arrival>, w: Time, i: nat)
    requires InOrder(arrivals) && 0 <= w && i < |arrivals|
    ensures |Peers(arrivals, w, i)| <= |Recent(arrivals, w, i)|
  {
    OpenedBefore(arrivals, w, i);
    forall j | j in Peers(arrivals, w, i) ensures j in Recent(arrivals, w, i) { OpenedBefore(arrivals, w, j); }
    Cardinality(Peers(arrivals, w, i), Recent(arrivals, w, i));
  }

  // ----- The bound is tight -----

  // One arrival opens the window, the rest of its allowance comes at its very end, and
  // a full allowance right after it.
  function Burst(w: Time, max: nat): seq<Arrival> {
    seq(2 * max, i => Arrival(0, if i == 0 then 0 else if i < max then w else w + 1))
  }

  function Interval(lo: nat, hi: nat): (r: set<nat>)
    requires lo <= hi
    ensures |r| == hi - lo && forall i :: i in r <==> lo <= i < hi
  {
    if lo == hi then {} else Interval(lo, hi - 1) + {hi - 1}
  }

  lemma {:induction false} BurstOpened(w: Time, max: nat, i: nat)
    requires w > 0 && max > 0 && i < 2 * max
    ensures Opened(Burst(w, max), w, i) == if i < max then 0 else w + 1
  {
    var a := Burst(w, max);
    if i == 0 {
    } else {
      assert Previous(a, a[i].key, i) == Some(i - 1);
      BurstOpened(w, max, i - 1);
    }
  }

  lemma BurstAdmitted(w: Time, max: nat, i: nat)
    requires w > 0 && max > 0 && i < 2 * max
    ensures i in Admitted(Burst(w, max), w, max, 0)
  {
    var a := Burst(w, max);
    CurrentCountsTheWindow(a, w, i);
    var first := if i < max then 0 else max;
    forall j | j in Peers(a, w, i) ensures j in Interval(first, i + 1) {
      BurstOpened(w, max, j);
      BurstOpened(w, max, i);
    }
    Cardinality(Peers(a, w, i), Interval(first, i + 1));
  }

  /** For every window and every max some arrivals reach the sliding bound. */
  lemma SlidingBoundIsTight(w: Time, max: nat)
    requires w > 0 && max > 0
    ensures InOrder(Burst(w, max))
    ensures |Within(Burst(w, max), Admitted(Burst(w, max), w, max, 0), 1, 1 + w)| == 2 * max - 1
  {
    var a := Burst(w, max);
    var all := Admitted(a, w, max, 0);
    BurstTimes(w, max);
    AdmittedAre(a, w, max, 0);
    hide InOrder, Admitted, Opened, Peers, Current, Burst;
    var inside := Within(a, all, 1, 1 + w);
    forall i: nat ensures i in inside <==> 1 <= i < 2 * max {
      if i < 2 * max { BurstAdmitted(w, max, i); }
    }
    hide Within;
    IsInterval(inside, 1, 2 * max);
  }

  lemma IsInterval(s: set<nat>, lo: nat, hi: nat)
    requires lo <= hi && forall i: nat :: i in s <==> lo <= i < hi
    ensures |s| == hi - lo
  {
    assert s == Interval(lo, hi);
  }

  lemma AdmittedAre(arrivals: seq<Arrival>, w: Time, max: nat, key: Key)
    ensures forall i :: i in Admitted(arrivals, w, max, key) ==> i < |arrivals|
  {}

  lemma BurstTimes(w: Time, max: nat)
    requires w > 0 && max > 0
    ensures var a := Burst(w, max);
            InOrder(a) && |a| == 2 * max && a[0].at == 0 && forall i :: 1 <= i < 2 * max ==> 1 <= a[i].at <= 1 + w
  {}

  // ----- The middleware -----

  class Limiter {
    const windowMs: nat
    const max: nat
    var store: map<Key, Counter>
    ghost var arrivals: seq<Arrival>

    ghost predicate Valid()
      reads this
    {
      && windowMs > 0 && InOrder(arrivals)
      && store == Replay(arrivals, Window(windowMs))
      && forall k :: k in store ==> store[k].expiresAt.Some? // no counter without a TTL
    }

    constructor (windowMs: nat, max: nat)
      requires windowMs > 0
      ensures Valid() && arrivals == [] && this.windowMs == windowMs && this.max == max
    {
      this.windowMs, this.max := windowMs, max;
      store, arrivals := map[], [];
    }

    // MULTI INCR, EXPIRE NX, TTL: a request is let through exactly when its window, this
    // one included, has seen at most max arrivals of its key.
    method Check(key: Key, now: Time) returns (admitted: bool, remaining: nat, resetIn: Time)
      requires Valid() && (arrivals != [] ==> arrivals[|arrivals| - 1].at <= now)
      modifies this
      ensures Valid() && arrivals == old(arrivals) + [Arrival(key, now)]
      ensures var seen := |Peers(arrivals, Window(windowMs), |arrivals| - 1)|;
              && (admitted <==> seen <= max)
              && remaining == (if seen <= max then max - seen else 0)
      ensures now + resetIn == Opened(arrivals, Window(windowMs), |arrivals| - 1) + Window(windowMs)
      ensures 0 <= resetIn <= Window(windowMs)
      ensures !admitted ==> |Recent(arrivals, Window(windowMs), |arrivals| - 1)| > max
    {
      hide Peers, Opened, Replay, Window, InOrder, Recent;
      ghost var before := arrivals;
      ghost var a := Arrival(key, now);
      WindowIsPositive(windowMs);
      Appended(before, Window(windowMs), a);
      IncrKey(key, now);
      ExpireKeyNx(key, now + Window(windowMs));
      arrivals := arrivals + [a];
      var current := store[key].count;
      admitted := current <= max;
      remaining := if max - current > 0 then max - current else 0;
      resetIn := store[key].expiresAt.value - now;
    }

    method IncrKey(key: Key, now: Time)
      modifies this`store
      ensures store == Incr(old(store), key, now)
    {
      if key in store && (store[key].expiresAt.None? || now <= store[key].expiresAt.value) {
        store := store[key := store[key].(count := store[key].count + 1)];
      } else {
        store := store[key := Counter(1, None)];
      }
    }

    method ExpireKeyNx(key: Key, when: Time)
      requires key in store
      modifies this`store
      ensures store == ExpireNx(old(store), key, when)
    {
      if store[key].expiresAt.None? { store := store[key := store[key].(expiresAt := Some(when))]; }
    }
  }

  lemma WindowIsPositive(windowMs: nat)
    ensures 0 <= Window(windowMs)
  {}

  lemma ReplayAppended(before: seq<Arrival>, w: Time, a: Arrival)
    ensures Replay(before + [a], w) == Hit(Replay(before, w), w, a)
  {
    hide Hit;
    assert (before + [a])[..|before|] == before;
  }

  lemma Appended(before: seq<Arrival>, w: Time, a: Arrival)
    requires InOrder(before) && 0 <= w && (before != [] ==> before[|before| - 1].at <= a.at)
    ensures var all := before + [a]; var store := Hit(Replay(before, w), w, a);
            && InOrder(all) && Replay(all, w) == store
            && store[a.key] == Counter(|Peers(all, w, |before|)|, Some(Opened(all, w, |before|) + w))
            && Opened(all, w, |before|) <= a.at <= Opened(all, w, |before|) + w
            && |Peers(all, w, |before|)| <= |Recent(all, w, |before|)|
  {
    var all := before + [a];
    assert InOrder(all);
    assert all[..|before|] == before;
    ReplayAppended(before, w, a);
    hide InOrder, Opened, Peers, Replay, Tracks, Hit, Previous, Recent;
    ReplayTracks(all, w, |before|, a.key);
    HitTracks(Replay(before, w), all, w, |before|);
    OpenedBefore(all, w, |before|);
    PeersAreRecent(all, w, |before|);
  }
}
