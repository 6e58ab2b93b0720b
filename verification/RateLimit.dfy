/**
The per-key fixed-window rate limiter (server/internal/ratelimit/ratelimit.go): the
object, the value its methods compute, and what it lets through over any trace.
*/
module RateLimit {
  import opened Options

  type Key = string

  /** A bucket counts from its first event to `reset`, both included. */
  datatype Bucket = Bucket(count: int, reset: int)

  datatype Table = Table(limit: int, window: nat, buckets: map<Key, Bucket>)

  // ----- the operations

  function AllowAt(t: Table, key: Key, now: int): (Table, bool) {
    if t.limit <= 0 then (t, true)
    else if key !in t.buckets || now > t.buckets[key].reset then
      (t.(buckets := t.buckets[key := Bucket(1, now + t.window)]), true)
    else
      var b := t.buckets[key];
      if b.count >= t.limit then (t, false) else (t.(buckets := t.buckets[key := b.(count := b.count + 1)]), true)
  }

  function CleanupAt(t: Table, now: int): Table {
    t.(buckets := map k | k in t.buckets && now <= t.buckets[k].reset :: t.buckets[k])
  }

  class Limiter {
    const limit: int
    const window: nat
    var buckets: map<Key, Bucket>

    function View(): Table
      reads this
    {
      Table(limit, window, buckets)
    }

    constructor (perWindow: int, window: nat)
      ensures View() == Table(perWindow, window, map[])
    {
      this.limit, this.window, buckets := perWindow, window, map[];
    }

    method Allow(key: Key, now: int) returns (ok: bool)
      modifies this
      ensures (View(), ok) == AllowAt(old(View()), key, now)
    {
      if limit <= 0 {
        return true;
      }
      if key !in buckets || now > buckets[key].reset {
        buckets := buckets[key := Bucket(1, now + window)];
        return true;
      }
      var b := buckets[key];
      if b.count >= limit {
        return false;
      }
      buckets := buckets[key := b.(count := b.count + 1)];
      return true;
    }

    method Cleanup(now: int)
      modifies this
      ensures View() == CleanupAt(old(View()), now)
      ensures forall k <- buckets :: now <= buckets[k].reset
      ensures forall k <- old(buckets) :: now <= old(buckets)[k].reset ==> k in buckets && buckets[k] == old(buckets)[k]
      ensures buckets.Keys <= old(buckets).Keys
    {
      var todo := buckets.Keys;
      while todo != {}
        invariant todo <= old(buckets).Keys
        invariant buckets == map k | k in old(buckets) && (k in todo || now <= old(buckets)[k].reset) :: old(buckets)[k]
        decreases |todo|
      {
        var k :| k in todo;
        if now > buckets[k].reset {
          buckets := buckets - {k};
        }
        todo := todo - {k};
      }
    }
  }

  // ----- traces

  datatype Event = Ask(key: Key, at: int) | Clean(at: int)

  predicate Monotone(es: seq<Event>) {
    forall i, j :: 0 <= i < j < |es| ==> es[i].at <= es[j].at
  }

  function Do(t: Table, e: Event): (Table, bool) {
    match e
    case Ask(key, at) => AllowAt(t, key, at)
    case Clean(at) => (CleanupAt(t, at), false)
  }

  function After(t: Table, es: seq<Event>): Table {
    if es == [] then t else Do(After(t, es[..|es| - 1]), es[|es| - 1]).0
  }

  /** The answer to the `i`-th event; an event that asks nothing is not let through. */
  function Answer(t: Table, es: seq<Event>, i: nat): bool
    requires i < |es|
  {
    Do(After(t, es[..i]), es[i]).1
  }

  function New(limit: int, window: nat): Table {
    Table(limit, window, map[])
  }

  // ----- a key's answers depend on its own requests only

  /** The bucket that still counts at `now`. */
  function Live(t: Table, k: Key, now: int): Option<Bucket> {
    if k in t.buckets && now <= t.buckets[k].reset then Some(t.buckets[k]) else None
  }

  predicate Alike(t: Table, u: Table, k: Key, now: int) {
    u.limit == t.limit && u.window == t.window && Live(t, k, now) == Live(u, k, now)
  }

  /** The requests of `key`, without cleanups and other keys. */
  function Own(es: seq<Event>, key: Key): seq<Event> {
    if es == [] then []
    else
      var e := es[|es| - 1];
      Own(es[..|es| - 1], key) + if e.Ask? && e.key == key then [e] else []
  }

  /** What a step does to what `key` will be told later. */
  lemma StepAlike(t: Table, u: Table, key: Key, now: int, e: Event)
    requires Alike(t, u, key, now) && now <= e.at
    ensures if e == Ask(key, e.at) then Do(t, e).1 == Do(u, e).1 && Alike(Do(t, e).0, Do(u, e).0, key, e.at) else Alike(Do(t, e).0, u, key, e.at)
  {
  }

  lemma OwnSnoc(es: seq<Event>, e: Event, key: Key)
    ensures Own(es + [e], key) == if e == Ask(key, e.at) then Own(es, key) + [e] else Own(es, key)
  {
    assert (es + [e])[..|es|] == es;
  }

  lemma AfterSnoc(t: Table, es: seq<Event>, e: Event)
    ensures After(t, es + [e]) == Do(After(t, es), e).0 && Answer(t, es + [e], |es|) == Do(After(t, es), e).1
  {
    assert (es + [e])[..|es|] == es;
  }

  predicate EndsBy(es: seq<Event>, now: int) {
    forall e <- es :: e.at <= now
  }

  lemma EndsBefore(es: seq<Event>)
    requires Monotone(es) && es != []
    ensures Monotone(es[..|es| - 1]) && EndsBy(es[..|es| - 1], es[|es| - 1].at)
  {
    var init := es[..|es| - 1];
    forall x <- init ensures x.at <= es[|es| - 1].at {
      var i :| 0 <= i < |init| && init[i] == x;
      assert es[i].at <= es[|es| - 1].at;
    }
  }

  lemma LaterAlike(t: Table, u: Table, key: Key, now: int, later: int)
    requires Alike(t, u, key, now) && now <= later
    ensures Alike(t, u, key, later)
  {
  }

  lemma {:induction false} OwnTraceAlike(limit: int, window: nat, es: seq<Event>, key: Key, now: int)
    requires Monotone(es) && EndsBy(es, now)
    ensures Alike(After(New(limit, window), es), After(New(limit, window), Own(es, key)), key, now)
    decreases |es|
  {
    if es != [] {
      var init, e := es[..|es| - 1], es[|es| - 1];
      assert es == init + [e] && e in es;
      EndsBefore(es);
      OwnTraceAlike(limit, window, init, key, e.at);
      OwnSnoc(init, e, key);
      AfterSnoc(New(limit, window), init, e);
      AfterSnoc(New(limit, window), Own(init, key), e);
      hide After, Own, Answer, Alike, Monotone;
      var t, u := After(New(limit, window), init), After(New(limit, window), Own(init, key));
      StepAlike(t, u, key, e.at, e);
      LaterAlike(After(New(limit, window), es), After(New(limit, window), Own(es, key)), key, e.at, now);
    }
  }

  /** Cleanups anywhere in the trace, and requests of other keys, change no answer: the
      answer to a request is the one it gets in the trace of its key alone. */
  lemma OwnTraceDecides(limit: int, window: nat, es: seq<Event>, key: Key, at: int)
    requires Monotone(es) && EndsBy(es, at)
    ensures Answer(New(limit, window), es + [Ask(key, at)], |es|) == Answer(New(limit, window), Own(es, key) + [Ask(key, at)], |Own(es, key)|)
  {
    var e := Ask(key, at);
    OwnTraceAlike(limit, window, es, key, at);
    AfterSnoc(New(limit, window), es, e);
    AfterSnoc(New(limit, window), Own(es, key), e);
    StepAlike(After(New(limit, window), es), After(New(limit, window), Own(es, key)), key, at, e);
    hide After, Own, Answer;
  }

  /** A limit that is not positive disables limiting. */
  lemma NoLimitAllowsAll(limit: int, window: nat, es: seq<Event>, i: nat)
    requires limit <= 0 && i < |es| && es[i].Ask?
    ensures Answer(New(limit, window), es, i)
  {
    LimitStays(New(limit, window), es[..i]);
  }

  lemma {:induction false} LimitStays(t: Table, es: seq<Event>)
    ensures After(t, es).limit == t.limit && After(t, es).window == t.window
    decreases |es|
  {
    if es != [] {
      LimitStays(t, es[..|es| - 1]);
    }
  }

  // ----- how much is let through

  function One(b: bool): nat {
    if b then 1 else 0
  }

  /** Requests of `key` let through at times from `from` to `to`. */
  function Through(t: Table, es: seq<Event>, key: Key, from: int, to: int): nat {
    if es == [] then 0
    else
      var n, e := |es| - 1, es[|es| - 1];
      Through(t, es[..n], key, from, to) + One(e.Ask? && e.key == key && Answer(t, es, n) && from <= e.at <= to)
  }

  lemma ThroughSnoc(t: Table, es: seq<Event>, e: Event, key: Key, from: int, to: int)
    ensures Through(t, es + [e], key, from, to)
         == Through(t, es, key, from, to) + One(e.Ask? && e.key == key && Do(After(t, es), e).1 && from <= e.at <= to)
  {
    assert (es + [e])[..|es|] == es;
  }

  /** As many as in the trace of the key alone. */
  lemma {:induction false} OwnThrough(limit: int, window: nat, es: seq<Event>, key: Key, from: int, to: int)
    requires Monotone(es)
    ensures Through(New(limit, window), es, key, from, to) == Through(New(limit, window), Own(es, key), key, from, to)
    decreases |es|
  {
    if es != [] {
      var t, init, e := New(limit, window), es[..|es| - 1], es[|es| - 1];
      assert es == init + [e];
      OwnThrough(limit, window, init, key, from, to);
      ThroughSnoc(t, init, e, key, from, to);
      ThroughSnoc(t, Own(init, key), e, key, from, to);
      OwnSnoc(init, e, key);
      EndsBefore(es);
      OwnTraceAlike(limit, window, init, key, e.at);
      StepAlike(After(t, init), After(t, Own(init, key)), key, e.at, e);
      hide After, Own, Through;
    }
  }

  /** The state after requests of `key` alone, `n` of which were let through at times from
      `a` to `a + window`: which bucket they can be in. */
  predicate Window(t: Table, key: Key, a: int, now: int, n: nat) {
    && (now < a ==> n == 0)
    && (key !in t.buckets ==> n == 0)
    && (key in t.buckets ==>
          var b := t.buckets[key];
          var start := b.reset - t.window;
          && 1 <= b.count <= t.limit && start <= now
          && (if start < a then n <= b.count - 1
              else if start <= a + t.window then n <= t.limit - 1 + b.count
              else n <= 2 * t.limit - 1))
  }

  lemma WindowStep(t: Table, key: Key, a: int, now: int, n: nat, at: int)
    requires t.limit > 0 && Window(t, key, a, now, n) && now <= at
    ensures var r := AllowAt(t, key, at); Window(r.0, key, a, at, n + One(r.1 && a <= at <= a + t.window))
  {
  }

  lemma {:induction false} WindowHolds(limit: int, window: nat, es: seq<Event>, key: Key, a: int, now: int)
    requires limit > 0 && Monotone(es) && EndsBy(es, now) && forall e <- es :: e.Ask? && e.key == key
    ensures Window(After(New(limit, window), es), key, a, now, Through(New(limit, window), es, key, a, a + window))
    decreases |es|
  {
    if es != [] {
      var t, init, e := New(limit, window), es[..|es| - 1], es[|es| - 1];
      assert es == init + [e];
      assert e in es && forall x <- init :: x in es;
      EndsBefore(es);
      WindowHolds(limit, window, init, key, a, e.at);
      LimitStays(t, init);
      ThroughSnoc(t, init, e, key, a, a + window);
      AfterSnoc(t, init, e);
      WindowStep(After(t, init), key, a, e.at, Through(t, init, key, a, a + window), e.at);
      hide After, Through;
      LaterWindow(Do(After(t, init), e).0, key, a, e.at, now, Through(t, es, key, a, a + window));
    }
  }

  lemma LaterWindow(t: Table, key: Key, a: int, now: int, later: int, n: nat)
    requires Window(t, key, a, now, n) && now <= later
    ensures Window(t, key, a, later, n)
  {
  }

  lemma {:induction false} OwnIsOwn(es: seq<Event>, key: Key)
    requires Monotone(es)
    ensures Monotone(Own(es, key)) && forall e <- Own(es, key) :: e.Ask? && e.key == key && e in es
    decreases |es|
  {
    if es != [] {
      EndsBefore(es);
      var init, e := es[..|es| - 1], es[|es| - 1];
      OwnIsOwn(init, key);
      assert e in es && forall x <- init :: x in es && x.at <= e.at;
      var own := Own(init, key);
      assert forall i :: 0 <= i < |own| ==> own[i] in own;
    }
  }

  /** Over any monotone trace, and any closed interval as long as the window, fewer than
      twice the limit are let through. */
  lemma AtMostTwiceLessOne(limit: int, window: nat, es: seq<Event>, key: Key, a: int)
    requires limit > 0 && Monotone(es)
    ensures Through(New(limit, window), es, key, a, a + window) <= 2 * limit - 1
  {
    OwnThrough(limit, window, es, key, a, a + window);
    OwnIsOwn(es, key);
    var own := Own(es, key);
    if own == [] {
      return;
    }
    var now := own[|own| - 1].at;
    forall e <- own ensures e.at <= now {
      var i :| 0 <= i < |own| && own[i] == e;
      assert i < |own| - 1 ==> own[i].at <= own[|own| - 1].at;
    }
    WindowHolds(limit, window, own, key, a, now);
    LimitStays(New(limit, window), own);
    hide After, Own, Through;
  }

  function Repeated(e: Event, n: nat): seq<Event> {
    seq(n, i => e)
  }

  /** After `es` the bucket of `key` is `b`, and `n` requests got through in time. */
  predicate Stands(t: Table, es: seq<Event>, key: Key, b: Bucket, from: int, to: int, n: nat) {
    var u := After(t, es);
    u.limit == t.limit && u.window == t.window && key in u.buckets && u.buckets[key] == b && Through(t, es, key, from, to) == n
  }

  lemma OneFits(t: Table, es: seq<Event>, key: Key, b: Bucket, from: int, to: int, n: nat, at: int)
    requires Stands(t, es, key, b, from, to, n) && t.limit > 0 && from <= at <= to && b.count < t.limit && at <= b.reset
    ensures Stands(t, es + [Ask(key, at)], key, Bucket(b.count + 1, b.reset), from, to, n + 1)
  {
    AfterSnoc(t, es, Ask(key, at));
    ThroughSnoc(t, es, Ask(key, at), key, from, to);
    hide After, Through;
  }

  /** As many requests at one time as a bucket has room for are all let through. */
  lemma {:induction false} BurstPasses(t: Table, es: seq<Event>, key: Key, b: Bucket, from: int, to: int, n: nat, at: int, m: nat)
    requires Stands(t, es, key, b, from, to, n) && t.limit > 0 && from <= at <= to && b.count + m <= t.limit && at <= b.reset
    ensures Stands(t, es + Repeated(Ask(key, at), m), key, Bucket(b.count + m, b.reset), from, to, n + m)
    decreases m
  {
    var e := Ask(key, at);
    if m == 0 {
      assert es + Repeated(e, m) == es;
    } else {
      BurstPasses(t, es, key, b, from, to, n, at, m - 1);
      var init := es + Repeated(e, m - 1);
      assert es + Repeated(e, m) == init + [e];
      hide Stands;
      OneFits(t, init, key, Bucket(b.count + m - 1, b.reset), from, to, n + m - 1, at);
    }
  }

  /** The requests that come closest: one early, as many as still fit when its bucket
      ends, and a full bucket right after. */
  function Tight(key: Key, limit: nat, window: nat): seq<Event>
    requires limit > 0
  {
    [Ask(key, 0)] + Repeated(Ask(key, window), limit - 1) + [Ask(key, window + 1)] + Repeated(Ask(key, window + 1), limit - 1)
  }

  lemma TightMonotone(key: Key, limit: nat, window: nat)
    requires limit > 0
    ensures Monotone(Tight(key, limit, window))
  {
  }

  /** The bound is reached, for every limit and every window but the empty one. */
  lemma BoundIsReached(key: Key, limit: nat, window: nat)
    requires limit > 0 && window > 0
    ensures Monotone(Tight(key, limit, window)) && Through(New(limit, window), Tight(key, limit, window), key, window, 2 * window) == 2 * limit - 1
  {
    TightMonotone(key, limit, window);
    hide Monotone;
    var t, to := New(limit, window), 2 * window;
    var es1 := [Ask(key, 0)];
    assert Stands(t, es1, key, Bucket(1, window), window, to, 0) by {
      assert [] + es1 == es1;
      AfterSnoc(t, [], Ask(key, 0));
      ThroughSnoc(t, [], Ask(key, 0), key, window, to);
    }
    hide After, Through;
    BurstPasses(t, es1, key, Bucket(1, window), window, to, 0, window, limit - 1);
    var es2 := es1 + Repeated(Ask(key, window), limit - 1);
    var es3 := es2 + [Ask(key, window + 1)];
    AfterSnoc(t, es2, Ask(key, window + 1));
    ThroughSnoc(t, es2, Ask(key, window + 1), key, window, to);
    assert Stands(t, es3, key, Bucket(1, 2 * window + 1), window, to, limit);
    BurstPasses(t, es3, key, Bucket(1, 2 * window + 1), window, to, limit, window + 1, limit - 1);
  }

  // ----- when a window's limit is the limit

  /** The limit that the comments promise, over every trace, key and interval. */
  ghost predicate LimitHolds(limit: int, window: nat) {
    forall es, key, a :: Keeps(limit, window, es, key, a)
  }

  predicate Keeps(limit: int, window: nat, es: seq<Event>, key: Key, a: int) {
    Monotone(es) ==> Through(New(limit, window), es, key, a, a + window) <= limit
  }

  /** With a window of zero: of what was let through at `a` itself, the live bucket knows. */
  predicate Instant(t: Table, key: Key, a: int, now: int, n: nat) {
    && n <= t.limit
    && (now < a ==> n == 0)
    && (now == a ==> n <= if Live(t, key, now).Some? then Live(t, key, now).value.count else 0)
    && (Live(t, key, now).Some? ==> 1 <= Live(t, key, now).value.count <= t.limit)
  }

  lemma InstantStep(t: Table, key: Key, a: int, now: int, n: nat, e: Event)
    requires t.limit > 0 && Instant(t, key, a, now, n) && now <= e.at
    ensures Instant(Do(t, e).0, key, a, e.at, n + One(e.Ask? && e.key == key && Do(t, e).1 && a <= e.at <= a))
  {
  }

  lemma {:induction false} InstantHolds(limit: int, es: seq<Event>, key: Key, a: int)
    requires limit > 0 && Monotone(es) && es != []
    ensures Instant(After(New(limit, 0), es), key, a, es[|es| - 1].at, Through(New(limit, 0), es, key, a, a))
    decreases |es|
  {
    var t, init, e := New(limit, 0), es[..|es| - 1], es[|es| - 1];
    assert es == init + [e];
    EndsBefore(es);
    var now := if init == [] then e.at else init[|init| - 1].at;
    if init != [] {
      InstantHolds(limit, init, key, a);
      assert init[|init| - 1] in init;
    }
    LimitStays(t, init);
    hide After, Through, Monotone, EndsBy;
    AfterSnoc(t, init, e);
    ThroughSnoc(t, init, e, key, a, a);
    hide Instant;
    InstantStep(After(t, init), key, a, now, Through(t, init, key, a, a), e);
  }

  /** The promise is kept exactly for a limit of one and for an empty window; for every
      other configuration some trace breaks it. */
  lemma LimitHoldsIff(limit: int, window: nat)
    requires limit > 0
    ensures LimitHolds(limit, window) <==> limit == 1 || window == 0
  {
    if limit == 1 || window == 0 {
      forall es, key, a ensures Keeps(limit, window, es, key, a) {
        if Monotone(es) {
          KeepsThere(limit, window, es, key, a);
        }
      }
    } else {
      BoundIsReached("", limit, window);
      hide Through, Monotone, Tight;
      assert !Keeps(limit, window, Tight("", limit, window), "", window);
    }
  }

  lemma KeepsThere(limit: int, window: nat, es: seq<Event>, key: Key, a: int)
    requires limit > 0 && (limit == 1 || window == 0) && Monotone(es)
    ensures Through(New(limit, window), es, key, a, a + window) <= limit
  {
    hide After, Monotone;
    if limit == 1 {
      AtMostTwiceLessOne(limit, window, es, key, a);
    } else if es != [] {
      InstantHolds(limit, es, key, a);
      LimitStays(New(limit, 0), es);
      hide Through;
    }
  }

  // ----- when one interval keeps to the limit

  /** The `i`-th event is a request of `key` that was let through. */
  predicate Passed(t: Table, es: seq<Event>, key: Key, i: nat)
    requires i < |es|
  {
    es[i].Ask? && es[i].key == key && Answer(t, es, i)
  }

  /** The `i`-th event is a request of `key` that opens a bucket. */
  predicate Opens(t: Table, es: seq<Event>, key: Key, i: nat)
    requires i < |es|
  {
    es[i].Ask? && es[i].key == key && Live(After(t, es[..i]), key, es[i].at).None?
  }

  /** In the interval a request is let through and a later one opens a bucket: the
      interval straddles the end of a window. */
  ghost predicate Straddles(t: Table, es: seq<Event>, key: Key, a: int) {
    exists i, j :: 0 <= i < j < |es| && Passed(t, es, key, i) && a <= es[i].at && Opens(t, es, key, j) && es[j].at <= a + t.window
  }

  predicate Aligned(t: Table, key: Key, a: int, now: int, n: nat) {
    var b := Live(t, key, now);
    && n <= t.limit
    && (now < a ==> n == 0)
    && (b.Some? ==> 1 <= b.value.count <= t.limit && b.value.reset - t.window <= now)
    && (b.Some? && b.value.reset - t.window <= a + t.window ==> n <= b.value.count)
  }

  lemma AlignedStep(t: Table, key: Key, a: int, now: int, n: nat, e: Event)
    requires t.limit > 0 && Aligned(t, key, a, now, n) && now <= e.at
    requires e == Ask(key, e.at) && Live(t, key, e.at).None? && a <= e.at <= a + t.window ==> n == 0
    ensures Aligned(Do(t, e).0, key, a, e.at, n + One(e.Ask? && e.key == key && Do(t, e).1 && a <= e.at <= a + t.window))
  {
  }

  /** What was let through in an interval was let through by some event in it. */
  lemma {:induction false} ThroughWitness(t: Table, es: seq<Event>, key: Key, from: int, to: int) returns (i: nat)
    requires Through(t, es, key, from, to) > 0
    ensures i < |es| && Passed(t, es, key, i) && from <= es[i].at
    decreases |es|
  {
    var init, e := es[..|es| - 1], es[|es| - 1];
    if Through(t, init, key, from, to) > 0 {
      i := ThroughWitness(t, init, key, from, to);
      assert init[..i] == es[..i];
    } else {
      i := |es| - 1;
    }
  }

  lemma PrefixStraddles(t: Table, es: seq<Event>, key: Key, a: int)
    requires es != [] && Straddles(t, es[..|es| - 1], key, a)
    ensures Straddles(t, es, key, a)
  {
    var init := es[..|es| - 1];
    var i, j :| 0 <= i < j < |init| && Passed(t, init, key, i) && a <= init[i].at && Opens(t, init, key, j) && init[j].at <= a + t.window;
    assert init[..i] == es[..i] && init[..j] == es[..j];
    assert Passed(t, es, key, i) && Opens(t, es, key, j);
  }

  lemma {:induction false} AlignedHolds(limit: int, window: nat, es: seq<Event>, key: Key, a: int)
    requires limit > 0 && Monotone(es) && es != [] && !Straddles(New(limit, window), es, key, a)
    ensures Aligned(After(New(limit, window), es), key, a, es[|es| - 1].at, Through(New(limit, window), es, key, a, a + window))
    decreases |es|
  {
    var t, init := New(limit, window), es[..|es| - 1];
    EndsBefore(es);
    LimitStays(t, init);
    if init == [] {
      AlignedAtFirst(t, key, a, es[0].at);
      AlignedSnoc(t, es, key, a, es[0].at);
    } else {
      assert init[|init| - 1] in init;
      NotYetStraddling(t, es, key, a);
      AlignedHolds(limit, window, init, key, a);
      AlignedSnoc(t, es, key, a, init[|init| - 1].at);
    }
    hide *;
  }

  lemma NotYetStraddling(t: Table, es: seq<Event>, key: Key, a: int)
    requires es != [] && !Straddles(t, es, key, a)
    ensures !Straddles(t, es[..|es| - 1], key, a)
  {
    if Straddles(t, es[..|es| - 1], key, a) {
      PrefixStraddles(t, es, key, a);
    }
  }

  lemma AlignedAtFirst(t: Table, key: Key, a: int, now: int)
    requires t.limit > 0 && t.buckets == map[]
    ensures Aligned(After(t, []), key, a, now, Through(t, [], key, a, a + t.window))
  {
  }

  lemma AlignedSnoc(t: Table, es: seq<Event>, key: Key, a: int, now: int)
    requires es != [] && !Straddles(t, es, key, a) && t.limit > 0 && now <= es[|es| - 1].at
    requires After(t, es[..|es| - 1]).limit == t.limit && After(t, es[..|es| - 1]).window == t.window
    requires Aligned(After(t, es[..|es| - 1]), key, a, now, Through(t, es[..|es| - 1], key, a, a + t.window))
    ensures Aligned(After(t, es), key, a, es[|es| - 1].at, Through(t, es, key, a, a + t.window))
  {
    var init, e := es[..|es| - 1], es[|es| - 1];
    assert es == init + [e];
    AfterSnoc(t, init, e);
    ThroughSnoc(t, init, e, key, a, a + t.window);
    if Opens(t, es, key, |init|) && e.at <= a + t.window {
      FirstOpens(t, es, key, a);
    }
    hide After, Through, Aligned, Straddles;
    AlignedStep(After(t, init), key, a, now, Through(t, init, key, a, a + t.window), e);
  }

  /** Nothing was let through in the interval before a request in it opens a bucket. */
  lemma FirstOpens(t: Table, es: seq<Event>, key: Key, a: int)
    requires es != [] && !Straddles(t, es, key, a) && Opens(t, es, key, |es| - 1) && es[|es| - 1].at <= a + t.window
    ensures Through(t, es[..|es| - 1], key, a, a + t.window) == 0
  {
    var init := es[..|es| - 1];
    if Through(t, init, key, a, a + t.window) > 0 {
      var i := ThroughWitness(t, init, key, a, a + t.window);
      assert init[..i] == es[..i];
      assert Passed(t, es, key, i);
    }
  }

  /** An interval as long as the window keeps to the limit unless it straddles. */
  lemma OnlyStraddlingExceeds(limit: int, window: nat, es: seq<Event>, key: Key, a: int)
    requires limit > 0 && Monotone(es) && !Straddles(New(limit, window), es, key, a)
    ensures Through(New(limit, window), es, key, a, a + window) <= limit
  {
    if es != [] {
      AlignedHolds(limit, window, es, key, a);
      LimitStays(New(limit, window), es);
    }
  }

  // ----- exactly who is refused, told from the trace

  /** The last request of `key` that opened a bucket: the first one, and then each that
      comes more than a window after the last such. */
  function LastOpening(es: seq<Event>, key: Key, window: nat): Option<nat> {
    if es == [] then None
    else
      var e, before := es[|es| - 1], LastOpening(es[..|es| - 1], key, window);
      if e.Ask? && e.key == key && (before.None? || before.value >= |es| || e.at > es[before.value].at + window) then Some(|es| - 1) else before
  }

  lemma {:induction false} LastOpeningIn(es: seq<Event>, key: Key, window: nat)
    ensures var o := LastOpening(es, key, window); o.Some? ==> o.value < |es| && es[o.value] == Ask(key, es[o.value].at)
    ensures LastOpening(es, key, window).None? <==> forall e <- es :: e != Ask(key, e.at)
  {
    if es != [] {
      var init, e := es[..|es| - 1], es[|es| - 1];
      LastOpeningIn(init, key, window);
      assert es == init + [e];
      assert e in es && forall x <- init :: x in es;
    }
  }

  /** How many requests of `key` were let through from event `from` on. */
  function PassedSince(t: Table, es: seq<Event>, key: Key, from: nat): nat {
    if |es| <= from then 0
    else PassedSince(t, es[..|es| - 1], key, from) + One(es[|es| - 1].Ask? && es[|es| - 1].key == key && Answer(t, es, |es| - 1))
  }

  lemma PassedSinceSnoc(t: Table, es: seq<Event>, e: Event, key: Key, from: nat)
    requires from <= |es|
    ensures PassedSince(t, es + [e], key, from) == PassedSince(t, es, key, from) + One(e.Ask? && e.key == key && Do(After(t, es), e).1)
  {
    assert (es + [e])[..|es|] == es;
  }

  lemma LastOpeningSnoc(es: seq<Event>, e: Event, key: Key, window: nat)
    ensures
      var o := LastOpening(es, key, window);
      LastOpening(es + [e], key, window) ==
        if e == Ask(key, e.at) && (o.None? || o.value >= |es| || e.at > es[o.value].at + window) then Some(|es|) else o
  {
    assert (es + [e])[..|es|] == es;
    LastOpeningIn(es, key, window);
  }

  /** What the trace says the live bucket of `key` is. */
  function Told(limit: int, window: nat, es: seq<Event>, key: Key, now: int): Option<Bucket> {
    var o := LastOpening(es, key, window);
    if o.None? || o.value >= |es| || now > es[o.value].at + window then None
    else Some(Bucket(PassedSince(New(limit, window), es, key, o.value), es[o.value].at + window))
  }

  /** What one event makes of the live bucket `b` of `key`. */
  function Moved(b: Option<Bucket>, limit: int, window: nat, mine: bool, at: int, later: int): Option<Bucket> {
    var c := if !mine then b
             else if b.None? then Some(Bucket(1, at + window))
             else if b.value.count < limit then Some(b.value.(count := b.value.count + 1))
             else b;
    if c.None? || later > c.value.reset then None else c
  }

  lemma LiveStep(t: Table, key: Key, e: Event, later: int)
    requires t.limit > 0 && e.at <= later
    ensures
      var b, mine := Live(t, key, e.at), e == Ask(key, e.at);
      && (mine ==> (Do(t, e).1 <==> b.None? || b.value.count < t.limit))
      && Live(Do(t, e).0, key, later) == Moved(b, t.limit, t.window, mine, e.at, later)
  {
  }

  lemma ToldMoves(limit: int, window: nat, es: seq<Event>, e: Event, key: Key, later: int)
    requires limit > 0 && e.at <= later
    requires
      var b := Told(limit, window, es, key, e.at);
      e == Ask(key, e.at) ==> (Do(After(New(limit, window), es), e).1 <==> b.None? || b.value.count < limit)
    ensures Told(limit, window, es + [e], key, later) == Moved(Told(limit, window, es, key, e.at), limit, window, e == Ask(key, e.at), e.at, later)
  {
    var t, o, more := New(limit, window), LastOpening(es, key, window), es + [e];
    LastOpeningSnoc(es, e, key, window);
    LastOpeningIn(es, key, window);
    hide After, LastOpening, PassedSince, Do;
    if e == Ask(key, e.at) && (o.None? || e.at > es[o.value].at + window) {
      SinceNow(t, es, key);
      PassedSinceSnoc(t, es, e, key, |es|);
      assert more[|es|] == e;
    } else if o.Some? {
      PassedSinceSnoc(t, es, e, key, o.value);
      assert more[o.value] == es[o.value];
    }
  }

  lemma SinceNow(t: Table, es: seq<Event>, key: Key)
    ensures PassedSince(t, es, key, |es|) == 0
  {
  }

  predicate Within(b: Option<Bucket>, limit: int) {
    b.Some? ==> 1 <= b.value.count <= limit
  }

  lemma ToldStep(limit: int, window: nat, es: seq<Event>, e: Event, key: Key, later: int)
    requires limit > 0 && After(New(limit, window), es).limit == limit && After(New(limit, window), es).window == window && e.at <= later
    requires Live(After(New(limit, window), es), key, e.at) == Told(limit, window, es, key, e.at) && Within(Told(limit, window, es, key, e.at), limit)
    ensures Live(After(New(limit, window), es + [e]), key, later) == Told(limit, window, es + [e], key, later)
    ensures Within(Told(limit, window, es + [e], key, later), limit)
  {
    hide After, Told, Do, Live;
    var u := After(New(limit, window), es);
    AfterSnoc(New(limit, window), es, e);
    LiveStep(u, key, e, later);
    ToldMoves(limit, window, es, e, key, later);
  }

  lemma {:induction false} LiveIsTold(limit: int, window: nat, es: seq<Event>, key: Key, now: int)
    requires limit > 0 && Monotone(es) && EndsBy(es, now)
    ensures Live(After(New(limit, window), es), key, now) == Told(limit, window, es, key, now)
    ensures Within(Told(limit, window, es, key, now), limit)
    decreases |es|
  {
    if es != [] {
      var init, e := es[..|es| - 1], es[|es| - 1];
      assert es == init + [e] && e in es;
      EndsBefore(es);
      LimitStays(New(limit, window), init);
      hide After, Told, Live, Monotone, EndsBy, Within;
      LiveIsTold(limit, window, init, key, e.at);
      ToldStep(limit, window, init, e, key, now);
    }
  }

  /** A request is refused if and only if the limit is positive, the last opening of its
      key is at most a window ago, and as many as the limit were let through since. */
  lemma RefusedIff(limit: int, window: nat, es: seq<Event>, key: Key, at: int)
    requires Monotone(es) && EndsBy(es, at)
    ensures
      var o := LastOpening(es, key, window);
      !Answer(New(limit, window), es + [Ask(key, at)], |es|) <==>
        limit > 0 && o.Some? && o.value < |es| && at <= es[o.value].at + window && PassedSince(New(limit, window), es, key, o.value) == limit
  {
    var t := New(limit, window);
    AfterSnoc(t, es, Ask(key, at));
    LimitStays(t, es);
    if limit > 0 {
      LiveIsTold(limit, window, es, key, at);
      LastOpeningIn(es, key, window);
      LiveStep(After(t, es), key, Ask(key, at), at);
    }
    hide After, LastOpening, PassedSince, Live;
  }

  /** What opens a bucket is let through. */
  lemma {:induction false} OpeningPasses(limit: int, window: nat, es: seq<Event>, key: Key)
    requires Monotone(es) && LastOpening(es, key, window).Some?
    ensures LastOpening(es, key, window).value < |es| && Answer(New(limit, window), es, LastOpening(es, key, window).value)
    decreases |es|
  {
    var init, e := es[..|es| - 1], es[|es| - 1];
    assert es == init + [e];
    EndsBefore(es);
    LastOpeningIn(init, key, window);
    LastOpeningSnoc(init, e, key, window);
    if LastOpening(es, key, window) == Some(|init|) {
      RefusedIff(limit, window, init, key, e.at);
    } else {
      OpeningPasses(limit, window, init, key);
      var o := LastOpening(init, key, window).value;
      assert es[..o] == init[..o];
    }
    hide After, PassedSince;
  }

  /** So whoever has been let through nothing for more than a window is let through. */
  lemma LateIsAllowed(limit: int, window: nat, es: seq<Event>, key: Key, at: int)
    requires Monotone(es) && EndsBy(es, at)
    requires forall i :: 0 <= i < |es| && Passed(New(limit, window), es, key, i) ==> at > es[i].at + window
    ensures Answer(New(limit, window), es + [Ask(key, at)], |es|)
  {
    RefusedIff(limit, window, es, key, at);
    var o := LastOpening(es, key, window);
    if o.Some? {
      LastOpeningIn(es, key, window);
      OpeningPasses(limit, window, es, key);
      assert Passed(New(limit, window), es, key, o.value);
    }
    hide After, LastOpening, PassedSince, Answer;
  }
}
