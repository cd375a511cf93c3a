/** The sliding-window request limiter: one bucket of accepted call times per key, at most `max` buckets,
    the least recently used one evicted. Proved against the full log of accepted calls. */
module RateLimiter {
  import opened Common

  type Key = string

  const WINDOW: real := 60.0

  /** `order` lists the keys from least to most recently used. */
  datatype Limiter = Limiter(order: seq<Key>, buckets: map<Key, seq<real>>)

  const EMPTY := Limiter([], map[])

  function Without(order: seq<Key>, k: Key): seq<Key>
  {
    if order == [] then []
    else Without(order[..|order| - 1], k) + (if order[|order| - 1] == k then [] else [order[|order| - 1]])
  }

  /** Times at or before the cutoff leave from the front. */
  function Pruned(es: seq<real>, cutoff: real): seq<real>
  {
    if es != [] && es[0] <= cutoff then Pruned(es[1..], cutoff) else es
  }

  /** The key that loses its bucket when `k` calls, if any. */
  function Evicts(l: Limiter, max: nat, k: Key): set<Key>
  {
    if k !in l.buckets && |l.order| >= max && l.order != [] then {l.order[0]} else {}
  }

  /** Make room, then put the key last. */
  function Touched(l: Limiter, max: nat, k: Key): Limiter
  {
    if k in l.buckets then l.(order := Without(l.order, k) + [k])
    else
      var kept := if Evicts(l, max, k) != {} then Limiter(l.order[1..], l.buckets - {l.order[0]}) else l;
      Limiter(kept.order + [k], kept.buckets[k := []])
  }

  function Allow(l: Limiter, max: nat, k: Key, limit: int, now: real): (Limiter, bool)
  {
    var t := Touched(l, max, k);
    var es := Pruned(if k in t.buckets then t.buckets[k] else [], now - WINDOW);
    if |es| >= limit then (t.(buckets := t.buckets[k := es]), false)
    else (t.(buckets := t.buckets[k := es + [now]]), true)
  }

  class RequestLimiter {
    const max: nat
    var order: seq<Key>
    var buckets: map<Key, seq<real>>

    ghost function View(): Limiter reads this { Limiter(order, buckets) }

    constructor (m: nat)
      ensures max == m && View() == EMPTY
    {
      max, order, buckets := m, [], map[];
    }

    /** Move-to-end of a key, in place of an ordered map's own operation. */
    method MoveToEnd(k: Key)
      modifies this`order
      ensures order == Without(old(order), k) + [k]
    {
      var kept: seq<Key> := [];
      for i := 0 to |order|
        invariant order == old(order) && kept == Without(order[..i], k)
      {
        assert order[..i + 1][..i] == order[..i];
        if order[i] != k { kept := kept + [order[i]]; }
      }
      assert order[..|order|] == order;
      order := kept + [k];
    }

    method Call(k: Key, limit: int, now: real) returns (allowed: bool)
      requires max >= 1
      modifies this`order, this`buckets
      ensures (View(), allowed) == Allow(old(View()), max, k, limit, now)
    {
      var cutoff := now - WINDOW;
      if k !in buckets {
        if |order| >= max {
          buckets := buckets - {order[0]};
          order := order[1..];
        }
        buckets := buckets[k := []];
        order := order + [k];
      } else {
        MoveToEnd(k);
      }
      ghost var t := Touched(old(View()), max, k);
      assert View() == t;
      var es := buckets[k];
      while es != [] && es[0] <= cutoff
        invariant Pruned(es, cutoff) == Pruned(t.buckets[k], cutoff)
        decreases |es|
      {
        es := es[1..];
      }
      allowed := |es| < limit;
      buckets := buckets[k := if allowed then es + [now] else es];
    }
  }

  // ---------------------------------------------------------------------------------------
  // Runs against the full log

  datatype Call = Call(key: Key, limit: int, now: real)

  /** The limiter, every accepted call, and the keys that ever lost a bucket. */
  datatype State = State(limiter: Limiter, log: seq<(Key, real)>, evicted: set<Key>, clock: real)

  function Step(s: State, max: nat, c: Call): State
  {
    var (l, ok) := Allow(s.limiter, max, c.key, c.limit, c.now);
    State(l, if ok then s.log + [(c.key, c.now)] else s.log, s.evicted + Evicts(s.limiter, max, c.key), c.now)
  }

  function Start(clock: real): State { State(EMPTY, [], {}, clock) }

  function Run(start: real, max: nat, cs: seq<Call>): State
  {
    if cs == [] then Start(start) else Step(Run(start, max, cs[..|cs| - 1]), max, cs[|cs| - 1])
  }

  /** A monotonic clock. */
  predicate Clocked(start: real, cs: seq<Call>)
  {
    (forall i :: 0 <= i < |cs| ==> start <= cs[i].now) && (forall i, j :: 0 <= i <= j < |cs| ==> cs[i].now <= cs[j].now)
  }

  /** The accepted call times of one key. */
  function Times(log: seq<(Key, real)>, k: Key): seq<real>
  {
    if log == [] then []
    else Times(log[..|log| - 1], k) + (if log[|log| - 1].0 == k then [log[|log| - 1].1] else [])
  }

  /** How many of the times lie after the cutoff. */
  function After(ts: seq<real>, cutoff: real): nat
  {
    if ts == [] then 0 else After(ts[..|ts| - 1], cutoff) + (if ts[|ts| - 1] > cutoff then 1 else 0)
  }

  predicate Sorted(ts: seq<real>) { forall i, j :: 0 <= i <= j < |ts| ==> ts[i] <= ts[j] }

  /** The first n times are at or before t. */
  predicate OldTo(ts: seq<real>, n: nat, t: real) { n <= |ts| && forall i :: 0 <= i < n ==> ts[i] <= t }

  /** The times from n on are after t. */
  predicate RecentFrom(ts: seq<real>, n: nat, t: real) { forall i :: n <= i < |ts| ==> ts[i] > t }

  lemma TimesAppend(log: seq<(Key, real)>, k: Key, now: real, j: Key)
    ensures Times(log + [(k, now)], j) == Times(log, j) + (if j == k then [now] else [])
  {
  }

  /** Pruning a sorted bucket keeps exactly the times after the cutoff. */
  lemma {:induction false} PrunedIsSuffix(es: seq<real>, cutoff: real) returns (n: nat)
    requires Sorted(es)
    ensures OldTo(es, n, cutoff) && RecentFrom(es, n, cutoff) && Pruned(es, cutoff) == es[n..]
    decreases |es|
  {
    if es != [] && es[0] <= cutoff {
      var rest := es[1..];
      var m := PrunedIsSuffix(rest, cutoff);
      n := m + 1;
      assert rest[m..] == es[n..];
      forall i | 1 <= i < |es| ensures es[i] == rest[i - 1] { }
    } else {
      n := 0;
    }
  }

  lemma {:induction false} AfterSuffix(ts: seq<real>, n: nat, cutoff: real)
    requires OldTo(ts, n, cutoff) && RecentFrom(ts, n, cutoff)
    ensures After(ts, cutoff) == |ts| - n
    decreases |ts|
  {
    if ts != [] {
      var m := |ts| - 1;
      AfterSuffix(ts[..m], if n <= m then n else m, cutoff);
    }
  }

  /** A bucket is the end of its key's log; what is missing had left the window already. */
  ghost predicate Faithful(ts: seq<real>, es: seq<real>, clock: real)
  {
    exists n: nat :: OldTo(ts, n, clock - WINDOW) && es == ts[n..]
  }

  lemma SplitSuffix(ts: seq<real>, a: nat, m: nat, cutoff: real)
    requires OldTo(ts, a, cutoff) && OldTo(ts[a..], m, cutoff) && RecentFrom(ts[a..], m, cutoff)
    ensures OldTo(ts, a + m, cutoff) && RecentFrom(ts, a + m, cutoff) && ts[a..][m..] == ts[a + m..]
  {
  }

  /** A pruned faithful bucket is exactly what the log holds after the cutoff. */
  lemma PrunedFaithful(ts: seq<real>, es: seq<real>, clock: real, now: real) returns (n: nat)
    requires Sorted(ts) && Faithful(ts, es, clock) && clock <= now
    ensures OldTo(ts, n, now - WINDOW) && Pruned(es, now - WINDOW) == ts[n..]
    ensures |Pruned(es, now - WINDOW)| == After(ts, now - WINDOW)
  {
    var cutoff := now - WINDOW;
    var a: nat :| OldTo(ts, a, clock - WINDOW) && es == ts[a..];
    var m := PrunedIsSuffix(es, cutoff);
    SplitSuffix(ts, a, m, cutoff);
    n := a + m;
    AfterSuffix(ts, n, cutoff);
  }

  lemma FaithfulAppend(ts: seq<real>, n: nat, now: real)
    requires OldTo(ts, n, now - WINDOW)
    ensures Faithful(ts + [now], ts[n..] + [now], now) && Faithful(ts, ts[n..], now)
  {
    assert (ts + [now])[n..] == ts[n..] + [now];
    assert OldTo(ts + [now], n, now - WINDOW);
  }

  lemma FaithfulLater(ts: seq<real>, es: seq<real>, clock: real, now: real)
    requires Faithful(ts, es, clock) && clock <= now
    ensures Faithful(ts, es, now)
  {
  }

  // ---------------------------------------------------------------------------------------
  // One key through a run

  function Bucket(l: Limiter, k: Key): seq<real> { if k in l.buckets then l.buckets[k] else [] }

  /** The key's log is sorted and, unless the key was ever evicted, its bucket agrees with it. */
  ghost predicate KeyOk(s: State, k: Key)
  {
    var ts := Times(s.log, k);
    && Sorted(ts) && OldTo(ts, |ts|, s.clock)
    && (k !in s.evicted ==> Faithful(ts, Bucket(s.limiter, k), s.clock))
  }

  lemma AllowParts(l: Limiter, max: nat, k: Key, limit: int, now: real)
    ensures var es := Pruned(Bucket(l, k), now - WINDOW);
            var (t, ok) := Allow(l, max, k, limit, now);
            && ok == (|es| < limit)
            && t.buckets == Touched(l, max, k).buckets[k := if ok then es + [now] else es]
            && t.order == Touched(l, max, k).order
  {
  }

  /** A call of a key that never lost its bucket is accepted exactly when fewer than `limit` of its
      accepted calls lie in the last sixty seconds of the full log. */
  lemma AcceptedIff(s: State, max: nat, c: Call)
    requires KeyOk(s, c.key) && c.key !in s.evicted && s.clock <= c.now
    ensures Allow(s.limiter, max, c.key, c.limit, c.now).1 <==> After(Times(s.log, c.key), c.now - 60.0) < c.limit
  {
    var n := PrunedFaithful(Times(s.log, c.key), Bucket(s.limiter, c.key), s.clock, c.now);
    AllowParts(s.limiter, max, c.key, c.limit, c.now);
  }

  lemma SortedAppend(ts: seq<real>, clock: real, now: real)
    requires Sorted(ts) && OldTo(ts, |ts|, clock) && clock <= now
    ensures Sorted(ts + [now]) && OldTo(ts + [now], |ts| + 1, now) && OldTo(ts, |ts|, now)
  {
  }

  lemma CallerFaithful(s: State, max: nat, c: Call)
    requires KeyOk(s, c.key) && s.clock <= c.now && c.key !in s.evicted
    ensures var t := Step(s, max, c); Faithful(Times(t.log, c.key), Bucket(t.limiter, c.key), c.now)
  {
    var ts := Times(s.log, c.key);
    var n := PrunedFaithful(ts, Bucket(s.limiter, c.key), s.clock, c.now);
    FaithfulAppend(ts, n, c.now);
    AllowParts(s.limiter, max, c.key, c.limit, c.now);
    TimesAppend(s.log, c.key, c.now, c.key);
  }

  lemma CallerStep(s: State, max: nat, c: Call)
    requires KeyOk(s, c.key) && s.clock <= c.now
    ensures KeyOk(Step(s, max, c), c.key)
  {
    TimesAppend(s.log, c.key, c.now, c.key);
    SortedAppend(Times(s.log, c.key), s.clock, c.now);
    if c.key !in s.evicted { CallerFaithful(s, max, c); }
  }

  /** Touching a key leaves every other bucket as it was, except the evicted one. */
  lemma TouchedOther(l: Limiter, max: nat, k: Key, j: Key)
    requires j != k && j !in Evicts(l, max, k)
    ensures Bucket(Touched(l, max, k), j) == Bucket(l, j)
  {
  }

  lemma OtherStep(s: State, max: nat, c: Call, j: Key)
    requires KeyOk(s, j) && s.clock <= c.now && j != c.key
    ensures KeyOk(Step(s, max, c), j)
  {
    AllowParts(s.limiter, max, c.key, c.limit, c.now);
    TimesAppend(s.log, c.key, c.now, j);
    assert Times(s.log, j) + [] == Times(s.log, j);
    if j !in s.evicted + Evicts(s.limiter, max, c.key) {
      TouchedOther(s.limiter, max, c.key, j);
      FaithfulLater(Times(s.log, j), Bucket(s.limiter, j), s.clock, c.now);
    }
  }

  lemma ClockedPrefix(start: real, cs: seq<Call>)
    requires Clocked(start, cs) && cs != []
    ensures Clocked(start, cs[..|cs| - 1])
    ensures (if |cs| == 1 then start else cs[|cs| - 2].now) <= cs[|cs| - 1].now
  {
  }

  lemma RunClock(start: real, max: nat, cs: seq<Call>)
    ensures Run(start, max, cs).clock == if cs == [] then start else cs[|cs| - 1].now
  {
  }

  /** Every bucket that was never evicted agrees with the full log, after any run under a monotonic
      clock. */
  lemma {:induction false} RunFaithful(start: real, max: nat, cs: seq<Call>, k: Key)
    requires Clocked(start, cs)
    ensures KeyOk(Run(start, max, cs), k)
  {
    if cs == [] {
      assert Times([], k)[0..] == [];
      assert OldTo(Times([], k), 0, start - WINDOW);
    } else {
      var n := |cs| - 1;
      ClockedPrefix(start, cs);
      RunFaithful(start, max, cs[..n], k);
      RunClock(start, max, cs[..n]);
      var before := Run(start, max, cs[..n]);
      if k == cs[n].key { CallerStep(before, max, cs[n]); } else { OtherStep(before, max, cs[n], k); }
    }
  }

  // ---------------------------------------------------------------------------------------
  // The number of buckets

  ghost predicate OrderOk(l: Limiter, max: nat)
  {
    |l.order| <= max && Unique(l.order) && forall k :: k in l.order <==> k in l.buckets
  }

  lemma {:induction false} WithoutFacts(order: seq<Key>, k: Key)
    requires Unique(order)
    ensures Unique(Without(order, k)) && (forall x :: x in Without(order, k) <==> x in order && x != k)
    ensures |Without(order, k)| == |order| - (if k in order then 1 else 0)
  {
    if order != [] {
      var before, x := order[..|order| - 1], order[|order| - 1];
      assert forall i :: 0 <= i < |before| ==> before[i] == order[i];
      WithoutFacts(before, k);
      if x != k { OrderAppend(Without(before, k), x); } else { assert Without(before, k) + [] == Without(before, k); }
      assert forall y :: y in order <==> y in before || y == x;
    }
  }

  lemma OrderAppend(order: seq<Key>, k: Key)
    requires Unique(order) && k !in order
    ensures Unique(order + [k]) && forall x :: x in order + [k] <==> x in order || x == k
  {
  }

  lemma DropFirst(l: Limiter, max: nat)
    requires OrderOk(l, max) && l.order != []
    ensures OrderOk(Limiter(l.order[1..], l.buckets - {l.order[0]}), max)
  {
  }

  lemma TouchedOrder(l: Limiter, max: nat, k: Key)
    requires OrderOk(l, max) && max >= 1
    ensures OrderOk(Touched(l, max, k), max)
  {
    if k in l.buckets {
      WithoutFacts(l.order, k);
      OrderAppend(Without(l.order, k), k);
    } else if |l.order| >= max {
      DropFirst(l, max);
      OrderAppend(l.order[1..], k);
    } else {
      OrderAppend(l.order, k);
    }
  }

  lemma {:induction false} CountKeys(order: seq<Key>, m: map<Key, seq<real>>)
    requires Unique(order) && forall k :: k in order <==> k in m
    ensures |m| == |order|
    decreases |order|
  {
    if order == [] {
      assert m == map[];
    } else {
      var n := |order| - 1;
      assert forall i :: 0 <= i < n ==> order[..n][i] == order[i];
      assert forall x :: x in order <==> x in order[..n] || x == order[n];
      CountKeys(order[..n], m - {order[n]});
      assert m == (m - {order[n]})[order[n] := m[order[n]]];
    }
  }

  /** The bucket count never exceeds its maximum. */
  lemma {:induction false} BucketsBounded(start: real, max: nat, cs: seq<Call>)
    requires max >= 1
    ensures OrderOk(Run(start, max, cs).limiter, max) && |Run(start, max, cs).limiter.buckets| <= max
  {
    if cs != [] {
      var n := |cs| - 1;
      BucketsBounded(start, max, cs[..n]);
      var l, c := Run(start, max, cs[..n]).limiter, cs[n];
      TouchedOrder(l, max, c.key);
      AllowParts(l, max, c.key, c.limit, c.now);
    }
    CountKeys(Run(start, max, cs).limiter.order, Run(start, max, cs).limiter.buckets);
  }

  // ---------------------------------------------------------------------------------------
  // No window holds more than the limit

  /** Calls that are `limit` accepted calls apart are sixty seconds apart. */
  predicate Spaced(ts: seq<real>, limit: nat)
  {
    forall i, j :: 0 <= i <= j < |ts| && j - i >= limit ==> ts[j] - ts[i] >= WINDOW
  }

  lemma SpacedAppend(ts: seq<real>, limit: nat, now: real)
    requires Sorted(ts) && Spaced(ts, limit) && After(ts, now - WINDOW) < limit
    ensures Spaced(ts + [now], limit)
  {
    var all, n := ts + [now], |ts|;
    forall i, j | 0 <= i <= j < |all| && j - i >= limit ensures all[j] - all[i] >= WINDOW {
      if j < n {
        assert ts[j] - ts[i] >= WINDOW;
      } else {
        OldEnough(ts, i, now - WINDOW);
      }
    }
  }

  /** In a sorted list, an element with at least as many successors as recent elements is old. */
  lemma {:induction false} OldEnough(ts: seq<real>, i: nat, cutoff: real)
    requires Sorted(ts) && i < |ts| && After(ts, cutoff) < |ts| - i
    ensures ts[i] <= cutoff
    decreases |ts|
  {
    var m := |ts| - 1;
    if i < m && ts[m] > cutoff {
      OldEnough(ts[..m], i, cutoff);
    }
  }

  /** Every call of the key uses the same limit. */
  predicate Constant(cs: seq<Call>, k: Key, limit: nat)
  {
    forall i :: 0 <= i < |cs| && cs[i].key == k ==> cs[i].limit == limit
  }

  lemma SpacedStep(s: State, max: nat, c: Call, k: Key, limit: nat)
    requires KeyOk(s, k) && k !in s.evicted && s.clock <= c.now && (c.key == k ==> c.limit == limit)
    requires Spaced(Times(s.log, k), limit)
    ensures Spaced(Times(Step(s, max, c).log, k), limit)
  {
    TimesAppend(s.log, c.key, c.now, k);
    assert Times(s.log, k) + [] == Times(s.log, k);
    if c.key == k {
      AcceptedIff(s, max, c);
      if After(Times(s.log, k), c.now - WINDOW) < limit { SpacedAppend(Times(s.log, k), limit, c.now); }
    }
  }

  lemma {:induction false} RunSpaced(start: real, max: nat, cs: seq<Call>, k: Key, limit: nat)
    requires max >= 1 && Clocked(start, cs) && Constant(cs, k, limit) && k !in Run(start, max, cs).evicted
    ensures Spaced(Times(Run(start, max, cs).log, k), limit)
  {
    if cs != [] {
      var n := |cs| - 1;
      var before, c := cs[..n], cs[n];
      ClockedPrefix(start, cs);
      assert forall i :: 0 <= i < n ==> before[i] == cs[i];
      RunSpaced(start, max, before, k, limit);
      RunFaithful(start, max, before, k);
      RunClock(start, max, before);
      SpacedStep(Run(start, max, before), max, c, k, limit);
    }
  }

  /** How many of the times lie in the window that ends at t. */
  function InWindow(ts: seq<real>, t: real): nat
  {
    if ts == [] then 0 else InWindow(ts[..|ts| - 1], t) + (if t - 60.0 < ts[|ts| - 1] <= t then 1 else 0)
  }

  lemma {:induction false} SpacedWindow(ts: seq<real>, limit: nat, t: real)
    requires Sorted(ts) && Spaced(ts, limit)
    ensures InWindow(ts, t) <= limit
  {
    if ts != [] {
      var m := |ts| - 1;
      assert forall i :: 0 <= i < m ==> ts[..m][i] == ts[i];
      SpacedWindow(ts[..m], limit, t);
      if t - WINDOW < ts[m] <= t { LastOfWindow(ts, limit, t); }
    }
  }

  /** When the newest time is in the window, everything in it is among the last `limit`. */
  lemma LastOfWindow(ts: seq<real>, limit: nat, t: real)
    requires ts != [] && Sorted(ts) && Spaced(ts, limit) && t - WINDOW < ts[|ts| - 1] <= t
    ensures InWindow(ts, t) <= limit
  {
    var m := |ts| - 1;
    if m < limit {
      InWindowLength(ts, t);
    } else {
      assert ts[m] - ts[m - limit] >= WINDOW;
      InWindowTail(ts, m - limit + 1, t);
    }
  }

  lemma {:induction false} InWindowLength(ts: seq<real>, t: real)
    ensures InWindow(ts, t) <= |ts|
  {
    if ts != [] { InWindowLength(ts[..|ts| - 1], t); }
  }

  lemma {:induction false} InWindowTail(ts: seq<real>, n: nat, t: real)
    requires n <= |ts| && forall i :: 0 <= i < n ==> ts[i] <= t - WINDOW
    ensures InWindow(ts, t) <= |ts| - n
    decreases |ts|
  {
    if ts != [] {
      var m := |ts| - 1;
      assert forall i :: 0 <= i < m ==> ts[..m][i] == ts[i];
      InWindowTail(ts[..m], if n <= m then n else m, t);
    }
  }

  /** With a constant limit, no sixty-second window ever holds more accepted calls of a key that kept
      its bucket than the limit. */
  lemma WindowNeverExceeded(start: real, max: nat, cs: seq<Call>, k: Key, limit: nat, t: real)
    requires max >= 1 && Clocked(start, cs) && Constant(cs, k, limit) && k !in Run(start, max, cs).evicted
    ensures InWindow(Times(Run(start, max, cs).log, k), t) <= limit
  {
    RunFaithful(start, max, cs, k);
    RunSpaced(start, max, cs, k, limit);
    SpacedWindow(Times(Run(start, max, cs).log, k), limit, t);
  }

  // ---------------------------------------------------------------------------------------
  // Eviction forgets

  /** A call at time zero with limit one. */
  function Once(k: Key): Call { Call(k, 1, 0.0) }

  /** The calls of a run of such calls. */
  predicate Single(cs: seq<Call>) { forall i :: 0 <= i < |cs| ==> cs[i].limit == 1 && cs[i].now == 0.0 }

  ghost predicate Reached(max: nat, keys: seq<Key>, cs: seq<Call>, s: State)
  {
    Single(cs) && (forall i :: 0 <= i < |cs| ==> cs[i].key in keys) && s == Run(0.0, max, cs)
  }

  lemma Extend(max: nat, keys: seq<Key>, cs: seq<Call>, s: State, k: Key) returns (ds: seq<Call>, t: State)
    requires Reached(max, keys, cs, s) && k in keys
    ensures Reached(max, keys, ds, t) && t == Step(s, max, Once(k))
  {
    ds, t := cs + [Once(k)], Step(s, max, Once(k));
    assert ds[..|cs|] == cs;
  }

  /** The limiter holds the first n keys, oldest first, and the first key was accepted once. */
  predicate Flooded(s: State, keys: seq<Key>, n: nat)
  {
    && 1 <= n <= |keys| && s.limiter.order == keys[..n] && (forall x :: x in s.limiter.buckets ==> x in keys[..n])
    && Times(s.log, keys[0]) == [0.0]
  }

  lemma FloodStep(s: State, max: nat, keys: seq<Key>, n: nat)
    requires Flooded(s, keys, n) && n < max && n < |keys| && Unique(keys)
    ensures Flooded(Step(s, max, Once(keys[n])), keys, n + 1)
  {
  }

  lemma FloodStart(max: nat, keys: seq<Key>)
    requires max >= 1 && keys != []
    ensures Flooded(Step(Start(0.0), max, Once(keys[0])), keys, 1)
  {
  }

  lemma FloodFirst(max: nat, keys: seq<Key>) returns (cs: seq<Call>, s: State)
    requires max >= 1 && keys != []
    ensures Reached(max, keys, cs, s) && Flooded(s, keys, 1)
  {
    cs, s := Extend(max, keys, [], Start(0.0), keys[0]);
    FloodStart(max, keys);
  }

  lemma FloodMore(max: nat, keys: seq<Key>, n: nat, before: seq<Call>, u: State) returns (cs: seq<Call>, s: State)
    requires Reached(max, keys, before, u) && Flooded(u, keys, n) && n < max && n < |keys| && Unique(keys)
    ensures Reached(max, keys, cs, s) && Flooded(s, keys, n + 1)
  {
    cs, s := Extend(max, keys, before, u, keys[n]);
    FloodStep(u, max, keys, n);
  }

  lemma {:induction false} FloodFills(max: nat, keys: seq<Key>, n: nat) returns (cs: seq<Call>, s: State)
    requires 1 <= n <= max && n <= |keys| && Unique(keys)
    ensures Reached(max, keys, cs, s) && Flooded(s, keys, n)
  {
    if n == 1 {
      cs, s := FloodFirst(max, keys);
    } else {
      var before, u := FloodFills(max, keys, n - 1);
      cs, s := FloodMore(max, keys, n - 1, before, u);
    }
  }

  /** A full limiter loses its oldest key to the next new key. */
  lemma EvictStep(s: State, max: nat, keys: seq<Key>)
    requires max >= 1 && |keys| == max + 1 && Unique(keys) && Flooded(s, keys, max)
    ensures var t := Step(s, max, Once(keys[max]));
            keys[0] !in t.limiter.buckets && keys[0] in t.evicted && Times(t.log, keys[0]) == [0.0]
  {
  }

  lemma ReturnStep(t: State, max: nat, a: Key)
    requires a !in t.limiter.buckets && a in t.evicted && Times(t.log, a) == [0.0]
    ensures var u := Step(t, max, Once(a)); a in u.evicted && Times(u.log, a) == [0.0, 0.0]
  {
  }

  lemma FloodAndReturn(max: nat, keys: seq<Key>) returns (cs: seq<Call>, u: State)
    requires max >= 1 && |keys| == max + 1 && Unique(keys)
    ensures Reached(max, keys, cs, u) && keys[0] in u.evicted && Times(u.log, keys[0]) == [0.0, 0.0]
  {
    var fill, s := FloodFills(max, keys, max);
    var more, t := Extend(max, keys, fill, s, keys[max]);
    EvictStep(s, max, keys);
    cs, u := Extend(max, keys, more, t, keys[0]);
    ReturnStep(t, max, keys[0]);
  }

  /** Calls of these keys after which two of the first one were accepted at one instant under a limit of one. */
  predicate Exceeds(max: nat, keys: seq<Key>, cs: seq<Call>)
    requires keys != []
  {
    && Clocked(0.0, cs) && Constant(cs, keys[0], 1) && (forall i :: 0 <= i < |cs| ==> cs[i].key in keys)
    && keys[0] in Run(0.0, max, cs).evicted
    && InWindow(Times(Run(0.0, max, cs).log, keys[0]), 0.0) == 2
  }

  /** The condition on eviction is needed, for every bucket maximum: given one more key than there are
      buckets, there are calls after which the first key exceeds its limit. */
  lemma EvictionForgets(max: nat, keys: seq<Key>)
    requires max >= 1 && |keys| == max + 1 && Unique(keys)
    ensures exists cs :: Exceeds(max, keys, cs)
  {
    var cs, u := FloodAndReturn(max, keys);
    TwoNow();
    assert Exceeds(max, keys, cs);
  }

  lemma TwoNow()
    ensures InWindow([0.0, 0.0], 0.0) == 2
  {
  }

  // ---------------------------------------------------------------------------------------
  // Exactly when every window is kept

  predicate Over(cs: seq<Call>, keys: set<Key>) { forall i :: 0 <= i < |cs| ==> cs[i].key in keys }

  /** Calls over these keys, with one limit for this key, never put more than the limit into the window. */
  predicate Kept(max: nat, keys: set<Key>, start: real, cs: seq<Call>, k: Key, limit: nat, t: real)
  {
    Clocked(start, cs) && Over(cs, keys) && Constant(cs, k, limit) ==>
      InWindow(Times(Run(start, max, cs).log, k), t) <= limit
  }

  ghost predicate AlwaysKept(max: nat, keys: set<Key>)
  {
    forall start: real, cs: seq<Call>, k: Key, limit: nat, t: real :: Kept(max, keys, start, cs, k, limit, t)
  }

  lemma {:induction false} UniqueCount(order: seq<Key>, keys: set<Key>)
    requires Unique(order) && forall x :: x in order ==> x in keys
    ensures |order| <= |keys|
    decreases |order|
  {
    if order != [] {
      var n := |order| - 1;
      UniqueCount(order[..n], keys - {order[n]});
    }
  }

  lemma TouchedKeys(l: Limiter, max: nat, k: Key)
    requires OrderOk(l, max)
    ensures forall x :: x in Touched(l, max, k).order ==> x in l.order || x == k
  {
    WithoutFacts(l.order, k);
  }

  /** With no more keys than buckets there is always room. */
  lemma RoomForAll(l: Limiter, max: nat, k: Key, keys: set<Key>)
    requires OrderOk(l, max) && |keys| <= max && k in keys && forall x :: x in l.order ==> x in keys
    ensures Evicts(l, max, k) == {}
  {
    if k !in l.buckets { UniqueCount(l.order, keys - {k}); }
  }

  lemma {:induction false} NothingEvicted(start: real, max: nat, cs: seq<Call>, keys: set<Key>)
    requires max >= 1 && |keys| <= max && Over(cs, keys)
    ensures Run(start, max, cs).evicted == {}
    ensures forall x :: x in Run(start, max, cs).limiter.order ==> x in keys
  {
    if cs != [] {
      var n := |cs| - 1;
      NothingEvicted(start, max, cs[..n], keys);
      BucketsBounded(start, max, cs[..n]);
      var l, c := Run(start, max, cs[..n]).limiter, cs[n];
      RoomForAll(l, max, c.key, keys);
      TouchedKeys(l, max, c.key);
      AllowParts(l, max, c.key, c.limit, c.now);
    }
  }

  /** So many different keys of the set, in a row. */
  lemma {:induction false} InARow(keys: set<Key>, n: nat) returns (row: seq<Key>)
    requires n <= |keys|
    ensures |row| == n && Unique(row) && forall x :: x in row ==> x in keys
  {
    if n == 0 {
      row := [];
    } else {
      var k :| k in keys;
      var rest := InARow(keys - {k}, n - 1);
      row := rest + [k];
      OrderAppend(rest, k);
    }
  }

  /** The limiter keeps every window of every run over a set of keys, under any monotonic clock and any
      limits that are constant per key, if and only if there is a bucket for each key of the set. */
  lemma WindowsKeptIff(max: nat, keys: set<Key>)
    requires max >= 1
    ensures AlwaysKept(max, keys) <==> |keys| <= max
  {
    if |keys| <= max {
      forall start: real, cs: seq<Call>, k: Key, limit: nat, t: real ensures Kept(max, keys, start, cs, k, limit, t) {
        if Clocked(start, cs) && Over(cs, keys) && Constant(cs, k, limit) {
          NothingEvicted(start, max, cs, keys);
          WindowNeverExceeded(start, max, cs, k, limit, t);
        }
      }
    } else {
      var row := InARow(keys, max + 1);
      EvictionForgets(max, row);
      var cs :| Exceeds(max, row, cs);
      assert !Kept(max, keys, 0.0, cs, row[0], 1, 0.0);
    }
  }
}
