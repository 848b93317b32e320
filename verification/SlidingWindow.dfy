/**
 The per-key sliding-window limiter: a map of event logs, swept of aged-out keys on
 a size trigger and a time trigger, and rebuilt once it is mostly empty.
 */
module SlidingWindow {
  import opened WindowSpec
  import opened EventLogs

  lemma SubsetSize<T>(a: set<T>, b: set<T>)
    requires a <= b
    ensures |a| <= |b|
  {
    assert b == a + (b - a);
  }

  lemma WithAndWithout<T>(a: set<T>, x: T)
    requires x !in a
    ensures a + {x} - {x} == a
  {
  }

  // ── what a sweep costs, and who pays for it ───────────────────────────────

  /** Counts over a limiter's life; the `Since` ones restart at every sweep. */
  datatype Ledger<K> = Ledger(
    kept: set<K>,       // keys that survived the last sweep
    active: set<K>,     // keys admitted an event since the last sweep
    created: nat,       // keys inserted
    createdSince: nat,
    evicted: nat,       // keys deleted
    events: nat,        // events admitted
    eventsSince: nat,
    scanned: nat,       // keys visited by all sweeps
    timed: nat)         // keys visited by sweeps that the time trigger alone made

  /**
   A size-triggered sweep is paid for by the keys created since the last one (the map
   doubled), a time-triggered one by evictions and by the events that kept a key.
   */
  ghost predicate Balanced<K>(b: Ledger<K>, live: set<K>)
  {
    && b.kept <= live && |live| == |b.kept| + b.createdSince
    && b.created == b.evicted + |live|
    && b.createdSince <= b.created && b.eventsSince <= b.events
    && |b.active| <= b.eventsSince
    && b.scanned <= 2 * (b.created - b.createdSince) + b.evicted + (b.events - b.eventsSince)
    && b.scanned <= 2 * (b.created - b.createdSince) + b.timed
  }

  /** The ledger of a sweep that has visited `n` keys more. */
  function Visited<K>(b: Ledger<K>, n: nat): Ledger<K>
  {
    b.(scanned := b.scanned + n)
  }

  /** The ledger after a sweep that left `left` of the keys in `live`. */
  function Swept<K>(b: Ledger<K>, live: set<K>, left: set<K>, onTime: bool): (r: Ledger<K>)
    requires left <= live
  {
    SubsetSize(left, live);
    Ledger(left, {}, b.created, 0, b.evicted + |live| - |left|, b.events, 0, b.scanned,
           b.timed + if onTime then |live| else 0)
  }

  /** How many keys and events, and visits of all and of time-triggered sweeps, a ledger gained. */
  predicate Charged<K>(b: Ledger<K>, c: Ledger<K>, created: nat, events: nat, scanned: nat, timed: nat)
  {
    && c.created == b.created + created && c.events == b.events + events
    && c.scanned == b.scanned + scanned && c.timed == b.timed + timed
  }

  lemma SweptBalanced<K>(b: Ledger<K>, live: set<K>, left: set<K>, onTime: bool)
    requires Balanced(b, live) && left <= live
    requires if onTime then left <= b.active else |live| >= 2 * |b.kept|
    ensures Balanced(Swept(Visited(b, |live|), live, left, onTime), left)
  {
    SubsetSize(left, live);
    if left <= b.active { SubsetSize(left, b.active); }
  }

  function Inserted<K>(b: Ledger<K>): Ledger<K>
  {
    b.(created := b.created + 1, createdSince := b.createdSince + 1)
  }

  function Recorded<K>(b: Ledger<K>, k: K): Ledger<K>
  {
    b.(active := b.active + {k}, events := b.events + 1, eventsSince := b.eventsSince + 1)
  }

  /**
   How large the map (`n` keys) and the buckets behind it (`peak`) may be, given how
   many keys the last sweep kept.
   */
  ghost predicate Bounded(n: nat, kept: nat, sweepAt: int, peak: int, maxKeys: int)
  {
    && maxKeys >= 1
    && sweepAt == Max(maxKeys, 2 * kept)
    && n <= sweepAt
    && n <= peak <= Max(maxKeys, 4 * kept)
  }

  lemma InsertedBounded(n: nat, kept: nat, sweepAt: int, peak: int, maxKeys: int)
    requires Bounded(n, kept, sweepAt, peak, maxKeys) && n < sweepAt
    ensures Bounded(n + 1, kept, sweepAt, Max(peak, n + 1), maxKeys)
  {
  }

  lemma SweptBounded(n: nat, top: int, maxKeys: int)
    requires maxKeys >= 1 && n <= top <= 4 * n
    ensures Bounded(n, n, Max(maxKeys, 2 * n), top, maxKeys) && n < Max(maxKeys, 2 * n)
  {
  }

  // ── what the map remembers of the past ────────────────────────────────────

  /** The reference history of the calls so far, and the latest clock reading. */
  datatype Past<!K> = Past(hist: History<K>, clock: int)

  /** Every event admitted for `k` is at or before `t`. */
  ghost predicate QuietSince<K>(p: Past<K>, k: K, t: int)
  {
    NoneLater(Of(p.hist, k), t)
  }

  /**
   A key absent from the map has nothing left in any later window; a key in the map
   was kept by the last sweep, or created since, on the strength of a recent event.
   */
  ghost predicate Remembers<K(!new)>(p: Past<K>, b: Ledger<K>, live: set<K>, lastSweep: int, window: int, max: int)
  {
    && (forall k :: QuietSince(p, k, p.clock))
    && (forall k :: k !in live ==> QuietSince(p, k, lastSweep - window))
    && (forall k :: k in live && !QuietSince(p, k, lastSweep) ==> k in b.active)
    && (forall k :: k in live && (max >= 1 || k in b.kept) ==> !QuietSince(p, k, lastSweep - window))
  }

  /** A sweep with this cutoff keeps exactly the keys with a later event. */
  ghost predicate Survive<K(!new)>(p: Past<K>, live: set<K>, left: set<K>, cutoff: int)
  {
    left <= live && forall k :: k in live ==> (k in left <==> !QuietSince(p, k, cutoff))
  }

  /** The sweep before a new key, made exactly when it is due. */
  ghost predicate Made<K(!new)>(p: Past<K>, live: set<K>, lastSweep: int, due: bool, now: int, window: int,
                                left: set<K>, swept: int)
  {
    if due then Survive(p, live, left, now - window) && swept == now else left == live && swept == lastSweep
  }

  lemma SweptRemembers<K(!new)>(p: Past<K>, b: Ledger<K>, live: set<K>, left: set<K>,
                                lastSweep: int, now: int, window: int, max: int, onTime: bool)
    requires window > 0 && lastSweep <= p.clock <= now && left <= live
    requires Remembers(p, b, live, lastSweep, window, max)
    requires forall k :: k in live ==> (k in left <==> !QuietSince(p, k, now - window))
    ensures Remembers(p, Swept(b, live, left, onTime), left, now, window, max)
    ensures now - lastSweep >= window ==> left <= b.active
  {
    forall k ensures QuietSince(p, k, now) { assert QuietSince(p, k, p.clock); }
    forall k | k !in left ensures QuietSince(p, k, now - window) {
      if k !in live { assert QuietSince(p, k, lastSweep - window); }
    }
    if now - lastSweep >= window {
      forall k | k in left ensures k in b.active { assert !QuietSince(p, k, lastSweep); }
    }
  }

  /** A sweep that was due is paid for, and what it leaves is as remembered as before. */
  lemma SweepSound<K(!new)>(p: Past<K>, b: Ledger<K>, live: set<K>, left: set<K>, lastSweep: int, now: int, window: int,
                            max: int, sweepAt: int, peak: int, maxKeys: int)
    requires window > 0 && lastSweep <= p.clock <= now && left <= live
    requires Balanced(b, live) && Remembers(p, b, live, lastSweep, window, max)
    requires Bounded(|live|, |b.kept|, sweepAt, peak, maxKeys) && (|live| >= sweepAt || now - lastSweep >= window)
    requires forall k :: k in live ==> (k in left <==> !QuietSince(p, k, now - window))
    ensures Balanced(Swept(Visited(b, |live|), live, left, |live| < sweepAt), left) && |left| <= |live|
    ensures Remembers(p, Swept(Visited(b, |live|), live, left, |live| < sweepAt), left, now, window, max)
  {
    SubsetSize(left, live);
    SweptRemembers(p, Visited(b, |live|), live, left, lastSweep, now, window, max, |live| < sweepAt);
    SweptBalanced(b, live, left, |live| < sweepAt);
  }

  /** The past after a call whose answer was `ok`. */
  function Called<K>(p: Past<K>, key: K, now: int, ok: bool): Past<K>
  {
    Past(if ok then p.hist[key := Of(p.hist, key) + [now]] else p.hist, now)
  }

  lemma CalledRemembers<K(!new)>(p: Past<K>, b: Ledger<K>, live: set<K>, lastSweep: int, window: int, max: int,
                                 key: K, now: int, ok: bool)
    requires window > 0 && p.clock <= now && lastSweep <= now
    requires Remembers(p, b, live, lastSweep, window, max)
    requires ok <==> Admits(p.hist, Call(key, now), window, max)
    requires b.kept <= live
    ensures Remembers(Called(p, key, now, ok), if ok then Recorded(b, key) else b, live + {key}, lastSweep, window, max)
  {
    FirstIsAdmitted(p, b, live, lastSweep, window, max, key, now);
    var q := Called(p, key, now, ok);
    forall k ensures QuietSince(q, k, now) {
      assert QuietSince(p, k, p.clock);
    }
    if ok {
      var h := Of(p.hist, key);
      assert Of(q.hist, key) == h + [now] && Of(q.hist, key)[|h|] == now;
    }
  }

  /** A key the map has forgotten, or never knew, is admitted if anything can be. */
  lemma FirstIsAdmitted<K(!new)>(p: Past<K>, b: Ledger<K>, live: set<K>, lastSweep: int, window: int, max: int,
                                 key: K, now: int)
    requires Remembers(p, b, live, lastSweep, window, max) && lastSweep <= now
    ensures key !in live && max >= 1 ==> Admits(p.hist, Call(key, now), window, max)
  {
    AfterEmpty(Of(p.hist, key), now - window);
  }

  function Noted<K>(b: Ledger<K>, k: K, ok: bool): Ledger<K>
  {
    if ok then Recorded(b, k) else b
  }

  lemma InsertedSound<K(!new)>(p: Past<K>, b: Ledger<K>, live: set<K>, key: K, lastSweep: int, window: int, max: int)
    requires Balanced(b, live) && Remembers(p, b, live, lastSweep, window, max) && key !in live
    ensures Balanced(Inserted(b), live + {key}) && |live + {key}| == |live| + 1
    ensures Remembers(p, Inserted(b), live, lastSweep, window, max)
  {
  }

  lemma RecordedBalanced<K>(b: Ledger<K>, live: set<K>, k: K)
    requires Balanced(b, live)
    ensures Balanced(Recorded(b, k), live)
  {
  }

  /** The events the map's keys are there for. */
  lemma KeysAreRecent<K(!new)>(p: Past<K>, b: Ledger<K>, live: set<K>, lastSweep: int, window: int, max: int)
    requires Remembers(p, b, live, lastSweep, window, max) && b.kept <= live
    ensures forall k :: k in b.kept ==> !QuietSince(p, k, lastSweep - window)
    ensures p.clock - lastSweep < window && max >= 1 ==>
              forall k :: k in live ==> !QuietSince(p, k, p.clock - 2 * window)
  {
  }

  // ── the logs behind the map ───────────────────────────────────────────────

  /** `l` is a sound log of `admitted`, expired no later than `bound`, within `own`. */
  ghost predicate LogOk(l: EventLog, admitted: seq<int>, bound: int, own: set<object>)
    reads own
  {
    && l in own
    && (l.ts != null ==> l.ts in own)
    && l.Valid()
    && l.admitted == admitted
    && l.cutoff <= bound
  }

  /** No two keys share a log or an array. */
  ghost predicate Unshared<K>(keys: map<K, EventLog>)
    reads keys.Values
  {
    forall j, k :: j in keys && k in keys && j != k ==>
      keys[j] != keys[k] && (keys[j].ts != null ==> keys[j].ts != keys[k].ts)
  }

  ghost predicate LogsOk<K>(keys: map<K, EventLog>, hist: History<K>, bound: int, own: set<object>)
    reads own
  {
    && (forall k :: k in keys ==> LogOk(keys[k], Of(hist, k), bound, own))
    && Unshared(keys)
  }

  lemma LogsKept<K>(keys: map<K, EventLog>, m: map<K, EventLog>, hist: History<K>, bound: int, later: int,
                    own: set<object>)
    requires LogsOk(keys, hist, bound, own) && bound <= later
    requires m.Keys <= keys.Keys && forall k :: k in m ==> m[k] == keys[k]
    ensures LogsOk(m, hist, later, own)
  {
  }

  lemma LogsAdded<K>(keys: map<K, EventLog>, key: K, l: EventLog, hist: History<K>, bound: int, own: set<object>)
    requires LogsOk(keys, hist, bound, own) && key !in keys
    requires l !in own && l.ts == null && LogOk(l, Of(hist, key), bound, own + {l})
    ensures LogsOk(keys[key := l], hist, bound, own + {l})
  {
  }

  /** After one key's log recorded a call, all logs are sound for the history after it. */
  lemma LogsStepped<K>(keys: map<K, EventLog>, key: K, hist: History<K>, next: History<K>, bound: int,
                       before: set<object>, own: set<object>)
    requires key in keys && before <= own && LogOk(keys[key], Of(next, key), bound, own)
    requires forall k :: k in keys && k != key ==>
               Of(next, k) == Of(hist, k) && LogOk(keys[k], Of(hist, k), bound, before)
    requires Unshared(keys)
    ensures LogsOk(keys, next, bound, own)
  {
  }

  class SlidingWindowLimiter<K(==, !new)> {
    var keys: map<K, EventLog>
    const max: int
    const window: int
    const maxKeys: int  // map size at which aged-out keys are first swept
    var sweepAt: int    // map size that triggers the next sweep
    var lastSweep: int  // clock reading of the last sweep
    var peak: int       // largest map size since the map was last rebuilt

    ghost var past: Past<K>
    ghost var ledger: Ledger<K>
    ghost var logs: set<object>  // the event logs and their arrays
    ghost var Repr: set<object>

    ghost predicate Valid()
      reads this, Repr
    {
      && this !in logs && Repr == logs + {this}
      && LogsOk(keys, past.hist, past.clock - window, logs)
      && window > 0 && 0 <= lastSweep <= past.clock
      && Bounded(|keys|, |ledger.kept|, sweepAt, peak, maxKeys)
      && Balanced(ledger, keys.Keys)
      && Remembers(past, ledger, keys.Keys, lastSweep, window, max)
    }

    constructor (max: int, window: int, maxKeys: int)
      requires window > 0 && maxKeys >= 1
      ensures Valid() && fresh(Repr)
      ensures past.hist == map[] && past.clock == 0 && keys == map[] && lastSweep == 0
      ensures ledger == Ledger({}, {}, 0, 0, 0, 0, 0, 0, 0)
      ensures this.max == max && this.window == window && this.maxKeys == maxKeys
    {
      this.max, this.window, this.maxKeys := max, window, maxKeys;
      keys, sweepAt, lastSweep, peak := map[], maxKeys, 0, 0;
      past := Past(map[], 0);
      ledger := Ledger({}, {}, 0, 0, 0, 0, 0, 0, 0);
      logs := {};
      Repr := {this};
    }

    /** The map without the keys whose whole window is at or before `cutoff`; each visit is counted. */
    method DeleteIdle(cutoff: int) returns (m: map<K, EventLog>)
      requires forall k :: k in keys ==>
                 && keys[k].Valid() && keys[k].cutoff <= cutoff && keys[k].admitted == Of(past.hist, k)
      modifies `ledger
      ensures ledger == Visited(old(ledger), |keys.Keys|)
      ensures m.Keys <= keys.Keys
      ensures forall k :: k in m ==> m[k] == keys[k]
      ensures forall k :: k in keys ==> (k in m <==> !QuietSince(past, k, cutoff))
    {
      m := keys;
      var rest := keys.Keys;
      ghost var visits := 0;
      while rest != {}
        invariant rest <= m.Keys <= keys.Keys
        invariant visits + |rest| == |keys.Keys|
        invariant forall k :: k in m ==> m[k] == keys[k]
        invariant forall k :: k in keys && k !in rest ==> (k in m <==> !QuietSince(past, k, cutoff))
        decreases rest
      {
        var k :| k in rest;
        rest := rest - {k};
        visits := visits + 1;
        if m[k].Idle(cutoff) {
          m := m - {k};
        }
      }
      ledger := Visited(ledger, visits);
    }

    /** Copy the entries of `src` to a map sized for them, in whatever order it yields them. */
    static method Rebuild(src: map<K, EventLog>) returns (m: map<K, EventLog>)
      ensures m == src
    {
      m := map[];
      var rest := src.Keys;
      while rest != {}
        invariant rest <= src.Keys && m.Keys == src.Keys - rest
        invariant forall k :: k in m ==> m[k] == src[k]
        decreases rest
      {
        var k :| k in rest;
        rest := rest - {k};
        m := m[k := src[k]];
      }
    }

    /** Replace the map and its bookkeeping, leaving the logs alone. */
    method Install(m: map<K, EventLog>, top: int, limit: int, swept: int, ghost b: Ledger<K>,
                   ghost own: set<object>, ghost bound: int)
      requires this !in own && LogsOk(m, past.hist, bound, own)
      modifies this
      ensures keys == m && peak == top && sweepAt == limit && lastSweep == swept && ledger == b
      ensures past == old(past) && logs == own && Repr == own + {this}
      ensures LogsOk(m, past.hist, bound, own)
    {
      keys, peak, sweepAt, lastSweep, ledger := m, top, limit, swept, b;
      logs, Repr := own, own + {this};
      assert unchanged(own);
    }

    /** The entries a sweep at `now` keeps. */
    method Survivors(now: int) returns (m: map<K, EventLog>)
      requires LogsOk(keys, past.hist, past.clock - window, logs) && past.clock <= now && this !in logs
      modifies `ledger
      ensures ledger == Visited(old(ledger), |keys.Keys|)
      ensures m.Keys <= keys.Keys
      ensures forall k :: k in keys ==> (k in m <==> !QuietSince(past, k, now - window))
      ensures LogsOk(m, past.hist, now - window, logs)
    {
      assert forall k :: k in keys ==> LogOk(keys[k], Of(past.hist, k), past.clock - window, logs);
      m := DeleteIdle(now - window);
      LogsKept(keys, m, past.hist, past.clock - window, now - window, logs);
    }

    /** Move the kept entries to a map sized for them when they are few. */
    method Resize(kept: map<K, EventLog>) returns (m: map<K, EventLog>, top: int)
      requires |kept| <= peak
      ensures m == kept && |m| <= top <= 4 * |m|
    {
      m, top := kept, peak;
      if 4 * |m| < peak {
        m := Rebuild(m);
        top := |m|;
      }
    }

    /** A sweep that is due: what it keeps, and the peak and ledger that go with it. */
    method Sweep(now: int) returns (m: map<K, EventLog>, top: int, ghost after: Ledger<K>)
      requires Valid() && past.clock <= now
      requires |keys| >= sweepAt || now - lastSweep >= window
      modifies `ledger
      ensures m.Keys <= keys.Keys && |m| <= top <= 4 * |m| && LogsOk(m, past.hist, now - window, logs)
      ensures after == Swept(Visited(old(ledger), |keys.Keys|), keys.Keys, m.Keys, |keys.Keys| < sweepAt)
      ensures Survive(past, keys.Keys, m.Keys, now - window)
      ensures Balanced(after, m.Keys) && Remembers(past, after, m.Keys, now, window, max)
    {
      ghost var before := ledger;
      var kept := Survivors(now);
      SubsetSize(kept.Keys, keys.Keys);
      m, top := Resize(kept);
      SweepSound(past, before, keys.Keys, m.Keys, lastSweep, now, window, max, sweepAt, peak, maxKeys);
      after := Swept(ledger, keys.Keys, m.Keys, |keys.Keys| < sweepAt);
    }

    /** Drop the keys whose whole window has aged out by `now`. */
    method EvictExpired(now: int)
      requires Valid() && past.clock <= now
      requires |keys| >= sweepAt || now - lastSweep >= window
      modifies this
      ensures logs == old(logs) && Repr == old(Repr) && past == old(past)
      ensures LogsOk(keys, past.hist, now - window, logs)
      ensures keys.Keys <= old(keys.Keys)
      ensures lastSweep == now && |keys| < sweepAt
      ensures Bounded(|keys|, |ledger.kept|, sweepAt, peak, maxKeys)
      ensures ledger == Swept(Visited(old(ledger), |old(keys.Keys)|), old(keys.Keys), keys.Keys,
                              |old(keys.Keys)| < old(sweepAt))
      ensures Survive(past, old(keys.Keys), keys.Keys, now - window)
      ensures Balanced(ledger, keys.Keys)
      ensures Remembers(past, ledger, keys.Keys, lastSweep, window, max)
    {
      var m, top, after := Sweep(now);
      SweptBounded(|m|, top, maxKeys);
      Install(m, top, Max(maxKeys, 2 * |m|), now, after, logs, now - window);
    }

    /** Give `key` an empty log that stands for everything it had admitted before. */
    method Insert(key: K, ghost cut: int, ghost bound: int) returns (l: EventLog)
      requires key !in keys && this !in logs && Repr == logs + {this}
      requires LogsOk(keys, past.hist, bound, logs)
      requires QuietSince(past, key, cut) && cut <= bound
      modifies this
      ensures fresh(l) && keys == old(keys)[key := l] && Repr == old(Repr) + {l}
      ensures this !in logs && Repr == logs + {this}
      ensures keys.Keys == old(keys.Keys) + {key} && |keys| == old(|keys|) + 1
      ensures peak == Max(old(peak), |keys|) && ledger == Inserted(old(ledger))
      ensures sweepAt == old(sweepAt) && lastSweep == old(lastSweep) && past == old(past)
      ensures LogsOk(keys, past.hist, bound, logs)
    {
      l := new EventLog(Of(past.hist, key), cut);
      LogsAdded(keys, key, l, past.hist, bound, logs);
      var m := keys[key := l];
      assert m.Keys == keys.Keys + {key};
      Install(m, Max(peak, |m|), sweepAt, lastSweep, Inserted(ledger), logs + {l}, bound);
    }

    /** Ask `key`'s log; every other key's log stays as it was. */
    method Ask(key: K, now: int) returns (ok: bool)
      requires key in keys && this !in logs && window > 0
      requires LogsOk(keys, past.hist, now - window, logs)
      requires QuietSince(past, key, now)
      modifies logs
      ensures ok <==> Admits(past.hist, Call(key, now), window, max)
      ensures var l := keys[key];
              && l.Valid() && l.admitted == Of(past.hist, key) + (if ok then [now] else [])
              && l.cutoff == now - window && (l.ts == null || l.ts in logs || fresh(l.ts))
      ensures forall k :: k in keys && k != key ==> LogOk(keys[k], Of(past.hist, k), now - window, logs)
      ensures Unshared(keys)
    {
      assert LogOk(keys[key], Of(past.hist, key), now - window, logs);
      ok := keys[key].Allow(now, window, max);
      forall k | k in keys && k != key
        ensures LogOk(keys[k], Of(past.hist, k), now - window, logs)
      {
        assert old(LogOk(keys[k], Of(past.hist, k), now - window, logs));
      }
    }

    /** Ask `key`'s log, and write the answer into the ghost past. */
    method Record(key: K, now: int) returns (ok: bool)
      requires key in keys && this !in logs && Repr == logs + {this} && window > 0 && past.clock <= now
      requires LogsOk(keys, past.hist, now - window, logs)
      requires QuietSince(past, key, now)
      modifies Repr
      ensures keys == old(keys) && peak == old(peak) && sweepAt == old(sweepAt) && lastSweep == old(lastSweep)
      ensures ok <==> Admits(old(past.hist), Call(key, now), window, max)
      ensures past == Called(old(past), key, now, ok)
      ensures ledger == Noted(old(ledger), key, ok)
      ensures this !in logs && Repr == logs + {this} && fresh(Repr - old(Repr))
      ensures LogsOk(keys, past.hist, now - window, logs)
    {
      assert LogOk(keys[key], Of(past.hist, key), now - window, logs);
      ok := Ask(key, now);
      ghost var l, p := keys[key], Called(past, key, now, ok);
      ghost var own := if l.ts == null then logs else logs + {l.ts};
      LogsStepped(keys, key, past.hist, p.hist, now - window, logs, own);
      Log(p, Noted(ledger, key, ok), own, now - window);
    }

    /** Replace the ghost past and ledger, leaving the logs alone. */
    ghost method Log(p: Past<K>, b: Ledger<K>, own: set<object>, bound: int)
      requires this !in own && LogsOk(keys, p.hist, bound, own)
      modifies this`past, this`ledger, this`logs, this`Repr
      ensures past == p && ledger == b && logs == own && Repr == own + {this}
      ensures LogsOk(keys, p.hist, bound, own)
    {
      past, ledger, logs, Repr := p, b, own, own + {this};
    }

    /** Either trigger fires. */
    ghost predicate Due(now: int)
      reads this
    {
      |keys.Keys| >= sweepAt || now - lastSweep >= window
    }

    /** The keys a call for a new key visits first. */
    ghost function Visits(now: int): nat
      reads this
    {
      if Due(now) then |keys.Keys| else 0
    }

    /** Those of them that the time trigger alone makes it visit. */
    ghost function TimedVisits(now: int): nat
      reads this
    {
      if Due(now) && |keys.Keys| < sweepAt then |keys.Keys| else 0
    }

    /** Sweep if either trigger fires. */
    method MaybeSweep(now: int)
      requires Valid() && past.clock <= now
      modifies this
      ensures keys.Keys <= old(keys.Keys)
      ensures Made(past, old(keys.Keys), old(lastSweep), old(Due(now)), now, window, keys.Keys, lastSweep)
      ensures Charged(old(ledger), ledger, 0, 0, old(Visits(now)), old(TimedVisits(now)))
      ensures past == old(past) && logs == old(logs) && Repr == old(Repr)
      ensures LogsOk(keys, past.hist, now - window, logs)
      ensures Remembers(past, ledger, keys.Keys, lastSweep, window, max)
      ensures Balanced(ledger, keys.Keys) && |keys| < sweepAt && now - window < lastSweep <= now && 0 <= lastSweep
      ensures Bounded(|keys|, |ledger.kept|, sweepAt, peak, maxKeys)
    {
      if |keys| >= sweepAt || now - lastSweep >= window {
        EvictExpired(now);
      } else {
        LogsKept(keys, keys, past.hist, past.clock - window, now - window, logs);
      }
    }

    /** Sweep if either trigger fires, so that one more key keeps every bound. */
    method MakeRoom(key: K, now: int)
      requires Valid() && past.clock <= now && key !in keys
      modifies this
      ensures keys.Keys <= old(keys.Keys)
      ensures Made(past, old(keys.Keys), old(lastSweep), old(Due(now)), now, window, keys.Keys, lastSweep)
      ensures Charged(old(ledger), ledger, 0, 0, old(Visits(now)), old(TimedVisits(now)))
      ensures key !in keys && past == old(past) && logs == old(logs) && Repr == old(Repr) && this !in logs
      ensures Repr == logs + {this} && LogsOk(keys, past.hist, now - window, logs)
      ensures QuietSince(past, key, lastSweep - window) && now - window < lastSweep <= now && 0 <= lastSweep
      ensures Balanced(Inserted(ledger), keys.Keys + {key}) && ledger.kept <= keys.Keys
      ensures Remembers(past, Inserted(ledger), keys.Keys, lastSweep, window, max)
      ensures Bounded(|keys| + 1, |ledger.kept|, sweepAt, Max(peak, |keys| + 1), maxKeys)
    {
      MaybeSweep(now);
      InsertedSound(past, ledger, keys.Keys, key, lastSweep, window, max);
      InsertedBounded(|keys|, |ledger.kept|, sweepAt, peak, maxKeys);
    }

    /** `key` has its log, the last but for which all keys are `live`, and a call for it at `now` can be decided. */
    ghost predicate Ready(key: K, now: int, live: set<K>)
      reads this
    {
      && keys.Keys == live + {key} && this !in logs && Repr == logs + {this}
      && window > 0 && 0 <= lastSweep <= now && past.clock <= now
      && ledger.kept <= live && Balanced(ledger, keys.Keys) && Bounded(|keys|, |ledger.kept|, sweepAt, peak, maxKeys)
    }

    /** Insert a new key, sweeping first if either trigger fires. */
    method AddKey(key: K, now: int) returns (ghost live: set<K>, l: EventLog)
      requires Valid() && past.clock <= now && key !in keys
      modifies this
      ensures Ready(key, now, live) && LogsOk(keys, past.hist, now - window, logs)
      ensures Remembers(past, ledger, live, lastSweep, window, max)
      ensures live == keys.Keys - {key} && live <= old(keys.Keys)
      ensures Made(past, old(keys.Keys), old(lastSweep), old(Due(now)), now, window, live, lastSweep)
      ensures Charged(old(ledger), ledger, 1, 0, old(Visits(now)), old(TimedVisits(now)))
      ensures past == old(past) && fresh(l) && Repr == old(Repr) + {l} && now - window < lastSweep
    {
      MakeRoom(key, now);
      live := keys.Keys;
      WithAndWithout(live, key);
      l := Insert(key, lastSweep - window, now - window);
    }

    /** Decide the call and bring every part of the invariant up to it. */
    method Decide(key: K, now: int, ghost live: set<K>) returns (ok: bool)
      requires Ready(key, now, live) && LogsOk(keys, past.hist, now - window, logs)
      requires Remembers(past, ledger, live, lastSweep, window, max)
      modifies Repr
      ensures Valid() && fresh(Repr - old(Repr))
      ensures keys == old(keys) && lastSweep == old(lastSweep)
      ensures past == Called(old(past), key, now, ok)
      ensures ledger == Noted(old(ledger), key, ok)
      ensures ok <==> Admits(old(past.hist), Call(key, now), window, max)
    {
      ghost var p, b := past, ledger;
      assert QuietSince(p, key, p.clock);
      ok := Record(key, now);
      CalledRemembers(p, b, live, lastSweep, window, max, key, now, ok);
      RecordedBalanced(b, keys.Keys, key);
    }

    /** A key the map does not have: sweep if due, insert it, then decide. */
    method AllowNew(key: K, now: int) returns (ok: bool)
      requires Valid() && past.clock <= now && key !in keys
      modifies Repr
      ensures Valid() && fresh(Repr - old(Repr))
      ensures ok <==> Admits(old(past.hist), Call(key, now), window, max)
      ensures past == Called(old(past), key, now, ok)
      ensures key in keys && keys.Keys - {key} <= old(keys.Keys)
      ensures Made(old(past), old(keys.Keys), old(lastSweep), old(Due(now)), now, window, keys.Keys - {key}, lastSweep)
      ensures Charged(old(ledger), ledger, 1, if ok then 1 else 0, old(Visits(now)), old(TimedVisits(now)))
      ensures now - window < lastSweep
    {
      ghost var live;
      var l;
      live, l := AddKey(key, now);
      label added:
      ok := Decide(key, now, live);
      forall o: object | o in Repr && o !in old(Repr) ensures !old(allocated(o)) {
        assert o == l || !old@added(allocated(o));
      }
    }

    /**
     Decide a call at time `now`: exactly the answer of the limiter that keeps every
     admitted event of every key and rescans them all.
     */
    method AllowLocked(key: K, now: int) returns (ok: bool)
      requires Valid() && past.clock <= now
      modifies Repr
      ensures Valid() && fresh(Repr - old(Repr))
      ensures ok <==> Admits(old(past.hist), Call(key, now), window, max)
      ensures past.hist == Next(old(past.hist), Call(key, now), window, max) && past.clock == now
      ensures key in keys && (key in old(keys) ==> keys == old(keys) && lastSweep == old(lastSweep))
      ensures key !in old(keys) ==>
                && keys.Keys - {key} <= old(keys.Keys) && now - window < lastSweep
                && Made(old(past), old(keys.Keys), old(lastSweep), old(Due(now)), now, window, keys.Keys - {key},
                        lastSweep)
      ensures if key in old(keys) then Charged(old(ledger), ledger, 0, if ok then 1 else 0, 0, 0)
              else Charged(old(ledger), ledger, 1, if ok then 1 else 0, old(Visits(now)), old(TimedVisits(now)))
    {
      if key !in keys {
        ok := AllowNew(key, now);
      } else {
        LogsKept(keys, keys, past.hist, past.clock - window, now - window, logs);
        ok := Decide(key, now, keys.Keys);
      }
    }

    /**
     Record an event for `key` at the clock reading taken under the lock. On top of the
     reference answer: what sweeping has cost so far, and how large the map can be.
     */
    method Allow(key: K, now: int) returns (ok: bool)
      requires Valid() && past.clock <= now
      modifies Repr
      ensures Valid() && fresh(Repr - old(Repr))
      ensures ok <==> Admits(old(past.hist), Call(key, now), window, max)
      ensures past.hist == Next(old(past.hist), Call(key, now), window, max) && past.clock == now
      // sweeping is O(1) amortised per new key and admitted event, and the size trigger's share per new key
      ensures if key in old(keys) then Charged(old(ledger), ledger, 0, if ok then 1 else 0, 0, 0)
              else Charged(old(ledger), ledger, 1, if ok then 1 else 0, old(Visits(now)), old(TimedVisits(now)))
      ensures ledger.scanned <= 3 * ledger.created + ledger.events
      ensures ledger.scanned <= 2 * ledger.created + ledger.timed
      // the map and its buckets are bounded by what the last sweep kept
      ensures |keys| <= Max(maxKeys, 2 * |ledger.kept|) && peak <= Max(maxKeys, 4 * |ledger.kept|)
      ensures forall k :: k in ledger.kept ==> !QuietSince(past, k, lastSweep - window)
      ensures key !in old(keys) && max >= 1 ==>
                forall k :: k in keys ==> !QuietSince(past, k, now - 2 * window)
    {
      ok := AllowLocked(key, now);
      KeysAreRecent(past, ledger, keys.Keys, lastSweep, window, max);
    }

    /**
     For every run of calls on a clock that never goes back, the limiter answers call by
     call as the one that never forgets anything, whatever the sweeps, compactions,
     shrinks and map rebuilds do in between.
     */
    method Run(calls: seq<Call<K>>) returns (answers: seq<bool>)
      requires Valid() && Nondecreasing(calls, past.clock)
      modifies Repr
      ensures Valid() && fresh(Repr - old(Repr))
      ensures answers == Answers(old(past.hist), calls, window, max)
      ensures past.hist == Replayed(old(past.hist), calls, window, max)
      decreases |calls|
    {
      if calls == [] {
        return [];
      }
      var ok := AllowLocked(calls[0].key, calls[0].now);
      ghost var mid := Repr;
      answers := Run(calls[1..]);
      answers := [ok] + answers;
      assert fresh(mid - old(Repr)) && fresh(Repr - mid);
    }
  }

  /** The same over a whole life: a fresh limiter against the reference from nothing. */
  method RunFresh<K(==, !new)>(calls: seq<Call<K>>, max: int, window: int, maxKeys: int) returns (answers: seq<bool>)
    requires window > 0 && maxKeys >= 1 && Nondecreasing(calls, 0)
    ensures answers == Answers(map[], calls, window, max)
    ensures |answers| == |calls| && forall i :: 0 <= i < |calls| ==>
              (answers[i] <==> Granted(calls[..i], answers[..i], calls[i].key, calls[i].now - window) < max)
  {
    var limiter := new SlidingWindowLimiter<K>(max, window, maxKeys);
    answers := limiter.Run(calls);
    AnswersLength<K>(map[], calls, window, max);
    forall i | 0 <= i < |calls|
      ensures answers[i] <==> Granted(calls[..i], answers[..i], calls[i].key, calls[i].now - window) < max
    {
      GrantedIff(calls, window, max, i);
    }
  }
}
