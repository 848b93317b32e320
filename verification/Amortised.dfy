/**
 What sweeping costs per new key. The program's promise of O(1) holds of the sweeps the
 size trigger makes; those the time trigger makes scan every key that is still active.
 */
module Amortised {
  import opened WindowSpec
  import opened SlidingWindow

  /** An event is never forgotten by the reference history. */
  lemma StillHeard<K(!new)>(h: History<K>, c: Call<K>, window: int, max: int, k: K, t: int)
    requires !NoneLater(Of(h, k), t)
    ensures !NoneLater(Of(Next(h, c, window, max), k), t)
  {
    var i :| 0 <= i < |Of(h, k)| && Of(h, k)[i] > t;
    assert Of(Next(h, c, window, max), k)[i] == Of(h, k)[i];
  }

  /** Admitted or refused, a call leaves its key with an event in the window. */
  lemma HeardNow<K(!new)>(h: History<K>, c: Call<K>, window: int, max: int, cut: int)
    requires window > 0 && max >= 1 && cut == c.now - window
    ensures !NoneLater(Of(Next(h, c, window, max), c.key), cut)
  {
    var s := Of(h, c.key);
    if Admits(h, c, window, max) {
      assert Of(Next(h, c, window, max), c.key)[|s|] == c.now;
    } else {
      AfterEmpty(s, c.now - window);
    }
  }

  /** The keys below `n` are there. */
  ghost predicate Crowd(s: set<int>, n: nat)
  {
    n == 0 || (n - 1 in s && Crowd(s, n - 1))
  }

  /** No key from `m` on is there. */
  ghost predicate Below(s: set<int>, m: nat)
  {
    forall k :: k in s ==> k < m
  }

  /** The keys below `n` have an event after `t`. */
  ghost predicate Heard(p: Past<int>, n: nat, t: int)
  {
    n == 0 || (!QuietSince(p, n - 1, t) && Heard(p, n - 1, t))
  }

  /** A call leaves heard those that were. */
  lemma {:induction false} HeardOn(p: Past<int>, q: Past<int>, i: nat, c: Call<int>, window: int, max: int, t: int)
    requires Heard(p, i, t) && q.hist == Next(p.hist, c, window, max)
    ensures Heard(q, i, t)
    decreases i
  {
    if i > 0 {
      HeardOn(p, q, i - 1, c, window, max, t);
      StillHeard(p.hist, c, window, max, i - 1, t);
    }
  }

  /** The sweep before a new key keeps a crowd that was heard in the window. */
  lemma {:induction false} CrowdStays(p: Past<int>, live: set<int>, lastSweep: int, due: bool, now: int, window: int,
                                      next: set<int>, swept: int, n: nat, m: nat, cut: int)
    requires Crowd(live, n) && n <= m && cut == now - window && Heard(p, n, cut)
    requires Made(p, live, lastSweep, due, now, window, next - {m}, swept)
    ensures Crowd(next, n)
    decreases n
  {
    if n > 0 {
      CrowdStays(p, live, lastSweep, due, now, window, next, swept, n - 1, m, cut);
      assert n - 1 in next - {m};
    }
  }

  lemma {:induction false} CrowdSize(s: set<int>, n: nat)
    requires Crowd(s, n)
    ensures |s| >= n
    decreases n
  {
    if n > 0 {
      CrowdWithout(s, n - 1, n - 1);
      CrowdSize(s - {n - 1}, n - 1);
    }
  }

  lemma {:induction false} CrowdWithout(s: set<int>, n: nat, x: int)
    requires Crowd(s, n) && n <= x
    ensures Crowd(s - {x}, n)
    decreases n
  {
    if n > 0 { CrowdWithout(s, n - 1, x); }
  }

  lemma {:induction false} CrowdHas(s: set<int>, n: nat, i: nat)
    requires Crowd(s, n) && i < n
    ensures i in s
    decreases n
  {
    if i < n - 1 { CrowdHas(s, n - 1, i); }
  }

  lemma NewBelow(live: set<int>, next: set<int>, m: nat)
    requires Below(live, m) && next - {m} <= live
    ensures Below(next, m + 1)
  {
    forall k | k in next ensures k < m + 1 {
      assert k == m || k in next - {m};
    }
  }

  /** One more key, next in number, all at one time. */
  method AddNext(l: SlidingWindowLimiter<int>, n: nat, next: nat, now: int, ghost cut: int)
    requires l.Valid() && l.past.clock == now && l.max >= 1 && l.lastSweep == now
    requires cut == now - l.window && next == n + 1
    requires Crowd(l.keys.Keys, n) && Below(l.keys.Keys, n) && Heard(l.past, n, cut)
    modifies l.Repr
    ensures l.Valid() && fresh(l.Repr - old(l.Repr)) && l.past.clock == now && l.lastSweep == now
    ensures Crowd(l.keys.Keys, next) && Below(l.keys.Keys, next) && Heard(l.past, next, cut)
    ensures l.ledger.created == old(l.ledger.created) + 1
  {
    ghost var p, live, swept, due := l.past, l.keys.Keys, l.lastSweep, l.Due(now);
    var ok := l.AllowLocked(n, now);
    HeardOn(p, l.past, n, Call(n, now), l.window, l.max, cut);
    HeardNow(p.hist, Call(n, now), l.window, l.max, cut);
    CrowdStays(p, live, swept, due, now, l.window, l.keys.Keys, l.lastSweep, n, n, cut);
    NewBelow(live, l.keys.Keys, n);
  }

  /** A key of the crowd is heard again. */
  method Touch(l: SlidingWindowLimiter<int>, n: nat, i: nat, next: nat, now: int, ghost cut: int)
    requires l.Valid() && l.past.clock <= now && l.max >= 1 && Crowd(l.keys.Keys, n) && i < n && next == i + 1
    requires cut == now - l.window && Heard(l.past, i, cut)
    modifies l.Repr
    ensures l.Valid() && fresh(l.Repr - old(l.Repr)) && l.past.clock == now
    ensures l.lastSweep == old(l.lastSweep) && l.keys.Keys == old(l.keys.Keys)
    ensures Heard(l.past, next, cut)
    ensures l.ledger.created == old(l.ledger.created) && l.ledger.scanned == old(l.ledger.scanned)
  {
    CrowdHas(l.keys.Keys, n, i);
    ghost var p := l.past;
    var ok := l.AllowLocked(i, now);
    HeardOn(p, l.past, i, Call(i, now), l.window, l.max, cut);
    HeardNow(p.hist, Call(i, now), l.window, l.max, cut);
  }

  /** A new key, a window after the last sweep: every key of the crowd is visited, and stays. */
  method Newcomer(l: SlidingWindowLimiter<int>, n: nat, m: nat, next: nat, now: int, ghost cut: int)
    requires l.Valid() && l.past.clock <= now && l.max >= 1 && n <= m && next == m + 1
    requires Crowd(l.keys.Keys, n) && Below(l.keys.Keys, m)
    requires cut == now - l.window && Heard(l.past, n, cut) && now - l.lastSweep >= l.window
    modifies l.Repr
    ensures l.Valid() && fresh(l.Repr - old(l.Repr)) && l.past.clock == now && l.lastSweep == now
    ensures Crowd(l.keys.Keys, n) && Below(l.keys.Keys, next)
    ensures l.ledger.created == old(l.ledger.created) + 1 && l.ledger.scanned >= old(l.ledger.scanned) + n
  {
    ghost var p, live, swept, due := l.past, l.keys.Keys, l.lastSweep, l.Due(now);
    CrowdSize(live, n);
    var ok := l.AllowLocked(m, now);
    CrowdStays(p, live, swept, due, now, l.window, l.keys.Keys, l.lastSweep, n, m, cut);
    NewBelow(live, l.keys.Keys, m);
  }

  /** The crowd is heard again, from the `i`th key on. */
  method TouchFrom(l: SlidingWindowLimiter<int>, n: nat, i: nat, now: int, ghost cut: int)
    requires l.Valid() && l.past.clock <= now && l.max >= 1 && Crowd(l.keys.Keys, n) && i <= n
    requires cut == now - l.window && Heard(l.past, i, cut)
    modifies l.Repr
    ensures l.Valid() && fresh(l.Repr - old(l.Repr)) && l.past.clock <= now
    ensures l.lastSweep == old(l.lastSweep) && l.keys.Keys == old(l.keys.Keys)
    ensures Heard(l.past, n, cut)
    ensures l.ledger.created == old(l.ledger.created) && l.ledger.scanned == old(l.ledger.scanned)
    decreases n - i
  {
    if i != n {
      var next := i + 1;
      Touch(l, n, i, next, now, cut);
      label touched:
      TouchFrom(l, n, next, now, cut);
      forall o: object | o in l.Repr && o !in old(l.Repr) ensures !old(allocated(o)) {
        assert o in old@touched(l.Repr) || !old@touched(allocated(o));
      }
    }
  }

  /** The crowd is heard at `now`, then one new key comes. */
  method Round(l: SlidingWindowLimiter<int>, n: nat, m: nat, next: nat, now: int)
    requires l.Valid() && l.past.clock <= now && l.max >= 1 && n <= m && next == m + 1
    requires Crowd(l.keys.Keys, n) && Below(l.keys.Keys, m)
    requires now - l.lastSweep >= l.window
    modifies l.Repr
    ensures l.Valid() && fresh(l.Repr - old(l.Repr)) && l.past.clock == now && l.lastSweep == now
    ensures Crowd(l.keys.Keys, n) && Below(l.keys.Keys, next)
    ensures l.ledger.created == old(l.ledger.created) + 1 && l.ledger.scanned >= old(l.ledger.scanned) + n
  {
    ghost var cut := now - l.window;
    TouchFrom(l, n, 0, now, cut);
    label touched:
    Newcomer(l, n, m, next, now, cut);
    forall o: object | o in l.Repr && o !in old(l.Repr) ensures !old(allocated(o)) {
      assert o in old@touched(l.Repr) || !old@touched(allocated(o));
    }
  }

  /** The crowd comes in, from the `i`th key on, all at time zero. */
  method Gather(l: SlidingWindowLimiter<int>, i: nat, n: nat, ghost cut: int)
    requires l.Valid() && l.past.clock == 0 && l.max >= 1 && l.lastSweep == 0 && cut == 0 - l.window && i <= n
    requires Crowd(l.keys.Keys, i) && Below(l.keys.Keys, i) && Heard(l.past, i, cut)
    modifies l.Repr
    ensures l.Valid() && fresh(l.Repr - old(l.Repr)) && l.past.clock == 0 && l.lastSweep == 0
    ensures Crowd(l.keys.Keys, n) && Below(l.keys.Keys, n)
    ensures l.ledger.created == old(l.ledger.created) + (n - i)
    decreases n - i
  {
    if i != n {
      var next := i + 1;
      AddNext(l, i, next, 0, cut);
      label added:
      Gather(l, next, n, cut);
      forall o: object | o in l.Repr && o !in old(l.Repr) ensures !old(allocated(o)) {
        assert o in old@added(l.Repr) || !old@added(allocated(o));
      }
    }
  }

  lemma Times(n: nat, r: nat)
    ensures n * (r + 1) == n * r + n
  {
  }

  /** One round after another, a window apart. */
  method Rounds(l: SlidingWindowLimiter<int>, n: nat, m: nat, now: int, rounds: nat)
    requires l.Valid() && l.past.clock <= now && l.lastSweep <= now && l.max >= 1 && n <= m
    requires Crowd(l.keys.Keys, n) && Below(l.keys.Keys, m)
    modifies l.Repr
    ensures l.Valid() && l.ledger.created == old(l.ledger.created) + rounds
    ensures l.ledger.scanned >= old(l.ledger.scanned) + n * rounds
    decreases rounds
  {
    if rounds > 0 {
      var later, next, left := now + l.window, m + 1, rounds - 1;
      Round(l, n, m, next, later);
      Rounds(l, n, next, later, left);
      Times(n, left);
    }
  }

  /**
   A limiter that `n` keys keep busy, with one new key a window: the new keys number
   `rounds`, and every one of them scans all the others.
   */
  method BusyLimiter(n: nat, rounds: nat, max: int, window: int, maxKeys: int)
    returns (l: SlidingWindowLimiter<int>)
    requires max >= 1 && window > 0 && maxKeys >= 1
    ensures l.Valid() && l.ledger.created == n + rounds && l.ledger.scanned >= n * rounds
  {
    l := new SlidingWindowLimiter<int>(max, window, maxKeys);
    Gather(l, 0, n, 0 - window);
    Rounds(l, n, n, 0, rounds);
  }

  lemma Exceeds(c: nat, n: nat, created: nat, scanned: nat)
    requires n == 2 * c + 1 && created == n + n && scanned >= n * n
    ensures scanned > c * created
  {
    assert n * n == (2 * c) * n + n;
    assert c * created == (2 * c) * n;
  }

  /**
   So no constant pays for the sweeps by new keys alone: for each there is a run that
   breaks it, whatever the limit, the window and the first size at which keys are swept.
   */
  method NewKeysDoNotPay(c: nat, max: int, window: int, maxKeys: int) returns (l: SlidingWindowLimiter<int>)
    requires max >= 1 && window > 0 && maxKeys >= 1
    ensures l.Valid() && l.ledger.scanned > c * l.ledger.created
  {
    var n := 2 * c + 1;
    l := BusyLimiter(n, n, max, window, maxKeys);
    Exceeds(c, n, l.ledger.created, l.ledger.scanned);
  }
}
