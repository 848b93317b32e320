/**
 The sliding window as a specification: a limiter that never forgets an admitted
 event and decides by filtering and counting all of them. `EventLog` and
 `SlidingWindow` are proved to answer exactly as this module does.
 */
module WindowSpec {

  /** The events of `s` strictly after `cutoff`, in order. */
  function After(s: seq<int>, cutoff: int): seq<int>
  {
    if s == [] then []
    else After(s[..|s| - 1], cutoff) + (if s[|s| - 1] > cutoff then [s[|s| - 1]] else [])
  }

  /** Timestamps in nondecreasing order. */
  ghost predicate Sorted(s: seq<int>)
  {
    forall i, j :: 0 <= i < j < |s| ==> s[i] <= s[j]
  }

  lemma AfterSnoc(s: seq<int>, x: int, cutoff: int)
    ensures After(s + [x], cutoff) == After(s, cutoff) + (if x > cutoff then [x] else [])
  {
  }

  /** Expiring in two rounds is expiring once at the later cutoff. */
  lemma {:induction false} AfterTwice(s: seq<int>, c: int, d: int)
    requires c <= d
    ensures After(After(s, c), d) == After(s, d)
  {
    if s != [] {
      var init, x := s[..|s| - 1], s[|s| - 1];
      AfterTwice(init, c, d);
      if x > c {
        AfterSnoc(After(init, c), x, d);
      } else {
        assert After(s, c) == After(init, c);
      }
    }
  }

  /** When the expired events are a prefix, what is left is the suffix. */
  lemma {:induction false} AfterPrefix(s: seq<int>, cutoff: int, h: nat)
    requires h <= |s|
    requires forall i :: 0 <= i < h ==> s[i] <= cutoff
    requires forall i :: h <= i < |s| ==> s[i] > cutoff
    ensures After(s, cutoff) == s[h..]
  {
    if s != [] {
      var init := s[..|s| - 1];
      if h == |s| {
        AfterPrefix(init, cutoff, h - 1);
      } else {
        AfterPrefix(init, cutoff, h);
        assert s[h..] == init[h..] + [s[|s| - 1]];
      }
    }
  }

  lemma {:induction false} AfterMember(s: seq<int>, cutoff: int, x: int)
    ensures x in After(s, cutoff) <==> x in s && x > cutoff
  {
    if s != [] {
      AfterMember(s[..|s| - 1], cutoff, x);
      assert s == s[..|s| - 1] + [s[|s| - 1]];
    }
  }

  /** No event of `s` is later than `now`. */
  ghost predicate NoneLater(s: seq<int>, now: int)
  {
    forall i :: 0 <= i < |s| ==> s[i] <= now
  }

  lemma {:induction false} AfterEmpty(s: seq<int>, cutoff: int)
    ensures After(s, cutoff) == [] <==> NoneLater(s, cutoff)
  {
    if s != [] {
      var init := s[..|s| - 1];
      AfterEmpty(init, cutoff);
      assert forall i :: 0 <= i < |init| ==> s[i] == init[i];
    }
  }

  /** What `live` must be for a log of the events `admitted`, expired at `cutoff`. */
  ghost predicate IsLive(live: seq<int>, admitted: seq<int>, cutoff: int)
  {
    live == After(admitted, cutoff) && Sorted(live)
  }

  /** Recording an event at `now` appends it to the live events. */
  lemma LiveSnoc(live: seq<int>, admitted: seq<int>, cutoff: int, now: int)
    requires IsLive(live, admitted, cutoff) && cutoff < now && NoneLater(admitted, now)
    ensures IsLive(live + [now], admitted + [now], cutoff)
  {
    AfterSnoc(admitted, now, cutoff);
    forall i | 0 <= i < |live| ensures live[i] <= now {
      AfterMember(admitted, cutoff, live[i]);
    }
  }

  /** Expiring at a later cutoff drops a prefix of the live events. */
  lemma LiveDrop(live: seq<int>, admitted: seq<int>, cutoff: int, c: int, k: nat)
    requires IsLive(live, admitted, cutoff) && cutoff <= c
    requires k < |live| && live[k] > c
    requires forall i :: 0 <= i < k ==> live[i] <= c
    ensures IsLive(live[k..], admitted, c)
  {
    AfterTwice(admitted, cutoff, c);
    AfterPrefix(live, c, k);
  }

  /** The last live event alone decides whether a later cutoff leaves anything. */
  lemma LastDecides(live: seq<int>, admitted: seq<int>, cutoff: int, c: int)
    requires IsLive(live, admitted, cutoff) && cutoff <= c
    ensures NoneLater(admitted, c) <==> live == [] || live[|live| - 1] <= c
  {
    AfterTwice(admitted, cutoff, c);
    AfterEmpty(live, c);
    AfterEmpty(admitted, c);
  }

  // ── the reference limiter ─────────────────────────────────────────────────

  /** One `Allow(key)` made when the clock reads `now`. */
  datatype Call<K> = Call(key: K, now: int)

  /** The calls were made under one lock, so their clock readings never decrease. */
  ghost predicate Nondecreasing<K>(calls: seq<Call<K>>, from: int)
  {
    calls != [] ==> from <= calls[0].now && Nondecreasing(calls[1..], calls[0].now)
  }

  /** The reference limiter's whole state: every admitted event, per key, oldest first. */
  type History<!K> = map<K, seq<int>>

  function Of<K>(h: History<K>, k: K): seq<int>
  {
    if k in h then h[k] else []
  }

  /** The reference answer: rescan every admitted event of the key and count. */
  predicate Admits<K>(h: History<K>, c: Call<K>, window: int, max: int)
  {
    |After(Of(h, c.key), c.now - window)| < max
  }

  /** The reference state after a call: nothing is ever dropped. */
  function Next<K>(h: History<K>, c: Call<K>, window: int, max: int): History<K>
  {
    if Admits(h, c, window, max) then h[c.key := Of(h, c.key) + [c.now]] else h
  }

  /** The reference state after a run of calls from state `h`. */
  function Replayed<K>(h: History<K>, calls: seq<Call<K>>, window: int, max: int): History<K>
    decreases |calls|
  {
    if calls == [] then h else Replayed(Next(h, calls[0], window, max), calls[1..], window, max)
  }

  /** The reference answer to every call of a run from state `h`. */
  function Answers<K(==)>(h: History<K>, calls: seq<Call<K>>, window: int, max: int): seq<bool>
    decreases |calls|
  {
    if calls == [] then []
    else [Admits(h, calls[0], window, max)] + Answers(Next(h, calls[0], window, max), calls[1..], window, max)
  }

  // ── what the window guarantees ────────────────────────────────────────────

  /** How many events of `s` fall in the half-open interval (lo, hi]. */
  function CountIn(s: seq<int>, lo: int, hi: int): nat
  {
    if s == [] then 0
    else CountIn(s[..|s| - 1], lo, hi) + (if lo < s[|s| - 1] <= hi then 1 else 0)
  }

  lemma CountInSnoc(s: seq<int>, x: int, lo: int, hi: int)
    ensures CountIn(s + [x], lo, hi) == CountIn(s, lo, hi) + (if lo < x <= hi then 1 else 0)
  {
  }

  lemma {:induction false} CountInAfter(s: seq<int>, lo: int, hi: int, cutoff: int)
    requires cutoff <= lo
    ensures CountIn(s, lo, hi) <= |After(s, cutoff)|
  {
    if s != [] { CountInAfter(s[..|s| - 1], lo, hi, cutoff); }
  }

  /** An event admitted on fewer than `max` live ones keeps every interval within `max`. */
  lemma RateStep(s: seq<int>, now: int, window: int, max: int, lo: int)
    requires CountIn(s, lo, lo + window) <= (if max > 0 then max else 0)
    ensures |After(s, now - window)| < max ==> CountIn(s + [now], lo, lo + window) <= max
  {
    CountInSnoc(s, now, lo, lo + window);
    if lo < now <= lo + window { CountInAfter(s, lo, lo + window, now - window); }
  }

  /** Events of `key` in the interval of one window's length that starts after `lo`. */
  function Load<K>(h: History<K>, key: K, lo: int, window: int): nat
  {
    CountIn(Of(h, key), lo, lo + window)
  }

  /** No interval of one window's length holds more than `max` events of `key`. */
  ghost predicate WithinRate<K>(h: History<K>, key: K, window: int, max: int)
  {
    forall lo :: Load(h, key, lo, window) <= (if max > 0 then max else 0)
  }

  /**
   The rate guarantee: over any run from the empty state, in any interval of one
   window's length, a key is admitted at most `max` times (never, when `max` is not
   positive).
   */
  lemma {:induction false} RateBound<K>(h: History<K>, calls: seq<Call<K>>, key: K, window: int, max: int)
    requires WithinRate(h, key, window, max)
    ensures WithinRate(Replayed(h, calls, window, max), key, window, max)
    decreases |calls|
  {
    if calls != [] {
      RateNext(h, calls[0], key, window, max);
      RateBound(Next(h, calls[0], window, max), calls[1..], key, window, max);
    }
  }

  lemma RateNext<K>(h: History<K>, c: Call<K>, key: K, window: int, max: int)
    requires WithinRate(h, key, window, max)
    ensures WithinRate(Next(h, c, window, max), key, window, max)
  {
    forall lo ensures Load(Next(h, c, window, max), key, lo, window) <= (if max > 0 then max else 0) {
      assert Load(h, key, lo, window) <= (if max > 0 then max else 0);
      RateStep(Of(h, key), c.now, window, max, lo);
    }
  }

  /**
   Self-healing: once every event of a key is a window old it is admitted again at
   full capacity, however many events it ever had; and it is refused only when `max`
   of its events are still in the window.
   */
  lemma QuietWindowReadmits<K>(h: History<K>, c: Call<K>, window: int, max: int)
    requires NoneLater(Of(h, c.key), c.now - window)
    ensures Admits(h, c, window, max) <==> max >= 1
  {
    AfterEmpty(Of(h, c.key), c.now - window);
  }

  // ── the reference told from the calls alone ───────────────────────────────

  /** Of the calls, those for `key` made after `since` and answered yes. */
  function Granted<K(==)>(calls: seq<Call<K>>, answers: seq<bool>, key: K, since: int): nat
    requires |answers| == |calls|
  {
    if calls == [] then 0
    else
      var n := |calls| - 1;
      Granted(calls[..n], answers[..n], key, since)
      + (if answers[n] && calls[n].key == key && calls[n].now > since then 1 else 0)
  }

  lemma {:induction false} ReplayedSnoc<K>(h: History<K>, calls: seq<Call<K>>, c: Call<K>, window: int, max: int)
    ensures Replayed(h, calls + [c], window, max) == Next(Replayed(h, calls, window, max), c, window, max)
    decreases |calls|
  {
    if calls == [] {
      assert ([] + [c])[1..] == [];
    } else {
      assert (calls + [c])[1..] == calls[1..] + [c];
      ReplayedSnoc(Next(h, calls[0], window, max), calls[1..], c, window, max);
    }
  }

  lemma {:induction false} AnswersSnoc<K>(h: History<K>, calls: seq<Call<K>>, c: Call<K>, window: int, max: int)
    ensures Answers(h, calls + [c], window, max) ==
            Answers(h, calls, window, max) + [Admits(Replayed(h, calls, window, max), c, window, max)]
    decreases |calls|
  {
    if calls == [] {
      assert [] + [c] == [c] && [c][1..] == [];
    } else {
      var all, first := calls + [c], Admits(h, calls[0], window, max);
      var next, rest := Next(h, calls[0], window, max), calls[1..];
      assert all[0] == calls[0] && all[1..] == rest + [c];
      AnswersSnoc(next, rest, c, window, max);
      assert Answers(h, all, window, max) == [first] + Answers(next, rest + [c], window, max);
      assert Answers(h, calls, window, max) == [first] + Answers(next, rest, window, max);
    }
  }

  lemma {:induction false} AnswersLength<K>(h: History<K>, calls: seq<Call<K>>, window: int, max: int)
    ensures |Answers(h, calls, window, max)| == |calls|
    decreases |calls|
  {
    if calls != [] { AnswersLength(Next(h, calls[0], window, max), calls[1..], window, max); }
  }

  /** The events of a key in the window are the calls for it that were granted there. */
  lemma {:induction false} EventsAreGrants<K>(calls: seq<Call<K>>, window: int, max: int, key: K, since: int)
    ensures var answers := Answers(map[], calls, window, max);
            && |answers| == |calls|
            && |After(Of(Replayed(map[], calls, window, max), key), since)| == Granted(calls, answers, key, since)
    decreases |calls|
  {
    AnswersLength<K>(map[], calls, window, max);
    if calls != [] {
      var n := |calls| - 1;
      var before, c := calls[..n], calls[n];
      assert calls == before + [c];
      EventsAreGrants(before, window, max, key, since);
      ReplayedSnoc<K>(map[], before, c, window, max);
      AnswersSnoc<K>(map[], before, c, window, max);
      AnswersLength<K>(map[], before, window, max);
      var h := Replayed(map[], before, window, max);
      AfterSnoc(Of(h, key), c.now, since);
      assert Answers(map[], calls, window, max)[..n] == Answers(map[], before, window, max);
    }
  }

  lemma {:induction false} AnswersPrefix<K>(calls: seq<Call<K>>, window: int, max: int, i: nat)
    requires i <= |calls|
    ensures |Answers(map[], calls, window, max)| == |calls|
    ensures Answers(map[], calls, window, max)[..i] == Answers(map[], calls[..i], window, max)
    decreases |calls|
  {
    AnswersLength<K>(map[], calls, window, max);
    AnswersLength<K>(map[], calls[..i], window, max);
    if i == |calls| {
      assert calls[..i] == calls;
    } else {
      var n := |calls| - 1;
      assert calls == calls[..n] + [calls[n]] && calls[..n][..i] == calls[..i];
      AnswersSnoc<K>(map[], calls[..n], calls[n], window, max);
      AnswersLength<K>(map[], calls[..n], window, max);
      AnswersPrefix(calls[..n], window, max, i);
    }
  }

  /** The answer to one more call. */
  lemma NextAnswer<K>(before: seq<Call<K>>, c: Call<K>, window: int, max: int)
    ensures var answers := Answers(map[], before, window, max);
            && |answers| == |before|
            && Answers(map[], before + [c], window, max) ==
               answers + [Granted(before, answers, c.key, c.now - window) < max]
  {
    AnswersSnoc<K>(map[], before, c, window, max);
    EventsAreGrants(before, window, max, c.key, c.now - window);
  }

  /**
   The whole limiter in one sentence: a call is granted exactly when fewer than `max`
   earlier calls for its key were granted within the window before it.
   */
  lemma GrantedIff<K>(calls: seq<Call<K>>, window: int, max: int, i: nat)
    requires i < |calls|
    ensures var answers := Answers(map[], calls, window, max);
            && |answers| == |calls|
            && (answers[i] <==> Granted(calls[..i], answers[..i], calls[i].key, calls[i].now - window) < max)
  {
    var before, c, all := calls[..i], calls[i], Answers(map[], calls, window, max);
    AnswersPrefix(calls, window, max, i);
    AnswersPrefix(calls, window, max, i + 1);
    assert calls[..i + 1] == before + [c];
    NextAnswer(before, c, window, max);
    var some := all[..i];
    assert all[..i + 1] == some + [Granted(before, some, c.key, c.now - window) < max];
    assert all[..i + 1][i] == all[i];
  }
}
