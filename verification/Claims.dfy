/**
 Claims taken by SetNX in one space of a shared backend, by any number of endpoints, over
 links that may lose a request or its answer, while the other spaces are used at will.
 */
module Claims {
  import opened Bytes
  import opened TtlStore

  /** A claim the backend granted; `told` when the claimant learnt that it won. */
  datatype Claim = Claim(key: seq<byte>, at: int, window: int, who: nat, told: bool) {
    function Until(): int
    {
      at + window
    }
  }

  datatype State = State(m: Entries, now: int, log: seq<Claim>)

  datatype Event =
    | Take(who: nat, key: seq<byte>, window: int, link: Link)
    | Other(space: Space, op: Op, link: Link)
    | Tick(d: nat)

  function TakeOp(s: Space, ev: Event): Op
    requires ev.Take?
  {
    SetNX(Full(s, ev.key), CLAIMED, ev.window)
  }

  /** Claims have a positive window; nobody else touches their space. */
  predicate Proper(ev: Event, s: Space)
  {
    match ev
    case Take(_, _, window, _) => window > 0
    case Other(space, _, _) => space != s
    case Tick(_) => true
  }

  /** What a claimant is told. */
  function Told(st: State, ev: Event, s: Space): bool
    requires ev.Take?
  {
    Answer(st.m, TakeOp(s, ev), st.now, ev.link).won
  }

  function Do(st: State, ev: Event, s: Space): State
    requires Proper(ev, s)
  {
    match ev
    case Take(who, key, window, link) =>
      var granted := link != Lost && !Live(st.m, Full(s, key), st.now);
      State(Effect(st.m, TakeOp(s, ev), st.now, link), st.now,
            if granted then st.log + [Claim(key, st.now, window, who, Told(st, ev, s))] else st.log)
    case Other(space, op, link) => st.(m := Effect(st.m, Within(space, op), st.now, link))
    case Tick(d) => st.(now := st.now + d)
  }

  // ── the invariant ─────────────────────────────────────────────────────────

  /** Two claims of one key are at least the earlier one's window apart. */
  ghost predicate Spaced(log: seq<Claim>)
  {
    forall i, j :: 0 <= i < j < |log| && log[i].key == log[j].key ==> log[i].Until() <= log[j].at
  }

  /** A claim's entry is there, and lasts at least as long as the claim. */
  ghost predicate Kept(m: Entries, log: seq<Claim>, s: Space)
  {
    forall i :: 0 <= i < |log| ==> KeptOne(m, log[i], s)
  }

  predicate KeptOne(m: Entries, c: Claim, s: Space)
  {
    Full(s, c.key) in m && c.Until() <= m[Full(s, c.key)].expiry
  }

  /** An entry of the space is some claim's, to the instant it ends. */
  ghost predicate Backed(m: Entries, log: seq<Claim>, s: Space)
  {
    forall k :: Full(s, k) in m ==> BackedOne(m, log, s, k)
  }

  ghost predicate BackedOne(m: Entries, log: seq<Claim>, s: Space, k: seq<byte>)
    requires Full(s, k) in m
  {
    exists i :: 0 <= i < |log| && log[i].key == k && log[i].Until() == m[Full(s, k)].expiry
  }

  ghost predicate Inv(st: State, s: Space)
  {
    && Spaced(st.log) && Kept(st.m, st.log, s) && Backed(st.m, st.log, s)
    && forall i :: 0 <= i < |st.log| ==> st.log[i].at <= st.now && st.log[i].window > 0
  }

  lemma GrantKept(m: Entries, log: seq<Claim>, s: Space, c: Claim)
    requires Kept(m, log, s) && Backed(m, log, s) && c.window > 0 && !Live(m, Full(s, c.key), c.at)
    ensures Kept(m[Full(s, c.key) := Entry(CLAIMED, c.Until())], log + [c], s)
    ensures Backed(m[Full(s, c.key) := Entry(CLAIMED, c.Until())], log + [c], s)
  {
    var m', log' := m[Full(s, c.key) := Entry(CLAIMED, c.Until())], log + [c];
    forall i | 0 <= i < |log'| ensures KeptOne(m', log'[i], s) {
      if i < |log| {
        assert KeptOne(m, log[i], s);
        if Full(s, log'[i].key) == Full(s, c.key) { FullInjective(s, log'[i].key, s, c.key); }
      }
    }
    forall k | Full(s, k) in m' ensures BackedOne(m', log', s, k) {
      if Full(s, k) == Full(s, c.key) {
        FullInjective(s, k, s, c.key);
        assert log'[|log|].key == k;
      } else {
        assert BackedOne(m, log, s, k);
        var i :| 0 <= i < |log| && log[i].key == k && log[i].Until() == m[Full(s, k)].expiry;
        assert log'[i] == log[i];
      }
    }
  }

  lemma GrantSpaced(m: Entries, log: seq<Claim>, s: Space, c: Claim)
    requires Spaced(log) && Kept(m, log, s) && !Live(m, Full(s, c.key), c.at)
    ensures Spaced(log + [c])
  {
  }

  lemma GrantInv(st: State, s: Space, c: Claim)
    requires Inv(st, s) && c.at == st.now && c.window > 0 && !Live(st.m, Full(s, c.key), st.now)
    ensures Inv(State(st.m[Full(s, c.key) := Entry(CLAIMED, c.Until())], st.now, st.log + [c]), s)
  {
    GrantKept(st.m, st.log, s, c);
    GrantSpaced(st.m, st.log, s, c);
  }

  lemma OtherInv(st: State, s: Space, space: Space, op: Op, link: Link)
    requires Inv(st, s) && space != s
    ensures Inv(st.(m := Effect(st.m, Within(space, op), st.now, link)), s)
  {
    var m' := Effect(st.m, Within(space, op), st.now, link);
    forall k
      ensures Full(s, k) in m' <==> Full(s, k) in st.m
      ensures Full(s, k) in st.m ==> m'[Full(s, k)] == st.m[Full(s, k)]
    {
      if Full(s, k) == Full(space, op.key) { FullInjective(s, k, space, op.key); }
    }
    assert Kept(m', st.log, s) by {
      forall i | 0 <= i < |st.log| ensures KeptOne(m', st.log[i], s) { assert KeptOne(st.m, st.log[i], s); }
    }
    assert Backed(m', st.log, s) by {
      forall k | Full(s, k) in m' ensures BackedOne(m', st.log, s, k) { assert BackedOne(st.m, st.log, s, k); }
    }
  }

  lemma StepInv(st: State, ev: Event, s: Space)
    requires Inv(st, s) && Proper(ev, s)
    ensures Inv(Do(st, ev, s), s)
  {
    match ev
    case Take(who, key, window, link) =>
      if link != Lost && !Live(st.m, Full(s, key), st.now) {
        var c := Claim(key, st.now, window, who, Told(st, ev, s));
        GrantInv(st, s, c);
        assert Do(st, ev, s) == State(st.m[Full(s, key) := Entry(CLAIMED, c.Until())], st.now, st.log + [c]);
      } else {
        assert Do(st, ev, s) == st;
      }
    case Other(space, op, link) => OtherInv(st, s, space, op, link);
    case Tick(d) => TickInv(st, s, d);
  }

  lemma TickInv(st: State, s: Space, d: nat)
    requires Inv(st, s)
    ensures Inv(st.(now := st.now + d), s)
  {
  }

  // ── runs ──────────────────────────────────────────────────────────────────

  ghost predicate Runs(st: State, evs: seq<Event>, s: Space, end: State)
    decreases |evs|
  {
    if evs == [] then st == end
    else Proper(evs[0], s) && Runs(Do(st, evs[0], s), evs[1..], s, end)
  }

  lemma {:induction false} RunInv(st: State, evs: seq<Event>, s: Space, end: State)
    requires Inv(st, s) && Runs(st, evs, s, end)
    ensures Inv(end, s)
    decreases |evs|
  {
    if evs != [] {
      StepInv(st, evs[0], s);
      RunInv(Do(st, evs[0], s), evs[1..], s, end);
    }
  }

  /** Some claim of the key is still running. */
  ghost predicate Running(st: State, key: seq<byte>)
  {
    exists i :: 0 <= i < |st.log| && st.log[i].key == key && st.now < st.log[i].Until()
  }

  /** After any run from an empty space, claims of one key never overlap. */
  lemma ClaimsNeverOverlap(m: Entries, now: int, evs: seq<Event>, s: Space, end: State)
    requires forall k :: Full(s, k) !in m
    requires Runs(State(m, now, []), evs, s, end)
    ensures Spaced(end.log)
  {
    RunInv(State(m, now, []), evs, s, end);
  }

  /**
   Over a working link a claimant is refused exactly when an earlier claim of the same
   key has not yet run out.
   */
  lemma RefusedIffRunning(st: State, ev: Event, s: Space)
    requires Inv(st, s) && Proper(ev, s) && ev.Take? && ev.link == Works
    ensures !Told(st, ev, s) <==> Running(st, ev.key)
  {
  }

  /** Being told of success is proof of having been granted the claim, whatever the link does. */
  lemma ToldIsGranted(st: State, ev: Event, s: Space)
    requires Proper(ev, s) && ev.Take? && Told(st, ev, s)
    ensures Do(st, ev, s).log == st.log + [Claim(ev.key, st.now, ev.window, ev.who, true)]
  {
  }
}
