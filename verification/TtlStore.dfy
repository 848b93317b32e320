/**
 The backend contract the endpoint relies on: a map whose entries expire, with an
 atomic set-if-absent, reached over a link that may fail before or after it acts.
 */
module TtlStore {
  import opened Bytes

  datatype Option<+T> = None | Some(value: T)

  datatype Entry = Entry(value: seq<byte>, expiry: int)

  type Entries = map<seq<byte>, Entry>

  /** The value a claim is stored with. */
  const CLAIMED: seq<byte> := [0x31]

  /** An entry counts while its time has not run out. */
  predicate Live(m: Entries, k: seq<byte>, now: int)
  {
    k in m && now < m[k].expiry
  }

  datatype Op =
    | Get(key: seq<byte>)
    | Set(key: seq<byte>, value: seq<byte>, ttl: int)
    | Del(key: seq<byte>)
    | SetNX(key: seq<byte>, value: seq<byte>, ttl: int)

  /**
   How the link treats an operation: it works, it fails before the backend acts, or it
   fails after. A failed SetNX may still report the claim it took (`tell`).
   */
  datatype Link = Works | Lost | Late(tell: bool)

  /** What the caller sees: the value got, whether a SetNX won, and whether it errored. */
  datatype Reply = Reply(found: Option<seq<byte>>, won: bool, err: bool)

  /** The backend after the operation has acted. */
  function Acted(m: Entries, op: Op, now: int): Entries
  {
    match op
    case Get(_) => m
    case Set(k, v, ttl) => m[k := Entry(v, now + ttl)]
    case Del(k) => m - {k}
    case SetNX(k, v, ttl) => if Live(m, k, now) then m else m[k := Entry(v, now + ttl)]
  }

  function Effect(m: Entries, op: Op, now: int, link: Link): Entries
  {
    if link == Lost then m else Acted(m, op, now)
  }

  function Answer(m: Entries, op: Op, now: int, link: Link): Reply
  {
    var won := op.SetNX? && !Live(m, op.key, now);
    match link
    case Works => Reply(if op.Get? && Live(m, op.key, now) then Some(m[op.key].value) else None, won, false)
    case Lost => Reply(None, false, true)
    case Late(tell) => Reply(None, won && tell, true)
  }

  /**
   What a later Get of `j` finds once an operation has acted: the value put there until its
   time is over, nothing where it was deleted, and under every other key what was there.
   */
  lemma GetAfter(m: Entries, op: Op, now: int, j: seq<byte>, later: int)
    requires now <= later
    ensures var found := Answer(Effect(m, op, now, Works), Get(j), later, Works).found;
            var before := Answer(m, Get(j), later, Works).found;
            && (j != op.key || op.Get? ==> found == before)
            && (j == op.key && op.Set? ==> found == if later < now + op.ttl then Some(op.value) else None)
            && (j == op.key && op.Del? ==> found == None)
            && (j == op.key && op.SetNX? && Answer(m, op, now, Works).won ==>
                  found == if later < now + op.ttl then Some(op.value) else None)
            && (op.SetNX? && !Answer(m, op, now, Works).won ==> Effect(m, op, now, Works) == m)
            && (op.SetNX? ==> (Answer(m, op, now, Works).won <==> Answer(m, Get(op.key), now, Works).found == None))
  {
  }

  /** A SetNX that reports success took the claim itself, and holds it for its whole time. */
  lemma ClaimTaken(m: Entries, k: seq<byte>, v: seq<byte>, ttl: int, now: int, link: Link)
    requires Answer(m, SetNX(k, v, ttl), now, link).won
    ensures !Live(m, k, now)
    ensures Effect(m, SetNX(k, v, ttl), now, link) == m[k := Entry(v, now + ttl)]
  {
  }

  // ── one backend behind several prefixes ───────────────────────────────────

  datatype Space = Frames | Dedup | Proxy

  function Prefix(s: Space): (p: seq<byte>)
    ensures |p| == 10
  {
    var tail := match s
      case Frames => [0x66, 0x72, 0x61, 0x6D, 0x65]  // frame
      case Dedup => [0x64, 0x65, 0x64, 0x75, 0x70]   // dedup
      case Proxy => [0x70, 0x72, 0x6F, 0x78, 0x79];  // proxy
    [0x62, 0x72, 0x65, 0x3A] + tail + [0x3A]         // bre:<tail>:
  }

  function Full(s: Space, k: seq<byte>): seq<byte>
  {
    Prefix(s) + k
  }

  /** Keys of different spaces never meet, and a full key determines the short one. */
  lemma FullInjective(s: Space, k: seq<byte>, t: Space, l: seq<byte>)
    requires Full(s, k) == Full(t, l)
    ensures s == t && k == l
  {
    assert Full(s, k)[..10] == Prefix(s) && Full(t, l)[..10] == Prefix(t);
    assert Prefix(s)[4] == Prefix(t)[4];
    assert Full(s, k)[10..] == k && Full(t, l)[10..] == l;
  }

  function Within(s: Space, op: Op): Op
  {
    op.(key := Full(s, op.key))
  }

  datatype Request = Request(space: Space, op: Op, now: int, link: Link)

  /** Three stores that share nothing. */
  datatype Apart = Apart(frames: Entries, dedup: Entries, proxy: Entries) {
    function At(s: Space): Entries
    {
      match s case Frames => frames case Dedup => dedup case Proxy => proxy
    }

    function Updated(s: Space, m: Entries): (r: Apart)
      ensures r.At(s) == m && forall t :: t != s ==> r.At(t) == At(t)
    {
      match s case Frames => this.(frames := m) case Dedup => this.(dedup := m) case Proxy => this.(proxy := m)
    }
  }

  function SharedReplies(m: Entries, reqs: seq<Request>): seq<Reply>
    decreases |reqs|
  {
    if reqs == [] then []
    else
      var r := reqs[0];
      [Answer(m, Within(r.space, r.op), r.now, r.link)]
      + SharedReplies(Effect(m, Within(r.space, r.op), r.now, r.link), reqs[1..])
  }

  function ApartReplies(a: Apart, reqs: seq<Request>): seq<Reply>
    decreases |reqs|
  {
    if reqs == [] then []
    else
      var r := reqs[0];
      [Answer(a.At(r.space), r.op, r.now, r.link)]
      + ApartReplies(a.Updated(r.space, Effect(a.At(r.space), r.op, r.now, r.link)), reqs[1..])
  }

  /** What the shared backend holds under a prefix is what the separate store holds. */
  ghost predicate Shows(m: Entries, s: Space, a: Entries)
  {
    forall k :: (k in a <==> Full(s, k) in m) && (k in a ==> a[k] == m[Full(s, k)])
  }

  ghost predicate ShowsAll(m: Entries, a: Apart)
  {
    forall s :: Shows(m, s, a.At(s))
  }

  /** A write under one view's key changes what that view shows there, and nothing else. */
  lemma PutShowsIn(m: Entries, a: Entries, t: Space, s: Space, k: seq<byte>, e: Entry)
    requires Shows(m, t, a)
    ensures Shows(m[Full(s, k) := e], t, if t == s then a[k := e] else a)
  {
    var m', a' := m[Full(s, k) := e], if t == s then a[k := e] else a;
    forall l ensures (l in a' <==> Full(t, l) in m') && (l in a' ==> a'[l] == m'[Full(t, l)]) {
      if Full(t, l) == Full(s, k) { FullInjective(t, l, s, k); }
    }
  }

  lemma CutShowsIn(m: Entries, a: Entries, t: Space, s: Space, k: seq<byte>)
    requires Shows(m, t, a)
    ensures Shows(m - {Full(s, k)}, t, if t == s then a - {k} else a)
  {
    var m', a' := m - {Full(s, k)}, if t == s then a - {k} else a;
    forall l ensures (l in a' <==> Full(t, l) in m') && (l in a' ==> a'[l] == m'[Full(t, l)]) {
      if Full(t, l) == Full(s, k) { FullInjective(t, l, s, k); }
    }
  }

  lemma PutShows(m: Entries, a: Apart, s: Space, k: seq<byte>, e: Entry)
    requires ShowsAll(m, a)
    ensures ShowsAll(m[Full(s, k) := e], a.Updated(s, a.At(s)[k := e]))
  {
    var m', a' := m[Full(s, k) := e], a.Updated(s, a.At(s)[k := e]);
    forall t ensures Shows(m', t, a'.At(t)) {
      PutShowsIn(m, a.At(t), t, s, k, e);
    }
  }

  lemma CutShows(m: Entries, a: Apart, s: Space, k: seq<byte>)
    requires ShowsAll(m, a)
    ensures ShowsAll(m - {Full(s, k)}, a.Updated(s, a.At(s) - {k}))
  {
    var m', a' := m - {Full(s, k)}, a.Updated(s, a.At(s) - {k});
    forall t ensures Shows(m', t, a'.At(t)) {
      CutShowsIn(m, a.At(t), t, s, k);
    }
  }

  lemma SameShows(m: Entries, a: Apart, s: Space)
    requires ShowsAll(m, a)
    ensures ShowsAll(m, a.Updated(s, a.At(s)))
  {
  }

  lemma SameLive(m: Entries, a: Apart, s: Space, k: seq<byte>, now: int)
    requires ShowsAll(m, a)
    ensures Live(m, Full(s, k), now) == Live(a.At(s), k, now)
    ensures Live(a.At(s), k, now) ==> m[Full(s, k)] == a.At(s)[k]
  {
  }

  lemma ActedShows(m: Entries, a: Apart, s: Space, op: Op, now: int)
    requires ShowsAll(m, a)
    ensures ShowsAll(Acted(m, Within(s, op), now), a.Updated(s, Acted(a.At(s), op, now)))
  {
    var m', a' := Acted(m, Within(s, op), now), Acted(a.At(s), op, now);
    SameLive(m, a, s, op.key, now);
    if op.Get? || (op.SetNX? && Live(a.At(s), op.key, now)) {
      assert m' == m && a' == a.At(s);
      SameShows(m, a, s);
    } else if op.Del? {
      assert m' == m - {Full(s, op.key)} && a' == a.At(s) - {op.key};
      CutShows(m, a, s, op.key);
    } else {
      var e := Entry(op.value, now + op.ttl);
      assert m' == m[Full(s, op.key) := e] && a' == a.At(s)[op.key := e];
      PutShows(m, a, s, op.key, e);
    }
  }

  /** One request through a view has the answer and the effect it has on the store alone. */
  lemma StepShows(m: Entries, a: Apart, r: Request)
    requires ShowsAll(m, a)
    ensures Answer(m, Within(r.space, r.op), r.now, r.link) == Answer(a.At(r.space), r.op, r.now, r.link)
    ensures ShowsAll(Effect(m, Within(r.space, r.op), r.now, r.link),
                     a.Updated(r.space, Effect(a.At(r.space), r.op, r.now, r.link)))
  {
    SameLive(m, a, r.space, r.op.key, r.now);
    if r.link == Lost { SameShows(m, a, r.space); } else { ActedShows(m, a, r.space, r.op, r.now); }
  }

  /**
   However the requests of the three views interleave over one backend, each view
   answers as if it had a store of its own, for keys of any length.
   */
  lemma {:induction false} ViewsAreIndependent(m: Entries, a: Apart, reqs: seq<Request>)
    requires ShowsAll(m, a)
    ensures SharedReplies(m, reqs) == ApartReplies(a, reqs)
    decreases |reqs|
  {
    if reqs != [] {
      var r := reqs[0];
      StepShows(m, a, r);
      ViewsAreIndependent(Effect(m, Within(r.space, r.op), r.now, r.link),
                          a.Updated(r.space, Effect(a.At(r.space), r.op, r.now, r.link)), reqs[1..]);
    }
  }
}
