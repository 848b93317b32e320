/** What a suppressed send may conclude about the sibling that holds the claim. */
module Suppression {
  import opened Bytes
  import opened TtlStore
  import opened Frames
  import opened Cluster
  import Claims

  /** Job `h` has a copy of its frame on every socket of its endpoint. */
  ghost predicate OnWire(eps: seq<Endpoint>, s: State, h: nat)
    requires h < |s.jobs| && s.jobs[h].at < |eps|
  {
    forall k :: 0 <= k < eps[s.jobs[h].at].sockets ==> HasCopy(s.wire, h, k)
  }

  predicate HasCopy(wire: seq<Copy>, h: nat, socket: nat)
  {
    exists w :: w in wire && w.job == h && w.socket == socket
  }

  /** The holder learnt of its claim, and its loop over the sockets has nothing left to write. */
  predicate AllWritten(eps: seq<Endpoint>, s: State, c: Claims.Claim)
    requires c.who < |s.jobs| && s.jobs[c.who].at < |eps|
  {
    var j := s.jobs[c.who];
    c.told && (j.multicast || j.phase == Writing(eps[j.at].sockets))
  }

  lemma UntoldHasNoCopy(s: State, k: nat)
    requires LogOk(s.c.log, s.jobs) && WireOk(s.wire, s.jobs, s.c.log) && k < |s.c.log| && !s.c.log[k].told
    ensures forall w :: w in s.wire ==> w.job != s.c.log[k].who
  {
    forall w | w in s.wire ensures w.job != s.c.log[k].who {
      assert CopyOk(w, s.jobs, s.c.log);
      var l :| 0 <= l < |s.c.log| && s.c.log[l].told && s.c.log[l].who == w.job;
    }
  }

  lemma UnfinishedLacksOne(eps: seq<Endpoint>, s: State, h: nat)
    requires h < |s.jobs| && JobOk(eps, s.jobs[h], h, s.c.log, s.wire) && WireOk(s.wire, s.jobs, s.c.log)
    requires s.jobs[h].wrote < |s.jobs[h].order|
    ensures !HasCopy(s.wire, h, s.jobs[h].order[s.jobs[h].wrote])
  {
    var j := s.jobs[h];
    forall w | w in s.wire && w.job == h ensures w.socket != j.order[j.wrote] {
      assert CopyOk(w, s.jobs, s.c.log);
      var k :| 0 <= k < |j.order| && k < j.wrote && j.order[k] == w.socket;
      assert j.order[k] != j.order[j.wrote];
    }
  }

  lemma OnWireIffAllWritten(eps: seq<Endpoint>, s: State, k: nat)
    requires Inv(eps, s) && k < |s.c.log| && s.c.log[k].who < |s.jobs|
    requires s.jobs[s.c.log[k].who].at < |eps| && eps[s.jobs[s.c.log[k].who].at].sockets > 0
    ensures OnWire(eps, s, s.c.log[k].who) <==> AllWritten(eps, s, s.c.log[k])
  {
    var c := s.c.log[k];
    var j := s.jobs[c.who];
    assert JobOk(eps, j, c.who, s.c.log, s.wire);
    if !c.told {
      UntoldHasNoCopy(s, k);
      assert !HasCopy(s.wire, c.who, 0);
    } else if j.wrote < |j.order| {
      UnfinishedLacksOne(eps, s, c.who);
      assert 0 <= j.order[j.wrote] < eps[j.at].sockets;
    } else {
      EverySocket(eps[j.at], j, c.who, s.wire);
      forall m | 0 <= m < eps[j.at].sockets ensures HasCopy(s.wire, c.who, m) {
        assert Copy(c.who, j.raw, eps[j.at].route(j.raw).value, m) in s.wire;
      }
    }
  }

  /**
   In every run, a job whose claim is answered and refused was refused by a claim of its
   own key that still runs; the frame is on every socket of that claim's endpoint if and
   only if the claimant learnt that it won and has written to them all.
   */
  lemma SuppressedByHolder(eps: seq<Endpoint>, now: int, local: set<nat>, steps: seq<Step>, s: State, i: nat)
    requires Runs(eps, Start(now, local), steps, s) && Enabled(eps, s, Claim(i, Works))
    requires !Claims.Told(s.c, TakeFor(eps, s.jobs[i], i, Works), Space.Dedup)
    requires forall e :: 0 <= e < |eps| ==> eps[e].sockets > 0
    ensures exists k :: 0 <= k < |s.c.log| && Holder(eps, s, i, k)
  {
    RunInv(eps, Start(now, local), steps, s);
    Claims.RefusedIffRunning(s.c, TakeFor(eps, s.jobs[i], i, Works), Space.Dedup);
    var k :| 0 <= k < |s.c.log| && s.c.log[k].key == s.jobs[i].key && s.c.now < s.c.log[k].Until();
    assert JobOk(eps, s.jobs[s.c.log[k].who], s.c.log[k].who, s.c.log, s.wire);
    OnWireIffAllWritten(eps, s, k);
    assert Holder(eps, s, i, k);
  }

  /** Claim `k` is the running one on the key of job `i`, and its copies are where it says. */
  ghost predicate Holder(eps: seq<Endpoint>, s: State, i: nat, k: nat)
  {
    && i < |s.jobs| && k < |s.c.log| && s.c.log[k].key == s.jobs[i].key && s.c.now < s.c.log[k].Until()
    && s.c.log[k].who < |s.jobs| && s.jobs[s.c.log[k].who].at < |eps|
    && (OnWire(eps, s, s.c.log[k].who) <==> AllWritten(eps, s, s.c.log[k]))
  }

  /** Claim `k` is a running one on the key of job `i`. */
  ghost predicate RunsFor(s: State, i: nat, k: nat)
  {
    i < |s.jobs| && k < |s.c.log| && s.c.log[k].key == s.jobs[i].key && s.c.now < s.c.log[k].Until()
  }

  /**
   A send is suppressed on a refusal and on any error in asking. In every run, whatever
   the link, the frame of some running claim of its key is on every socket of that claim's
   endpoint if and only if some running claimant of the key learnt that it won and has
   written to them all.
   */
  lemma SuppressedIsSentIff(eps: seq<Endpoint>, now: int, local: set<nat>, steps: seq<Step>, s: State, i: nat,
                            link: Link)
    requires Runs(eps, Start(now, local), steps, s) && Enabled(eps, s, Claim(i, link))
    requires !Claims.Told(s.c, TakeFor(eps, s.jobs[i], i, link), Space.Dedup)
    requires forall e :: 0 <= e < |eps| ==> eps[e].sockets > 0
    ensures forall k :: 0 <= k < |s.c.log| ==> s.c.log[k].who < |s.jobs| && s.jobs[s.c.log[k].who].at < |eps|
    ensures (exists k: nat :: RunsFor(s, i, k) && OnWire(eps, s, s.c.log[k].who))
            <==> (exists k: nat :: RunsFor(s, i, k) && AllWritten(eps, s, s.c.log[k]))
  {
    RunInv(eps, Start(now, local), steps, s);
    forall k | 0 <= k < |s.c.log|
      ensures s.c.log[k].who < |s.jobs| && s.jobs[s.c.log[k].who].at < |eps|
      ensures OnWire(eps, s, s.c.log[k].who) <==> AllWritten(eps, s, s.c.log[k])
    {
      assert JobOk(eps, s.jobs[s.c.log[k].who], s.c.log[k].who, s.c.log, s.wire);
      OnWireIffAllWritten(eps, s, k);
    }
  }

  // ── a suppressed send that nobody made ────────────────────────────────────

  /** One frame in the shared backend, and nothing else yet. */
  function Cached(raw: seq<byte>, now: int): State
    requires |raw| >= 56
  {
    Start(now, {}).(c := Claims.State(map[Full(Space.Frames, KeyBytes(raw)) := Entry(raw, now + 1)], now, []))
  }

  function JobFor(ep: Endpoint, raw: seq<byte>, order: seq<nat>): Job
    requires |raw| >= 56
  {
    Job(0, KeyBytes(raw), raw, order, true, false, false, StartPhase(ep), 0, false, false)
  }

  /** A request for the cached frame starts a job. */
  lemma AskRun(ep: Endpoint, s: State, raw: seq<byte>, order: seq<nat>) returns (steps: seq<Step>)
    requires Framed(raw) && IsOrder(order, ep.sockets) && 0 !in s.own
    requires Full(Space.Frames, KeyBytes(raw)) in s.c.m
    requires s.c.m[Full(Space.Frames, KeyBytes(raw))] == Entry(raw, s.c.now + 1)
    ensures Runs([ep], s, steps, s.(jobs := s.jobs + [JobFor(ep, raw, order)]))
  {
    FieldsMakeKey(raw);
    var ask := Ask(0, U64(raw[40..48]), U64(raw[48..56]), false, false, order);
    RunsOne([ep], s, ask);
    steps := [ask];
  }

  /** A claim whose answer is lost is entered, and the frame stays. */
  lemma ClaimLost(ep: Endpoint, s: State, raw: seq<byte>) returns (t: State)
    requires ep.window > 0 && |raw| >= 56 && Enabled([ep], s, Claim(0, Late(false)))
    requires s.jobs[0].key == KeyBytes(raw) && !Live(s.c.m, Full(Space.Dedup, KeyBytes(raw)), s.c.now)
    requires Full(Space.Frames, KeyBytes(raw)) in s.c.m
    ensures Runs([ep], s, [Claim(0, Late(false))], t)
    ensures t.wire == s.wire && t.own == s.own && |t.jobs| == |s.jobs| && t.c.now == s.c.now
    ensures Live(t.c.m, Full(Space.Dedup, KeyBytes(raw)), s.c.now)
    ensures Full(Space.Frames, KeyBytes(raw)) in t.c.m
    ensures t.c.m[Full(Space.Frames, KeyBytes(raw))] == s.c.m[Full(Space.Frames, KeyBytes(raw))]
  {
    if Full(Space.Frames, KeyBytes(raw)) == Full(Space.Dedup, KeyBytes(raw)) {
      FullInjective(Space.Frames, KeyBytes(raw), Space.Dedup, KeyBytes(raw));
    }
    t := Do([ep], s, Claim(0, Late(false)));
    RunsOne([ep], s, Claim(0, Late(false)));
  }

  /** The claim of the first job is entered but its answer is lost. */
  lemma LostClaimRun(ep: Endpoint, raw: seq<byte>, order: seq<nat>, now: int) returns (steps: seq<Step>, t: State)
    requires ep.modes.multicast && ep.window > 0 && Framed(raw) && IsOrder(order, ep.sockets)
    ensures Runs([ep], Start(now, {}), steps, t) && t.wire == [] && 0 !in t.own && |t.jobs| == 1 && t.c.now == now
    ensures Live(t.c.m, Full(Space.Dedup, KeyBytes(raw)), now)
    ensures Full(Space.Frames, KeyBytes(raw)) in t.c.m
    ensures t.c.m[Full(Space.Frames, KeyBytes(raw))] == Entry(raw, now + 1)
  {
    var s0, s1 := Start(now, {}), Cached(raw, now);
    assert Do([ep], s0, Cache(0, raw, 1, Works)) == s1;
    RunsOne([ep], s0, Cache(0, raw, 1, Works));
    assert Full(Space.Dedup, KeyBytes(raw)) !in s1.c.m by {
      if Full(Space.Frames, KeyBytes(raw)) == Full(Space.Dedup, KeyBytes(raw)) {
        FullInjective(Space.Frames, KeyBytes(raw), Space.Dedup, KeyBytes(raw));
      }
    }
    var asked := AskRun(ep, s1, raw, order);
    var s2 := s1.(jobs := s1.jobs + [JobFor(ep, raw, order)]);
    RunsThen([ep], s0, [Cache(0, raw, 1, Works)], s1, asked, s2);
    t := ClaimLost(ep, s2, raw);
    RunsThen([ep], s0, [Cache(0, raw, 1, Works)] + asked, s2, [Claim(0, Late(false))], t);
    steps := [Cache(0, raw, 1, Works)] + asked + [Claim(0, Late(false))];
  }

  /**
   The answer to the first claim is lost, so its job goes without; the second job finds
   the claim taken and is suppressed, though no copy of the frame ever left.
   */
  lemma LostAnswerSuppressesAll(ep: Endpoint, raw: seq<byte>, order: seq<nat>, now: int)
    returns (steps: seq<Step>, s: State)
    requires ep.modes.multicast && ep.window > 0 && Framed(raw) && IsOrder(order, ep.sockets)
    ensures Runs([ep], Start(now, {}), steps, s) && Enabled([ep], s, Claim(1, Works))
    ensures !Claims.Told(s.c, TakeFor([ep], s.jobs[1], 1, Works), Space.Dedup)
    ensures s.jobs[1].raw == raw && s.wire == []
  {
    var first, mid := LostClaimRun(ep, raw, order, now);
    var asked := AskRun(ep, mid, raw, order);
    s := mid.(jobs := mid.jobs + [JobFor(ep, raw, order)]);
    RunsThen([ep], Start(now, {}), first, mid, asked, s);
    steps := first + asked;
  }
}
