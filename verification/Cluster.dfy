/**
 Any number of endpoints answering requests and re-injecting recovered frames over one
 shared claim store, every backend operation and every socket write a step of its own.
 */
module Cluster {
  import opened Bytes
  import opened TtlStore
  import opened Frames
  import opened Wire
  import Claims
  import Ingress

  /** `route` says where the endpoint multicasts a frame, if anywhere. */
  datatype Endpoint = Endpoint(modes: Modes, sockets: nat, window: int, route: seq<byte> -> Option<bv32>)

  /** An order in which a map of `n` sockets may be gone through. */
  predicate IsOrder(order: seq<nat>, n: nat)
  {
    && |order| == n && (forall k :: 0 <= k < n ==> k in order) && (forall a :: 0 <= a < n ==> order[a] < n)
    && (forall a, b :: 0 <= a < b < n ==> order[a] != order[b])
  }

  datatype Phase = Claiming | Writing(n: nat) | Unicasting | Answering | Over

  /**
   A hit being served, or a recovered frame being re-injected (`answering` false); `wrote`
   counts the sockets that have the frame.
   */
  datatype Job = Job(at: nat, key: seq<byte>, raw: seq<byte>, order: seq<nat>, answering: bool, proxied: bool,
                     known: bool, phase: Phase, wrote: nat, multicast: bool, unicast: bool)

  datatype Copy = Copy(job: nat, raw: seq<byte>, group: bv32, socket: nat)

  datatype AckSent = AckSent(job: nat, flags: byte, seqNum: uint64)

  /** `own` holds the frame caches of endpoints that do not keep frames in the shared backend. */
  datatype State = State(c: Claims.State, own: map<nat, Entries>, jobs: seq<Job>, wire: seq<Copy>, acks: seq<AckSent>)

  datatype Step =
    | Cache(e: nat, raw: seq<byte>, ttl: int, link: Link)       // ingress, or a proxy re-cache
    | Ask(e: nat, hashKey: uint64, seqNum: uint64, proxied: bool, known: bool, order: seq<nat>)
    | Recovered(e: nat, raw: seq<byte>, known: bool, order: seq<nat>)
    | Claim(i: nat, link: Link)
    | Write(i: nat, ok: bool)
    | Unicast(i: nat, ok: bool)
    | Answer(i: nat)
    | ProxyOp(op: Op, link: Link)
    | Tick(d: nat)

  function FramesOf(s: State, e: nat): Entries
  {
    if e in s.own then s.own[e] else s.c.m
  }

  function StartPhase(ep: Endpoint): Phase
  {
    if ep.modes.multicast then Claiming else Unicasting
  }

  /** Where a job goes when its multicast could not be routed or written. */
  function Broken(j: Job): Phase
  {
    if j.answering then Over else Unicasting
  }

  predicate Enabled(eps: seq<Endpoint>, s: State, step: Step)
  {
    match step
    case Cache(e, raw, _, _) => e < |eps| && Framed(raw)
    case Ask(e, hashKey, seqNum, _, _, order) =>
      && e < |eps| && IsOrder(order, eps[e].sockets)
      && Live(FramesOf(s, e), Full(Space.Frames, FlowKey(hashKey, seqNum)), s.c.now)
    case Recovered(e, raw, _, order) =>
      e < |eps| && IsOrder(order, eps[e].sockets) && Framed(raw) && |raw| >= HEADER_SIZE
    case Claim(i, _) =>
      i < |s.jobs| && s.jobs[i].phase == Claiming && s.jobs[i].at < |eps| && eps[s.jobs[i].at].window > 0
    case Write(i, _) => i < |s.jobs| && s.jobs[i].phase.Writing? && s.jobs[i].at < |eps|
    case Unicast(i, _) => i < |s.jobs| && s.jobs[i].phase == Unicasting && s.jobs[i].at < |eps|
    case Answer(i) => i < |s.jobs| && s.jobs[i].phase == Answering && s.jobs[i].at < |eps| && |s.jobs[i].key| == 16
    case ProxyOp(_, _) => true
    case Tick(_) => true
  }

  function TakeFor(eps: seq<Endpoint>, j: Job, i: nat, link: Link): Claims.Event
    requires j.at < |eps|
  {
    Claims.Take(i, j.key, eps[j.at].window, link)
  }

  function AfterClaim(eps: seq<Endpoint>, s: State, i: nat, link: Link): Job
    requires Enabled(eps, s, Claim(i, link))
  {
    var j := s.jobs[i];
    j.(phase := if !Claims.Told(s.c, TakeFor(eps, j, i, link), Space.Dedup) then Unicasting
                else if eps[j.at].route(j.raw).None? then Broken(j)
                else Writing(0))
  }

  /** One write, or the end of the loop once every socket has its copy. */
  function Written(j: Job, ok: bool): Job
    requires j.phase.Writing?
  {
    if j.phase.n >= |j.order| then j.(phase := Unicasting, multicast := true)
    else if ok then j.(phase := Writing(j.phase.n + 1), wrote := j.wrote + 1)
    else j.(phase := Broken(j))
  }

  function CopyOf(eps: seq<Endpoint>, j: Job, i: nat, ok: bool): seq<Copy>
    requires j.at < |eps| && j.phase.Writing?
  {
    if j.phase.n < |j.order| && ok && eps[j.at].route(j.raw).Some?
    then [Copy(i, j.raw, eps[j.at].route(j.raw).value, j.order[j.phase.n])] else []
  }

  function Unicasted(eps: seq<Endpoint>, j: Job, ok: bool): Job
    requires j.at < |eps|
  {
    var proxied := j.answering && j.proxied;
    j.(phase := if j.answering then Answering else Over, unicast := eps[j.at].modes.Unicasts(proxied, j.known) && ok)
  }

  function AckOf(eps: seq<Endpoint>, j: Job, i: nat): seq<AckSent>
    requires j.at < |eps| && |j.key| == 16
  {
    var flags := AckFlags(j.multicast, j.unicast);
    if eps[j.at].modes.Acks(j.proxied, j.known, flags) then [AckSent(i, flags, U64(j.key[8..]))] else []
  }

  function Do(eps: seq<Endpoint>, s: State, step: Step): State
    requires Enabled(eps, s, step)
  {
    match step
    case Cache(e, raw, ttl, link) =>
      var op := Set(KeyBytes(raw), raw, ttl);
      if e in s.own then s.(own := s.own[e := Effect(s.own[e], Within(Space.Frames, op), s.c.now, link)])
      else s.(c := Claims.Do(s.c, Claims.Other(Space.Frames, op, link), Space.Dedup))
    case Ask(e, hashKey, seqNum, proxied, known, order) =>
      var key := FlowKey(hashKey, seqNum);
      s.(jobs := s.jobs + [Job(e, key, FramesOf(s, e)[Full(Space.Frames, key)].value, order, true, proxied, known,
                               StartPhase(eps[e]), 0, false, false)])
    case Recovered(e, raw, known, order) =>
      s.(jobs := s.jobs + [Job(e, KeyBytes(raw), raw, order, false, false, known, StartPhase(eps[e]), 0, false, false)])
    case Claim(i, link) =>
      s.(c := Claims.Do(s.c, TakeFor(eps, s.jobs[i], i, link), Space.Dedup),
         jobs := s.jobs[i := AfterClaim(eps, s, i, link)])
    case Write(i, ok) =>
      s.(jobs := s.jobs[i := Written(s.jobs[i], ok)], wire := s.wire + CopyOf(eps, s.jobs[i], i, ok))
    case Unicast(i, ok) => s.(jobs := s.jobs[i := Unicasted(eps, s.jobs[i], ok)])
    case Answer(i) =>
      s.(jobs := s.jobs[i := s.jobs[i].(phase := Over)], acks := s.acks + AckOf(eps, s.jobs[i], i))
    case ProxyOp(op, link) => s.(c := Claims.Do(s.c, Claims.Other(Space.Proxy, op, link), Space.Dedup))
    case Tick(d) => s.(c := Claims.Do(s.c, Claims.Tick(d), Space.Dedup))
  }

  // ── caches keep their frames under the frames' own keys ───────────────────

  ghost predicate CachesOk(s: State)
  {
    Ingress.SelfKeyed(s.c.m) && forall e :: e in s.own ==> Ingress.SelfKeyed(s.own[e])
  }

  lemma CacheCachesOk(eps: seq<Endpoint>, s: State, e: nat, raw: seq<byte>, ttl: int, link: Link)
    requires Enabled(eps, s, Cache(e, raw, ttl, link)) && CachesOk(s)
    ensures CachesOk(Do(eps, s, Cache(e, raw, ttl, link)))
  {
    Ingress.FrameWriteSelfKeyed(FramesOf(s, e), raw, s.c.now + ttl);
  }

  lemma ClaimCachesOk(eps: seq<Endpoint>, s: State, i: nat, link: Link)
    requires Enabled(eps, s, Claim(i, link)) && CachesOk(s)
    ensures CachesOk(Do(eps, s, Claim(i, link)))
  {
    var op := SetNX(s.jobs[i].key, CLAIMED, eps[s.jobs[i].at].window);
    Ingress.OtherSpaceSameFrames(s.c.m, Space.Dedup, op, s.c.now, link);
  }

  lemma StepCachesOk(eps: seq<Endpoint>, s: State, step: Step)
    requires Enabled(eps, s, step) && CachesOk(s)
    ensures CachesOk(Do(eps, s, step))
  {
    match step
    case Cache(e, raw, ttl, link) => CacheCachesOk(eps, s, e, raw, ttl, link);
    case Claim(i, link) => ClaimCachesOk(eps, s, i, link);
    case ProxyOp(op, link) => Ingress.OtherSpaceSameFrames(s.c.m, Space.Proxy, op, s.c.now, link);
    case _ => assert Do(eps, s, step).c.m == s.c.m && Do(eps, s, step).own == s.own;
  }

  lemma StepClaims(eps: seq<Endpoint>, s: State, step: Step)
    requires Enabled(eps, s, step) && Claims.Inv(s.c, Space.Dedup)
    ensures Claims.Inv(Do(eps, s, step).c, Space.Dedup)
  {
    match step
    case Cache(e, raw, ttl, link) =>
      if e !in s.own {
        Claims.StepInv(s.c, Claims.Other(Space.Frames, Set(KeyBytes(raw), raw, ttl), link), Space.Dedup);
      }
    case Claim(i, link) => Claims.StepInv(s.c, TakeFor(eps, s.jobs[i], i, link), Space.Dedup);
    case ProxyOp(op, link) => Claims.StepInv(s.c, Claims.Other(Space.Proxy, op, link), Space.Dedup);
    case Tick(d) => Claims.StepInv(s.c, Claims.Tick(d), Space.Dedup);
    case _ =>
  }

  // ── jobs, claims and copies ───────────────────────────────────────────────

  /** Job `i` was told that it took a claim. */
  ghost predicate Owns(log: seq<Claims.Claim>, i: nat)
  {
    exists k :: 0 <= k < |log| && log[k].told && log[k].who == i
  }

  ghost predicate CopiesOut(ep: Endpoint, j: Job, i: nat, wire: seq<Copy>, n: nat)
    requires n <= |j.order|
  {
    ep.route(j.raw).Some? && forall k :: 0 <= k < n ==> Copy(i, j.raw, ep.route(j.raw).value, j.order[k]) in wire
  }

  /** How far the job's writes got: all the way only if its loop has ended or is about to. */
  predicate Progress(j: Job)
  {
    && j.wrote <= |j.order|
    && (j.phase == Claiming ==> j.wrote == 0) && (j.phase.Writing? ==> j.wrote == j.phase.n)
    && (j.multicast ==> j.wrote == |j.order|)
    && (j.wrote == |j.order| > 0 ==> j.multicast || j.phase == Writing(|j.order|))
  }

  /** A job that is writing, or has written, owns a claim and has written that far. */
  ghost predicate JobOk(eps: seq<Endpoint>, j: Job, i: nat, log: seq<Claims.Claim>, wire: seq<Copy>)
  {
    && j.at < |eps| && Ingress.KeyedBy(j.raw, j.key) && IsOrder(j.order, eps[j.at].sockets) && Progress(j)
    && (j.phase.Writing? || j.multicast || j.wrote > 0 ==>
          Owns(log, i) && CopiesOut(eps[j.at], j, i, wire, j.wrote))
  }

  ghost predicate JobsOk(eps: seq<Endpoint>, jobs: seq<Job>, log: seq<Claims.Claim>, wire: seq<Copy>)
  {
    forall i :: 0 <= i < |jobs| ==> JobOk(eps, jobs[i], i, log, wire)
  }

  /** A claim granted to a job is for that job's key, and no job is granted two. */
  ghost predicate LogOk(log: seq<Claims.Claim>, jobs: seq<Job>)
  {
    && (forall k :: 0 <= k < |log| ==>
          log[k].who < |jobs| && jobs[log[k].who].key == log[k].key && jobs[log[k].who].phase != Claiming)
    && (forall k, l :: 0 <= k < l < |log| ==> log[k].who != log[l].who)
  }

  predicate WroteTo(j: Job, socket: nat)
  {
    exists k :: 0 <= k < |j.order| && k < j.wrote && j.order[k] == socket
  }

  /** A copy on the wire is its job's frame, on a socket the job has written to. */
  ghost predicate CopyOk(w: Copy, jobs: seq<Job>, log: seq<Claims.Claim>)
  {
    && w.job < |jobs| && w.raw == jobs[w.job].raw && Owns(log, w.job)
    && WroteTo(jobs[w.job], w.socket)
  }

  ghost predicate WireOk(wire: seq<Copy>, jobs: seq<Job>, log: seq<Claims.Claim>)
  {
    forall w :: w in wire ==> CopyOk(w, jobs, log)
  }

  ghost predicate AcksOk(acks: seq<AckSent>, jobs: seq<Job>)
  {
    forall a :: a in acks ==>
      && a.job < |jobs| && |jobs[a.job].key| == 16 && a.seqNum == U64(jobs[a.job].key[8..])
      && (a.flags & ACK_MULTICAST != 0 ==> jobs[a.job].multicast)
  }

  ghost predicate Inv(eps: seq<Endpoint>, s: State)
  {
    && Claims.Inv(s.c, Space.Dedup) && CachesOk(s)
    && JobsOk(eps, s.jobs, s.c.log, s.wire) && LogOk(s.c.log, s.jobs)
    && WireOk(s.wire, s.jobs, s.c.log) && AcksOk(s.acks, s.jobs)
  }

  /** What a step may do to the jobs already there. */
  predicate Later(a: Job, b: Job)
  {
    && b.at == a.at && b.key == a.key && b.raw == a.raw && b.order == a.order && a.wrote <= b.wrote
    && (a.multicast ==> b.multicast) && (a.phase != Claiming ==> b.phase != Claiming)
  }

  ghost predicate Advanced(jobs: seq<Job>, jobs': seq<Job>)
  {
    |jobs| <= |jobs'| && forall i :: 0 <= i < |jobs| ==> Later(jobs[i], jobs'[i])
  }

  /** The job a step moves. */
  function Moved(step: Step): Option<nat>
  {
    match step
    case Claim(i, _) => Some(i)
    case Write(i, _) => Some(i)
    case Unicast(i, _) => Some(i)
    case Answer(i) => Some(i)
    case _ => None
  }

  lemma MovedAdvances(eps: seq<Endpoint>, s: State, step: Step)
    requires Enabled(eps, s, step) && Moved(step).Some?
    ensures Advanced(s.jobs, Do(eps, s, step).jobs)
  {
    var t, i := Do(eps, s, step), Moved(step).value;
    assert t.jobs == s.jobs[i := t.jobs[i]];
  }

  lemma StepAdvances(eps: seq<Endpoint>, s: State, step: Step)
    requires Enabled(eps, s, step)
    ensures Advanced(s.jobs, Do(eps, s, step).jobs)
    ensures s.c.log <= Do(eps, s, step).c.log
    ensures s.wire <= Do(eps, s, step).wire
  {
    if Moved(step).Some? {
      MovedAdvances(eps, s, step);
    } else {
      assert s.jobs <= Do(eps, s, step).jobs;
    }
  }

  lemma OwnsGrows(log: seq<Claims.Claim>, log': seq<Claims.Claim>, i: nat)
    requires log <= log' && Owns(log, i)
    ensures Owns(log', i)
  {
  }

  /** A job that did not move stays as good as it was. */
  lemma JobOkGrows(eps: seq<Endpoint>, j: Job, i: nat, log: seq<Claims.Claim>, log': seq<Claims.Claim>,
                   wire: seq<Copy>, wire': seq<Copy>)
    requires JobOk(eps, j, i, log, wire) && log <= log' && wire <= wire'
    ensures JobOk(eps, j, i, log', wire')
  {
  }

  lemma WireOkGrows(wire: seq<Copy>, jobs: seq<Job>, jobs': seq<Job>, log: seq<Claims.Claim>, log': seq<Claims.Claim>)
    requires WireOk(wire, jobs, log) && Advanced(jobs, jobs') && log <= log'
    ensures WireOk(wire, jobs', log')
  {
  }

  lemma AcksOkGrows(acks: seq<AckSent>, jobs: seq<Job>, jobs': seq<Job>)
    requires AcksOk(acks, jobs) && Advanced(jobs, jobs')
    ensures AcksOk(acks, jobs')
  {
  }

  lemma LogOkGrows(log: seq<Claims.Claim>, jobs: seq<Job>, jobs': seq<Job>)
    requires LogOk(log, jobs) && Advanced(jobs, jobs')
    ensures LogOk(log, jobs')
  {
  }

  // ── each invariant through each step ──────────────────────────────────────

  lemma MovedOk(eps: seq<Endpoint>, s: State, step: Step)
    requires Enabled(eps, s, step) && JobsOk(eps, s.jobs, s.c.log, s.wire) && Moved(step).Some?
    ensures var t := Do(eps, s, step);
            JobOk(eps, t.jobs[Moved(step).value], Moved(step).value, t.c.log, t.wire)
  {
    var t, i := Do(eps, s, step), Moved(step).value;
    StepAdvances(eps, s, step);
    assert JobOk(eps, s.jobs[i], i, s.c.log, s.wire);
    JobOkGrows(eps, s.jobs[i], i, s.c.log, t.c.log, s.wire, t.wire);
    if step.Claim? && t.jobs[i].phase.Writing? {
      Claims.ToldIsGranted(s.c, TakeFor(eps, s.jobs[i], i, step.link), Space.Dedup);
      assert t.c.log[|s.c.log|].who == i;
    } else if step.Write? && t.jobs[i].phase.Writing? {
      var j := s.jobs[i];
      assert CopiesOut(eps[j.at], j, i, t.wire, j.wrote);
      assert t.wire[|s.wire|] == Copy(i, j.raw, eps[j.at].route(j.raw).value, j.order[j.wrote]);
    }
  }

  lemma StartedOk(eps: seq<Endpoint>, s: State, step: Step)
    requires Enabled(eps, s, step) && CachesOk(s) && (step.Ask? || step.Recovered?)
    ensures JobOk(eps, Do(eps, s, step).jobs[|s.jobs|], |s.jobs|, s.c.log, s.wire)
  {
  }

  lemma StepJobsOk(eps: seq<Endpoint>, s: State, step: Step)
    requires Enabled(eps, s, step) && CachesOk(s) && JobsOk(eps, s.jobs, s.c.log, s.wire)
    ensures var t := Do(eps, s, step); JobsOk(eps, t.jobs, t.c.log, t.wire)
  {
    var t := Do(eps, s, step);
    StepAdvances(eps, s, step);
    forall i | 0 <= i < |t.jobs| ensures JobOk(eps, t.jobs[i], i, t.c.log, t.wire) {
      if Moved(step) == Some(i) {
        MovedOk(eps, s, step);
      } else if i < |s.jobs| {
        assert t.jobs[i] == s.jobs[i];
        JobOkGrows(eps, s.jobs[i], i, s.c.log, t.c.log, s.wire, t.wire);
      } else {
        StartedOk(eps, s, step);
      }
    }
  }

  lemma ClaimLogOk(eps: seq<Endpoint>, s: State, i: nat, link: Link)
    requires Enabled(eps, s, Claim(i, link)) && LogOk(s.c.log, s.jobs)
    ensures var t := Do(eps, s, Claim(i, link)); LogOk(t.c.log, t.jobs)
  {
  }

  lemma StepLogOk(eps: seq<Endpoint>, s: State, step: Step)
    requires Enabled(eps, s, step) && LogOk(s.c.log, s.jobs)
    ensures var t := Do(eps, s, step); LogOk(t.c.log, t.jobs)
  {
    if step.Claim? {
      ClaimLogOk(eps, s, step.i, step.link);
    } else {
      StepAdvances(eps, s, step);
      assert Do(eps, s, step).c.log == s.c.log;
      LogOkGrows(s.c.log, s.jobs, Do(eps, s, step).jobs);
    }
  }

  lemma StepWireOk(eps: seq<Endpoint>, s: State, step: Step)
    requires Enabled(eps, s, step) && JobsOk(eps, s.jobs, s.c.log, s.wire) && WireOk(s.wire, s.jobs, s.c.log)
    ensures var t := Do(eps, s, step); WireOk(t.wire, t.jobs, t.c.log)
  {
    var t := Do(eps, s, step);
    StepAdvances(eps, s, step);
    WireOkGrows(s.wire, s.jobs, t.jobs, s.c.log, t.c.log);
    if step.Write? {
      assert JobOk(eps, s.jobs[step.i], step.i, s.c.log, s.wire);
      OwnsGrows(s.c.log, t.c.log, step.i);
    }
  }

  lemma StepAcksOk(eps: seq<Endpoint>, s: State, step: Step)
    requires Enabled(eps, s, step) && AcksOk(s.acks, s.jobs)
    ensures AcksOk(Do(eps, s, step).acks, Do(eps, s, step).jobs)
  {
    var t := Do(eps, s, step);
    StepAdvances(eps, s, step);
    AcksOkGrows(s.acks, s.jobs, t.jobs);
    if step.Answer? {
      FlagsTellSends(s.jobs[step.i].multicast, s.jobs[step.i].unicast);
    }
  }

  lemma StepInv(eps: seq<Endpoint>, s: State, step: Step)
    requires Enabled(eps, s, step) && Inv(eps, s)
    ensures Inv(eps, Do(eps, s, step))
  {
    StepClaims(eps, s, step);
    StepCachesOk(eps, s, step);
    StepJobsOk(eps, s, step);
    StepLogOk(eps, s, step);
    StepWireOk(eps, s, step);
    StepAcksOk(eps, s, step);
  }

  // ── runs ──────────────────────────────────────────────────────────────────

  ghost predicate Runs(eps: seq<Endpoint>, s: State, steps: seq<Step>, end: State)
    decreases |steps|
  {
    if steps == [] then s == end
    else Enabled(eps, s, steps[0]) && Runs(eps, Do(eps, s, steps[0]), steps[1..], end)
  }

  lemma {:induction false} RunsThen(eps: seq<Endpoint>, s: State, xs: seq<Step>, t: State, ys: seq<Step>, u: State)
    requires Runs(eps, s, xs, t) && Runs(eps, t, ys, u)
    ensures Runs(eps, s, xs + ys, u)
    decreases |xs|
  {
    if xs == [] {
      assert xs + ys == ys;
    } else {
      assert (xs + ys)[1..] == xs[1..] + ys;
      RunsThen(eps, Do(eps, s, xs[0]), xs[1..], t, ys, u);
    }
  }

  lemma RunsBefore(eps: seq<Endpoint>, s: State, step: Step, t: State, rest: seq<Step>, u: State)
    requires Enabled(eps, s, step) && Do(eps, s, step) == t && Runs(eps, t, rest, u)
    ensures Runs(eps, s, [step] + rest, u)
  {
    assert ([step] + rest)[1..] == rest;
  }

  lemma RunsOne(eps: seq<Endpoint>, s: State, step: Step)
    requires Enabled(eps, s, step)
    ensures Runs(eps, s, [step], Do(eps, s, step))
  {
    assert [step][1..] == [];
  }

  /** Nothing cached, claimed, under way or sent yet. */
  function Start(now: int, local: set<nat>): State
  {
    State(Claims.State(map[], now, []), map e | e in local :: map[], [], [], [])
  }

  lemma {:induction false} RunInv(eps: seq<Endpoint>, s: State, steps: seq<Step>, end: State)
    requires Inv(eps, s) && Runs(eps, s, steps, end)
    ensures Inv(eps, end)
    decreases |steps|
  {
    if steps != [] {
      StepInv(eps, s, steps[0]);
      RunInv(eps, Do(eps, s, steps[0]), steps[1..], end);
    }
  }

  /** The claims of two different jobs, the later one after the earlier one's window. */
  predicate WindowApart(a: Claims.Claim, b: Claims.Claim)
  {
    a.Until() <= b.at || b.Until() <= a.at
  }

  /** In every run, two sends of one flow key by different jobs rest on claims a window apart. */
  lemma SendsRestOnSeparateClaims(eps: seq<Endpoint>, now: int, local: set<nat>, steps: seq<Step>, s: State,
                                  v: Copy, w: Copy)
    requires Runs(eps, Start(now, local), steps, s)
    requires v in s.wire && w in s.wire && v.job != w.job && |v.raw| >= 56 && |w.raw| >= 56
    requires KeyBytes(v.raw) == KeyBytes(w.raw)
    ensures exists a, b :: a in s.c.log && b in s.c.log && a.told && b.told && a.who == v.job && b.who == w.job
                           && a.key == b.key == KeyBytes(v.raw) && WindowApart(a, b)
  {
    RunInv(eps, Start(now, local), steps, s);
    assert Owns(s.c.log, v.job) && Owns(s.c.log, w.job);
    var k :| 0 <= k < |s.c.log| && s.c.log[k].told && s.c.log[k].who == v.job;
    var l :| 0 <= l < |s.c.log| && s.c.log[l].told && s.c.log[l].who == w.job;
    assert JobOk(eps, s.jobs[v.job], v.job, s.c.log, s.wire) && JobOk(eps, s.jobs[w.job], w.job, s.c.log, s.wire);
    assert s.c.log[k].key == s.c.log[l].key == KeyBytes(v.raw);
    assert WindowApart(s.c.log[k], s.c.log[l]) by { assert Claims.Spaced(s.c.log); }
    assert s.c.log[k] in s.c.log && s.c.log[l] in s.c.log;
  }

  /** A job that went through its whole order has a copy on every socket. */
  lemma EverySocket(ep: Endpoint, j: Job, i: nat, wire: seq<Copy>)
    requires IsOrder(j.order, ep.sockets) && CopiesOut(ep, j, i, wire, |j.order|)
    ensures forall k :: 0 <= k < ep.sockets ==> Copy(i, j.raw, ep.route(j.raw).value, k) in wire
  {
    forall k | 0 <= k < ep.sockets ensures Copy(i, j.raw, ep.route(j.raw).value, k) in wire {
      assert k in j.order;
    }
  }

  /**
   In every run, an ACK that says "multicast" comes from a job that itself took the claim
   on the key it was asked for, and put the frame of that key on every socket of its
   endpoint.
   */
  lemma FlaggedAckIsTrue(eps: seq<Endpoint>, now: int, local: set<nat>, steps: seq<Step>, s: State, a: AckSent)
    requires Runs(eps, Start(now, local), steps, s)
    requires a in s.acks && a.flags & ACK_MULTICAST != 0
    ensures a.job < |s.jobs| && s.jobs[a.job].at < |eps|
    ensures var j := s.jobs[a.job];
            && (exists c :: c in s.c.log && c.told && c.who == a.job && c.key == j.key)
            && Ingress.KeyedBy(j.raw, j.key) && U64(j.key[8..]) == a.seqNum
            && eps[j.at].route(j.raw).Some?
            && forall k :: 0 <= k < eps[j.at].sockets ==> Copy(a.job, j.raw, eps[j.at].route(j.raw).value, k) in s.wire
  {
    RunInv(eps, Start(now, local), steps, s);
    var j := s.jobs[a.job];
    assert JobOk(eps, j, a.job, s.c.log, s.wire);
    var k :| 0 <= k < |s.c.log| && s.c.log[k].told && s.c.log[k].who == a.job;
    assert s.c.log[k] in s.c.log && s.c.log[k].key == j.key;
    EverySocket(eps[j.at], j, a.job, s.wire);
  }
}
