/**
 The pre-lookup tiers over whole server runs: many workers, each passing the sequence
 tier and then the chain tier at its own moments, in any order.
 */
module TierRuns {
  import opened Bytes
  import opened WindowSpec
  import opened Limits

  datatype Stage = Waiting | Refused | LookedUp(at: int)

  /** A request the sequence tier admitted at `seqAt`. */
  datatype Passed = Passed(key: SeqKey, ip: seq<byte>, seqAt: int, stage: Stage)

  datatype State = State(tiers: Tiers, passed: seq<Passed>)

  datatype Step =
    | Arrive(key: SeqKey, ip: seq<byte>, ipOk: bool, now: int)  // IP and sequence tiers
    | Charge(i: nat, now: int)                                // chain tier, then the lookup

  function FlowOf(p: Passed): ChainKey
  {
    ChainKey(IpKey(p.ip), p.key.hashKey)
  }

  predicate Enabled(s: State, step: Step)
  {
    step.Charge? ==> step.i < |s.passed| && s.passed[step.i].stage == Waiting
  }

  function Do(s: State, step: Step, g: Settings): State
    requires Enabled(s, step)
  {
    match step
    case Arrive(key, ip, ipOk, now) =>
      if !ipOk then s
      else
        State(s.tiers.AfterSequence(g, key, now),
              if s.tiers.SequenceOpen(g, key, now) then s.passed + [Passed(key, ip, now, Waiting)] else s.passed)
    case Charge(i, now) =>
      var p := s.passed[i];
      var ok := s.tiers.ChainOpen(g, p.ip, p.key.hashKey, now);
      State(s.tiers.AfterChain(g, p.ip, p.key.hashKey, now),
            s.passed[i := p.(stage := if ok then LookedUp(now) else Refused)])
  }

  /** A request the sequence tier or an earlier one refuses never reaches the chain tier. */
  lemma RefusedLeavesLaterTiers(s: State, step: Step, g: Settings)
    requires Enabled(s, step) && step.Arrive?
    ensures Do(s, step, g).tiers.chains == s.tiers.chains
    ensures !step.ipOk ==> Do(s, step, g) == s
    ensures |Do(s, step, g).passed| > |s.passed| <==>
              step.ipOk && |After(Of(s.tiers.seqs, step.key), step.now - g.sequenceWindow)| < g.sequenceMax
  {
  }

  // ── counting requests and lookups ─────────────────────────────────────────

  predicate SeqHit(p: Passed, key: SeqKey, lo: int, hi: int)
  {
    p.key == key && lo < p.seqAt <= hi
  }

  predicate ChainHit(p: Passed, flow: ChainKey, lo: int, hi: int)
  {
    p.stage.LookedUp? && FlowOf(p) == flow && lo < p.stage.at <= hi
  }

  /** Requests for `key` that passed the sequence tier in (lo, hi]. */
  function PassedIn(ps: seq<Passed>, key: SeqKey, lo: int, hi: int): nat
  {
    if ps == [] then 0
    else PassedIn(ps[..|ps| - 1], key, lo, hi) + (if SeqHit(ps[|ps| - 1], key, lo, hi) then 1 else 0)
  }

  /** Of those, the ones that reached the cache. */
  function LookupsIn(ps: seq<Passed>, key: SeqKey, lo: int, hi: int): (n: nat)
    ensures n <= PassedIn(ps, key, lo, hi)
  {
    if ps == [] then 0
    else LookupsIn(ps[..|ps| - 1], key, lo, hi)
         + (if SeqHit(ps[|ps| - 1], key, lo, hi) && ps[|ps| - 1].stage.LookedUp? then 1 else 0)
  }

  /** Lookups one source made for one flow, by when they passed the chain tier. */
  function FlowLookupsIn(ps: seq<Passed>, flow: ChainKey, lo: int, hi: int): nat
  {
    if ps == [] then 0
    else FlowLookupsIn(ps[..|ps| - 1], flow, lo, hi) + (if ChainHit(ps[|ps| - 1], flow, lo, hi) then 1 else 0)
  }

  lemma PassedSnoc(ps: seq<Passed>, p: Passed, key: SeqKey, flow: ChainKey, lo: int, hi: int)
    ensures PassedIn(ps + [p], key, lo, hi) == PassedIn(ps, key, lo, hi) + (if SeqHit(p, key, lo, hi) then 1 else 0)
    ensures FlowLookupsIn(ps + [p], flow, lo, hi)
            == FlowLookupsIn(ps, flow, lo, hi) + (if ChainHit(p, flow, lo, hi) then 1 else 0)
  {
  }

  lemma {:induction false} PassedUpdate(ps: seq<Passed>, i: nat, st: Stage, key: SeqKey, flow: ChainKey,
                                        lo: int, hi: int)
    requires i < |ps| && !ps[i].stage.LookedUp?
    ensures var ps' := ps[i := ps[i].(stage := st)];
            && PassedIn(ps', key, lo, hi) == PassedIn(ps, key, lo, hi)
            && FlowLookupsIn(ps', flow, lo, hi)
               == FlowLookupsIn(ps, flow, lo, hi) + (if ChainHit(ps'[i], flow, lo, hi) then 1 else 0)
    decreases |ps|
  {
    var ps', n := ps[i := ps[i].(stage := st)], |ps| - 1;
    if i == n {
      assert ps'[..n] == ps[..n];
    } else {
      PassedUpdate(ps[..n], i, st, key, flow, lo, hi);
      assert ps'[..n] == ps[..n][i := ps[..n][i].(stage := st)];
    }
  }

  // ── the invariant ─────────────────────────────────────────────────────────

  /** Every admission of a key is one request, and both tiers keep within their rates. */
  ghost predicate SeqOk(s: State, g: Settings, key: SeqKey)
  {
    && WithinRate(s.tiers.seqs, key, g.sequenceWindow, g.sequenceMax)
    && forall lo, hi :: PassedIn(s.passed, key, lo, hi) == CountIn(Of(s.tiers.seqs, key), lo, hi)
  }

  /** Every admission of a flow is one lookup. */
  ghost predicate ChainOk(s: State, g: Settings, flow: ChainKey)
  {
    && WithinRate(s.tiers.chains, flow, g.chainWindow, g.chainMax)
    && (flow.hashKey != 0 ==>
          forall lo, hi :: FlowLookupsIn(s.passed, flow, lo, hi) == CountIn(Of(s.tiers.chains, flow), lo, hi))
  }

  lemma StepSeqOk(s: State, step: Step, g: Settings, key: SeqKey)
    requires Enabled(s, step) && SeqOk(s, g, key)
    ensures SeqOk(Do(s, step, g), g, key)
  {
    var t := Do(s, step, g);
    var none := ChainKey([], 0);
    if step.Arrive? {
      RateNext(s.tiers.seqs, Call(step.key, step.now), key, g.sequenceWindow, g.sequenceMax);
    }
    forall lo, hi ensures PassedIn(t.passed, key, lo, hi) == CountIn(Of(t.tiers.seqs, key), lo, hi) {
      assert PassedIn(s.passed, key, lo, hi) == CountIn(Of(s.tiers.seqs, key), lo, hi);
      if step.Charge? {
        PassedUpdate(s.passed, step.i, t.passed[step.i].stage, key, none, lo, hi);
      } else if |t.passed| > |s.passed| {
        PassedSnoc(s.passed, Passed(step.key, step.ip, step.now, Waiting), key, none, lo, hi);
        CountInSnoc(Of(s.tiers.seqs, key), step.now, lo, hi);
      }
    }
  }

  lemma StepChainOk(s: State, step: Step, g: Settings, flow: ChainKey)
    requires Enabled(s, step) && ChainOk(s, g, flow)
    ensures ChainOk(Do(s, step, g), g, flow)
  {
    var t := Do(s, step, g);
    var none := SeqKey(0, 0);
    if step.Charge? {
      RateNext(s.tiers.chains, Call(FlowOf(s.passed[step.i]), step.now), flow, g.chainWindow, g.chainMax);
    }
    if flow.hashKey != 0 {
      forall lo, hi ensures FlowLookupsIn(t.passed, flow, lo, hi) == CountIn(Of(t.tiers.chains, flow), lo, hi) {
        assert FlowLookupsIn(s.passed, flow, lo, hi) == CountIn(Of(s.tiers.chains, flow), lo, hi);
        if step.Charge? {
          PassedUpdate(s.passed, step.i, t.passed[step.i].stage, none, flow, lo, hi);
          CountInSnoc(Of(s.tiers.chains, flow), step.now, lo, hi);
        } else if |t.passed| > |s.passed| {
          PassedSnoc(s.passed, Passed(step.key, step.ip, step.now, Waiting), none, flow, lo, hi);
        }
      }
    }
  }

  // ── runs ──────────────────────────────────────────────────────────────────

  ghost predicate Runs(s: State, steps: seq<Step>, g: Settings, t: State)
    decreases |steps|
  {
    if steps == [] then s == t
    else Enabled(s, steps[0]) && Runs(Do(s, steps[0], g), steps[1..], g, t)
  }

  lemma {:induction false} RunOk(s: State, steps: seq<Step>, g: Settings, t: State, key: SeqKey, flow: ChainKey)
    requires Runs(s, steps, g, t) && SeqOk(s, g, key) && ChainOk(s, g, flow)
    ensures SeqOk(t, g, key) && ChainOk(t, g, flow)
    decreases |steps|
  {
    if steps != [] {
      StepSeqOk(s, steps[0], g, key);
      StepChainOk(s, steps[0], g, flow);
      RunOk(Do(s, steps[0], g), steps[1..], g, t, key, flow);
    }
  }

  /**
   In every run, however the workers interleave: at most `sequenceMax` lookups of one
   (HashKey, StartSeq) pass in any interval of the sequence window, and at most
   `chainMax` lookups of one source for one stamped flow in any chain window.
   */
  lemma LookupsAreBounded(steps: seq<Step>, g: Settings, t: State, key: SeqKey, flow: ChainKey, lo: int)
    requires Runs(State(Tiers(map[], map[]), []), steps, g, t) && g.chainMax >= 1
    ensures LookupsIn(t.passed, key, lo, lo + g.sequenceWindow) <= (if g.sequenceMax > 0 then g.sequenceMax else 0)
    ensures flow.hashKey != 0 ==> FlowLookupsIn(t.passed, flow, lo, lo + g.chainWindow) <= g.chainMax
  {
    RunOk(State(Tiers(map[], map[]), []), steps, g, t, key, flow);
    assert Load(t.tiers.seqs, key, lo, g.sequenceWindow) <= (if g.sequenceMax > 0 then g.sequenceMax else 0);
    assert Load(t.tiers.chains, flow, lo, g.chainWindow) <= g.chainMax;
  }

  // ── the limiters that sweep and compact ───────────────────────────────────

  /** No step is made at an earlier time than one before it. */
  ghost predicate InTime(steps: seq<Step>, from: int)
  {
    steps != [] ==> from <= steps[0].now && InTime(steps[1..], steps[0].now)
  }

  /** One step on a real limiter: the verdict, as the request's new stage. */
  method StepOn(l: Limiter, step: Step, passed: seq<Passed>) returns (next: seq<Passed>)
    requires l.Valid() && l.sequence.past.clock <= step.now && l.chain.past.clock <= step.now
    requires Enabled(State(l.Knows(), passed), step)
    modifies l.sequence.Repr, l.chain.Repr
    ensures l.Valid() && l.sequence.past.clock <= step.now && l.chain.past.clock <= step.now
    ensures State(l.Knows(), next) == Do(State(old(l.Knows()), passed), step, l.Limits())
    ensures fresh(l.sequence.Repr - old(l.sequence.Repr))
    ensures fresh(l.chain.Repr - old(l.chain.Repr))
  {
    next := passed;
    match step
    case Arrive(key, ip, ipOk, now) =>
      var level := l.Allow(ipOk, key.hashKey, key.seqNum, now);
      if level == Admitted {
        next := passed + [Passed(key, ip, now, Waiting)];
      }
    case Charge(i, now) =>
      var p := passed[i];
      var ok := l.AllowChain(p.ip, p.key.hashKey, now);
      next := passed[i := p.(stage := if ok then LookedUp(now) else Refused)];
  }

  /**
   Any interleaving of workers, on limiters that sweep, compact, shrink and rebuild, ends
   with the state and the lookups of the reference tiers.
   */
  method RunOn(l: Limiter, steps: seq<Step>, passed: seq<Passed>, from: int, ghost t: State) returns (out: seq<Passed>)
    requires l.Valid() && l.sequence.past.clock <= from && l.chain.past.clock <= from && InTime(steps, from)
    requires Runs(State(l.Knows(), passed), steps, l.Limits(), t)
    modifies l.sequence.Repr, l.chain.Repr
    ensures l.Valid() && State(l.Knows(), out) == t
    decreases |steps|
  {
    if steps == [] {
      return passed;
    }
    var next := StepOn(l, steps[0], passed);
    out := RunOn(l, steps[1..], next, steps[0].now, t);
  }

  /** The same from a limiter as it is built. */
  method RunFrom(c: Config, steps: seq<Step>, ghost t: State) returns (out: seq<Passed>)
    requires InTime(steps, 0) && Runs(State(Tiers(map[], map[]), []), steps, Settle(c), t)
    ensures out == t.passed
  {
    var l := new Limiter(c);
    out := RunOn(l, steps, [], 0, t);
  }

  /** The bounds on lookups, for a limiter as it is configured and run. */
  method LimiterBoundsLookups(c: Config, steps: seq<Step>, ghost t: State, ghost key: SeqKey, ghost flow: ChainKey,
                              ghost lo: int) returns (out: seq<Passed>)
    requires InTime(steps, 0) && Runs(State(Tiers(map[], map[]), []), steps, Settle(c), t)
    ensures out == t.passed
    ensures var g := Settle(c);
            && LookupsIn(out, key, lo, lo + g.sequenceWindow) <= (if g.sequenceMax > 0 then g.sequenceMax else 0)
            && (flow.hashKey != 0 ==> FlowLookupsIn(out, flow, lo, lo + g.chainWindow) <= g.chainMax)
  {
    out := RunFrom(c, steps, t);
    LookupsAreBounded(steps, Settle(c), t, key, flow, lo);
  }

  /** A request that goes straight through both tiers gets the verdict, and leaves the state, of one judgement. */
  lemma AskedInOneGo(s: State, a: Ask, g: Settings)
    ensures var level := Judge(s.tiers, g, a);
            var t := Do(s, Arrive(SeqKey(a.hashKey, a.seqNum), a.ip, a.ipOk, a.seqAt), g);
            && (level in {IP, Sequence} ==> t == s.(tiers := Judged(s.tiers, g, a)))
            && (level in {Chain, Admitted} ==>
                  && Enabled(t, Charge(|s.passed|, a.chainAt))
                  && var u := Do(t, Charge(|s.passed|, a.chainAt), g);
                     && u.tiers == Judged(s.tiers, g, a) && |u.passed| == |s.passed| + 1
                     && (u.passed[|s.passed|].stage.LookedUp? <==> level == Admitted))
  {
  }
}
