/**
 Endpoints of many domains, each with upstreams of its own choosing, cycles included. Any
 datagram may be delivered to any endpoint, from anywhere, any number of times or never.
 */
module Network {
  import opened Bytes
  import opened TtlStore
  import opened Wire
  import opened Server
  import Answers
  import Proxy
  import Requests

  datatype Node = Node(setup: Setup, upstreams: seq<Addr>, maxEndpoints: nat)

  /** A recovery job, the delivery that started it, and how many requests it has sent. */
  datatype Recovery = Recovery(at: nat, job: Proxy.Job, cause: nat, sent: Option<nat>)

  /** A request sent upstream, by a recovery or in the course of serving a request. */
  datatype Message = Message(to: Addr, d: seq<byte>, recovery: Option<nat>)

  datatype State = State(books: seq<Books>, delivered: seq<seq<byte>>, recoveries: seq<Recovery>,
                         messages: seq<Message>)

  datatype Step =
    | Deliver(at: nat, d: seq<byte>, src: Option<Addr>, w: World, stage: Stage, next: Books)
    | Recover(k: nat, skipped: bool, tries: seq<Proxy.Exchange>, stopAt: nat, next: Books)  // a worker's whole recovery
    | Other(at: nat, next: Books)  // ingress, clocks, sibling endpoints

  /** What `Proxy.Client.Recover` sends upstream. */
  function Inquired(node: Node, job: Proxy.Job, skipped: bool, tries: seq<Proxy.Exchange>, stopAt: nat)
    : seq<(Addr, seq<byte>)>
    requires |tries| <= |node.upstreams| && |job.subtree| == 32
  {
    if skipped then [] else Proxy.Inquiry(node.upstreams, tries, stopAt, NackBytes(Proxy.AskFor(job)))
  }

  ghost predicate Enabled(nodes: seq<Node>, s: State, step: Step)
  {
    |s.books| == |nodes| &&
    match step
    case Deliver(at, d, src, w, stage, next) =>
      at < |nodes| && |w.writes| == |w.order| && Processed(nodes[at].setup, d, src, w, stage, s.books[at], next)
    case Recover(k, skipped, tries, stopAt, next) =>
      && k < |s.recoveries| && s.recoveries[k].sent.None? && s.recoveries[k].at < |nodes|
      && var r := s.recoveries[k];
         var node, b := nodes[r.at], s.books[r.at];
         && |tries| == node.maxEndpoints <= |node.upstreams| && |r.job.subtree| == 32
         && |next.queue| <= |b.queue| && next.asked == b.asked + Inquired(node, r.job, skipped, tries, stopAt)
    case Other(at, next) =>
      at < |nodes| && |next.queue| <= |s.books[at].queue| && next.asked == s.books[at].asked
  }

  /** The jobs a delivery adds to its node's queue. */
  function Added(s: State, at: nat, next: Books): seq<Recovery>
    requires at < |s.books|
  {
    if |next.queue| > |s.books[at].queue|
    then [Recovery(at, next.queue[|s.books[at].queue|], |s.delivered|, None)] else []
  }

  /** The requests a step sends upstream. */
  function Sent(b: Books, next: Books): seq<(Addr, seq<byte>)>
  {
    if b.asked <= next.asked then next.asked[|b.asked|..] else next.asked
  }

  function Posted(asked: seq<(Addr, seq<byte>)>, k: Option<nat>): (ms: seq<Message>)
    ensures |ms| == |asked| && forall i :: 0 <= i < |ms| ==> ms[i] == Message(asked[i].0, asked[i].1, k)
  {
    if asked == [] then []
    else
      var last := asked[|asked| - 1];
      Posted(asked[..|asked| - 1], k) + [Message(last.0, last.1, k)]
  }

  ghost function Do(nodes: seq<Node>, s: State, step: Step): State
    requires Enabled(nodes, s, step)
  {
    match step
    case Deliver(at, d, src, w, stage, next) =>
      State(s.books[at := next], s.delivered + [d], s.recoveries + Added(s, at, next),
            s.messages + Posted(Sent(s.books[at], next), None))
    case Recover(k, _, _, _, next) =>
      var r := s.recoveries[k];
      var asked := Sent(s.books[r.at], next);
      State(s.books[r.at := next], s.delivered, s.recoveries[k := r.(sent := Some(|asked|))],
            s.messages + Posted(asked, Some(k)))
    case Other(at, next) => s.(books := s.books[at := next])
  }

  // ── the invariant ─────────────────────────────────────────────────────────

  /** A recovery was started by an unflagged request for its gap. */
  predicate Started(r: Recovery, delivered: seq<seq<byte>>)
  {
    && r.cause < |delivered| && ReadNack(delivered[r.cause]).Some?
    && var n := ReadNack(delivered[r.cause]).value;
       && !n.Proxied() && |r.job.subtree| == 32
       && r.job.hashKey == n.hashKey && r.job.seqNum == n.startSeq && r.job.subtree == n.subtree
  }

  ghost predicate RecoveryOk(nodes: seq<Node>, r: Recovery, delivered: seq<seq<byte>>)
  {
    && Started(r, delivered) && r.at < |nodes|
    && (r.sent.Some? ==> r.sent.value <= nodes[r.at].maxEndpoints)
  }

  ghost predicate RecoveriesOk(nodes: seq<Node>, rs: seq<Recovery>, delivered: seq<seq<byte>>)
  {
    && (forall k :: 0 <= k < |rs| ==> RecoveryOk(nodes, rs[k], delivered))
    && CausesRise(rs, |delivered|)
  }

  /** One recovery for each cause, in the order of the deliveries. */
  ghost predicate CausesRise(rs: seq<Recovery>, delivered: nat)
  {
    && (forall k :: 0 <= k < |rs| ==> rs[k].cause < delivered)
    && (forall k, l :: 0 <= k < l < |rs| ==> rs[k].cause < rs[l].cause)
  }

  function SentBy(ms: seq<Message>, k: nat): nat
  {
    if ms == [] then 0 else SentBy(ms[..|ms| - 1], k) + (if ms[|ms| - 1].recovery == Some(k) then 1 else 0)
  }

  /** The message is the request of a recovery, to an upstream of its node. */
  ghost predicate OfRecovery(nodes: seq<Node>, m: Message, rs: seq<Recovery>)
  {
    && m.recovery.Some? && m.recovery.value < |rs|
    && var r := rs[m.recovery.value];
       && |r.job.subtree| == 32 && r.at < |nodes|
       && m.d == NackBytes(Proxy.AskFor(r.job))
       && Proxy.AmongFirst(nodes[r.at].upstreams, nodes[r.at].maxEndpoints, m.to)
  }

  ghost predicate AllOfRecoveries(nodes: seq<Node>, ms: seq<Message>, rs: seq<Recovery>)
  {
    forall m :: m in ms ==> OfRecovery(nodes, m, rs)
  }

  ghost predicate Counted(ms: seq<Message>, rs: seq<Recovery>)
  {
    && (forall k :: 0 <= k < |rs| ==> SentBy(ms, k) == (if rs[k].sent.Some? then rs[k].sent.value else 0))
    && (forall k :: |rs| <= k ==> SentBy(ms, k) == 0)
  }

  /** Every message is its recovery's request, and each recovery sent as many as it says. */
  ghost predicate MessagesOk(nodes: seq<Node>, ms: seq<Message>, rs: seq<Recovery>)
  {
    AllOfRecoveries(nodes, ms, rs) && Counted(ms, rs)
  }

  /** Deliveries of requests that no proxy flagged. */
  function Unflagged(delivered: seq<seq<byte>>): nat
  {
    if delivered == [] then 0
    else
      var d := delivered[|delivered| - 1];
      Unflagged(delivered[..|delivered| - 1]) + (if ReadNack(d).Some? && !ReadNack(d).value.Proxied() then 1 else 0)
  }

  ghost predicate Inv(nodes: seq<Node>, s: State)
  {
    && RecoveriesOk(nodes, s.recoveries, s.delivered) && MessagesOk(nodes, s.messages, s.recoveries)
    && |s.recoveries| <= Unflagged(s.delivered)
  }

  lemma {:induction false} SentByMore(ms: seq<Message>, asked: seq<(Addr, seq<byte>)>, k: nat, l: nat)
    ensures SentBy(ms + Posted(asked, Some(k)), l) == SentBy(ms, l) + (if l == k then |asked| else 0)
    decreases |asked|
  {
    var all := ms + Posted(asked, Some(k));
    if asked == [] {
      assert all == ms;
    } else {
      SentByMore(ms, asked[..|asked| - 1], k, l);
      assert all[..|all| - 1] == ms + Posted(asked[..|asked| - 1], Some(k));
    }
  }

  /** What a recovery asked becomes its messages. */
  lemma RecoverMessages(nodes: seq<Node>, ms: seq<Message>, rs: seq<Recovery>, k: nat, asked: seq<(Addr, seq<byte>)>)
    requires MessagesOk(nodes, ms, rs) && k < |rs| && rs[k].sent.None? && |rs[k].job.subtree| == 32
    requires rs[k].at < |nodes|
    requires var node := nodes[rs[k].at];
             Proxy.Asked(asked, node.upstreams, NackBytes(Proxy.AskFor(rs[k].job)), node.maxEndpoints)
    ensures MessagesOk(nodes, ms + Posted(asked, Some(k)), rs[k := rs[k].(sent := Some(|asked|))])
  {
    var rs' := rs[k := rs[k].(sent := Some(|asked|))];
    forall m | m in ms + Posted(asked, Some(k)) ensures OfRecovery(nodes, m, rs') {
      if m in ms {
        OfRecoveryStays(nodes, m, rs, rs');
      } else {
        var i :| 0 <= i < |asked| && m == Posted(asked, Some(k))[i];
        assert asked[i] in asked;
      }
    }
    CountedOn(ms, rs, k, asked);
  }

  lemma OfRecoveryStays(nodes: seq<Node>, m: Message, rs: seq<Recovery>, rs': seq<Recovery>)
    requires OfRecovery(nodes, m, rs) && m.recovery.value < |rs'|
    requires rs'[m.recovery.value].job == rs[m.recovery.value].job
    requires rs'[m.recovery.value].at == rs[m.recovery.value].at
    ensures OfRecovery(nodes, m, rs')
  {
  }

  lemma CountedOn(ms: seq<Message>, rs: seq<Recovery>, k: nat, asked: seq<(Addr, seq<byte>)>)
    requires Counted(ms, rs) && k < |rs| && rs[k].sent.None?
    ensures Counted(ms + Posted(asked, Some(k)), rs[k := rs[k].(sent := Some(|asked|))])
  {
    forall l: nat
      ensures SentBy(ms + Posted(asked, Some(k)), l) == SentBy(ms, l) + (if l == k then |asked| else 0)
    {
      SentByMore(ms, asked, k, l);
    }
  }

  /** A delivery adds a recovery only for the unflagged request it delivers. */
  lemma AddedIsStarted(nodes: seq<Node>, s: State, step: Step)
    requires Enabled(nodes, s, step) && step.Deliver?
    ensures Added(s, step.at, step.next) != [] ==>
              Started(Added(s, step.at, step.next)[0], s.delivered + [step.d])
  {
    Answers.OnlyOpenMissEnqueues(nodes[step.at].setup, step.d, step.src, step.w, step.stage,
                                 s.books[step.at], step.next);
    assert (s.delivered + [step.d])[|s.delivered|] == step.d;
  }

  lemma RecoveryStays(nodes: seq<Node>, r: Recovery, delivered: seq<seq<byte>>, d: seq<byte>)
    requires RecoveryOk(nodes, r, delivered)
    ensures RecoveryOk(nodes, r, delivered + [d])
  {
  }

  lemma CausesRiseOn(rs: seq<Recovery>, delivered: nat, added: seq<Recovery>)
    requires CausesRise(rs, delivered) && |added| <= 1 && (added != [] ==> added[0].cause == delivered)
    ensures CausesRise(rs + added, delivered + 1)
  {
  }

  lemma NewRecovery(nodes: seq<Node>, rs: seq<Recovery>, delivered: seq<seq<byte>>, d: seq<byte>, added: seq<Recovery>)
    requires RecoveriesOk(nodes, rs, delivered) && |added| <= 1
    requires added != [] ==> RecoveryOk(nodes, added[0], delivered + [d]) && added[0].cause == |delivered|
    ensures RecoveriesOk(nodes, rs + added, delivered + [d])
  {
    forall k | 0 <= k < |rs + added| ensures RecoveryOk(nodes, (rs + added)[k], delivered + [d]) {
      if k < |rs| { RecoveryStays(nodes, rs[k], delivered, d); }
    }
    CausesRiseOn(rs, |delivered|, added);
  }

  lemma NewMessages(nodes: seq<Node>, ms: seq<Message>, rs: seq<Recovery>, added: seq<Recovery>)
    requires MessagesOk(nodes, ms, rs) && |added| <= 1 && (added != [] ==> added[0].sent.None?)
    ensures MessagesOk(nodes, ms, rs + added)
  {
    forall m | m in ms ensures OfRecovery(nodes, m, rs + added) {
      OfRecoveryStays(nodes, m, rs, rs + added);
    }
  }

  lemma NewDelivery(delivered: seq<seq<byte>>, d: seq<byte>)
    ensures Unflagged(delivered + [d]) >= Unflagged(delivered)
    ensures ReadNack(d).Some? && !ReadNack(d).value.Proxied() ==> Unflagged(delivered + [d]) == Unflagged(delivered) + 1
  {
  }

  lemma DeliverInv(nodes: seq<Node>, s: State, step: Step)
    requires Enabled(nodes, s, step) && step.Deliver? && Inv(nodes, s)
    ensures Inv(nodes, Do(nodes, s, step))
  {
    AddedIsStarted(nodes, s, step);
    var added := Added(s, step.at, step.next);
    NewRecovery(nodes, s.recoveries, s.delivered, step.d, added);
    NewMessages(nodes, s.messages, s.recoveries, added);
    Answers.AsksNobody(nodes[step.at].setup, step.d, step.src, step.w, step.stage, s.books[step.at], step.next);
    assert s.messages + Posted(Sent(s.books[step.at], step.next), None) == s.messages;
    NewDelivery(s.delivered, step.d);
    assert added != [] ==> (s.delivered + [step.d])[added[0].cause] == step.d;
  }

  lemma RecoverInv(nodes: seq<Node>, s: State, step: Step)
    requires Enabled(nodes, s, step) && step.Recover? && Inv(nodes, s)
    ensures Inv(nodes, Do(nodes, s, step))
  {
    var k := step.k;
    var r := s.recoveries[k];
    Proxy.InquiryAsked(nodes[r.at].upstreams, step.tries, step.stopAt, NackBytes(Proxy.AskFor(r.job)));
    var asked := Sent(s.books[r.at], step.next);
    RecoverMessages(nodes, s.messages, s.recoveries, k, asked);
    RecoverySent(nodes, s.recoveries, s.delivered, k, |asked|);
  }

  lemma RecoverySent(nodes: seq<Node>, rs: seq<Recovery>, delivered: seq<seq<byte>>, k: nat, n: nat)
    requires RecoveriesOk(nodes, rs, delivered) && k < |rs| && n <= nodes[rs[k].at].maxEndpoints
    ensures RecoveriesOk(nodes, rs[k := rs[k].(sent := Some(n))], delivered)
  {
    var rs' := rs[k := rs[k].(sent := Some(n))];
    forall l | 0 <= l < |rs| ensures RecoveryOk(nodes, rs'[l], delivered) {
      assert RecoveryOk(nodes, rs[l], delivered);
    }
  }

  lemma StepInv(nodes: seq<Node>, s: State, step: Step)
    requires Enabled(nodes, s, step) && Inv(nodes, s)
    ensures Inv(nodes, Do(nodes, s, step))
  {
    match step
    case Deliver(_, _, _, _, _, _) => DeliverInv(nodes, s, step);
    case Recover(_, _, _, _, _) => RecoverInv(nodes, s, step);
    case Other(_, _) =>
  }

  // ── runs ──────────────────────────────────────────────────────────────────

  ghost predicate Runs(nodes: seq<Node>, s: State, steps: seq<Step>, end: State)
    decreases |steps|
  {
    if steps == [] then s == end
    else Enabled(nodes, s, steps[0]) && Runs(nodes, Do(nodes, s, steps[0]), steps[1..], end)
  }

  lemma {:induction false} RunInv(nodes: seq<Node>, s: State, steps: seq<Step>, end: State)
    requires Runs(nodes, s, steps, end) && Inv(nodes, s)
    ensures Inv(nodes, end)
    decreases |steps|
  {
    if steps != [] {
      StepInv(nodes, s, steps[0]);
      RunInv(nodes, Do(nodes, s, steps[0]), steps[1..], end);
    }
  }

  /** The datagram asks for what `d` asked, flagged. */
  predicate AsksAgain(again: seq<byte>, d: seq<byte>)
  {
    && ReadNack(again).Some? && ReadNack(d).Some?
    && var n, asked := ReadNack(again).value, ReadNack(d).value;
       && n.Proxied() && n.hashKey == asked.hashKey && n.subtree == asked.subtree
       && n.startSeq == n.endSeq == asked.startSeq
  }

  /**
   Recovery `k` is the only one of the delivery that started it, that delivery was of an
   unflagged request, and it sent at most `maxEndpoints` requests, to its node's upstreams;
   each of those asks for the gap of the original request and is flagged. Nothing but
   recoveries has sent anything upstream, and nothing sent upstream could have started one.
   */
  ghost predicate OneHop(nodes: seq<Node>, s: State, k: nat)
    requires k < |s.recoveries|
  {
    var r := s.recoveries[k];
    && r.at < |nodes| && SentBy(s.messages, k) <= nodes[r.at].maxEndpoints
    && (forall l :: 0 <= l < |s.recoveries| && l != k ==> s.recoveries[l].cause != r.cause)
    && Started(r, s.delivered) && |s.recoveries| <= Unflagged(s.delivered)
    && AllOfRecoveries(nodes, s.messages, s.recoveries)
    && (forall m :: m in s.messages ==> m.d != s.delivered[r.cause])
    && (forall m :: m in s.messages && m.recovery == Some(k) ==> AsksAgain(m.d, s.delivered[r.cause]))
  }

  /** A recovery's message reads back as its request, so it is not one that started a recovery. */
  lemma MessageIsFlagged(nodes: seq<Node>, m: Message, rs: seq<Recovery>, delivered: seq<seq<byte>>, k: nat)
    requires OfRecovery(nodes, m, rs) && k < |rs| && Started(rs[k], delivered)
    ensures m.d != delivered[rs[k].cause]
    ensures m.recovery == Some(k) ==> AsksAgain(m.d, delivered[rs[k].cause])
  {
    Wire.NackReadsBack(Proxy.AskFor(rs[m.recovery.value].job));
  }

  lemma AllFlagged(nodes: seq<Node>, ms: seq<Message>, rs: seq<Recovery>, delivered: seq<seq<byte>>, k: nat)
    requires AllOfRecoveries(nodes, ms, rs) && k < |rs| && Started(rs[k], delivered)
    ensures forall m :: m in ms ==> m.d != delivered[rs[k].cause]
    ensures forall m :: m in ms && m.recovery == Some(k) ==> AsksAgain(m.d, delivered[rs[k].cause])
  {
    forall m | m in ms
      ensures m.d != delivered[rs[k].cause] && (m.recovery == Some(k) ==> AsksAgain(m.d, delivered[rs[k].cause]))
    {
      MessageIsFlagged(nodes, m, rs, delivered, k);
    }
  }

  lemma InvOneHop(nodes: seq<Node>, s: State, k: nat)
    requires Inv(nodes, s) && k < |s.recoveries|
    ensures OneHop(nodes, s, k)
  {
    assert RecoveryOk(nodes, s.recoveries[k], s.delivered);
    AllFlagged(nodes, s.messages, s.recoveries, s.delivered, k);
  }

  /**
   In every network and every run, what a request causes is one hop: its recovery's own
   requests, however often and wherever they are delivered, start no further ones.
   */
  lemma OneHopPerRequest(nodes: seq<Node>, books: seq<Books>, steps: seq<Step>, s: State, k: nat)
    requires Runs(nodes, State(books, [], [], []), steps, s) && k < |s.recoveries|
    ensures OneHop(nodes, s, k)
  {
    RunInv(nodes, State(books, [], [], []), steps, s);
    InvOneHop(nodes, s, k);
  }

  /** Every delivery of an unflagged request that misses where there is a proxy with room starts its recovery. */
  lemma MissAddsRecovery(nodes: seq<Node>, s: State, step: Step)
    requires Enabled(nodes, s, step) && step.Deliver?
    requires Requests.StartsRecovery(nodes[step.at].setup, step.d, step.w, step.stage, s.books[step.at])
    ensures Do(nodes, s, step).recoveries == s.recoveries +
            [Recovery(step.at, Proxy.Job(U64(step.d[8..16]), U64(step.d[16..24]), step.d[32..64], step.src),
                      |s.delivered|, None)]
  {
    Requests.MissStartsRecovery(nodes[step.at].setup, step.d, step.src, step.w, step.stage, s.books[step.at],
                                step.next);
  }
}
