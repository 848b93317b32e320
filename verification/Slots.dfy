/** Which slot is where: the containers of the receive pipeline as multisets of slots. */
module Slots {

  /** A datagram handed over: the slot that holds it, and its place in arrival order. */
  datatype Msg = Msg(slot: nat, id: nat)

  /** A processing goroutine: between datagrams, handling one, returning its slot, or gone. */
  datatype Hand = Idle | Holding(m: Msg) | Finished(m: Msg) | Exited

  ghost function InQueue(q: seq<Msg>): multiset<nat>
  {
    if q == [] then multiset{} else multiset{q[0].slot} + InQueue(q[1..])
  }

  ghost function InQueues(qs: seq<seq<Msg>>): multiset<nat>
  {
    if qs == [] then multiset{} else InQueue(qs[0]) + InQueues(qs[1..])
  }

  ghost function InHand(h: Hand): multiset<nat>
  {
    match h
    case Holding(m) => multiset{m.slot}
    case Finished(m) => multiset{m.slot}
    case _ => multiset{}
  }

  ghost function InHands(hs: seq<Hand>): multiset<nat>
  {
    if hs == [] then multiset{} else InHand(hs[0]) + InHands(hs[1..])
  }

  /** The slots 0..n, once each. */
  ghost function AllSlots(n: nat): multiset<nat>
  {
    if n == 0 then multiset{} else AllSlots(n - 1) + multiset{n - 1}
  }

  lemma {:induction false} AllSlotsOnce(n: nat, x: nat)
    ensures |AllSlots(n)| == n && AllSlots(n)[x] == if x < n then 1 else 0
  {
    if n > 0 { AllSlotsOnce(n - 1, x); }
  }

  lemma {:induction false} InQueueSnoc(q: seq<Msg>, m: Msg)
    ensures InQueue(q + [m]) == InQueue(q) + multiset{m.slot}
  {
    if q != [] {
      InQueueSnoc(q[1..], m);
      assert (q + [m])[1..] == q[1..] + [m];
    }
  }

  lemma {:induction false} InQueueMember(q: seq<Msg>, i: nat)
    requires i < |q|
    ensures InQueue(q)[q[i].slot] >= 1 && |InQueue(q)| == |q|
  {
    if |q| > 1 { InQueueMember(q[1..], if i == 0 then 0 else i - 1); }
  }

  lemma Regroup(a: multiset<nat>, t: multiset<nat>, x: multiset<nat>, u: multiset<nat>, y: multiset<nat>)
    requires t + x == u + y
    ensures (a + t) + x == (a + u) + y
  {
    assert (a + t) + x == a + (t + x);
    assert (a + u) + y == a + (u + y);
  }

  lemma Swap(a: multiset<nat>, r: multiset<nat>, b: multiset<nat>)
    ensures (a + r) + b == (b + r) + a
  {
  }

  /** Replacing one queue exchanges its slots and no others. */
  lemma {:induction false} InQueuesUpdate(qs: seq<seq<Msg>>, p: nat, q: seq<Msg>)
    requires p < |qs|
    ensures InQueues(qs[p := q]) + InQueue(qs[p]) == InQueues(qs) + InQueue(q)
  {
    if p == 0 {
      assert qs[0 := q][1..] == qs[1..];
      Swap(InQueue(q), InQueues(qs[1..]), InQueue(qs[0]));
    } else {
      var rest := qs[1..];
      var rest' := rest[p - 1 := q];
      InQueuesUpdate(rest, p - 1, q);
      assert qs[p := q][1..] == rest';
      Regroup(InQueue(qs[0]), InQueues(rest'), InQueue(qs[p]), InQueues(rest), InQueue(q));
    }
  }

  lemma {:induction false} InQueuesMember(qs: seq<seq<Msg>>, p: nat, x: nat)
    requires p < |qs|
    ensures InQueues(qs)[x] >= InQueue(qs[p])[x]
  {
    if p > 0 { InQueuesMember(qs[1..], p - 1, x); }
  }

  lemma Distribute(per: nat, n: nat)
    ensures per * (n + 1) == per + per * n
  {
  }

  lemma {:induction false} InQueuesBound(qs: seq<seq<Msg>>, per: nat)
    requires forall p :: 0 <= p < |qs| ==> |qs[p]| <= per
    ensures |InQueues(qs)| <= per * |qs|
  {
    if qs != [] {
      InQueuesBound(qs[1..], per);
      if qs[0] != [] { InQueueMember(qs[0], 0); }
      Distribute(per, |qs[1..]|);
    }
  }

  lemma {:induction false} InHandsUpdate(hs: seq<Hand>, p: nat, h: Hand)
    requires p < |hs|
    ensures InHands(hs[p := h]) + InHand(hs[p]) == InHands(hs) + InHand(h)
  {
    if p == 0 {
      assert hs[0 := h][1..] == hs[1..];
    } else {
      InHandsUpdate(hs[1..], p - 1, h);
      assert hs[p := h][1..] == hs[1..][p - 1 := h];
      Regroup(InHand(hs[0]), InHands(hs[1..][p - 1 := h]), InHand(hs[p]), InHands(hs[1..]), InHand(h));
    }
  }

  lemma {:induction false} InHandsMember(hs: seq<Hand>, p: nat, x: nat)
    requires p < |hs|
    ensures InHands(hs)[x] >= InHand(hs[p])[x]
  {
    if p > 0 { InHandsMember(hs[1..], p - 1, x); }
  }

  lemma {:induction false} InHandsBound(hs: seq<Hand>)
    ensures |InHands(hs)| <= |hs|
  {
    if hs != [] { InHandsBound(hs[1..]); }
  }

  // ── moving one slot ───────────────────────────────────────────────────────

  lemma Cancel(a: multiset<nat>, b: multiset<nat>, c: multiset<nat>, d: multiset<nat>)
    requires a + c == b + (c + d)
    ensures a == b + d
  {
    forall x ensures a[x] == (b + d)[x] { assert (a + c)[x] == (b + (c + d))[x]; }
  }

  lemma PushSlot(qs: seq<seq<Msg>>, p: nat, m: Msg)
    requires p < |qs|
    ensures InQueues(qs[p := qs[p] + [m]]) == InQueues(qs) + multiset{m.slot}
  {
    InQueueSnoc(qs[p], m);
    InQueuesUpdate(qs, p, qs[p] + [m]);
    Cancel(InQueues(qs[p := qs[p] + [m]]), InQueues(qs), InQueue(qs[p]), multiset{m.slot});
  }

  lemma PopSlot(qs: seq<seq<Msg>>, p: nat)
    requires p < |qs| && qs[p] != []
    ensures InQueues(qs) == InQueues(qs[p := qs[p][1..]]) + multiset{qs[p][0].slot}
  {
    var rest := qs[p := qs[p][1..]];
    InQueuesUpdate(qs, p, qs[p][1..]);
    assert InQueue(qs[p]) == InQueue(qs[p][1..]) + multiset{qs[p][0].slot};
    Cancel(InQueues(qs), InQueues(rest), InQueue(qs[p][1..]), multiset{qs[p][0].slot});
  }

  lemma GrabSlot(hs: seq<Hand>, p: nat, m: Msg)
    requires p < |hs| && hs[p].Idle?
    ensures InHands(hs[p := Holding(m)]) == InHands(hs) + multiset{m.slot}
  {
    InHandsUpdate(hs, p, Holding(m));
  }

  lemma ReleaseSlot(hs: seq<Hand>, p: nat)
    requires p < |hs| && hs[p].Finished?
    ensures InHands(hs) == InHands(hs[p := Idle]) + multiset{hs[p].m.slot}
  {
    InHandsUpdate(hs, p, Idle);
  }

  lemma KeepSlot(hs: seq<Hand>, p: nat, h: Hand)
    requires p < |hs| && InHand(h) == InHand(hs[p])
    ensures InHands(hs[p := h]) == InHands(hs)
  {
    InHandsUpdate(hs, p, h);
    Cancel(InHands(hs[p := h]), InHands(hs), InHand(h), multiset{});
  }

  /** A slot that leaves one container for another is still counted once. */
  lemma Moved(from: multiset<nat>, to: multiset<nat>, from': multiset<nat>, to': multiset<nat>,
              rest: multiset<nat>, rest': multiset<nat>, x: nat)
    requires from == from' + multiset{x} && to' == to + multiset{x}
    ensures from' + to' + rest + rest' == from + to + rest + rest'
    ensures rest + from' + to' + rest' == rest + from + to + rest'
    ensures rest + rest' + from' + to' == rest + rest' + from + to
    ensures to' + rest + rest' + from' == to + rest + rest' + from
  {
  }

  // ── the whole pipeline ────────────────────────────────────────────────────

  /** All slots held anywhere: free list, batch, queues and processors. */
  ghost function Held(free: seq<nat>, batch: seq<nat>, queues: seq<seq<Msg>>, hands: seq<Hand>): multiset<nat>
  {
    multiset(free) + multiset(batch) + InQueues(queues) + InHands(hands)
  }

  /** Splitting off the head of a list or one entry of it. */
  lemma HeadOff(q: seq<nat>)
    requires q != []
    ensures multiset(q) == multiset(q[1..]) + multiset{q[0]}
  {
    assert q == [q[0]] + q[1..];
  }

  function Without(q: seq<nat>, i: nat): seq<nat>
    requires i < |q|
  {
    q[..i] + q[i + 1..]
  }

  lemma SplitAt(q: seq<nat>, i: nat)
    requires i < |q|
    ensures multiset(q) == multiset(Without(q, i)) + multiset{q[i]}
  {
    assert q == q[..i] + [q[i]] + q[i + 1..];
  }

  /** The receiver queues the datagram of batch entry i. */
  lemma HeldPush(free: seq<nat>, batch: seq<nat>, queues: seq<seq<Msg>>, hands: seq<Hand>, i: nat, p: nat, id: nat)
    requires i < |batch| && p < |queues|
    ensures Held(free, Without(batch, i), queues[p := queues[p] + [Msg(batch[i], id)]], hands) ==
            Held(free, batch, queues, hands)
  {
    SplitAt(batch, i);
    PushSlot(queues, p, Msg(batch[i], id));
    Moved(multiset(batch), InQueues(queues), multiset(Without(batch, i)),
          InQueues(queues[p := queues[p] + [Msg(batch[i], id)]]), multiset(free), InHands(hands), batch[i]);
  }

  /** The receiver takes a free slot into its batch, at the end or in place of entry i. */
  lemma HeldFill(free: seq<nat>, batch: seq<nat>, queues: seq<seq<Msg>>, hands: seq<Hand>)
    requires free != []
    ensures Held(free[1..], batch + [free[0]], queues, hands) == Held(free, batch, queues, hands)
  {
    HeadOff(free);
    Moved(multiset(free), multiset(batch), multiset(free[1..]), multiset(batch + [free[0]]),
          InQueues(queues), InHands(hands), free[0]);
  }

  lemma HeldRefill(free: seq<nat>, batch: seq<nat>, queues: seq<seq<Msg>>, hands: seq<Hand>, i: nat)
    requires free != [] && i < |batch|
    ensures Held(free[1..], batch[i := free[0]], queues, hands) == Held(free, Without(batch, i), queues, hands)
  {
    var b := batch[i := free[0]];
    HeadOff(free);
    SplitAt(b, i);
    assert Without(b, i) == Without(batch, i);
    Moved(multiset(free), multiset(Without(batch, i)), multiset(free[1..]), multiset(b),
          InQueues(queues), InHands(hands), free[0]);
  }

  /** Processor p takes the oldest datagram of its queue. */
  lemma HeldTake(free: seq<nat>, batch: seq<nat>, queues: seq<seq<Msg>>, hands: seq<Hand>, p: nat)
    requires p < |queues| && p < |hands| && queues[p] != [] && hands[p].Idle?
    ensures Held(free, batch, queues[p := queues[p][1..]], hands[p := Holding(queues[p][0])]) ==
            Held(free, batch, queues, hands)
  {
    PopSlot(queues, p);
    GrabSlot(hands, p, queues[p][0]);
    Moved(InQueues(queues), InHands(hands), InQueues(queues[p := queues[p][1..]]),
          InHands(hands[p := Holding(queues[p][0])]), multiset(free), multiset(batch), queues[p][0].slot);
  }

  /** Processor p returns its slot to the free list. */
  lemma HeldReturn(free: seq<nat>, batch: seq<nat>, queues: seq<seq<Msg>>, hands: seq<Hand>, p: nat)
    requires p < |hands| && hands[p].Finished?
    ensures Held(free + [hands[p].m.slot], batch, queues, hands[p := Idle]) == Held(free, batch, queues, hands)
  {
    ReleaseSlot(hands, p);
    Moved(InHands(hands), multiset(free), InHands(hands[p := Idle]), multiset(free + [hands[p].m.slot]),
          multiset(batch), InQueues(queues), hands[p].m.slot);
  }

  /** Processor p goes on with the slot it has, or without any. */
  lemma HeldKeep(free: seq<nat>, batch: seq<nat>, queues: seq<seq<Msg>>, hands: seq<Hand>, p: nat, h: Hand)
    requires p < |hands| && InHand(h) == InHand(hands[p])
    ensures Held(free, batch, queues, hands[p := h]) == Held(free, batch, queues, hands)
  {
    KeepSlot(hands, p, h);
  }

  // ── what the partition implies ────────────────────────────────────────────

  lemma HeldCount(free: seq<nat>, batch: seq<nat>, queues: seq<seq<Msg>>, hands: seq<Hand>, per: nat, total: nat)
    requires Held(free, batch, queues, hands) == AllSlots(total)
    requires forall p :: 0 <= p < |queues| ==> |queues[p]| <= per
    ensures total - |batch| - per * |queues| - |hands| <= |free| <= total
    ensures forall p :: 0 <= p < |hands| && (hands[p].Holding? || hands[p].Finished?) ==> |free| < total
  {
    AllSlotsOnce(total, 0);
    InQueuesBound(queues, per);
    InHandsBound(hands);
    assert |Held(free, batch, queues, hands)| == |free| + |batch| + |InQueues(queues)| + |InHands(hands)|;
    forall p | 0 <= p < |hands| && (hands[p].Holding? || hands[p].Finished?) ensures |InHands(hands)| >= 1 {
      InHandsMember(hands, p, hands[p].m.slot);
    }
  }

  lemma {:induction false} TwiceInSeq(q: seq<nat>, j: nat, k: nat)
    requires j < k < |q| && q[j] == q[k]
    ensures multiset(q)[q[j]] >= 2
  {
    assert q == q[..k] + [q[k]] + q[k + 1..];
    assert q[..k][j] == q[j];
  }

  /** A batch slot occurs once in the batch, in no queue and with no processor. */
  lemma HeldOnce(free: seq<nat>, batch: seq<nat>, queues: seq<seq<Msg>>, hands: seq<Hand>, total: nat, j: nat)
    requires Held(free, batch, queues, hands) == AllSlots(total) && j < |batch|
    ensures forall k :: 0 <= k < |batch| && k != j ==> batch[k] != batch[j]
    ensures forall p, i :: 0 <= p < |queues| && 0 <= i < |queues[p]| ==> queues[p][i].slot != batch[j]
    ensures forall p :: 0 <= p < |hands| && (hands[p].Holding? || hands[p].Finished?) ==> hands[p].m.slot != batch[j]
  {
    var x := batch[j];
    AllSlotsOnce(total, x);
    assert Held(free, batch, queues, hands)[x] ==
           multiset(free)[x] + multiset(batch)[x] + InQueues(queues)[x] + InHands(hands)[x];
    assert x in batch;
    forall k | 0 <= k < |batch| && k != j ensures batch[k] != x {
      if batch[k] == x { TwiceInSeq(batch, if j < k then j else k, if j < k then k else j); }
    }
    forall p, i | 0 <= p < |queues| && 0 <= i < |queues[p]| ensures queues[p][i].slot != x {
      InQueueMember(queues[p], i);
      InQueuesMember(queues, p, x);
    }
    forall p | 0 <= p < |hands| && (hands[p].Holding? || hands[p].Finished?) ensures hands[p].m.slot != x {
      InHandsMember(hands, p, x);
    }
  }
}
