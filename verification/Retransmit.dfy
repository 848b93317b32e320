/** Where a cached frame is sent again, and the claim that comes before a multicast send. */
module Retransmit {
  import opened Bytes
  import opened TtlStore
  import opened Cache
  import opened Frames
  import opened Wire
  import Ingress

  const BLOCK_BROADCAST: bv32 := 0xFFFE
  const SUBTREE_ANNOUNCE: bv32 := 0xFFFB
  const ZERO_ID: seq<byte> := [0, 0, 0, 0, 0, 0, 0, 0, 0, 0, 0, 0, 0, 0, 0, 0,
                               0, 0, 0, 0, 0, 0, 0, 0, 0, 0, 0, 0, 0, 0, 0, 0]

  /** The group index derivations: by TxID, and by TopicID when the BEEF plane is on. */
  datatype Planes = Planes(shard: seq<byte> -> bv32, beef: Option<seq<byte> -> bv32>)

  /** Bytes 8..40 of a frame, or zeros when it is too short to have them. */
  function TxIDOf(raw: seq<byte>): (id: seq<byte>)
    ensures |id| == 32
  {
    if |raw| >= 40 then raw[8..40] else ZERO_ID
  }

  /** The group a fragment is sent to, by the class of its original. */
  function FragmentGroup(p: Planes, h: Header): Option<bv32>
  {
    if h.origVer == VER_BLOCK || h.origVer == VER_ANCHOR then Some(BLOCK_BROADCAST)
    else if h.origVer == VER_SUBTREE then Some(SUBTREE_ANNOUNCE)
    else if h.origVer == VER_BEEF then
      if p.beef.None? then None else Some(p.beef.value(h.subtreeID))  // the TopicID rides the SubtreeID slot
    else Some(p.shard(h.txID))
  }

  /** The group a cached frame is sent to, or nothing when it cannot be routed. */
  function TargetGroup(p: Planes, codec: Codec, raw: seq<byte>, txID: seq<byte>): Option<bv32>
  {
    if |raw| < 7 then Some(p.shard(txID))
    else if raw[6] == VER_BLOCK || raw[6] == VER_ANCHOR then Some(BLOCK_BROADCAST)
    else if raw[6] == VER_SUBTREE then Some(SUBTREE_ANNOUNCE)
    else if raw[6] == VER_BEEF then
      if p.beef.None? || |raw| < 88 then None else Some(p.beef.value(raw[56..88]))
    else if raw[6] == VER_FRAGMENT && codec.decode(Fragment, raw).Some? then
      FragmentGroup(p, codec.decode(Fragment, raw).value)
    else if raw[6] == VER_BUNDLE && |raw| >= 58 then Some(U16(raw[56..58]) as bv32)
    else Some(p.shard(txID))
  }

  /**
   Where a frame goes, by its version byte: blocks and anchors to 0xFFFE, subtrees to
   0xFFFB, BEEF objects to their topic's group or nowhere, bundles to the group in their
   header, fragments by their decoded header, anything else by the id at bytes 8..40.
   */
  lemma GroupsInBytes(p: Planes, codec: Codec, raw: seq<byte>)
    requires |raw| >= 88
    ensures var group := TargetGroup(p, codec, raw, TxIDOf(raw));
            && (raw[6] in {0x04, 0x06} ==> group == Some(0xFFFE)) && (raw[6] == 0x05 ==> group == Some(0xFFFB))
            && (raw[6] == 0x09 ==> group == if p.beef.Some? then Some(p.beef.value(raw[56..88])) else None)
            && (raw[6] == 0x08 ==> group == Some(U16(raw[56..58]) as bv32))
            && (raw[6] == 0x03 && codec.decode(Fragment, raw).None? ==> group == Some(p.shard(raw[8..40])))
            && (raw[6] !in {0x03, 0x04, 0x05, 0x06, 0x08, 0x09} ==> group == Some(p.shard(raw[8..40])))
  {
  }

  /** The group the fourth tier charges for a cached frame. */
  function ChargedGroup(p: Planes, raw: seq<byte>): bv32
  {
    if HasVer(raw, VER_BEEF) && |raw| >= 88 && p.beef.Some? then p.beef.value(raw[56..88])
    else if HasVer(raw, VER_BUNDLE) && |raw| >= 58 then U16(raw[56..58]) as bv32
    else p.shard(TxIDOf(raw))
  }

  /**
   A fragment that carries its original's version and id slots goes where the original
   goes, for every class, unless the original is a bundle: a bundle names its group in
   its header, and the fragment follows only if that is also the group of its id slot.
   */
  lemma FragmentFollowsOriginal(p: Planes, codec: Codec, orig: seq<byte>, frag: seq<byte>, h: Header)
    requires |orig| >= 88 && orig[6] != VER_FRAGMENT
    requires HasVer(frag, VER_FRAGMENT) && codec.decode(Fragment, frag) == Some(h)
    requires h.origVer == orig[6] && h.txID == orig[8..40] && h.subtreeID == orig[56..88]
    ensures TargetGroup(p, codec, frag, TxIDOf(frag)) == TargetGroup(p, codec, orig, TxIDOf(orig))
            <==> (orig[6] == VER_BUNDLE ==> p.shard(orig[8..40]) == U16(orig[56..58]) as bv32)
  {
  }

  /**
   When the group charged is the group sent to. It is for every transaction frame, every
   bundle, every fragment that does not decode or is of such a frame, and every BEEF
   frame that can be sent at all; a control-class frame, whole or fragmented, is charged
   to the group of its id slot and goes to a fixed one.
   */
  lemma ChargedIsSent(p: Planes, codec: Codec, raw: seq<byte>)
    requires Faithful(codec)
    ensures TargetGroup(p, codec, raw, TxIDOf(raw)) == Some(ChargedGroup(p, raw)) <==>
            var ver := if |raw| >= 7 then raw[6] else 0;
            var idGroup := p.shard(TxIDOf(raw));
            if ver == VER_BLOCK || ver == VER_ANCHOR then idGroup == BLOCK_BROADCAST
            else if ver == VER_SUBTREE then idGroup == SUBTREE_ANNOUNCE
            else if ver == VER_BEEF then p.beef.Some? && |raw| >= 88
            else if ver == VER_FRAGMENT && codec.decode(Fragment, raw).Some? then
              var orig := codec.decode(Fragment, raw).value.origVer;
              if orig == VER_BLOCK || orig == VER_ANCHOR then idGroup == BLOCK_BROADCAST
              else if orig == VER_SUBTREE then idGroup == SUBTREE_ANNOUNCE
              else orig == VER_BEEF ==> p.beef.Some? && p.beef.value(raw[56..88]) == idGroup
            else true
  {
  }

  /** One datagram put on the wire. */
  datatype Write = Write(raw: seq<byte>, group: bv32, socket: nat)

  datatype Outcome = Sent | Suppressed | Failed

  /** The key a multicast send is claimed under; frames too short for one go unclaimed. */
  function DedupKey(raw: seq<byte>): Option<seq<byte>>
  {
    if |raw| < 56 then None else Some(KeyBytes(raw))
  }

  /** A frame found in the cache is claimed under exactly the key that was asked for. */
  lemma HitIsClaimedAsAsked(m: Entries, hashKey: uint64, seqNum: uint64, now: int)
    requires Ingress.SelfKeyed(m) && Live(m, Full(Space.Frames, FlowKey(hashKey, seqNum)), now)
    ensures DedupKey(m[Full(Space.Frames, FlowKey(hashKey, seqNum))].value) == Some(FlowKey(hashKey, seqNum))
  {
  }

  /** The copies of a frame on the first `n` sockets of `order`. */
  function Copies(raw: seq<byte>, group: bv32, order: seq<nat>, n: nat): (w: seq<Write>)
    requires n <= |order|
    ensures |w| == n
  {
    if n == 0 then [] else Copies(raw, group, order, n - 1) + [Write(raw, group, order[n - 1])]
  }

  /** How many writes succeed before the first that does not. */
  function Reach(writes: seq<bool>): (n: nat)
    ensures n <= |writes| && (forall i :: 0 <= i < n ==> writes[i]) && (n < |writes| ==> !writes[n])
  {
    if writes == [] || !writes[0] then 0 else 1 + Reach(writes[1..])
  }

  /** The copies a send that is not suppressed puts on the wire. */
  function CopiesReached(raw: seq<byte>, group: Option<bv32>, order: seq<nat>, writes: seq<bool>): seq<Write>
    requires |writes| == |order|
  {
    if group.None? then [] else Copies(raw, group.value, order, Reach(writes))
  }

  /** What decides where an endpoint multicasts and under which claim. */
  datatype Sender = Sender(planes: Planes, codec: Codec, claiming: bool, window: int) {
    function Group(raw: seq<byte>, txID: seq<byte>): Option<bv32>
    {
      TargetGroup(planes, codec, raw, txID)
    }

    predicate NeedsClaim(raw: seq<byte>)
    {
      claiming && DedupKey(raw).Some?
    }

    function ClaimOp(raw: seq<byte>): Op
      requires NeedsClaim(raw)
    {
      SetNX(Full(Space.Dedup, DedupKey(raw).value), CLAIMED, window)
    }

    /** Whether the endpoint is told that it may send. */
    predicate Wins(claims: Entries, raw: seq<byte>, at: int, link: Link)
    {
      NeedsClaim(raw) ==> Answer(claims, ClaimOp(raw), at, link).won
    }

    /** The claim store afterwards, whatever comes of the send. */
    function ClaimsAfter(claims: Entries, raw: seq<byte>, at: int, link: Link): Entries
    {
      if NeedsClaim(raw) then Effect(claims, ClaimOp(raw), at, link) else claims
    }

    /** The frame can be routed and every socket takes it. */
    predicate Clean(raw: seq<byte>, txID: seq<byte>, writes: seq<bool>)
    {
      Group(raw, txID).Some? && Reach(writes) == |writes|
    }

    /** The copies that get onto the wire. */
    function Puts(claims: Entries, raw: seq<byte>, txID: seq<byte>, at: int, link: Link, order: seq<nat>,
                  writes: seq<bool>): seq<Write>
      requires |writes| == |order|
    {
      if Wins(claims, raw, at, link) then CopiesReached(raw, Group(raw, txID), order, writes) else []
    }
  }

  lemma {:induction false} CopiesAt(raw: seq<byte>, group: bv32, order: seq<nat>, n: nat, k: nat)
    requires k < n <= |order|
    ensures Copies(raw, group, order, n)[k] == Write(raw, group, order[k])
  {
    if k < n - 1 { CopiesAt(raw, group, order, n - 1, k); }
  }

  /**
   Nobody holds the claim on the frame's bytes 40..56, the backend answers, the frame has
   a group and every socket takes it: then each socket has one copy of it, in that group
   and in the order of the sockets, and the claim runs for its window.
   */
  lemma FreeFrameIsSent(s: Sender, claims: Entries, raw: seq<byte>, at: int, order: seq<nat>, writes: seq<bool>,
                        group: bv32)
    requires |raw| >= 56 && |writes| == |order| && (forall i :: 0 <= i < |writes| ==> writes[i])
    requires s.claiming ==> !Live(claims, Full(Space.Dedup, raw[40..56]), at)
    requires TargetGroup(s.planes, s.codec, raw, TxIDOf(raw)) == Some(group)
    ensures var put := s.Puts(claims, raw, TxIDOf(raw), at, Works, order, writes);
            |put| == |order| && forall k :: 0 <= k < |order| ==> put[k] == Write(raw, group, order[k])
    ensures s.Clean(raw, TxIDOf(raw), writes) && s.Wins(claims, raw, at, Works)
    ensures s.ClaimsAfter(claims, raw, at, Works) ==
            if s.claiming then claims[Full(Space.Dedup, raw[40..56]) := Entry(CLAIMED, at + s.window)] else claims
  {
    forall k | 0 <= k < |order| ensures Copies(raw, group, order, |order|)[k] == Write(raw, group, order[k]) {
      CopiesAt(raw, group, order, |order|, k);
    }
  }

  /** While somebody holds that claim, nothing is put on the wire and the claim stays as it is. */
  lemma HeldFrameIsNotSent(s: Sender, claims: Entries, raw: seq<byte>, at: int, link: Link, order: seq<nat>,
                           writes: seq<bool>)
    requires |raw| >= 56 && |writes| == |order| && s.claiming && Live(claims, Full(Space.Dedup, raw[40..56]), at)
    ensures s.Puts(claims, raw, TxIDOf(raw), at, link, order, writes) == []
    ensures !s.Wins(claims, raw, at, link) && s.ClaimsAfter(claims, raw, at, link) == claims
  {
  }

  class Retransmitter {
    const planes: Planes
    const codec: Codec
    const dedup: Store?
    const window: int
    var wire: seq<Write>
    var unicasts: seq<(seq<byte>, Addr)>

    constructor (planes: Planes, codec: Codec, dedup: Store?, window: int)
      requires dedup != null ==> dedup.space == Space.Dedup
      ensures this.planes == planes && this.codec == codec && this.dedup == dedup && this.window == window
      ensures Valid() && wire == [] && unicasts == []
    {
      this.planes, this.codec, this.dedup, this.window := planes, codec, dedup, window;
      wire, unicasts := [], [];
    }

    ghost predicate Valid()
    {
      dedup != null ==> dedup.space == Space.Dedup
    }

    ghost function Footprint(): set<object>
    {
      {this} + if dedup == null then {} else {dedup.backend}
    }

    ghost function As(): Sender
    {
      Sender(planes, codec, dedup != null, window)
    }

    ghost function Claims(): Entries
      reads if dedup == null then {} else {dedup.backend}
    {
      if dedup == null then map[] else dedup.backend.entries
    }

    /** Take the claim, or learn that it is not to be had. */
    method Claim(raw: seq<byte>, now: int, link: Link) returns (go: bool)
      requires Valid()
      modifies if dedup == null then {} else {dedup.backend}
      ensures go == As().Wins(old(Claims()), raw, now, link)
      ensures Claims() == As().ClaimsAfter(old(Claims()), raw, now, link)
    {
      go := true;
      if dedup != null {
        var key := DedupKey(raw);
        if key.Some? {
          var won, err := dedup.SetIfAbsent(key.value, CLAIMED, window, now, link);
          go := won;
        }
      }
    }

    /**
     Claim, then write to the sockets in the order the map yields them, stopping at the
     first write that fails (`writes` says which succeed). A send is reported only when
     it was not suppressed, could be routed and every copy left; a suppressed one put
     nothing on the wire, though its claim may have been entered and the answer lost.
     */
    method Send(raw: seq<byte>, txID: seq<byte>, now: int, link: Link, order: seq<nat>, writes: seq<bool>)
      returns (r: Outcome)
      requires Valid() && |writes| == |order|
      modifies Footprint()
      ensures unicasts == old(unicasts)
      ensures Claims() == As().ClaimsAfter(old(Claims()), raw, now, link)
      ensures r == Suppressed <==> !As().Wins(old(Claims()), raw, now, link)
      ensures r == Sent <==> As().Wins(old(Claims()), raw, now, link) && As().Clean(raw, txID, writes)
      ensures wire == old(wire) + As().Puts(old(Claims()), raw, txID, now, link, order, writes)
    {
      var go := Claim(raw, now, link);
      if !go {
        return Suppressed;
      }
      var group := TargetGroup(planes, codec, raw, txID);
      if group.None? {
        return Failed;
      }
      var i := 0;
      while i < |order|
        invariant 0 <= i <= |order|
        invariant wire == old(wire) + Copies(raw, group.value, order, i)
        invariant i + Reach(writes[i..]) == Reach(writes)
        modifies `wire
      {
        assert writes[i..][0] == writes[i] && writes[i..][1..] == writes[i + 1..];
        if !writes[i] {
          return Failed;
        }
        wire := wire + [Write(raw, group.value, order[i])];
        i := i + 1;
      }
      return Sent;
    }

    /** Send the frame verbatim to one requester, with no claim. */
    method SendTo(raw: seq<byte>, dst: Addr, ok: bool) returns (sent: bool)
      modifies `unicasts
      ensures sent == ok
      ensures unicasts == old(unicasts) + if ok then [(raw, dst)] else []
    {
      sent := ok;
      if ok {
        unicasts := unicasts + [(raw, dst)];
      }
    }
  }
}
