/** The four tiers in front of a cache lookup and a send, over the two exact limiters. */
module Limits {
  import opened Bytes
  import opened WindowSpec
  import opened SlidingWindow

  const MINUTE := 60_000_000_000
  const MAX_WINDOW_KEYS := 100_000

  datatype Config = Config(chainRate: real, chainWindow: int, senderRate: real, senderWindow: int,
                           sequenceMax: int, sequenceWindow: int)

  datatype Settings = Settings(chainMax: int, chainWindow: int, sequenceMax: int, sequenceWindow: int)

  /** The configuration with its aliases and defaults filled in. */
  function Settle(c: Config): (s: Settings)
    ensures s.chainMax >= 1 && s.chainWindow > 0 && s.sequenceWindow > 0
    ensures c.chainRate >= 1.0 ==> s.chainMax == c.chainRate.Floor
    ensures c.chainRate == 0.0 && c.senderRate >= 1.0 ==> s.chainMax == c.senderRate.Floor
    ensures c.chainRate < 1.0 && (c.chainRate != 0.0 || c.senderRate < 1.0) ==> s.chainMax == 500
    ensures c.sequenceMax == s.sequenceMax
    ensures s.sequenceWindow == if c.sequenceWindow > 0 then c.sequenceWindow else 60_000_000_000
    ensures c.chainWindow > 0 ==> s.chainWindow == c.chainWindow
    ensures c.chainWindow <= 0 ==> s.chainWindow == if c.senderWindow > 0 then c.senderWindow else 60_000_000_000
  {
    var rate := if c.chainRate == 0.0 && c.senderRate != 0.0 then c.senderRate else c.chainRate;
    var window := if c.chainWindow <= 0 && c.senderWindow > 0 then c.senderWindow else c.chainWindow;
    // truncation and floor differ only on negative rates, which all mean the default
    Settings(if rate.Floor <= 0 then 500 else rate.Floor, if window <= 0 then MINUTE else window,
             c.sequenceMax, if c.sequenceWindow <= 0 then MINUTE else c.sequenceWindow)
  }

  datatype SeqKey = SeqKey(hashKey: uint64, seqNum: uint64)

  datatype ChainKey = ChainKey(ip: seq<byte>, hashKey: uint64)

  const UNSPECIFIED: seq<byte> := [0, 0, 0, 0, 0, 0, 0, 0, 0, 0, 0, 0, 0, 0, 0, 0]
  const MAPPED: seq<byte> := [0, 0, 0, 0, 0, 0, 0, 0, 0, 0, 0xFF, 0xFF]

  /** An address in 16-byte form; one of no valid length keys as the unspecified address. */
  function IpKey(ip: seq<byte>): (k: seq<byte>)
    ensures |k| == 16
  {
    if |ip| == 4 then MAPPED + ip else if |ip| == 16 then ip else UNSPECIFIED
  }

  /** An IPv4 address keys alike in both its forms, and different addresses key apart. */
  lemma IpKeysApart(a: seq<byte>, b: seq<byte>)
    requires |a| == 4 || |a| == 16
    requires |b| == 4 || |b| == 16
    ensures IpKey(a) == IpKey(b) <==> a == b || a == MAPPED + b || b == MAPPED + a
  {
    assert |a| == 4 && |b| == 4 && a != b ==> (MAPPED + a)[12..] == a && (MAPPED + b)[12..] == b;
  }

  /** An IPv4 address keys in its mapped form, and whatever is no address as the unspecified one. */
  lemma IpKeyBytes(ip: seq<byte>)
    ensures |ip| == 4 ==> IpKey(ip) == [0, 0, 0, 0, 0, 0, 0, 0, 0, 0, 0xFF, 0xFF, ip[0], ip[1], ip[2], ip[3]]
    ensures |ip| == 16 ==> IpKey(ip) == ip
    ensures |ip| != 4 && |ip| != 16 ==> forall i :: 0 <= i < 16 ==> IpKey(ip)[i] == 0
  {
  }

  datatype Level = Admitted | IP | Sequence | Chain

  /** What the two exact tiers know: every admitted event, per key. */
  datatype Tiers = Tiers(seqs: History<SeqKey>, chains: History<ChainKey>) {
    predicate SequenceOpen(g: Settings, key: SeqKey, now: int)
    {
      Admits(seqs, Call(key, now), g.sequenceWindow, g.sequenceMax)
    }

    function AfterSequence(g: Settings, key: SeqKey, now: int): Tiers
    {
      this.(seqs := Next(seqs, Call(key, now), g.sequenceWindow, g.sequenceMax))
    }

    /** A frame with no flow is not charged to any. */
    predicate ChainOpen(g: Settings, ip: seq<byte>, hashKey: uint64, now: int)
    {
      hashKey == 0 || Admits(chains, Call(ChainKey(IpKey(ip), hashKey), now), g.chainWindow, g.chainMax)
    }

    function AfterChain(g: Settings, ip: seq<byte>, hashKey: uint64, now: int): Tiers
    {
      if hashKey == 0 then this
      else this.(chains := Next(chains, Call(ChainKey(IpKey(ip), hashKey), now), g.chainWindow, g.chainMax))
    }
  }

  /** One request at the pre-lookup tiers; `ipOk` is what its IP bucket says. */
  datatype Ask = Ask(ipOk: bool, ip: seq<byte>, hashKey: uint64, seqNum: uint64, seqAt: int, chainAt: int) {
    function Key(): SeqKey
    {
      SeqKey(hashKey, seqNum)
    }
  }

  /** The first tier that refuses the request, if any. */
  function Judge(t: Tiers, g: Settings, a: Ask): Level
  {
    if !a.ipOk then IP
    else if !t.SequenceOpen(g, a.Key(), a.seqAt) then Sequence
    else if !t.ChainOpen(g, a.ip, a.hashKey, a.chainAt) then Chain
    else Admitted
  }

  /** The tiers afterwards: a refusal leaves the later ones as they were. */
  function Judged(t: Tiers, g: Settings, a: Ask): (r: Tiers)
    ensures Judge(t, g, a) in {IP, Sequence} ==> r.chains == t.chains
    ensures Judge(t, g, a) == IP ==> r == t
  {
    if !a.ipOk then t
    else
      var u := t.AfterSequence(g, a.Key(), a.seqAt);
      if t.SequenceOpen(g, a.Key(), a.seqAt) then u.AfterChain(g, a.ip, a.hashKey, a.chainAt) else u
  }

  /**
   What a request costs others: at the sequence tier only requests for the same HashKey
   and StartSeq, at the chain tier only those of the same source for the same HashKey.
   */
  lemma OthersAreNotCharged(t: Tiers, g: Settings, a: Ask, b: Ask)
    ensures a.hashKey != b.hashKey || a.seqNum != b.seqNum ==>
              (Judge(Judged(t, g, a), g, b) == Sequence <==> Judge(t, g, b) == Sequence)
    ensures a.hashKey != b.hashKey || IpKey(a.ip) != IpKey(b.ip) ==>
              Of(Judged(t, g, a).chains, ChainKey(IpKey(b.ip), b.hashKey)) ==
              Of(t.chains, ChainKey(IpKey(b.ip), b.hashKey))
    ensures a.hashKey == 0 ==> Judged(t, g, a).chains == t.chains
    ensures b.hashKey == 0 ==> Judge(t, g, b) != Chain
  {
  }

  class Limiter {
    const chain: SlidingWindowLimiter<ChainKey>
    const sequence: SlidingWindowLimiter<SeqKey>

    ghost predicate Valid()
      reads this, chain, chain.Repr, sequence, sequence.Repr
    {
      && chain.Valid() && sequence.Valid()
      && chain.Repr !! sequence.Repr && this !in chain.Repr && this !in sequence.Repr
    }

    ghost function Knows(): Tiers
      reads chain, sequence
    {
      Tiers(sequence.past.hist, chain.past.hist)
    }

    function Limits(): Settings
    {
      Settings(chain.max, chain.window, sequence.max, sequence.window)
    }

    constructor (c: Config)
      ensures Valid() && fresh(chain.Repr) && fresh(sequence.Repr)
      ensures chain.past.clock == sequence.past.clock == 0
      ensures Knows() == Tiers(map[], map[]) && Limits() == Settle(c)
      ensures chain.maxKeys == sequence.maxKeys == 100_000
    {
      var s := Settle(c);
      var ch := new SlidingWindowLimiter<ChainKey>(s.chainMax, s.chainWindow, MAX_WINDOW_KEYS);
      var sq := new SlidingWindowLimiter<SeqKey>(s.sequenceMax, s.sequenceWindow, MAX_WINDOW_KEYS);
      chain, sequence := ch, sq;
    }

    /** The IP tier, whose bucket says `ipOk`, then the sequence tier. */
    method Allow(ipOk: bool, hashKey: uint64, startSeq: uint64, now: int) returns (level: Level)
      requires Valid() && sequence.past.clock <= now
      modifies sequence.Repr
      ensures Valid() && fresh(sequence.Repr - old(sequence.Repr))
      ensures sequence.past.clock == (if ipOk then now else old(sequence.past.clock))
      ensures chain.past.clock == old(chain.past.clock) && chain.Repr == old(chain.Repr)
      ensures level == if !ipOk then IP
                       else if old(Knows()).SequenceOpen(Limits(), SeqKey(hashKey, startSeq), now) then Admitted
                       else Sequence
      ensures Knows() ==
              if !ipOk then old(Knows()) else old(Knows()).AfterSequence(Limits(), SeqKey(hashKey, startSeq), now)
    {
      if !ipOk {
        return IP;
      }
      var ok := sequence.Allow(SeqKey(hashKey, startSeq), now);
      assert unchanged(chain.Repr);
      level := if ok then Admitted else Sequence;
    }

    /** The chain tier. */
    method AllowChain(ip: seq<byte>, hashKey: uint64, now: int) returns (ok: bool)
      requires Valid() && chain.past.clock <= now
      modifies chain.Repr
      ensures Valid() && fresh(chain.Repr - old(chain.Repr))
      ensures chain.past.clock == (if hashKey != 0 then now else old(chain.past.clock))
      ensures sequence.past.clock == old(sequence.past.clock) && sequence.Repr == old(sequence.Repr)
      ensures ok <==> old(Knows()).ChainOpen(Limits(), ip, hashKey, now)
      ensures Knows() == old(Knows()).AfterChain(Limits(), ip, hashKey, now)
    {
      if hashKey == 0 {
        return true;
      }
      ok := chain.Allow(ChainKey(IpKey(ip), hashKey), now);
      assert unchanged(sequence.Repr);
    }

    /** The tiers as the server asks them, on the limiters that sweep and compact. */
    method Pass(a: Ask) returns (level: Level)
      requires Valid() && sequence.past.clock <= a.seqAt && chain.past.clock <= a.chainAt
      modifies sequence.Repr, chain.Repr
      ensures Valid() && fresh(sequence.Repr - old(sequence.Repr)) && fresh(chain.Repr - old(chain.Repr))
      ensures sequence.past.clock == (if a.ipOk then a.seqAt else old(sequence.past.clock))
      ensures chain.past.clock == a.chainAt || chain.past.clock == old(chain.past.clock)
      ensures level == Judge(old(Knows()), Limits(), a)
      ensures Knows() == Judged(old(Knows()), Limits(), a)
    {
      level := Allow(a.ipOk, a.hashKey, a.seqNum, a.seqAt);
      if level != Admitted {
        return;
      }
      label asked:
      var ok := AllowChain(a.ip, a.hashKey, a.chainAt);
      forall o: object | o in chain.Repr && o !in old(chain.Repr) ensures !old(allocated(o)) {
        assert !old@asked(allocated(o));
      }
      level := if ok then Admitted else Chain;
    }
  }
}
