/**
 One key's event log: a growable array whose first `head` entries have expired.
 Logs expire by prefix, compact in place, and move to a smaller array after a burst.
 */
module EventLogs {
  import opened WindowSpec

  const LOG_INIT_CAP := 4
  const LOG_SHRINK_CAP := 256
  /** `append` grows a full array to at most this multiple of its capacity. */
  const GROWTH := 8

  function Max(a: int, b: int): int { if a < b then b else a }

  class EventLog {
    var ts: array?<int>  // backing array; null is Go's nil slice, ts.Length its capacity
    var len: nat         // physical length of the slice
    var head: nat        // ts[..head] have expired

    ghost var admitted: seq<int>  // every event ever recorded for the log's key
    ghost var cutoff: int         // the latest cutoff the log was expired at
    ghost var live: seq<int>      // the entries after head, as a value
    ghost var recorded: nat       // events appended to this log
    ghost var stepped: nat        // iterations of the head loop, over the log's life
    ghost var moved: nat          // entries copied by compaction, over the log's life

    function Cap(): nat
      reads this
    {
      if ts == null then 0 else ts.Length
    }

    ghost predicate Shape()
      reads this
    {
      && (ts == null ==> len == 0)
      && (ts != null ==> len <= ts.Length && ts.Length >= 1)
      && (if len == 0 then head == 0 else 2 * head < len)
    }

    /** What memory and work the log may have used by now. */
    ghost predicate Thrifty()
      reads this
    {
      && Cap() <= Max(LOG_SHRINK_CAP, GROWTH * len)
      && head <= len
      && stepped + (len - head) <= recorded
      && moved + head <= stepped
    }

    /** The physical entries are exactly the admitted events after the cutoff. */
    ghost predicate Valid()
      reads this, ts
    {
      && Shape()
      && Thrifty()
      && |live| == len - head
      && (forall i :: 0 <= i < |live| ==> ts[head + i] == live[i])
      && IsLive(live, admitted, cutoff)
    }

    /**
     A new log. `prior` is what the key admitted before under an earlier log; all of
     it aged out by `cut`, so the empty log already stands for the whole history.
     */
    constructor (ghost prior: seq<int>, ghost cut: int)
      requires NoneLater(prior, cut)
      ensures Valid()
      ensures ts == null && admitted == prior && cutoff == cut && recorded == 0
    {
      AfterEmpty(prior, cut);
      ts, len, head := null, 0, 0;
      admitted, cutoff, live := prior, cut, [];
      recorded, stepped, moved := 0, 0, 0;
    }

    /** Whether every event is at or before `c`. */
    predicate Idle(c: int)
      requires Valid() && cutoff <= c
      reads this, ts
      ensures Idle(c) <==> NoneLater(admitted, c)
    {
      LastDecides(live, admitted, cutoff, c);
      assert len > 0 ==> ts[len - 1] == live[len - 1 - head];
      len == 0 || ts[len - 1] <= c
    }

    /** Whole window aged out: drop the array if a burst left it large. */
    method Reset(c: int)
      requires Valid() && cutoff <= c && len > 0 && ts[len - 1] <= c
      modifies this
      ensures Valid()
      ensures admitted == old(admitted) && cutoff == c && recorded == old(recorded)
      ensures stepped == old(stepped) && moved == old(moved)
      ensures len == 0 && (ts == null || ts == old(ts))
    {
      assert Idle(c);
      AfterEmpty(admitted, c);
      head := 0;
      if ts.Length > LOG_SHRINK_CAP {
        ts := null;
      }
      len := 0;
      cutoff, live := c, [];
    }

    /** Step `head` past the events at or before `c`; the last event is after `c`. */
    method StepHead(c: int)
      requires Valid() && cutoff <= c && len > 0 && ts[len - 1] > c
      modifies this`head, this`stepped
      ensures old(head) <= head < len && ts[head] > c
      ensures forall i :: old(head) <= i < head ==> ts[i] <= c
      ensures stepped - old(stepped) == head - old(head)
    {
      while ts[head] <= c
        invariant old(head) <= head < len
        invariant forall i :: old(head) <= i < head ==> ts[i] <= c
        invariant stepped - old(stepped) == head - old(head)
        decreases len - head
      {
        head := head + 1;
        stepped := stepped + 1;
      }
    }

    /** Copy the `n` live events to the front of an array, which may be the log's own. */
    method MoveTo(to: array<int>, n: nat)
      requires ts != null && len <= ts.Length && head + n == len && n <= to.Length
      modifies this`moved, to
      ensures forall i :: 0 <= i < n ==> to[i] == old(ts[head + i])
      ensures moved == old(moved) + n
    {
      var i := 0;
      while i < n
        invariant 0 <= i <= n && moved == old(moved) + i
        invariant forall j :: 0 <= j < i ==> to[j] == old(ts[head + j])
        invariant forall j :: head + i <= j < len ==> ts[j] == old(ts[j])
      {
        to[i] := ts[head + i];
        moved := moved + 1;
        i := i + 1;
      }
    }

    /** Move the live events to the front, into a smaller array after a burst. */
    method Compact()
      requires ts != null && head < len <= ts.Length && len <= 2 * head
      requires Cap() <= Max(LOG_SHRINK_CAP, GROWTH * len)
      modifies this`ts, this`len, this`head, this`moved, ts
      ensures ts != null && (ts == old(ts) || fresh(ts))
      ensures head == 0 && len == old(len) - old(head) && 1 <= len <= ts.Length
      ensures forall i :: 0 <= i < len ==> ts[i] == old(ts[head + i])
      ensures Cap() <= Max(LOG_SHRINK_CAP, GROWTH * len)
      ensures moved == old(moved) + len
    {
      var n := len - head;
      if ts.Length > LOG_SHRINK_CAP && GROWTH * n < ts.Length {
        var small := new int[2 * n];
        MoveTo(small, n);
        ts := small;
      } else {
        MoveTo(ts, n);
      }
      head, len := 0, n;
    }

    /**
     Drop the events at or before `c`. The admitted history is untouched; `Valid`
     says the physical entries are now exactly the events after `c`.
     */
    method Expire(c: int)
      requires Valid() && cutoff <= c
      modifies this, ts
      ensures Valid()
      ensures admitted == old(admitted) && cutoff == c && recorded == old(recorded)
      ensures ts == null || ts == old(ts) || fresh(ts)
    {
      LastDecides(live, admitted, cutoff, c);
      AfterEmpty(admitted, c);
      if len == 0 {
        cutoff := c;
        return;
      }
      if ts[len - 1] <= c {
        Reset(c);
        return;
      }
      DropPrefix(c);
    }

    /** Part of the window aged out: step past it, and compact once it is half the slice. */
    method DropPrefix(c: int)
      requires Valid() && cutoff <= c && len > 0 && ts[len - 1] > c
      modifies this, ts
      ensures Valid()
      ensures admitted == old(admitted) && cutoff == c && recorded == old(recorded)
      ensures ts == old(ts) || fresh(ts)
    {
      StepHead(c);
      ghost var k := head - old(head);
      assert forall i :: 0 <= i < |live| ==> live[i] == ts[old(head) + i];
      LiveDrop(live, admitted, cutoff, c, k);
      cutoff, live := c, live[k..];
      if 2 * head < len {
        return;
      }
      Compact();
    }

    /**
     Expire at `now - window`, then record an event at `now` if fewer than `max`
     remain. The answer is the reference one, filter and count over every event ever
     admitted.
     */
    method Allow(now: int, window: int, max: int) returns (ok: bool)
      requires Valid() && window > 0 && cutoff <= now - window
      requires NoneLater(admitted, now)
      modifies this, ts
      ensures Valid()
      ensures ok <==> |After(old(admitted), now - window)| < max
      ensures admitted == old(admitted) + (if ok then [now] else [])
      ensures cutoff == now - window
      ensures recorded == old(recorded) + (if ok then 1 else 0)
      ensures ts == null || ts == old(ts) || fresh(ts)
      // amortised work, dead entries and capacity, at any point of the log's life
      ensures stepped + moved <= 2 * recorded
      ensures len > 0 ==> len < 2 * (len - head)
      ensures Cap() <= Max(256, 16 * (len - head))
      ensures len - head == |After(admitted, cutoff)|
    {
      Expire(now - window);
      if len - head >= max {
        return false;
      }
      Append(now);
      ok := true;
    }

    /** Room for one more entry: allocate the first array or grow a full one. */
    method Reserve()
      requires Valid()
      modifies this`ts
      ensures Shape() && ts != null && len < ts.Length
      ensures forall i :: 0 <= i < |live| ==> ts[head + i] == live[i]
      ensures Cap() <= Max(LOG_SHRINK_CAP, GROWTH * (len + 1))
      ensures ts == old(ts) || fresh(ts)
    {
      if ts == null {
        ts := new int[LOG_INIT_CAP];
      } else if len == ts.Length {
        var grown: nat :| ts.Length < grown <= GROWTH * ts.Length;
        var wide := new int[grown];
        forall i | 0 <= i < len { wide[i] := ts[i]; }
        ts := wide;
      }
    }

    /** `append(l.ts, now)`, growing a full array by a factor the runtime chooses. */
    method Append(now: int)
      requires Valid() && cutoff < now
      requires NoneLater(admitted, now)
      modifies this, ts
      ensures Valid()
      ensures admitted == old(admitted) + [now] && cutoff == old(cutoff)
      ensures recorded == old(recorded) + 1
      ensures ts == null || ts == old(ts) || fresh(ts)
    {
      LiveSnoc(live, admitted, cutoff, now);
      Reserve();
      ts[len] := now;
      len := len + 1;
      admitted, live := admitted + [now], live + [now];
      recorded := recorded + 1;
    }
  }
}
