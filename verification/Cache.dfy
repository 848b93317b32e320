/** One shared backend, and the namespaced views the endpoint's parts hold of it. */
module Cache {
  import opened Bytes
  import opened TtlStore

  class Backend {
    var entries: Entries

    constructor ()
      ensures entries == map[]
    {
      entries := map[];
    }

    /** Carry out one operation at the backend's own clock reading. */
    method Perform(op: Op, now: int, link: Link) returns (r: Reply)
      modifies this
      ensures entries == Effect(old(entries), op, now, link)
      ensures r == Answer(old(entries), op, now, link)
    {
      r := Answer(entries, op, now, link);
      entries := Effect(entries, op, now, link);
    }
  }

  /** A view: every key it uses gets the prefix of its space. */
  class Store {
    const backend: Backend
    const space: Space

    constructor (backend: Backend, space: Space)
      ensures this.backend == backend && this.space == space
    {
      this.backend, this.space := backend, space;
    }

    method Put(key: seq<byte>, value: seq<byte>, ttl: int, now: int, link: Link) returns (err: bool)
      modifies backend
      ensures backend.entries == Effect(old(backend.entries), Set(Full(space, key), value, ttl), now, link)
      ensures err <==> link != Works
      ensures !err && ttl > 0 ==> Live(backend.entries, Full(space, key), now)
      ensures !err ==> backend.entries[Full(space, key)].value == value
    {
      var r := backend.Perform(Set(Full(space, key), value, ttl), now, link);
      err := r.err;
    }

    /** The value for `key`, or nothing when it is absent or has expired. */
    method Retrieve(key: seq<byte>, now: int, link: Link) returns (found: Option<seq<byte>>, err: bool)
      ensures err <==> link != Works
      ensures found.Some? <==> !err && Live(backend.entries, Full(space, key), now)
      ensures found.Some? ==> found.value == backend.entries[Full(space, key)].value
    {
      var r := Answer(backend.entries, Get(Full(space, key)), now, link);
      found, err := r.found, r.err;
    }

    method Delete(key: seq<byte>, now: int, link: Link) returns (err: bool)
      modifies backend
      ensures err <==> link != Works
      ensures backend.entries ==
              if link == Lost then old(backend.entries) else old(backend.entries) - {Full(space, key)}
    {
      var r := backend.Perform(Del(Full(space, key)), now, link);
      err := r.err;
    }

    /** Create the key unless it is live; success means the caller took it itself. */
    method SetIfAbsent(key: seq<byte>, value: seq<byte>, ttl: int, now: int, link: Link) returns (won: bool, err: bool)
      modifies backend
      ensures backend.entries == Effect(old(backend.entries), SetNX(Full(space, key), value, ttl), now, link)
      ensures won == Answer(old(backend.entries), SetNX(Full(space, key), value, ttl), now, link).won
      ensures err <==> link != Works
      ensures won ==> !Live(old(backend.entries), Full(space, key), now)
      ensures won ==> backend.entries == old(backend.entries)[Full(space, key) := Entry(value, now + ttl)]
      ensures !won && !err ==> Live(old(backend.entries), Full(space, key), now)
    {
      var r := backend.Perform(SetNX(Full(space, key), value, ttl), now, link);
      won, err := r.won, r.err;
    }
  }
}
