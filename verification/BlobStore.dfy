/** The process-wide blob store (src/binary_store.cpp:32-41, 65-109): entries expire, but are
    only swept when the store is used. */
module BlobStore {
  import opened Wrappers

  type Id = string

  type Blob = seq<nat>

  datatype Entry = Entry(data: Blob, lastUsed: int)

  predicate Expired(e: Entry, now: int, ttl: int) { now - e.lastUsed >= ttl }

  function Fresh(m: map<Id, Entry>, now: int, ttl: int): map<Id, Entry> {
    map id <- m | !Expired(m[id], now, ttl) :: m[id]
  }

  /** `emplace`: an entry that is there stays. */
  function Emplaced(m: map<Id, Entry>, id: Id, e: Entry): map<Id, Entry> {
    if id in m then m else m[id := e]
  }

  datatype Op = PutIt(id: Id, data: Blob) | TakeIt(id: Id) | GcIt | ClearIt

  /** An operation and the clock reading it is made with. */
  datatype Call = Call(op: Op, now: int)

  /** One call on the swept-when-used store: the new map and what a take returns. */
  function Lazy(m: map<Id, Entry>, c: Call, ttl: int): (map<Id, Entry>, Option<Blob>) {
    var f := Fresh(m, c.now, ttl);
    match c.op
    case PutIt(id, data) => (Emplaced(f, id, Entry(data, c.now)), None)
    case TakeIt(id) => (f - {id}, if id in f then Some(f[id].data) else None)
    case GcIt => (f, None)
    case ClearIt => (map[], None)
  }

  class Store {
    var entries: map<Id, Entry>
    const ttl: int

    constructor (ttl: int)
      ensures entries == map[] && this.ttl == ttl
    {
      entries := map[];
      this.ttl := ttl;
    }

    /** `gc_locked`: one pass over the map, erasing while iterating, in any order. */
    method Sweep(now: int)
      modifies this
      ensures entries == Fresh(old(entries), now, ttl)
    {
      var left := entries.Keys;
      while left != {}
        invariant left <= old(entries).Keys
        invariant entries == map id <- old(entries) | id in left || !Expired(old(entries)[id], now, ttl) ::
            old(entries)[id]
        decreases |left|
      {
        var id :| id in left;
        if Expired(entries[id], now, ttl) {
          entries := entries - {id};
        }
        left := left - {id};
      }
    }

    method Put(id: Id, data: Blob, now: int)
      modifies this
      ensures entries == Lazy(old(entries), Call(PutIt(id, data), now), ttl).0
    {
      Sweep(now);
      if id !in entries {
        entries := entries[id := Entry(data, now)];
      }
    }

    method Take(id: Id, now: int) returns (r: Option<Blob>)
      modifies this
      ensures (entries, r) == Lazy(old(entries), Call(TakeIt(id), now), ttl)
    {
      Sweep(now);
      if id !in entries {
        assert entries - {id} == entries;
        return None;
      }
      r := Some(entries[id].data);
      entries := entries - {id};
    }

    method Gc(now: int)
      modifies this
      ensures entries == Lazy(old(entries), Call(GcIt, now), ttl).0
    {
      Sweep(now);
    }

    method Clear()
      modifies this
      ensures entries == map[]
    {
      entries := map[];
    }
  }

  /** The store nobody ever has to sweep: an entry is simply not there from the instant it
      reaches its age on. */
  function Eager(m: map<Id, Entry>, c: Call, ttl: int): (map<Id, Entry>, Option<Blob>) {
    match c.op
    case PutIt(id, data) => (if Holds(m, id, c.now, ttl) then m else m[id := Entry(data, c.now)], None)
    case TakeIt(id) =>
      if Holds(m, id, c.now, ttl) then (m - {id}, Some(m[id].data)) else (m, None)
    case GcIt => (m, None)
    case ClearIt => (map[], None)
  }

  predicate Holds(m: map<Id, Entry>, id: Id, now: int, ttl: int) { id in m && !Expired(m[id], now, ttl) }

  function LazyRun(m: map<Id, Entry>, calls: seq<Call>, ttl: int): seq<Option<Blob>>
    decreases |calls|
  {
    if calls == [] then []
    else
      var r := Lazy(m, calls[0], ttl);
      [r.1] + LazyRun(r.0, calls[1..], ttl)
  }

  function EagerRun(m: map<Id, Entry>, calls: seq<Call>, ttl: int): seq<Option<Blob>>
    decreases |calls|
  {
    if calls == [] then []
    else
      var r := Eager(m, calls[0], ttl);
      [r.1] + EagerRun(r.0, calls[1..], ttl)
  }

  predicate Monotone(calls: seq<Call>, from: int)
    decreases |calls|
  {
    calls != [] ==> from <= calls[0].now && Monotone(calls[1..], calls[0].now)
  }

  /** The two stores hold the same entries from time `now` on. */
  ghost predicate Same(a: map<Id, Entry>, b: map<Id, Entry>, now: int, ttl: int) {
    forall id :: Holds(a, id, now, ttl) || Holds(b, id, now, ttl) ==> id in a && id in b && a[id] == b[id]
  }

  /** What has not expired by a time had not expired before it. */
  lemma HeldBefore(m: map<Id, Entry>, from: int, now: int, ttl: int)
    requires from <= now
    ensures forall id :: Holds(m, id, now, ttl) ==> Holds(m, id, from, ttl)
  {
  }

  /** Of two stores that are the same, what is left fresh is the same. */
  lemma FreshOfSame(a: map<Id, Entry>, b: map<Id, Entry>, now: int, ttl: int)
    requires Same(a, b, now, ttl)
    ensures Same(Fresh(a, now, ttl), b, now, ttl)
    ensures forall id :: id in Fresh(a, now, ttl) <==> Holds(a, id, now, ttl)
    ensures forall id :: Holds(a, id, now, ttl) <==> Holds(b, id, now, ttl)
  {
  }

  lemma SameStep(a: map<Id, Entry>, b: map<Id, Entry>, from: int, c: Call, ttl: int)
    requires Same(a, b, from, ttl) && from <= c.now
    ensures Lazy(a, c, ttl).1 == Eager(b, c, ttl).1
    ensures Same(Lazy(a, c, ttl).0, Eager(b, c, ttl).0, c.now, ttl)
  {
    SameFrom(a, b, from, c.now, ttl);
    hide Expired, Fresh;
    FreshOfSame(a, b, c.now, ttl);
  }

  lemma SameFrom(a: map<Id, Entry>, b: map<Id, Entry>, from: int, now: int, ttl: int)
    requires Same(a, b, from, ttl) && from <= now
    ensures Same(a, b, now, ttl)
  {
    hide Expired;
    HeldBefore(a, from, now, ttl);
    HeldBefore(b, from, now, ttl);
  }

  /** For one clock that never goes back, sweeping lazily returns what expiring at once would,
      call by call; extra sweeps anywhere make no difference. */
  lemma {:induction false} LazyIsEager(a: map<Id, Entry>, b: map<Id, Entry>, from: int, calls: seq<Call>, ttl: int)
    requires Same(a, b, from, ttl) && Monotone(calls, from)
    ensures LazyRun(a, calls, ttl) == EagerRun(b, calls, ttl)
    decreases |calls|
  {
    if calls != [] {
      var c := calls[0];
      SameStep(a, b, from, c, ttl);
      LazyIsEager(Lazy(a, c, ttl).0, Eager(b, c, ttl).0, c.now, calls[1..], ttl);
    }
  }

  function Puts(calls: seq<Call>, id: Id): nat {
    if calls == [] then 0
    else (if calls[0].op.PutIt? && calls[0].op.id == id then 1 else 0) + Puts(calls[1..], id)
  }

  function Returns(m: map<Id, Entry>, calls: seq<Call>, ttl: int, id: Id): nat
    decreases |calls|
  {
    if calls == [] then 0
    else
      var r := Lazy(m, calls[0], ttl);
      (if calls[0].op.TakeIt? && calls[0].op.id == id && r.1.Some? then 1 else 0) + Returns(r.0, calls[1..], ttl, id)
  }

  /** A blob is returned at most once for each time it was put. */
  lemma {:induction false} ReturnedAtMostOnce(m: map<Id, Entry>, calls: seq<Call>, ttl: int, id: Id)
    ensures Returns(m, calls, ttl, id) <= Puts(calls, id) + (if id in m then 1 else 0)
    decreases |calls|
  {
    if calls != [] {
      ReturnedAtMostOnce(Lazy(m, calls[0], ttl).0, calls[1..], ttl, id);
    }
  }

  /** The calls leave this id alone. */
  predicate Elsewhere(calls: seq<Call>, id: Id) {
    forall i :: 0 <= i < |calls| ==>
      match calls[i].op
      case PutIt(x, _) => x != id
      case TakeIt(x) => x != id
      case GcIt => true
      case ClearIt => false
  }

  function After(m: map<Id, Entry>, calls: seq<Call>, ttl: int): map<Id, Entry>
    decreases |calls|
  {
    if calls == [] then m else After(Lazy(m, calls[0], ttl).0, calls[1..], ttl)
  }

  /** A blob put under a free id is returned by a take less than the time to live later, whatever happens to other
      ids in between, and not by a later one. */
  lemma {:induction false} TakenInTime(m: map<Id, Entry>, id: Id, data: Blob, put: int, calls: seq<Call>, take: int,
                                       ttl: int)
    requires id !in m || m[id].lastUsed + ttl <= put
    requires Monotone(calls, put) && Elsewhere(calls, id) && put <= take
    requires forall i :: 0 <= i < |calls| ==> calls[i].now <= take
    ensures var m' := After(Lazy(m, Call(PutIt(id, data), put), ttl).0, calls, ttl);
            Lazy(m', Call(TakeIt(id), take), ttl).1 == if take < put + ttl then Some(data) else None
  {
    var m1 := Lazy(m, Call(PutIt(id, data), put), ttl).0;
    assert id in m1 && m1[id] == Entry(data, put);
    StaysUntouched(m1, id, Entry(data, put), put, calls, take, ttl);
  }

  lemma {:induction false} StaysUntouched(m: map<Id, Entry>, id: Id, e: Entry, from: int, calls: seq<Call>, to: int,
                                          ttl: int)
    requires Monotone(calls, from) && Elsewhere(calls, id) && from <= to
    requires forall i :: 0 <= i < |calls| ==> calls[i].now <= to
    requires if id in m then m[id] == e else e.lastUsed + ttl <= to
    ensures var m' := After(m, calls, ttl);
            if id in m' then m'[id] == e else e.lastUsed + ttl <= to
    decreases |calls|
  {
    if calls != [] {
      var c, rest := calls[0], calls[1..];
      assert forall i :: 0 <= i < |rest| ==> rest[i] == calls[i + 1];
      StaysUntouched(Lazy(m, c, ttl).0, id, e, c.now, rest, to, ttl);
    }
  }
}
