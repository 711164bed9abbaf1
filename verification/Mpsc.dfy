/**
 The shared state of an unbounded multi-producer single-consumer channel
 (src/channel.hpp).  Every member below is one critical section: the value
 functions say what it does to the guarded fields, and the class performs it on
 the fields themselves.  Waking the coroutine that a section hands back happens
 later, outside the lock, and is a separate step of MpscProtocol.
 */
module Mpsc {
  import opened Wrappers

  /** One suspension of the receiving coroutine, and whether it is to be resumed through an executor. */
  datatype Token = Token(k: nat, viaExecutor: bool)

  /** The fields guarded by the mutex, and the atomic sender count. */
  datatype Chan<+T> = Chan(queue: seq<T>, waiter: Option<Token>, senders: int, closed: bool)

  function Fresh<T>(): Chan<T> {
    Chan([], None, 1, false)
  }

  predicate Ready<T>(c: Chan<T>) {
    |c.queue| > 0 || c.closed
  }

  /** `close_locked`: idempotent; hands the registered waiter to the caller. */
  function Closed<T>(c: Chan<T>): (r: (Chan<T>, Option<Token>)) {
    if c.closed then (c, None) else (c.(closed := true, waiter := None), c.waiter)
  }

  /** `Sender::send`: rejected once closed; otherwise enqueues and hands over the waiter. */
  function Sent<T>(c: Chan<T>, v: T): (r: (Chan<T>, Option<Token>, bool)) {
    if c.closed then (c, None, false) else (c.(queue := c.queue + [v], waiter := None), c.waiter, true)
  }

  /** `await_suspend`: registers the waiter unless something arrived since the ready check. */
  function Parked<T>(c: Chan<T>, w: Token): (r: (Chan<T>, bool)) {
    if Ready(c) then (c, false) else (c.(waiter := Some(w)), true)
  }

  /** `await_resume` and `try_recv`: take the front element, if any. */
  function Taken<T>(c: Chan<T>): (r: (Chan<T>, Option<T>)) {
    if |c.queue| > 0 then (c.(queue := c.queue[1..]), Some(c.queue[0])) else (c, None)
  }

  class MpscState<T> {
    var queue: seq<T>
    var waiter: Option<nat>
    var waiterEx: bool
    var senders: int
    var closed: bool

    /** The two waiter fields are always set and cleared together. */
    ghost predicate Valid()
      reads this
    {
      waiter.None? ==> !waiterEx
    }

    ghost function Abs(): Chan<T>
      reads this
    {
      Chan(queue, if waiter.Some? then Some(Token(waiter.value, waiterEx)) else None, senders, closed)
    }

    constructor ()
      ensures Valid() && Abs() == Fresh()
    {
      queue, waiter, waiterEx, senders, closed := [], None, false, 1, false;
    }

    method CloseLocked() returns (h: Option<nat>, ex: bool)
      requires Valid()
      modifies this
      ensures Valid() && (Abs(), Handed(h, ex)) == Closed(old(Abs()))
    {
      if closed {
        return None, false;
      }
      closed := true;
      h, waiter := waiter, None;
      ex, waiterEx := waiterEx, false;
    }

    method SendLocked(value: T) returns (h: Option<nat>, ex: bool, ok: bool)
      requires Valid()
      modifies this
      ensures Valid() && (Abs(), Handed(h, ex), ok) == Sent(old(Abs()), value)
    {
      if closed {
        return None, false, false;
      }
      queue := queue + [value];
      h, waiter := waiter, None;
      ex, waiterEx := waiterEx, false;
      ok := true;
    }

    method AwaitReady() returns (ready: bool)
      ensures ready == Ready(Abs())
    {
      ready := |queue| != 0 || closed;
    }

    method AwaitSuspend(h: nat, ex: bool) returns (suspended: bool)
      requires Valid()
      modifies this
      ensures Valid() && (Abs(), suspended) == Parked(old(Abs()), Token(h, ex))
    {
      if |queue| != 0 || closed {
        return false;
      }
      waiter, waiterEx := Some(h), ex;
      suspended := true;
    }

    method AwaitResume() returns (v: Option<T>)
      requires Valid()
      modifies this
      ensures Valid() && (Abs(), v) == Taken(old(Abs()))
    {
      if |queue| != 0 {
        v := Some(queue[0]);
        queue := queue[1..];
      } else {
        v := None;
      }
    }
  }

  ghost function Handed(h: Option<nat>, ex: bool): Option<Token> {
    if h.Some? then Some(Token(h.value, ex)) else None
  }
}
