/**
 The counting sender handles of a channel (src/channel.hpp, `mpsc::Sender`) as heap objects
 that share, copy, move, assign and drop channel states.
 */
module SenderHandles {
  import opened Wrappers
  import opened Mpsc

  ghost function Holders<T>(all: set<Sender<T>>, c: MpscState<T>): set<Sender<T>>
    reads all
  {
    set h | h in all && h.state == c
  }

  /** The count of every channel is the number of live handles on it, and no handle left means closed. */
  ghost predicate Counted<T>(all: set<Sender<T>>, chans: set<MpscState<T>>)
    reads all, chans
  {
    && (forall h :: h in all && h.state != null ==> h.state in chans)
    && (forall c :: c in chans ==> c.Valid() && c.senders == |Holders(all, c)| && (c.senders == 0 ==> c.closed))
  }

  /** What an operation on the handle h may do to the channels: it closes exactly the one it emptied. */
  twostate predicate ClosesOnlyWhenEmptied<T>(all: set<Sender<T>>, chans: set<MpscState<T>>, was: MpscState?<T>)
    reads all, chans
  {
    forall c :: c in chans ==>
      && c.queue == old(c.queue)
      && (c.closed <==> old(c.closed) || (c == was && Holders(all, c) == {}))
  }

  lemma Held<T>(h: Sender<T>, all: set<Sender<T>>)
    requires h in all
    ensures h.state != null ==> Holders(all, h.state) != {}
  {
    assert h.state != null ==> h in Holders(all, h.state);
  }

  lemma Swapped<A>(s: set<A>, a: A, b: A)
    requires a in s && b !in s
    ensures |s - {a} + {b}| == |s| && s - {a} + {b} != {}
  {
    OneLess(s, a);
    OneMore(s - {a}, b);
  }

  class Sender<T> {
    var state: MpscState?<T>

    constructor (s: MpscState?<T>)
      ensures state == s
    {
      state := s;
    }

    /** The second half of a copy: point an empty handle at the state and count it. */
    method Attach(s: MpscState?<T>, ghost all: set<Sender<T>>, ghost chans: set<MpscState<T>>)
      requires this in all && state == null && Counted(all, chans)
      requires s != null ==> s in chans
      modifies this`state, (if s == null then {} else {s})`senders
      ensures state == s && Counted(all, chans)
    {
      state := s;
      if s != null {
        s.senders := s.senders + 1;
        assert Holders(all, s) == old(Holders(all, s)) + {this};
        OneMore(old(Holders(all, s)), this);
      }
      forall c | c in chans && c != s
        ensures Holders(all, c) == old(Holders(all, c))
      {
      }
    }

    /** Copy construction into a handle that did not exist before. */
    constructor CopyOf(o: Sender<T>, ghost all: set<Sender<T>>, ghost chans: set<MpscState<T>>)
      requires o in all && Counted(all, chans)
      modifies (if o.state == null then {} else {o.state})`senders
      ensures state == o.state && Counted(all + {this}, chans)
    {
      state := null;
      new;
      forall c | c in chans
        ensures Holders(all + {this}, c) == old(Holders(all, c))
      {
      }
      Attach(o.state, all + {this}, chans);
    }

    /** Move construction: the count stays with the state. */
    constructor MoveOf(o: Sender<T>, ghost all: set<Sender<T>>, ghost chans: set<MpscState<T>>)
      requires o in all && Counted(all, chans)
      modifies o
      ensures state == old(o.state) && o.state == null && Counted(all + {this}, chans)
    {
      state := o.state;
      new;
      o.state := null;
      forall c | c in chans
        ensures Holders(all + {this}, c)
             == if c == state then old(Holders(all, c)) - {o} + {this} else old(Holders(all, c))
      {
      }
    }

    method Release(ghost all: set<Sender<T>>, ghost chans: set<MpscState<T>>)
      requires this in all && Counted(all, chans)
      modifies this, chans
      ensures state == null && Counted(all, chans)
      ensures forall h :: h in all && h != this ==> h.state == old(h.state)
      ensures ClosesOnlyWhenEmptied(all, chans, old(state))
    {
      if state == null {
        return;
      }
      ghost var was := state;
      ghost var before := Holders(all, was);
      var lastSender := state.senders == 1;
      state.senders := state.senders - 1;
      if lastSender {
        var _, _ := state.CloseLocked();
      }
      state := null;
      assert Holders(all, was) == before - {this};
      OneLess(before, this);
      forall c | c in chans && c != was
        ensures Holders(all, c) == old(Holders(all, c))
      {
      }
    }

    method CopyAssign(o: Sender<T>, ghost all: set<Sender<T>>, ghost chans: set<MpscState<T>>)
      requires this in all && o in all && Counted(all, chans)
      modifies this, chans
      ensures state == o.state && o.state == old(o.state) && Counted(all, chans)
      ensures forall h :: h in all && h != this ==> h.state == old(h.state)
      ensures ClosesOnlyWhenEmptied(all, chans, old(state))
    {
      if this == o {
        return;
      }
      Release(all, chans);
      label released:
      Attach(o.state, all, chans);
      forall c | c in chans
        ensures (Holders(all, c) == {}) == (old@released(Holders(all, c)) == {})
      {
        assert c == state ==> o in old@released(Holders(all, c)) && this in Holders(all, c);
        assert c != state ==> Holders(all, c) == old@released(Holders(all, c));
      }
    }

    /** Takes over what another handle points at; the count stays with the state. */
    method TakeOver(o: Sender<T>, ghost all: set<Sender<T>>, ghost chans: set<MpscState<T>>)
      requires this in all && o in all && o != this && state == null && Counted(all, chans)
      modifies this`state, o`state
      ensures state == old(o.state) && o.state == null && Counted(all, chans)
      ensures forall c :: c in chans ==> (Holders(all, c) == {} <==> old(Holders(all, c)) == {})
    {
      state := o.state;
      o.state := null;
      forall c | c in chans
        ensures Holders(all, c) == if c == state then old(Holders(all, c)) - {o} + {this} else old(Holders(all, c))
      {
      }
      if state != null {
        Swapped(old(Holders(all, o.state)), o, this);
      }
    }

    method MoveAssign(o: Sender<T>, ghost all: set<Sender<T>>, ghost chans: set<MpscState<T>>)
      requires this in all && o in all && Counted(all, chans)
      modifies this, o, chans
      ensures state == old(o.state) && (o != this ==> o.state == null) && Counted(all, chans)
      ensures forall h :: h in all && h != this && h != o ==> h.state == old(h.state)
      ensures ClosesOnlyWhenEmptied(all, chans, old(state))
    {
      hide Counted, Holders;
      if this == o {
        Held(this, all);
        return;
      }
      Release(all, chans);
      TakeOver(o, all, chans);
    }

    /** Destruction: the handle leaves the set of live handles. */
    method Drop(ghost all: set<Sender<T>>, ghost chans: set<MpscState<T>>)
      requires this in all && Counted(all, chans)
      modifies this, chans
      ensures Counted(all - {this}, chans)
      ensures ClosesOnlyWhenEmptied(all - {this}, chans, old(state))
    {
      Release(all, chans);
      forall c | c in chans
        ensures Holders(all - {this}, c) == Holders(all, c)
      {
      }
    }
  }
}
