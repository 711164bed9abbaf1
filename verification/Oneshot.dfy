/**
 The oneshot channel (src/channel.hpp, `oneshot_state`): its critical sections, and all
 interleavings of its one sender handle, its one receiver and the executor.
 */
module Oneshot {
  import opened Wrappers
  import opened Mpsc

  datatype Shot<+T> = Shot(value: Option<T>, waiter: Option<Token>, sent: bool, closed: bool)

  function FreshShot<T>(): Shot<T> {
    Shot(None, None, false, false)
  }

  predicate Settled<T>(s: Shot<T>) {
    s.sent || s.closed
  }

  function ShotClosed<T>(s: Shot<T>): (r: (Shot<T>, Option<Token>)) {
    if Settled(s) then (s, None) else (s.(closed := true, waiter := None), s.waiter)
  }

  function ShotSent<T>(s: Shot<T>, v: T): (r: (Shot<T>, Option<Token>, bool)) {
    if Settled(s) then (s, None, false)
    else (s.(sent := true, value := Some(v), waiter := None), s.waiter, true)
  }

  function ShotParked<T>(s: Shot<T>, w: Token): (r: (Shot<T>, bool)) {
    if Settled(s) then (s, false) else (s.(waiter := Some(w)), true)
  }

  function ShotTaken<T>(s: Shot<T>): (r: (Shot<T>, Option<T>)) {
    (s.(value := None), s.value)
  }

  class OneshotState<T> {
    var value: Option<T>
    var waiter: Option<nat>
    var waiterEx: bool
    var sent: bool
    var closed: bool

    ghost predicate Valid()
      reads this
    {
      waiter.None? ==> !waiterEx
    }

    ghost function Abs(): Shot<T>
      reads this
    {
      Shot(value, Handed(waiter, waiterEx), sent, closed)
    }

    constructor ()
      ensures Valid() && Abs() == FreshShot()
    {
      value, waiter, waiterEx, sent, closed := None, None, false, false, false;
    }

    method CloseLocked() returns (h: Option<nat>, ex: bool)
      requires Valid()
      modifies this
      ensures Valid() && (Abs(), Handed(h, ex)) == ShotClosed(old(Abs()))
    {
      if closed || sent {
        return None, false;
      }
      closed := true;
      h, waiter := waiter, None;
      ex, waiterEx := waiterEx, false;
    }

    method SendLocked(v: T) returns (h: Option<nat>, ex: bool, ok: bool)
      requires Valid()
      modifies this
      ensures Valid() && (Abs(), Handed(h, ex), ok) == ShotSent(old(Abs()), v)
    {
      if sent || closed {
        return None, false, false;
      }
      sent := true;
      value := Some(v);
      h, waiter := waiter, None;
      ex, waiterEx := waiterEx, false;
      ok := true;
    }

    method AwaitSuspend(h: nat, ex: bool) returns (suspended: bool)
      requires Valid()
      modifies this
      ensures Valid() && (Abs(), suspended) == ShotParked(old(Abs()), Token(h, ex))
    {
      if sent || closed {
        return false;
      }
      waiter, waiterEx := Some(h), ex;
      suspended := true;
    }

    method AwaitResume() returns (v: Option<T>)
      requires Valid()
      modifies this
      ensures Valid() && (Abs(), v) == ShotTaken(old(Abs()))
    {
      v := value;
      if value.Some? {
        value := None;
      }
    }
  }

  // ---- The protocol ----------------------------------------------------------------------

  datatype Rx = Idle | Checked | Suspended(k: nat) | Resuming | Crashed

  datatype Sys<!T> = Sys(
    shot: Shot<T>,
    tx: bool,                       // the sender handle still holds the state
    hand: Option<Token>,            // taken by the sender, to be woken after the lock
    runq: seq<Token>,
    rx: Rx,
    next: nat,
    payload: Option<T>,             // the value whose send returned true
    outcomes: seq<Option<T>>)       // what the receiver's recvs returned, in order

  datatype Act<T> = Send(v: T) | CloseTx | Wake | RunToken | AwaitReady | AwaitSuspend(viaExecutor: bool) | AwaitResume

  ghost predicate Enabled<T>(s: Sys<T>, a: Act<T>) {
    match a
    case Send(_) => s.tx
    case CloseTx => s.tx
    case Wake => s.hand.Some?
    case RunToken => |s.runq| > 0
    case AwaitReady => s.rx.Idle?
    case AwaitSuspend(_) => s.rx.Checked?
    case AwaitResume => s.rx.Resuming?
  }

  ghost function Resume(rx: Rx, t: Token): Rx {
    if rx == Suspended(t.k) then Resuming else Crashed
  }

  ghost function Apply<T>(s: Sys<T>, a: Act<T>): Sys<T>
    requires Enabled(s, a)
  {
    match a
    case Send(v) =>
      var (c, t, ok) := ShotSent(s.shot, v);
      if ok then s.(shot := c, hand := t, tx := false, payload := Some(v)) else s.(shot := c)
    case CloseTx =>
      var (c, t) := ShotClosed(s.shot);
      s.(shot := c, hand := t, tx := false)
    case Wake =>
      var s1 := s.(hand := None);
      if s.hand.value.viaExecutor then s1.(runq := s.runq + [s.hand.value]) else s1.(rx := Resume(s.rx, s.hand.value))
    case RunToken => s.(runq := s.runq[1..], rx := Resume(s.rx, s.runq[0]))
    case AwaitReady => s.(rx := if Settled(s.shot) then Resuming else Checked)
    case AwaitSuspend(ex) =>
      var (c, parked) := ShotParked(s.shot, Token(s.next, ex));
      s.(shot := c, rx := if parked then Suspended(s.next) else Resuming, next := s.next + 1)
    case AwaitResume =>
      var (c, v) := ShotTaken(s.shot);
      s.(shot := c, rx := Idle, outcomes := s.outcomes + [v])
  }

  ghost function Start<T>(): Sys<T> {
    Sys(FreshShot(), true, None, [], Idle, 0, None, [])
  }

  ghost predicate OneToken<T>(s: Sys<T>, k: nat) {
    || (s.shot.waiter.Some? && s.shot.waiter.value.k == k && s.hand.None? && s.runq == [])
    || (s.shot.waiter.None? && s.hand.Some? && s.hand.value.k == k && s.runq == [])
    || (s.shot.waiter.None? && s.hand.None? && |s.runq| == 1 && s.runq[0].k == k)
  }

  ghost predicate Inv<T>(s: Sys<T>) {
    && !s.rx.Crashed?
    && (if s.rx.Suspended? then OneToken(s, s.rx.k) else s.shot.waiter.None? && s.hand.None? && s.runq == [])
    && (s.shot.waiter.Some? ==> !Settled(s.shot))
    && ((s.rx.Suspended? && s.shot.waiter.None?) || s.rx.Resuming? ==> Settled(s.shot))
    && (s.tx <==> !Settled(s.shot))
    && !(s.shot.sent && s.shot.closed)
    && (s.shot.sent <==> s.payload.Some?)
    && (s.outcomes != [] ==> Settled(s.shot))
    && Delivered(s)
  }

  /** The first recv gets the payload, every later one and every recv of a closed channel gets nothing. */
  ghost predicate Delivered<T>(s: Sys<T>) {
    && (forall i :: 0 <= i < |s.outcomes| ==> s.outcomes[i] == if i == 0 then s.payload else None)
    && s.shot.value == if s.outcomes == [] then s.payload else None
  }

  lemma StepInv<T>(s: Sys<T>, a: Act<T>)
    requires Inv(s) && Enabled(s, a)
    ensures Inv(Apply(s, a))
  {
  }

  lemma StartInv<T>()
    ensures Inv(Start<T>())
  {
  }

  ghost predicate Run<T>(s: Sys<T>, acts: seq<Act<T>>, s': Sys<T>)
    decreases acts
  {
    if acts == [] then s' == s else Enabled(s, acts[0]) && Run(Apply(s, acts[0]), acts[1..], s')
  }

  /** Over every run: never both sent and closed, at most one delivery, no crash on resumption. */
  lemma {:induction false} RunInv<T>(s: Sys<T>, acts: seq<Act<T>>, s': Sys<T>)
    requires Inv(s) && Run(s, acts, s')
    ensures Inv(s')
    ensures Settled(s.shot) ==> s'.payload == s.payload && s'.shot.closed == s.shot.closed
    decreases acts
  {
    if acts != [] {
      StepInv(s, acts[0]);
      RunInv(Apply(s, acts[0]), acts[1..], s');
    }
  }

  lemma {:induction false} RunLast<T>(s: Sys<T>, acts: seq<Act<T>>, s': Sys<T>) returns (m: Sys<T>)
    requires Run(s, acts, s') && acts != []
    ensures Run(s, acts[..|acts| - 1], m) && Enabled(m, acts[|acts| - 1]) && s' == Apply(m, acts[|acts| - 1])
    decreases acts
  {
    hide Apply, Enabled;
    if |acts| == 1 {
      m := s;
      assert Run(Apply(s, acts[0]), [], s') && acts[1..] == [];
    } else {
      m := RunLast(Apply(s, acts[0]), acts[1..], s');
      assert acts[..|acts| - 1][1..] == acts[1..][..|acts| - 2];
    }
  }

  // ---- What the actions of a run say about its end ---------------------------------------

  /** What settles the channel: the value of its one send, or `None` for closing it; at most one of the two happens. */
  function SettledBy<T>(acts: seq<Act<T>>): Option<Option<T>> {
    if acts == [] then None
    else
      var n := |acts| - 1;
      var before := SettledBy(acts[..n]);
      if before.Some? then before
      else if acts[n].Send? then Some(Some(acts[n].v))
      else if acts[n].CloseTx? then Some(None)
      else None
  }

  /** What the receiver is owed, by what settled the channel. */
  function Owed<T>(how: Option<Option<T>>): Option<T> {
    if how.Some? then how.value else None
  }

  function Modes<T>(acts: seq<Act<T>>): seq<bool> {
    if acts == [] then []
    else
      var n := |acts| - 1;
      Modes(acts[..n]) + (if acts[n].AwaitSuspend? then [acts[n].viaExecutor] else [])
  }

  predicate TokenMode(t: Token, modes: seq<bool>) {
    t.k < |modes| && t.viaExecutor == modes[t.k]
  }

  ghost predicate ModeInv<T>(s: Sys<T>, modes: seq<bool>) {
    && s.next == |modes|
    && (s.shot.waiter.Some? ==> TokenMode(s.shot.waiter.value, modes))
    && (s.hand.Some? ==> TokenMode(s.hand.value, modes))
    && (forall i :: 0 <= i < |s.runq| ==> TokenMode(s.runq[i], modes) && s.runq[i].viaExecutor)
  }

  lemma ModeStep<T>(s: Sys<T>, act: Act<T>, modes: seq<bool>)
    requires ModeInv(s, modes) && Enabled(s, act)
    ensures ModeInv(Apply(s, act), modes + (if act.AwaitSuspend? then [act.viaExecutor] else []))
  {
  }

  ghost predicate HistoryInv<T>(s: Sys<T>, how: Option<Option<T>>) {
    && (s.shot.sent <==> how.Some? && how.value.Some?)
    && (s.shot.closed <==> how == Some(None))
    && s.payload == Owed(how)
  }

  lemma HistoryStep<T>(s: Sys<T>, act: Act<T>, how: Option<Option<T>>)
    requires Inv(s) && HistoryInv(s, how) && Enabled(s, act)
    ensures HistoryInv(Apply(s, act),
      if how.Some? then how else if act.Send? then Some(Some(act.v)) else if act.CloseTx? then Some(None) else None)
  {
  }

  /** Over every run: what the sender did first settles the channel, the first recv gets what was sent and nothing
      else ever gets it, and every token tells how its suspension was made. */
  lemma {:induction false} RunHistory<T>(acts: seq<Act<T>>, s': Sys<T>)
    requires Run(Start(), acts, s')
    ensures Inv(s') && HistoryInv(s', SettledBy(acts)) && ModeInv(s', Modes(acts))
    ensures forall i :: 0 <= i < |s'.outcomes| ==> s'.outcomes[i] == if i == 0 then Owed(SettledBy(acts)) else None
    decreases |acts|
  {
    StartInv<T>();
    RunInv(Start(), acts, s');
    if acts != [] {
      hide Apply, Enabled, Inv, ModeInv, HistoryInv;
      var n := |acts| - 1;
      var m := RunLast(Start(), acts, s');
      RunHistory(acts[..n], m);
      HistoryStep(m, acts[n], SettledBy(acts[..n]));
      ModeStep(m, acts[n], Modes(acts[..n]));
      OutcomesAre(s', SettledBy(acts));
    }
  }

  lemma OutcomesAre<T>(s: Sys<T>, how: Option<Option<T>>)
    requires Inv(s) && HistoryInv(s, how)
    ensures forall i :: 0 <= i < |s.outcomes| ==> s.outcomes[i] == if i == 0 then Owed(how) else None
  {
  }

  /** A suspension made with an executor is resumed by the executor alone, one made without by the sender. */
  lemma ResumedBy<T>(acts: seq<Act<T>>, m: Sys<T>, act: Act<T>)
    requires Run(Start(), acts, m) && m.rx.Suspended? && Enabled(m, act)
    ensures act.Wake? || act.RunToken? ==> m.rx.k < |Modes(acts)|
    ensures Apply(m, act).rx != m.rx ==>
      Apply(m, act).rx.Resuming? && if Modes(acts)[m.rx.k] then act.RunToken? else act.Wake?
    ensures act.Wake? && Modes(acts)[m.rx.k] ==> Apply(m, act).runq == [Token(m.rx.k, true)]
    ensures act.RunToken? || (act.Wake? && !Modes(acts)[m.rx.k]) ==> Apply(m, act).rx.Resuming?
  {
    hide Run, Modes;
    RunHistory(acts, m);
  }

  /** A receiver suspended on a settled channel is resumed by at most two steps already owed. */
  lemma NoLostWakeup<T>(s: Sys<T>) returns (acts: seq<Act<T>>, s': Sys<T>)
    requires Inv(s) && s.rx.Suspended? && Settled(s.shot)
    ensures |acts| <= 2 && Run(s, acts, s') && s'.rx.Resuming? && s'.payload == s.payload && s'.outcomes == s.outcomes
    ensures forall i :: 0 <= i < |acts| ==> acts[i].Wake? || acts[i].RunToken?
  {
    if s.hand.None? {
      acts, s' := [RunToken], Apply(s, RunToken);
    } else {
      var s1 := Apply(s, Wake);
      if s.hand.value.viaExecutor {
        acts, s' := [Wake, RunToken], Apply(s1, RunToken);
        assert Run(s1, [RunToken], s');
        assert acts[1..] == [RunToken];
      } else {
        acts, s' := [Wake], s1;
      }
    }
  }

  /** An unsettled channel can be settled either way at any time. */
  lemma SenderMaySettle<T(!new)>(s: Sys<T>)
    requires Inv(s) && !Settled(s.shot)
    ensures forall v :: Enabled(s, Send(v)) && Apply(s, Send(v)).payload == Some(v)
    ensures Enabled(s, CloseTx) && Settled(Apply(s, CloseTx).shot) && Apply(s, CloseTx).payload.None?
  {
  }

  /** One action more. */
  lemma {:induction false} Then<T>(s: Sys<T>, acts: seq<Act<T>>, m: Sys<T>, act: Act<T>) returns (s': Sys<T>)
    requires Run(s, acts, m) && Enabled(m, act)
    ensures Run(s, acts + [act], s') && s' == Apply(m, act)
    decreases acts
  {
    hide Apply, Enabled;
    if acts == [] {
      s' := Apply(m, act);
      assert Run(s', [], s') && [act][1..] == [] && acts + [act] == [act];
    } else {
      s' := Then(Apply(s, acts[0]), acts[1..], m, act);
      assert (acts + [act])[1..] == acts[1..] + [act];
    }
  }

  /** On a settled channel at most three steps, none of them the sender's, complete the receiver's recv, whichever
      way it waits: the first one with what was sent, any other with nothing. */
  lemma RecvCompletes<T>(s: Sys<T>, ex: bool) returns (acts: seq<Act<T>>, s': Sys<T>)
    requires Inv(s) && Settled(s.shot)
    ensures Run(s, acts, s') && |acts| <= 3 && forall i :: 0 <= i < |acts| ==> !acts[i].Send? && !acts[i].CloseTx?
    ensures s'.rx.Idle? && s'.outcomes == s.outcomes + [if s.outcomes == [] then s.payload else None]
  {
    hide OneToken;
    acts, s' := [], s;
    if s.rx.Idle? || s.rx.Checked? {
      acts := [if s.rx.Idle? then AwaitReady else AwaitSuspend(ex)];
      s' := Then(s, [], s, acts[0]);
      assert [] + acts == acts;
    } else if s.rx.Suspended? {
      acts, s' := NoLostWakeup(s);
    }
    RunInv(s, acts, s');
    var m := s';
    s' := Then(s, acts, m, AwaitResume);
    acts := acts + [AwaitResume];
  }
}
