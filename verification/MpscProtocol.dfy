/**
 All interleavings of the threads that share one mpsc channel: senders, closers, the
 releasers of sender handles, the executor and the sole receiver.  One action is one
 critical section, one atomic update of the sender count, or one wake performed after the
 lock was released.  Threads and sender handles are named by the same type A, but any thread may
 use any live handle, also one that others are using.
 */
module MpscProtocol {
  import opened Wrappers
  import opened Mpsc

  /** Where the receiving coroutine is.  Crashed: it was resumed while not suspended there. */
  datatype Rx = Idle | Checked | Suspended(k: nat) | Resuming | Gone | Crashed

  datatype Sys<!T, !A> = Sys(
    ch: Chan<T>,
    rx: Rx,
    next: nat,                    // suspensions so far
    hands: map<A, Option<Token>>, // threads past a critical section, with what they still have to wake
    runq: seq<Token>,             // resumptions posted to the executor
    handles: set<A>,              // live sender handles
    closing: set<A>,              // releasers that saw the count reach zero and have not closed yet
    accepted: seq<T>,
    received: seq<T>,
    frozen: Option<seq<T>>,       // what had been accepted when the channel was closed
    last: Option<Option<T>>)      // the outcome of the latest awaited recv

  datatype Act<T, A> =
    | Send(a: A, via: A, v: T)
    | Close(a: A, via: A)
    | Wake(a: A)
    | RunToken
    | AwaitReady
    | AwaitSuspend(viaExecutor: bool)
    | AwaitResume
    | TryRecv
    | DropReceiver(a: A)
    | Copy(a: A, b: A)
    | Move(a: A, b: A)
    | Release(a: A, via: A)
    | CloseAfterRelease(a: A)

  /** Thread a is not between a critical section and what it owes for it. */
  ghost predicate Free<T, A>(s: Sys<T, A>, a: A) {
    a !in s.hands && a !in s.closing
  }

  ghost predicate Enabled<T, A>(s: Sys<T, A>, act: Act<T, A>) {
    match act
    case Send(a, via, _) => via in s.handles && Free(s, a)
    case Close(a, via) => via in s.handles && Free(s, a)
    case Wake(a) => a in s.hands
    case RunToken => |s.runq| > 0
    case AwaitReady => s.rx.Idle?
    case AwaitSuspend(_) => s.rx.Checked?
    case AwaitResume => s.rx.Resuming?
    case TryRecv => s.rx.Idle?
    case DropReceiver(a) => s.rx.Idle? && Free(s, a)
    case Copy(a, b) => a in s.handles && b !in s.handles
    case Move(a, b) => a in s.handles && b !in s.handles
    case Release(a, via) => via in s.handles && Free(s, a)
    case CloseAfterRelease(a) => a in s.closing && a !in s.hands
  }

  /** `h.resume()`: only the suspension that the handle belongs to may be resumed, and only once. */
  ghost function Resume(rx: Rx, t: Token): Rx {
    if rx == Suspended(t.k) then Resuming else Crashed
  }

  ghost function CloseBy<T, A>(s: Sys<T, A>, a: A): Sys<T, A> {
    var (c, t) := Closed(s.ch);
    s.(ch := c, hands := s.hands[a := t], frozen := if s.ch.closed then s.frozen else Some(s.accepted))
  }

  ghost function Apply<T, A>(s: Sys<T, A>, act: Act<T, A>): Sys<T, A>
    requires Enabled(s, act)
  {
    match act
    case Send(a, _, v) =>
      var (c, t, ok) := Sent(s.ch, v);
      if ok then s.(ch := c, hands := s.hands[a := t], accepted := s.accepted + [v]) else s.(ch := c)
    case Close(a, _) => CloseBy(s, a)
    case Wake(a) =>
      var s1 := s.(hands := s.hands - {a});
      if s.hands[a].None? then s1
      else if s.hands[a].value.viaExecutor then s1.(runq := s.runq + [s.hands[a].value])
      else s1.(rx := Resume(s.rx, s.hands[a].value))
    case RunToken => s.(runq := s.runq[1..], rx := Resume(s.rx, s.runq[0]))
    case AwaitReady => s.(rx := if Ready(s.ch) then Resuming else Checked)
    case AwaitSuspend(ex) =>
      var (c, parked) := Parked(s.ch, Token(s.next, ex));
      s.(ch := c, rx := if parked then Suspended(s.next) else Resuming, next := s.next + 1)
    case AwaitResume =>
      var (c, v) := Taken(s.ch);
      s.(ch := c, rx := Idle, last := Some(v), received := s.received + (if v.Some? then [v.value] else []))
    case TryRecv =>
      var (c, v) := Taken(s.ch);
      s.(ch := c, received := s.received + (if v.Some? then [v.value] else []))
    case DropReceiver(a) => CloseBy(s, a).(rx := Gone)
    case Copy(a, b) => s.(ch := s.ch.(senders := s.ch.senders + 1), handles := s.handles + {b})
    case Move(a, b) => s.(handles := s.handles - {a} + {b})
    case Release(a, via) =>
      s.(ch := s.ch.(senders := s.ch.senders - 1), handles := s.handles - {via},
         closing := if s.ch.senders == 1 then s.closing + {a} else s.closing)
    case CloseAfterRelease(a) => CloseBy(s, a).(closing := s.closing - {a})
  }

  ghost predicate Init<T(!new), A(!new)>(s: Sys<T, A>) {
    exists a :: a in s.handles && s == Sys(Fresh(), Idle, 0, map[], [], {a}, {}, [], [], None, None)
  }

  // ---- Tokens: the right to resume the suspended receiver --------------------------------

  ghost predicate EmptyHands<T, A(!new)>(s: Sys<T, A>, but: Option<A>) {
    forall a: A :: a in s.hands && Some(a) != but ==> s.hands[a].None?
  }

  ghost predicate NoToken<T, A(!new)>(s: Sys<T, A>) {
    s.ch.waiter.None? && EmptyHands(s, None) && s.runq == []
  }

  ghost predicate InSlot<T, A(!new)>(s: Sys<T, A>, k: nat) {
    s.ch.waiter.Some? && s.ch.waiter.value.k == k && EmptyHands(s, None) && s.runq == []
  }

  ghost predicate InHand<T, A(!new)>(s: Sys<T, A>, k: nat, a: A) {
    && s.ch.waiter.None? && s.runq == [] && EmptyHands(s, Some(a))
    && a in s.hands && s.hands[a].Some? && s.hands[a].value.k == k
  }

  ghost predicate InQueue<T, A(!new)>(s: Sys<T, A>, k: nat) {
    s.ch.waiter.None? && EmptyHands(s, None) && |s.runq| == 1 && s.runq[0].k == k
  }

  /** Exactly one of the three places holds the one token of suspension k. */
  ghost predicate OneToken<T, A(!new)>(s: Sys<T, A>, k: nat) {
    InSlot(s, k) || (exists a :: InHand(s, k, a)) || InQueue(s, k)
  }

  ghost predicate TokenInv<T, A(!new)>(s: Sys<T, A>) {
    && !s.rx.Crashed?
    && (if s.rx.Suspended? then OneToken(s, s.rx.k) else NoToken(s))
    && (s.ch.waiter.Some? ==> !Ready(s.ch))
    && (s.rx.Suspended? && s.ch.waiter.None? ==> Ready(s.ch))
    && (s.rx.Resuming? ==> Ready(s.ch))
  }

  // ---- The queue and the handle count ----------------------------------------------------

  ghost predicate FifoInv<T, A>(s: Sys<T, A>) {
    && s.accepted == s.received + s.ch.queue
    && (s.ch.closed <==> s.frozen.Some?)
    && (s.frozen.Some? ==> s.frozen.value == s.accepted)
    && (s.last == Some(None) ==> s.frozen.Some? && s.received == s.frozen.value)
    && (s.rx.Gone? ==> s.ch.closed)
  }

  ghost predicate CountInv<T, A>(s: Sys<T, A>) {
    && s.ch.senders == |s.handles|
    && (s.ch.senders == 0 ==> s.ch.closed || s.closing != {})
    && (s.closing != {} ==> s.handles == {})
  }

  ghost predicate Inv<T, A(!new)>(s: Sys<T, A>) {
    TokenInv(s) && FifoInv(s) && CountInv(s)
  }

  lemma InitInv<T(!new), A(!new)>(s: Sys<T, A>)
    requires Init(s)
    ensures Inv(s)
  {
  }

  /** A resumption finds exactly the suspension it was handed over for, and consumes its only token. */
  lemma ResumeConsumesTheToken<T, A(!new)>(s: Sys<T, A>, act: Act<T, A>)
    requires Inv(s) && Enabled(s, act)
    requires act.RunToken? || (act.Wake? && s.hands[act.a].Some?)
    ensures s.rx.Suspended? && Ready(s.ch)
    ensures act.RunToken? ==> InQueue(s, s.rx.k)
    ensures act.Wake? ==> InHand(s, s.rx.k, act.a)
  {
  }

  lemma TokenStep<T, A(!new)>(s: Sys<T, A>, act: Act<T, A>)
    requires Inv(s) && Enabled(s, act)
    ensures TokenInv(Apply(s, act))
  {
    var s' := Apply(s, act);
    match act
    case Wake(a) =>
      if s.hands[a].Some? { ResumeConsumesTheToken(s, act); }
      else if s.rx.Suspended? { KeepToken(s, s', s.rx.k); }
    case RunToken => ResumeConsumesTheToken(s, act);
    case Send(a, _, _) => if s.rx.Suspended? { HandOver(s, s', s.rx.k, a); }
    case Close(a, _) => if s.rx.Suspended? { HandOver(s, s', s.rx.k, a); }
    case CloseAfterRelease(a) => if s.rx.Suspended? { HandOver(s, s', s.rx.k, a); }
    case AwaitSuspend(_) => assert s'.rx.Suspended? ==> InSlot(s', s'.rx.k);
    case Copy(_, _) => if s.rx.Suspended? { KeepToken(s, s', s.rx.k); }
    case Move(_, _) => if s.rx.Suspended? { KeepToken(s, s', s.rx.k); }
    case Release(_, _) => if s.rx.Suspended? { KeepToken(s, s', s.rx.k); }
    case _ =>
  }

  /** Taking the waiter out of the slot puts its token into the hand of the thread that took it. */
  lemma HandOver<T, A(!new)>(s: Sys<T, A>, s': Sys<T, A>, k: nat, a: A)
    requires OneToken(s, k) && a !in s.hands
    requires s'.runq == s.runq
    requires
      || (s'.ch.waiter.None? && s'.hands == s.hands[a := s.ch.waiter])
      || (s'.ch.waiter == s.ch.waiter && (s'.hands == s.hands || (s.ch.waiter.None? && s'.hands == s.hands[a := None])))
    ensures OneToken(s', k)
  {
    if InSlot(s, k) {
      assert InSlot(s', k) || InHand(s', k, a);
    } else if b :| InHand(s, k, b) {
      assert InHand(s', k, b);
    } else {
      assert InQueue(s', k);
    }
  }

  /** Forgetting an empty hand changes nothing about the token. */
  lemma KeepToken<T, A(!new)>(s: Sys<T, A>, s': Sys<T, A>, k: nat)
    requires OneToken(s, k)
    requires s'.ch.waiter == s.ch.waiter && s'.runq == s.runq
    requires s'.hands == s.hands || exists a :: a in s.hands && s.hands[a].None? && s'.hands == s.hands - {a}
    ensures OneToken(s', k)
  {
    if InSlot(s, k) {
      assert InSlot(s', k);
    } else if b :| InHand(s, k, b) {
      assert InHand(s', k, b);
    } else {
      assert InQueue(s', k);
    }
  }

  /** Taking the front value moves it from the queue to the received ones. */
  lemma FrontMoves<T>(received: seq<T>, queue: seq<T>)
    requires |queue| > 0
    ensures received + queue == (received + [queue[0]]) + queue[1..]
  {
  }

  lemma ResumedOrCrashed()
    ensures forall rx: Rx, t: Token :: Resume(rx, t).Resuming? || Resume(rx, t).Crashed?
  {
  }

  lemma FifoStep<T, A(!new)>(s: Sys<T, A>, act: Act<T, A>)
    requires Inv(s) && Enabled(s, act)
    ensures FifoInv(Apply(s, act))
  {
    hide OneToken, NoToken, CountInv, Free, Resume;
    ResumedOrCrashed();
    if (act.AwaitResume? || act.TryRecv?) && |s.ch.queue| > 0 {
      FrontMoves(s.received, s.ch.queue);
    }
  }

  /** Making, moving and releasing handles. */
  lemma CountHandles<T, A(!new)>(s: Sys<T, A>, act: Act<T, A>)
    requires CountInv(s) && Enabled(s, act) && (act.Copy? || act.Move? || act.Release?)
    ensures CountInv(Apply(s, act))
  {
    hide Free;
    if act.Copy? {
      OneMore(s.handles, act.b);
    } else if act.Move? {
      HandleMoved(s.handles, act.a, act.b);
    } else {
      OneLess(s.handles, act.via);
      OneIsIn(s.closing, act.a);
    }
  }

  lemma HandleMoved<A>(handles: set<A>, a: A, b: A)
    requires a in handles && b !in handles
    ensures |handles - {a} + {b}| == |handles| && handles - {a} + {b} != {} && |handles| > 0
  {
    OneLess(handles, a);
    OneMore(handles - {a}, b);
  }

  lemma OneIsIn<A>(s: set<A>, a: A)
    ensures s + {a} != {}
  {
    assert a in s + {a};
  }

  lemma CountStep<T, A(!new)>(s: Sys<T, A>, act: Act<T, A>)
    requires CountInv(s) && Enabled(s, act)
    ensures CountInv(Apply(s, act))
  {
    hide Ready, Resume, Free;
    if act.Copy? || act.Move? || act.Release? {
      CountHandles(s, act);
    } else {
      var s' := Apply(s, act);
      assert s'.handles == s.handles && s'.ch.senders == s.ch.senders && (s.ch.closed ==> s'.ch.closed);
      assert s'.closing == s.closing || (act.CloseAfterRelease? && s'.ch.closed && s'.closing <= s.closing);
    }
  }

  lemma StepInv<T, A(!new)>(s: Sys<T, A>, act: Act<T, A>)
    requires Inv(s) && Enabled(s, act)
    ensures Inv(Apply(s, act))
  {
    TokenStep(s, act);
    FifoStep(s, act);
    CountStep(s, act);
  }

  // ---- Runs ------------------------------------------------------------------------------

  ghost predicate Run<T, A>(s: Sys<T, A>, acts: seq<Act<T, A>>, s': Sys<T, A>)
    decreases acts
  {
    if acts == [] then s' == s else Enabled(s, acts[0]) && Run(Apply(s, acts[0]), acts[1..], s')
  }

  /** The invariants hold after every run of every interleaving. */
  lemma {:induction false} RunInv<T, A(!new)>(s: Sys<T, A>, acts: seq<Act<T, A>>, s': Sys<T, A>)
    requires Inv(s) && Run(s, acts, s')
    ensures Inv(s')
    decreases acts
  {
    if acts != [] {
      StepInv(s, acts[0]);
      RunInv(Apply(s, acts[0]), acts[1..], s');
    }
  }

  lemma {:induction false} RunLast<T, A(!new)>(s: Sys<T, A>, acts: seq<Act<T, A>>, s': Sys<T, A>) returns (m: Sys<T, A>)
    requires Run(s, acts, s') && acts != []
    ensures Run(s, acts[..|acts| - 1], m) && Enabled(m, acts[|acts| - 1]) && s' == Apply(m, acts[|acts| - 1])
    decreases acts
  {
    hide Apply, Enabled;
    if |acts| == 1 {
      m := s;
      assert Run(Apply(s, acts[0]), [], s') && acts[1..] == [];
    } else {
      m := RunLast(Apply(s, acts[0]), acts[1..], s');
      assert acts[..|acts| - 1][1..] == acts[1..][..|acts| - 2];
    }
  }

  lemma StepMonotone<T, A(!new)>(s: Sys<T, A>, act: Act<T, A>)
    requires Enabled(s, act)
    ensures var s' := Apply(s, act);
      && s.received <= s'.received && s.accepted <= s'.accepted
      && (s.ch.closed ==> s'.ch.closed && s'.accepted == s.accepted)
  {
    hide Ready, Resume, Free;
  }

  /** Nothing is accepted after close, and nothing that was received is ever taken back. */
  lemma {:induction false} RunMonotone<T, A(!new)>(s: Sys<T, A>, acts: seq<Act<T, A>>, s': Sys<T, A>)
    requires Run(s, acts, s')
    ensures s.received <= s'.received && s.accepted <= s'.accepted
    ensures s.ch.closed ==> s'.ch.closed && s'.accepted == s.accepted
    decreases acts
  {
    if acts != [] {
      hide Apply, Enabled;
      StepMonotone(s, acts[0]);
      RunMonotone(Apply(s, acts[0]), acts[1..], s');
    }
  }

  /** No lost wakeup: with something to receive, at most two steps already owed resume the receiver. */
  lemma NoLostWakeup<T, A(!new)>(s: Sys<T, A>) returns (acts: seq<Act<T, A>>, s': Sys<T, A>)
    requires Inv(s) && s.rx.Suspended? && Ready(s.ch)
    ensures |acts| <= 2 && forall i :: 0 <= i < |acts| ==> acts[i].Wake? || acts[i].RunToken?
    ensures Run(s, acts, s') && s'.rx.Resuming? && s'.ch == s.ch
    ensures s'.accepted == s.accepted && s'.received == s.received
  {
    if InQueue(s, s.rx.k) {
      acts, s' := [RunToken], Apply(s, RunToken);
    } else {
      var a :| InHand(s, s.rx.k, a);
      var s1 := Apply(s, Wake(a));
      if s.hands[a].value.viaExecutor {
        acts, s' := [Wake(a), RunToken], Apply(s1, RunToken);
        assert Run(s1, [RunToken], s');
        assert acts[1..] == [RunToken];
      } else {
        acts, s' := [Wake(a)], s1;
      }
    }
  }

  // ---- Nobody is stuck -------------------------------------------------------------------

  lemma {:induction false} RunThen<T, A(!new)>(s: Sys<T, A>, xs: seq<Act<T, A>>, m: Sys<T, A>, ys: seq<Act<T, A>>,
                                               s': Sys<T, A>)
    requires Run(s, xs, m) && Run(m, ys, s')
    ensures Run(s, xs + ys, s')
    decreases xs
  {
    hide Apply, Enabled;
    if xs == [] {
      assert xs + ys == ys;
    } else {
      RunThen(Apply(s, xs[0]), xs[1..], m, ys, s');
      assert (xs + ys)[1..] == xs[1..] + ys;
    }
  }

  /** One action more. */
  lemma Then<T, A(!new)>(s: Sys<T, A>, acts: seq<Act<T, A>>, m: Sys<T, A>, act: Act<T, A>) returns (s': Sys<T, A>)
    requires Run(s, acts, m) && Inv(m) && Enabled(m, act)
    ensures Run(s, acts + [act], s') && s' == Apply(m, act) && Inv(s')
  {
    hide Apply, Enabled, Inv;
    s' := Apply(m, act);
    StepInv(m, act);
    assert Run(s', [], s') && [act][1..] == [];
    RunThen(s, acts, m, [act], s');
  }

  /** What a thread has left to do after a critical section or a release. */
  predicate OwedBy<T, A(==)>(a: A, act: Act<T, A>) {
    (act.Wake? || act.CloseAfterRelease?) && act.a == a
  }

  lemma OwedStep<T, A(!new)>(s: Sys<T, A>, a: A, act: Act<T, A>)
    requires Enabled(s, act) && OwedBy(a, act)
    ensures var s' := Apply(s, act);
      && s'.handles == s.handles && s'.accepted == s.accepted && s'.received == s.received
      && if act.Wake? then s'.closing == s.closing && a !in s'.hands && s'.ch == s.ch
         else a !in s'.closing && a in s'.hands
  {
    hide Resume;
  }

  /** From every state a thread needs at most three steps of its own to be free, and then it can send, close and
      release through any handle that is live; handles can be copied and moved at any time. */
  lemma NoThreadStuck<T(!new), A(!new)>(s: Sys<T, A>, a: A) returns (acts: seq<Act<T, A>>, s': Sys<T, A>)
    requires Inv(s)
    ensures Run(s, acts, s') && Inv(s') && |acts| <= 3 && forall i :: 0 <= i < |acts| ==> OwedBy(a, acts[i])
    ensures s'.handles == s.handles && s'.accepted == s.accepted && s'.received == s.received
    ensures CanAct(s', a) && (a !in s.closing ==> s'.ch == s.ch)
  {
    hide Apply, Inv, CanAct;
    acts, s' := [], s;
    if a in s.hands {
      OwedStep(s', a, Wake(a));
      s' := Then(s, acts, s', Wake(a));
      acts := acts + [Wake(a)];
    }
    if a in s'.closing {
      OwedStep(s', a, CloseAfterRelease(a));
      s' := Then(s, acts, s', CloseAfterRelease(a));
      acts := acts + [CloseAfterRelease(a)];
      OwedStep(s', a, Wake(a));
      s' := Then(s, acts, s', Wake(a));
      acts := acts + [Wake(a)];
    }
    FreeCanAct(s', a);
  }

  /** Everything that thread a may want to do is possible. */
  ghost predicate CanAct<T(!new), A(!new)>(s: Sys<T, A>, a: A) {
    && (forall via, v :: via in s.handles ==> Enabled(s, Send(a, via, v)))
    && (forall via :: via in s.handles ==> Enabled(s, Close(a, via)) && Enabled(s, Release(a, via)))
    && (forall via, b :: via in s.handles && b !in s.handles ==> Enabled(s, Copy(via, b)) && Enabled(s, Move(via, b)))
    && (s.rx.Idle? ==> Enabled(s, DropReceiver(a)))
  }

  lemma FreeCanAct<T(!new), A(!new)>(s: Sys<T, A>, a: A)
    requires a !in s.hands && a !in s.closing
    ensures CanAct(s, a)
  {
  }

  /** A take delivers the first accepted value that was not yet received, an awaited one of nothing the end. */
  lemma TakeDelivers<T, A(!new)>(s: Sys<T, A>, act: Act<T, A>)
    requires Inv(s) && Enabled(s, act) && (act.AwaitResume? || act.TryRecv?)
    ensures var s', n := Apply(s, act), |s.received|;
      && s'.rx.Idle? && s'.accepted == s.accepted
      && if n < |s.accepted| then
        s'.received == s.received + [s.accepted[n]] && (act.AwaitResume? ==> s'.last == Some(Some(s.accepted[n])))
      else
        s'.received == s.received && (act.AwaitResume? ==> s'.last == Some(None))
  {
    hide TokenInv, CountInv, Free;
  }

  /** Steps on the way of the receiver that are not its taking of a value. */
  predicate Receiving<T, A>(act: Act<T, A>, ex: bool) {
    act.Wake? || act.RunToken? || act.AwaitReady? || (act.AwaitSuspend? && act.viaExecutor == ex)
  }

  /** With something to receive, the receiver need not wait. */
  lemma ReadySteps<T, A(!new)>(s: Sys<T, A>, ex: bool)
    requires Ready(s.ch) && (s.rx.Idle? || s.rx.Checked?)
    ensures var act := if s.rx.Idle? then AwaitReady else AwaitSuspend(ex);
      && Enabled(s, act) && Apply(s, act).rx.Resuming?
      && Apply(s, act).accepted == s.accepted && Apply(s, act).received == s.received
  {
  }

  lemma ComesToResume<T, A(!new)>(s: Sys<T, A>, ex: bool) returns (acts: seq<Act<T, A>>, s': Sys<T, A>)
    requires Inv(s) && Ready(s.ch) && !s.rx.Gone?
    ensures Run(s, acts, s') && Inv(s') && |acts| <= 2 && forall i :: 0 <= i < |acts| ==> Receiving(acts[i], ex)
    ensures s'.rx.Resuming? && s'.accepted == s.accepted && s'.received == s.received
  {
    hide Apply, FifoInv, CountInv, OneToken, NoToken;
    acts, s' := [], s;
    if s.rx.Idle? || s.rx.Checked? {
      var act := if s.rx.Idle? then AwaitReady else AwaitSuspend(ex);
      ReadySteps(s, ex);
      s' := Then(s, acts, s, act);
      acts := acts + [act];
    } else if s.rx.Suspended? {
      acts, s' := NoLostWakeup(s);
      RunInv(s, acts, s');
    }
  }

  /** From every state in which there is something to receive, at most two steps, none of them a sender's, and the
      taking itself complete the receiver's recv, whichever way it waits. */
  lemma RecvCompletes<T, A(!new)>(s: Sys<T, A>, ex: bool) returns (acts: seq<Act<T, A>>, s': Sys<T, A>)
    requires Inv(s) && Ready(s.ch) && !s.rx.Gone?
    ensures |acts| <= 2 && forall i :: 0 <= i < |acts| ==> Receiving(acts[i], ex)
    ensures Run(s, acts + [AwaitResume], s') && Inv(s') && s'.rx.Idle? && s'.accepted == s.accepted
    ensures if |s.received| < |s.accepted| then
        s'.received == s.received + [s.accepted[|s.received|]] && s'.last == Some(Some(s.accepted[|s.received|]))
      else
        s'.received == s.received && s'.last == Some(None)
  {
    hide Apply, Inv, Receiving, Run;
    var m;
    acts, m := ComesToResume(s, ex);
    TakeDelivers(m, AwaitResume);
    s' := Then(s, acts, m, AwaitResume);
  }

  // ---- What the actions of a run say about its end ---------------------------------------

  predicate Closing<T, A>(act: Act<T, A>) {
    act.Close? || act.DropReceiver? || act.CloseAfterRelease?
  }

  ghost predicate ClosedIn<T, A>(acts: seq<Act<T, A>>) {
    exists i :: 0 <= i < |acts| && Closing(acts[i])
  }

  ghost predicate DroppedIn<T, A>(acts: seq<Act<T, A>>) {
    exists i :: 0 <= i < |acts| && acts[i].DropReceiver?
  }

  /** The values whose send came before anything closed the channel, in order. */
  ghost function SentIn<T, A>(acts: seq<Act<T, A>>): seq<T> {
    if acts == [] then []
    else
      var n := |acts| - 1;
      SentIn(acts[..n]) + (if acts[n].Send? && !ClosedIn(acts[..n]) then [acts[n].v] else [])
  }

  /** Of every suspension, in order, whether it was made with an executor. */
  function Modes<T, A>(acts: seq<Act<T, A>>): seq<bool> {
    if acts == [] then []
    else
      var n := |acts| - 1;
      Modes(acts[..n]) + (if acts[n].AwaitSuspend? then [acts[n].viaExecutor] else [])
  }

  /** The live handles: those made, by the channel or by copying, and neither moved away nor released since. */
  function HandlesIn<T, A>(acts: seq<Act<T, A>>, first: set<A>): set<A> {
    if acts == [] then first
    else
      var n := |acts| - 1;
      var before := HandlesIn(acts[..n], first);
      match acts[n]
      case Copy(_, b) => before + {b}
      case Move(a, b) => before - {a} + {b}
      case Release(_, via) => before - {via}
      case _ => before
  }

  /** A token says how the suspension was made that it belongs to. */
  predicate TokenMode(t: Token, modes: seq<bool>) {
    t.k < |modes| && t.viaExecutor == modes[t.k]
  }

  ghost predicate ModeInv<T, A(!new)>(s: Sys<T, A>, modes: seq<bool>) {
    && s.next == |modes|
    && (s.rx.Suspended? ==> s.rx.k < |modes|)
    && (s.ch.waiter.Some? ==> TokenMode(s.ch.waiter.value, modes))
    && (forall a: A :: a in s.hands && s.hands[a].Some? ==> TokenMode(s.hands[a].value, modes))
    && (forall i :: 0 <= i < |s.runq| ==> TokenMode(s.runq[i], modes) && s.runq[i].viaExecutor)
  }

  /** A token is moved or used up. */
  lemma ModeResume<T, A(!new)>(s: Sys<T, A>, act: Act<T, A>, modes: seq<bool>)
    requires ModeInv(s, modes) && Enabled(s, act) && (act.Wake? || act.RunToken?)
    ensures ModeInv(Apply(s, act), modes) && modes + [] == modes
  {
    hide Resume;
    ResumedOrCrashed();
  }

  lemma ModeStep<T, A(!new)>(s: Sys<T, A>, act: Act<T, A>, modes: seq<bool>)
    requires ModeInv(s, modes) && Enabled(s, act)
    ensures ModeInv(Apply(s, act), modes + (if act.AwaitSuspend? then [act.viaExecutor] else []))
  {
    hide Ready, Free, Resume;
    if act.Wake? || act.RunToken? {
      hide Apply, Enabled, ModeInv;
      ModeResume(s, act, modes);
    }
  }

  lemma HistoryStep<T, A(!new)>(s: Sys<T, A>, act: Act<T, A>)
    requires TokenInv(s) && Enabled(s, act)
    ensures Apply(s, act).ch.closed <==> s.ch.closed || Closing(act)
    ensures Apply(s, act).rx.Gone? <==> s.rx.Gone? || act.DropReceiver?
    ensures Apply(s, act).accepted == s.accepted + if act.Send? && !s.ch.closed then [act.v] else []
    ensures Apply(s, act).handles == match act
                                     case Copy(_, b) => s.handles + {b}
                                     case Move(a, b) => s.handles - {a} + {b}
                                     case Release(_, via) => s.handles - {via}
                                     case _ => s.handles
  {
    hide Ready, Free;
  }

  /** Over every run: the channel is closed exactly when something closed it, the receiver is gone exactly when it was
      dropped, what was accepted is what was sent before the close, the handles are those made and not given up, and
      every token tells how its suspension was made. */
  lemma {:induction false} RunHistory<T(!new), A(!new)>(s: Sys<T, A>, acts: seq<Act<T, A>>, s': Sys<T, A>)
    requires Init(s) && Run(s, acts, s')
    ensures s'.ch.closed <==> ClosedIn(acts)
    ensures s'.rx.Gone? <==> DroppedIn(acts)
    ensures s'.accepted == SentIn(acts) && s'.handles == HandlesIn(acts, s.handles)
    ensures ModeInv(s', Modes(acts))
    decreases |acts|
  {
    if acts != [] {
      hide Apply, Enabled, ModeInv, Closing, Init, TokenInv;
      var n := |acts| - 1;
      var m := RunLast(s, acts, s');
      RunHistory(s, acts[..n], m);
      TokensOf(s, acts[..n], m);
      HistoryStep(m, acts[n]);
      ModeStep(m, acts[n], Modes(acts[..n]));
      assert acts == acts[..n] + [acts[n]];
      ClosedSnoc(acts[..n], acts[n]);
      DroppedSnoc(acts[..n], acts[n]);
    }
  }

  lemma TokensOf<T(!new), A(!new)>(s: Sys<T, A>, acts: seq<Act<T, A>>, s': Sys<T, A>)
    requires Init(s) && Run(s, acts, s')
    ensures TokenInv(s')
  {
    hide TokenInv, FifoInv, CountInv, Init, Run;
    RunFromInit(s, acts, s');
  }

  lemma DroppedSnoc<T, A>(acts: seq<Act<T, A>>, act: Act<T, A>)
    ensures DroppedIn(acts + [act]) <==> DroppedIn(acts) || act.DropReceiver?
  {
    var all := acts + [act];
    assert all[|acts|] == act;
    if i :| 0 <= i < |acts| && acts[i].DropReceiver? {
      assert all[i] == acts[i];
    }
  }

  lemma ClosedSnoc<T, A>(acts: seq<Act<T, A>>, act: Act<T, A>)
    ensures ClosedIn(acts + [act]) <==> ClosedIn(acts) || Closing(act)
  {
    hide Closing;
    var all := acts + [act];
    assert all[|acts|] == act;
    if i :| 0 <= i < |acts| && Closing(acts[i]) {
      assert all[i] == acts[i];
    }
  }

  /** Who resumes the receiver: a suspension made with an executor is resumed by the executor alone, one made
      without by the thread that took its token out of the channel. */
  lemma ResumedBy<T(!new), A(!new)>(s: Sys<T, A>, acts: seq<Act<T, A>>, m: Sys<T, A>, act: Act<T, A>)
    requires Init(s) && Run(s, acts, m) && m.rx.Suspended? && Enabled(m, act)
    ensures m.rx.k < |Modes(acts)|
    ensures Apply(m, act).rx != m.rx ==>
      && Apply(m, act).rx.Resuming?
      && if Modes(acts)[m.rx.k] then act.RunToken?
         else act.Wake? && m.hands[act.a] == Some(Token(m.rx.k, false))
    ensures act.Wake? && m.hands[act.a].Some? && Modes(acts)[m.rx.k] ==> Apply(m, act).runq == [Token(m.rx.k, true)]
    ensures act.RunToken? || (act.Wake? && m.hands[act.a].Some? && !Modes(acts)[m.rx.k]) ==>
      Apply(m, act).rx.Resuming?
  {
    hide Init, Run, Modes, FifoInv, CountInv;
    RunFromInit(s, acts, m);
    RunHistory(s, acts, m);
    if act.RunToken? || (act.Wake? && m.hands[act.a].Some?) {
      ResumeConsumesTheToken(m, act);
    }
  }

  lemma RunFromInit<T(!new), A(!new)>(s: Sys<T, A>, acts: seq<Act<T, A>>, s': Sys<T, A>)
    requires Init(s) && Run(s, acts, s')
    ensures Inv(s')
  {
    hide Inv;
    InitInv(s);
    RunInv(s, acts, s');
  }

  /** Values accepted before close are still delivered: so many more takes drain the channel in order. */
  lemma {:induction false} DrainAfterClose<T, A(!new)>(s: Sys<T, A>) returns (acts: seq<Act<T, A>>, s': Sys<T, A>)
    requires Inv(s) && s.ch.closed && s.rx.Idle?
    ensures Run(s, acts, s') && s'.received == s.accepted && s'.last == Some(None) && s'.rx.Idle?
    decreases |s.ch.queue|
  {
    var s1 := Apply(s, AwaitReady);
    StepInv(s, AwaitReady);
    var s2 := Apply(s1, AwaitResume);
    StepInv(s1, AwaitResume);
    if |s.ch.queue| == 0 {
      acts, s' := [AwaitReady, AwaitResume], s2;
      assert Run(s1, [AwaitResume], s');
      assert acts[1..] == [AwaitResume];
    } else {
      var more, end := DrainAfterClose(s2);
      acts, s' := [AwaitReady, AwaitResume] + more, end;
      assert acts[1..] == [AwaitResume] + more;
      assert acts[1..][1..] == more;
    }
  }
}
