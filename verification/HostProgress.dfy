/**
 Nothing in a host slot gets stuck: whatever the threads did so far, once the channel is closed
 some continuation, in which no submitting thread takes a step, starts and answers every job
 and ends the host loop.
 */
module HostProgress {
  import opened Wrappers
  import opened Mpsc
  import Oneshot
  import opened HostMachine
  import opened HostTheorems
  import C = MpscProtocol
  import T = Timers

  lemma {:induction false} RunThen(s: Slot, xs: seq<Act>, m: Slot, ys: seq<Act>, s': Slot)
    requires Run(s, xs, m) && Run(m, ys, s')
    ensures Run(s, xs + ys, s')
    decreases xs
  {
    hide Apply, Enabled;
    if xs == [] {
      assert xs + ys == ys;
    } else {
      RunThen(Apply(s, xs[0]), xs[1..], m, ys, s');
      assert (xs + ys)[1..] == xs[1..] + ys;
    }
  }

  lemma OneStep(s: Slot, a: Act) returns (s': Slot)
    requires Inv(s) && Enabled(s, a)
    ensures Run(s, [a], s') && s' == Apply(s, a) && Inv(s')
  {
    hide Apply, Enabled, Inv;
    s' := Apply(s, a);
    StepInv(s, a);
    assert Run(s', [], s') && [a][1..] == [];
  }

  /** No submitting thread takes a step, and nobody closes the channel or releases a handle. */
  predicate Quiet(acts: seq<Act>) {
    forall i :: 0 <= i < |acts| ==> !acts[i].Submit? && !(acts[i].Channel? && (acts[i].c.Close? || acts[i].c.Release?))
  }

  // ---- One job ---------------------------------------------------------------------------

  /** How many steps a started job is away from its end, if its promises settle. */
  function ToGo(t: Task): nat {
    match t.phase
    case Spawned => 7
    case Passed => 6
    case Called => 5
    case Awaiting(_) => if t.outcome.None? then 5 else 4
    case Replied => 3
    case Uncounted => 2
    case Unpended => 1
    case _ => 0
  }

  function StepIn(t: Task, js: JsAnswer): JobAct {
    match t.phase
    case Spawned => CheckCancel
    case Passed => Call
    case Called => Return(js)
    case Awaiting(_) => if t.outcome.None? then Fulfil(js) else Resume
    case Replied => DecInFlight
    case Uncounted => DecPending
    case _ => Forget
  }

  function NextOf(t: Task, id: nat, js: JsAnswer): Act {
    if t.phase.Awaiting? && t.outcome.None? then Settle(t.phase.bridge, js) else Job(id, StepIn(t, js))
  }

  lemma TaskProceeds(t: Task, js: JsAnswer)
    requires StartedPhase(t.phase) && !t.phase.Forgotten?
    ensures var j := StepIn(t, js);
      && JobEnabled(t, j) && !j.Suspend?
      && (if t.phase.Awaiting? && t.outcome.None? then j == Fulfil(js) else !j.Fulfil?)
      && ToGo(JobApply(t, j)) < ToGo(t) && StartedPhase(JobApply(t, j).phase)
  {
    hide Oneshot.ShotSent;
  }

  /** Nothing but this job moved. */
  ghost predicate JobOnly(s: Slot, s': Slot, id: nat) {
    && id in s'.tasks && s'.tasks == s.tasks[id := s'.tasks[id]]
    && s'.chan == s.chan && s'.disp == s.disp && s'.started == s.started && s'.timers == s.timers
    && s'.other == s.other && s'.stopping == s.stopping && s'.exited == s.exited && s'.maxInFlight == s.maxInFlight
  }

  lemma JobProceeds(s: Slot, id: nat, js: JsAnswer)
    requires Inv(s) && id in s.tasks && StartedPhase(s.tasks[id].phase) && !s.tasks[id].phase.Forgotten?
    ensures var a := NextOf(s.tasks[id], id, js);
      && Enabled(s, a) && JobOnly(s, Apply(s, a), id) && StartedPhase(Apply(s, a).tasks[id].phase)
      && ToGo(Apply(s, a).tasks[id]) < ToGo(s.tasks[id])
  {
    hide Inv, StepIn, JobApply, JobEnabled, ToGo, StartedPhase, JobStep, Enabled, Apply, JobOnly;
    TaskProceeds(s.tasks[id], js);
    JobStepOnly(s, id, StepIn(s.tasks[id], js));
    StepIsNext(s, id, js);
  }

  lemma JobStepOnly(s: Slot, id: nat, j: JobAct)
    requires id in s.tasks && JobEnabled(s.tasks[id], j)
    ensures JobOnly(s, JobStep(s, id, j), id) && JobStep(s, id, j).tasks[id] == JobApply(s.tasks[id], j)
  {
    hide JobApply, JobEnabled;
  }

  lemma StepIsNext(s: Slot, id: nat, js: JsAnswer)
    requires Inv(s) && id in s.tasks && JobEnabled(s.tasks[id], StepIn(s.tasks[id], js))
    requires var t, j := s.tasks[id], StepIn(s.tasks[id], js);
      !j.Suspend? && if t.phase.Awaiting? && t.outcome.None? then j == Fulfil(js) else !j.Fulfil?
    ensures var a := NextOf(s.tasks[id], id, js);
      Enabled(s, a) && Apply(s, a) == JobStep(s, id, StepIn(s.tasks[id], js))
  {
    hide C.Inv, PlaceInv, DispInv, CountInv, ExitInv, TaskInv, StepIn, JobEnabled, JobStep;
    if s.tasks[id].phase.Awaiting? {
      assert BridgeOf(s, id, s.tasks[id]);
    }
  }

  lemma {:induction false} FinishJob(s: Slot, id: nat, js: JsAnswer) returns (acts: seq<Act>, s': Slot)
    requires Inv(s) && id in s.tasks && StartedPhase(s.tasks[id].phase)
    ensures Run(s, acts, s') && Inv(s') && Quiet(acts)
    ensures JobOnly(s, s', id) && s'.tasks[id].phase.Forgotten?
    decreases ToGo(s.tasks[id])
  {
    hide Inv, Enabled, Apply, ToGo, NextOf;
    if s.tasks[id].phase.Forgotten? {
      acts, s' := [], s;
      assert s.tasks[id := s.tasks[id]] == s.tasks;
    } else {
      JobProceeds(s, id, js);
      var a := NextOf(s.tasks[id], id, js);
      assert !a.Submit? && !a.Channel? by { NotSubmitted(s.tasks[id], id, js); }
      var m := OneStep(s, a);
      var rest;
      rest, s' := FinishJob(m, id, js);
      RunThen(s, [a], m, rest, s');
      acts := [a] + rest;
      assert m.tasks[id := s'.tasks[id]] == s.tasks[id := s'.tasks[id]];
    }
  }

  lemma NotSubmitted(t: Task, id: nat, js: JsAnswer)
    ensures !NextOf(t, id, js).Submit? && !NextOf(t, id, js).Channel?
  {
  }

  // ---- What a started job may do ---------------------------------------------------------

  datatype Way =
    | FailsFirst(message: string)      // before its function is called
    | Returns(js: JsAnswer)
    | Settles(js: JsAnswer)            // its function returned a promise
    | FailsToAttach(message: string)   // and nothing could be attached to that promise

  function WaySteps(way: Way, id: nat, b: nat): seq<Act> {
    match way
    case FailsFirst(m) => [Job(id, FailBeforeCall(m))]
    case Returns(js) => [Job(id, Call), Job(id, Return(js))]
    case Settles(js) => [Job(id, Call), Job(id, Suspend(b)), Settle(b, js), Job(id, Resume)]
    case FailsToAttach(m) => [Job(id, Call), Job(id, Suspend(b)), Job(id, AttachFails(m))]
  }

  function WayAnswer(way: Way): JsAnswer {
    match way
    case FailsFirst(m) => Err(m)
    case Returns(js) => js
    case Settles(js) => js
    case FailsToAttach(m) => Err(m)
  }

  lemma JobMoves(s: Slot, acts: seq<Act>, m: Slot, id: nat, j: JobAct) returns (s': Slot)
    requires Run(s, acts, m) && Inv(m) && id in m.tasks && JobEnabled(m.tasks[id], j) && !j.Fulfil?
    requires j.Suspend? ==> j.b == |m.issued|
    ensures Run(s, acts + [Job(id, j)], s') && Inv(s') && id in s'.tasks && s'.tasks[id] == JobApply(m.tasks[id], j)
    ensures !j.Suspend? ==> s'.issued == m.issued
    ensures j.Suspend? ==> j.b in s'.bridges && s'.bridges[j.b] == id
  {
    hide Inv, JobApply, JobEnabled;
    s' := OneStep(m, Job(id, j));
    RunThen(s, acts, m, [Job(id, j)], s');
  }

  lemma PromiseSettles(s: Slot, acts: seq<Act>, m: Slot, id: nat, b: nat, js: JsAnswer) returns (s': Slot)
    requires Run(s, acts, m) && Inv(m) && At(m, id, Awaiting(b)) && b in m.bridges && m.bridges[b] == id
    ensures Run(s, acts + [Settle(b, js)], s') && Inv(s') && id in s'.tasks
    ensures s'.tasks[id] == m.tasks[id].(outcome := Some(js), sets := m.tasks[id].sets + 1)
  {
    hide Inv;
    s' := OneStep(m, Settle(b, js));
    RunThen(s, acts, m, [Settle(b, js)], s');
  }

  lemma FreshReply(s: Slot, id: nat)
    requires Inv(s) && At(s, id, Spawned)
    ensures Unanswered(s.tasks[id])
  {
    hide C.Inv, PlaceInv, DispInv, CountInv, ExitInv, BridgeInv;
    assert TaskInv(s.tasks[id]);
  }

  /** A job that was not answered and whose reply channel is open is answered by its reply. */
  ghost predicate Unanswered(t: Task) {
    !t.shot.sent && !t.shot.closed && t.log == []
  }

  lemma Replies(t: Task, ans: Answer)
    requires Unanswered(t)
    ensures Reply(t, ans).phase.Replied? && Reply(t, ans).log == [ans]
  {
  }

  /** The rest of the way, once its function was called. */
  lemma CalledOn(s: Slot, acts: seq<Act>, m: Slot, id: nat, way: Way) returns (s': Slot)
    requires Run(s, acts, m) && Inv(m) && At(m, id, Called) && !way.FailsFirst?
    requires Unanswered(m.tasks[id])
    ensures Run(s, acts + WaySteps(way, id, |m.issued|)[1..], s') && id in s'.tasks && s'.tasks[id].phase.Replied?
    ensures s'.tasks[id].log == [Done(WayAnswer(way))]
  {
    hide Inv, Run, Reply;
    var b := |m.issued|;
    var rest := WaySteps(way, id, b)[1..];
    match way
    case Returns(js) =>
      Replies(m.tasks[id], Done(js));
      s' := JobMoves(s, acts, m, id, Return(js));
      assert rest == [Job(id, Return(js))];
    case Settles(js) =>
      s' := JobMoves(s, acts, m, id, Suspend(b));
      s' := PromiseSettles(s, acts + [Job(id, Suspend(b))], s', id, b, js);
      Replies(s'.tasks[id], Done(js));
      s' := JobMoves(s, acts + [Job(id, Suspend(b))] + [Settle(b, js)], s', id, Resume);
      assert acts + [Job(id, Suspend(b))] + [Settle(b, js)] + [Job(id, Resume)] == acts + rest;
    case FailsToAttach(e) =>
      s' := JobMoves(s, acts, m, id, Suspend(b));
      Replies(s'.tasks[id], Done(Err(e)));
      s' := JobMoves(s, acts + [Job(id, Suspend(b))], s', id, AttachFails(e));
      assert acts + [Job(id, Suspend(b))] + [Job(id, AttachFails(e))] == acts + rest;
  }

  /** A started job goes whichever way the environment takes, and is answered accordingly; if its flag was raised,
      it goes no way at all. */
  lemma EveryWayIsOpen(s: Slot, id: nat, way: Way) returns (s': Slot)
    requires Inv(s) && At(s, id, Spawned)
    ensures Run(s, [Job(id, CheckCancel)] + (if s.tasks[id].flag then [] else WaySteps(way, id, |s.issued|)), s')
    ensures id in s'.tasks && s'.tasks[id].phase.Replied?
    ensures s'.tasks[id].log == [if s.tasks[id].flag then Cancelled else Done(WayAnswer(way))]
  {
    hide Inv, Run, Reply;
    FreshReply(s, id);
    Stay(s);
    Replies(s.tasks[id].(sawFlag := Some(true)), Cancelled);
    s' := JobMoves(s, [], s, id, CheckCancel);
    var acts, b := [Job(id, CheckCancel)], |s.issued|;
    assert [] + acts == acts && acts + [] == acts;
    if !s.tasks[id].flag {
      match way
      case FailsFirst(m) =>
        Replies(s'.tasks[id], Done(Err(m)));
        s' := JobMoves(s, acts, s', id, FailBeforeCall(m));
      case _ =>
        s' := JobMoves(s, acts, s', id, Call);
        s' := CalledOn(s, acts + [Job(id, Call)], s', id, way);
        assert acts + [Job(id, Call)] + WaySteps(way, id, b)[1..] == acts + WaySteps(way, id, b);
    }
  }

  lemma Stay(s: Slot)
    ensures Run(s, [], s)
  {
  }

  // ---- The dispatcher --------------------------------------------------------------------

  lemma CapFreed(s: Slot, s': Slot, id: nat)
    requires CountInv(s) && CountInv(s') && JobOnly(s, s', id)
    requires id in s.tasks && CountedPhase(s.tasks[id].phase) && s'.tasks[id].phase.Forgotten?
    ensures s'.inFlight == s.inFlight - 1
  {
    hide CountedSet, PendingSet, T.Live, T.Inv;
    CountedAfterPut(s.tasks, id, s'.tasks[id]);
  }

  /** At the cap some job is counted. */
  lemma SomeCounted(s: Slot) returns (id: nat)
    requires CountInv(s) && s.inFlight >= 1 && s.disp.Holding?
    ensures id in s.tasks && CountedPhase(s.tasks[id].phase) && StartedPhase(s.tasks[id].phase)
  {
    assert CountedSet(s.tasks) != {};
    id :| id in CountedSet(s.tasks);
  }

  function Stage(d: Disp): nat {
    match d
    case Sleeping(_) => 7
    case Holding(_) => 6
    case Cleared(_) => 5
    case Counted(_) => 4
    case Pended(_) => 3
    case Receiving => 2
    case Exiting => 1
    case Stopped => 0
  }

  /** How far the dispatcher is from its end. */
  function DispatchLeft(s: Slot): nat {
    6 * |s.chan.ch.queue| + Stage(s.disp)
  }

  /** Steps of the channel that a slot lets happen whatever the threads do. */
  predicate Passing(d: Disp, c: C.Act<nat, Actor>) {
    || c.Wake? || c.RunToken? || c.CloseAfterRelease?
    || (d.Receiving? && (c.AwaitReady? || (c.AwaitSuspend? && c.viaExecutor)))
  }

  lemma {:induction false} ChannelSteps(s: Slot, steps: seq<C.Act<nat, Actor>>, c': C.Sys<nat, Actor>)
    returns (acts: seq<Act>)
    requires C.Run(s.chan, steps, c') && forall i :: 0 <= i < |steps| ==> Passing(s.disp, steps[i])
    ensures Run(s, acts, s.(chan := c')) && Quiet(acts) && |acts| == |steps|
    ensures forall i :: 0 <= i < |acts| ==> acts[i] == Channel(steps[i])
    decreases |steps|
  {
    hide C.Apply, C.Enabled;
    if steps == [] {
      acts := [];
    } else {
      var m := s.(chan := C.Apply(s.chan, steps[0]));
      var rest := ChannelSteps(m, steps[1..], c');
      acts := [Channel(steps[0])] + rest;
      assert acts[1..] == rest;
    }
  }

  lemma ClosedIsReady(s: Slot)
    requires Inv(s) && s.disp.Receiving? && s.chan.ch.closed
    ensures C.Inv(s.chan) && Ready(s.chan.ch) && !s.chan.rx.Gone?
  {
    hide C.Inv, PlaceInv, CountInv, ExitInv, TasksInv;
  }

  /** While it receives: what brings it to its next job or to the end of its loop. */
  lemma ReceiverProceeds(s: Slot) returns (acts: seq<Act>, s': Slot)
    requires Inv(s) && s.chan.ch.closed && s.disp.Receiving?
    ensures Run(s, acts, s') && Inv(s') && Quiet(acts) && Rest(s, s') && s'.chan.ch.closed
    ensures DispatchLeft(s') < DispatchLeft(s)
  {
    hide Inv, C.Inv, Enabled, Apply, Rest, DispatchLeft;
    ClosedIsReady(s);
    var steps, c := C.ComesToResume(s.chan, true);
    var first := ChannelSteps(s, steps, c);
    var m := s.(chan := c);
    RunInv(s, first, m);
    C.RunMonotone(s.chan, steps, c);
    RecvProceeds(s, m);
    s' := OneStep(m, Dispatch(Recv));
    RunThen(s, first, m, [Dispatch(Recv)], s');
    acts := first + [Dispatch(Recv)];
  }

  /** What the dispatcher's own steps leave alone. */
  ghost predicate Rest(s: Slot, s': Slot) {
    && s'.timers == s.timers && s'.other == s.other && s'.stopping == s.stopping && s'.exited == s.exited
    && s'.maxInFlight == s.maxInFlight
  }

  lemma QueueFrom(c: C.Sys<nat, Actor>, c': C.Sys<nat, Actor>)
    requires C.Inv(c) && C.Inv(c') && c'.accepted == c.accepted && c'.received == c.received
    ensures c'.ch.queue == c.ch.queue
  {
    hide C.TokenInv, C.CountInv;
    assert c.ch.queue == c.accepted[|c.received|..];
  }

  lemma RecvProceeds(s: Slot, m: Slot)
    requires Inv(s) && m == s.(chan := m.chan) && s.disp.Receiving? && C.Inv(m.chan) && m.chan.rx.Resuming?
    requires m.chan.accepted == s.chan.accepted && m.chan.received == s.chan.received && m.chan.ch.closed
    ensures Enabled(m, Dispatch(Recv)) && Rest(s, Apply(m, Dispatch(Recv)))
    ensures Apply(m, Dispatch(Recv)).chan.ch.closed && DispatchLeft(Apply(m, Dispatch(Recv))) < DispatchLeft(s)
  {
    hide C.Inv, PlaceInv, DispInv, CountInv, ExitInv, TasksInv;
    QueueFrom(s.chan, m.chan);
    RecvEffect(m);
  }

  /** The dispatcher's own step elsewhere. */
  function NextDispatch(s: Slot): Act {
    match s.disp
    case Sleeping(_) => Dispatch(WakeUp)
    case Holding(_) => Dispatch(CheckCap)
    case Cleared(_) => Dispatch(IncInFlight)
    case Counted(_) => Dispatch(IncPending)
    case Pended(_) => Dispatch(Spawn)
    case _ => Dispatch(Exit)
  }

  lemma DispatcherSteps(s: Slot)
    requires !s.disp.Receiving? && !s.disp.Stopped? && (s.disp.Holding? ==> s.inFlight < s.maxInFlight)
    ensures var a := NextDispatch(s);
      Enabled(s, a) && a.Dispatch? && Rest(s, Apply(s, a)) && Apply(s, a).chan == s.chan
      && DispatchLeft(Apply(s, a)) < DispatchLeft(s)
  {
    hide C.Apply, C.Enabled;
  }

  /** Holding a job, the dispatcher sleeps exactly while the cap is reached, and goes on exactly while it is not;
      when it wakes it holds the same job still. */
  lemma SleepsAtTheCap(s: Slot)
    requires Inv(s) && s.disp.Holding?
    ensures Enabled(s, Dispatch(Sleep)) <==> s.inFlight == s.maxInFlight
    ensures Enabled(s, Dispatch(CheckCap)) <==> s.inFlight < s.maxInFlight
    ensures s.inFlight == s.maxInFlight ==> var asleep := Apply(s, Dispatch(Sleep));
      && asleep.disp.Sleeping? && !Enabled(asleep, Dispatch(CheckCap))
      && Enabled(asleep, Dispatch(WakeUp)) && Apply(asleep, Dispatch(WakeUp)) == s
  {
    hide C.Inv, PlaceInv, DispInv, ExitInv, TasksInv, CountedSet, PendingSet, T.Inv, T.Live, C.Enabled;
  }

  /** Until its loop returns, scripts of the host may start timers and other operations at any time. */
  lemma ScriptsNeverRefused(s: Slot, kind: T.Kind, id: nat)
    requires !s.exited
    ensures Enabled(s, Host(OtherBegin)) && Enabled(s, Host(Timer(T.Register(kind))))
    ensures Enabled(s, Host(Timer(T.Clear(id)))) && Enabled(s, Host(Timer(T.ClearAll)))
  {
  }

  /** At the cap: a running job ends first. */
  lemma MakeRoom(s: Slot, js: JsAnswer) returns (acts: seq<Act>, s': Slot)
    requires Inv(s) && s.disp.Holding? && s.maxInFlight >= 1
    ensures Run(s, acts, s') && Inv(s') && Quiet(acts) && Rest(s, s') && s'.chan == s.chan && s'.disp == s.disp
    ensures s'.inFlight < s'.maxInFlight
  {
    hide C.Inv, PlaceInv, DispInv, ExitInv, TasksInv, CountedPhase;
    if s.inFlight < s.maxInFlight {
      acts, s' := [], s;
    } else {
      var id := SomeCounted(s);
      acts, s' := FinishJob(s, id, js);
      CapFreed(s, s', id);
    }
  }

  /** Some steps bring the dispatcher nearer to its end. */
  lemma DispatcherProceeds(s: Slot, js: JsAnswer) returns (acts: seq<Act>, s': Slot)
    requires Inv(s) && s.maxInFlight >= 1 && s.chan.ch.closed && !s.disp.Stopped?
    ensures Run(s, acts, s') && Inv(s') && Quiet(acts) && Rest(s, s') && s'.chan.ch.closed
    ensures DispatchLeft(s') < DispatchLeft(s)
  {
    hide Inv, Enabled, Apply, NextDispatch, Stage;
    if s.disp.Receiving? {
      acts, s' := ReceiverProceeds(s);
    } else {
      var first, m := [], s;
      if s.disp.Holding? {
        first, m := MakeRoom(s, js);
      }
      DispatcherSteps(m);
      var a := NextDispatch(m);
      s' := OneStep(m, a);
      RunThen(s, first, m, [a], s');
      acts := first + [a];
    }
  }

  /** With the channel closed the dispatcher starts everything accepted and ends. */
  lemma {:induction false} DispatcherEnds(s: Slot, js: JsAnswer) returns (acts: seq<Act>, s': Slot)
    requires Inv(s) && s.maxInFlight >= 1 && s.chan.ch.closed
    ensures Run(s, acts, s') && Inv(s') && Quiet(acts) && Rest(s, s') && s'.disp.Stopped?
    decreases DispatchLeft(s)
  {
    hide Inv, Enabled, Apply, DispatchLeft;
    if s.disp.Stopped? {
      acts, s' := [], s;
    } else {
      var first, m := DispatcherProceeds(s, js);
      var rest;
      rest, s' := DispatcherEnds(m, js);
      RunThen(s, first, m, rest, s');
      acts := first + rest;
    }
  }

  // ---- The rest of what keeps the loop alive ---------------------------------------------

  function Unfinished(tasks: map<nat, Task>): set<nat> {
    set id | id in tasks && StartedPhase(tasks[id].phase) && !tasks[id].phase.Forgotten?
  }

  lemma OneFinished(s: Slot, s': Slot, id: nat)
    requires JobOnly(s, s', id) && id in Unfinished(s.tasks) && s'.tasks[id].phase.Forgotten?
    ensures Unfinished(s'.tasks) == Unfinished(s.tasks) - {id}
  {
    hide StartedPhase;
  }

  lemma {:induction false} JobsEnd(s: Slot, js: JsAnswer) returns (acts: seq<Act>, s': Slot)
    requires Inv(s)
    ensures Run(s, acts, s') && Inv(s') && Quiet(acts) && Rest(s, s') && s'.disp == s.disp
    ensures Unfinished(s'.tasks) == {}
    decreases Unfinished(s.tasks)
  {
    hide Inv, Enabled, Apply;
    if Unfinished(s.tasks) == {} {
      acts, s' := [], s;
    } else {
      var id :| id in Unfinished(s.tasks);
      var first, m := FinishJob(s, id, js);
      OneFinished(s, m, id);
      var rest;
      rest, s' := JobsEnd(m, js);
      RunThen(s, first, m, rest, s');
      acts := first + rest;
    }
  }

  /** Timer steps move nothing else but the pending count. */
  ghost predicate TimersOnly(s: Slot, s': Slot) {
    s' == s.(timers := s'.timers, pendingOps := s'.pendingOps)
  }

  lemma {:induction false} TimerStepsOf(s: Slot, steps: seq<(bool, T.Act)>, r: T.Reg, id: nat)
    returns (acts: seq<Act>, s': Slot)
    requires Inv(s) && T.Run(s.timers, steps, r)
    requires forall i :: 0 <= i < |steps| ==> T.OwnStep(steps[i], s.stopping, id)
    ensures Run(s, acts, s') && Inv(s') && Quiet(acts) && TimersOnly(s, s') && s'.timers == r
    decreases |steps|
  {
    hide Inv, T.Apply, T.Enabled, T.LiveDelta;
    if steps == [] {
      acts, s' := [], s;
    } else {
      var a := Host(Timer(steps[0].1));
      assert T.OwnStep(steps[0], s.stopping, id);
      var m := OneStep(s, a);
      var rest;
      rest, s' := TimerStepsOf(m, steps[1..], r, id);
      RunThen(s, [a], m, rest, s');
      acts := [a] + rest;
    }
  }

  lemma OneTimerLess(r: T.Reg, r': T.Reg, id: nat)
    requires id in T.Live(r) && r' == r.(coros := r.coros[id := r.coros[id].(phase := T.Finished)])
    ensures T.Live(r') == T.Live(r) - {id}
  {
  }

  lemma {:induction false} TimersEnd(s: Slot) returns (acts: seq<Act>, s': Slot)
    requires Inv(s) && s.stopping
    ensures Run(s, acts, s') && Inv(s') && Quiet(acts) && TimersOnly(s, s') && T.Live(s'.timers) == {}
    decreases T.Live(s.timers)
  {
    hide Inv, Enabled, Apply;
    if T.Live(s.timers) == {} {
      acts, s' := [], s;
    } else {
      var id :| id in T.Live(s.timers);
      var steps, r := T.EndsWithoutACall(s.timers, true, id);
      OneTimerLess(s.timers, r, id);
      var first, m := TimerStepsOf(s, steps, r, id);
      var rest;
      rest, s' := TimersEnd(m);
      RunThen(s, first, m, rest, s');
      acts := first + rest;
    }
  }

  lemma {:induction false} OthersEnd(s: Slot) returns (acts: seq<Act>, s': Slot)
    requires Inv(s)
    ensures Run(s, acts, s') && Inv(s') && Quiet(acts)
    ensures s' == s.(other := 0, pendingOps := s'.pendingOps)
    decreases s.other
  {
    hide Inv;
    if s.other == 0 {
      acts, s' := [], s;
    } else {
      var m := OneStep(s, Host(OtherEnd));
      var rest;
      rest, s' := OthersEnd(m);
      RunThen(s, [Host(OtherEnd)], m, rest, s');
      acts := [Host(OtherEnd)] + rest;
    }
  }

  lemma LoopEnds(s: Slot)
    requires Inv(s) && s.disp.Stopped? && Unfinished(s.tasks) == {} && T.Live(s.timers) == {} && s.other == 0
    ensures Enabled(s, Host(LoopExit)) && Apply(s, Host(LoopExit)) == s.(exited := true)
  {
    hide C.Inv, PlaceInv, DispInv, ExitInv, TasksInv;
    assert PendingSet(s.tasks) <= Unfinished(s.tasks);
    forall id | id in s.tasks
      ensures var p := s.tasks[id].phase; !(p.Passed? || p.Called? || p.Replied? || p.Uncounted? || p.Unpended?)
    {
      assert id !in Unfinished(s.tasks);
    }
  }

  lemma ShutsDown(s: Slot)
    ensures Enabled(s, Host(Shutdown)) && Apply(s, Host(Shutdown)) == s.(stopping := true)
  {
  }

  /** From a sound slot with a closed channel the loop can be brought to its end. */
  lemma LoopCanEnd(s: Slot, js: JsAnswer) returns (acts: seq<Act>, s': Slot)
    requires Inv(s) && s.maxInFlight >= 1 && s.chan.ch.closed
    ensures Run(s, acts, s') && Inv(s') && Quiet(acts) && s'.exited
  {
    hide Inv, Enabled, Apply, Run;
    ShutsDown(s);
    var s1 := OneStep(s, Host(Shutdown));
    var a2, s2 := DispatcherEnds(s1, js);
    var a3, s3 := JobsEnd(s2, js);
    var a4, s4 := TimersEnd(s3);
    var a5, s5 := OthersEnd(s4);
    LoopEnds(s5);
    s' := OneStep(s5, Host(LoopExit));
    RunThen(s4, a5, s5, [Host(LoopExit)], s');
    RunThen(s3, a4, s4, a5 + [Host(LoopExit)], s');
    RunThen(s2, a3, s3, a4 + (a5 + [Host(LoopExit)]), s');
    RunThen(s1, a2, s2, a3 + (a4 + (a5 + [Host(LoopExit)])), s');
    RunThen(s, [Host(Shutdown)], s1, a2 + (a3 + (a4 + (a5 + [Host(LoopExit)]))), s');
    acts := [Host(Shutdown)] + (a2 + (a3 + (a4 + (a5 + [Host(LoopExit)]))));
  }

  /** Whatever happened before: once the channel is closed, some continuation in which no submitting thread takes a
      step, and in which the promises that jobs wait for settle, answers every accepted job and ends the host loop. */
  lemma HostCanEnd(s0: Slot, before: seq<Act>, s: Slot, js: JsAnswer) returns (acts: seq<Act>, s': Slot)
    requires Initial(s0) && Run(s0, before, s) && s.chan.ch.closed
    ensures Run(s, acts, s') && Quiet(acts) && s'.exited && s'.chan.accepted == s.chan.accepted
    ensures forall id :: id in s.chan.accepted ==>
      && At(s', id, Forgotten) && AnswerOf(before + acts, id).Some?
      && s'.tasks[id].log == [AnswerOf(before + acts, id).value]
  {
    hide Inv, Enabled, Apply, Run, Quiet, Reflects, AnswerOf, Bridged;
    InitialInv(s0);
    RunInv(s0, before, s);
    HostFieldsRun(s0, before, s);
    assert s.maxInFlight >= 1;
    acts, s' := LoopCanEnd(s, js);
    RunThen(s0, before, s, acts, s');
    ChannelRun(s, acts, s');
    C.RunMonotone(s.chan, ChannelActs(acts), s'.chan);
    NoWakeAfterExit(s0, before + acts, s');
    forall id | id in s.chan.accepted
      ensures AnswerOf(before + acts, id).Some? && s'.tasks[id].log == [AnswerOf(before + acts, id).value]
    {
      AnsweredExactlyOnce(s0, before + acts, s', id);
    }
  }

  // ---- A submitting thread ---------------------------------------------------------------

  /** Until its job is settled, a submit call keeps the sender handle that it copied. */
  ghost predicate HoldsHandle(s: Slot, id: nat) {
    At(s, id, Unsent) ==> Submitter(id) in s.chan.handles
  }

  lemma HandlesAfter(x: C.Sys<nat, Actor>, c: C.Act<nat, Actor>)
    requires C.Enabled(x, c) && !c.Move?
    ensures C.Apply(x, c).handles >= x.handles - (if c.Release? then {c.via} else {})
    ensures c.Copy? ==> c.b in C.Apply(x, c).handles
  {
    hide C.Resume, Ready;
  }

  /** Only a registration makes an unsent task. */
  lemma UnsentBefore(s: Slot, a: Act, id: nat)
    requires PlaceInv(s) && Enabled(s, a) && At(Apply(s, a), id, Unsent)
    ensures At(s, id, Unsent) || a == Submit(Register(id))
  {
    hide PlaceInv, C.Apply, C.Enabled, ChannelOnly, HostEnabled, HostApply, JobEnabled;
    match a
    case Dispatch(d) =>
      hide DispatchApply;
      DispatchUnsent(s, d, id);
    case Host(h) => HostLeaves(s, h);
    case _ =>
  }

  lemma DispatchUnsent(s: Slot, d: DispatchAct, id: nat)
    requires PlaceInv(s) && DispatchEnabled(s, d) && At(DispatchApply(s, d), id, Unsent)
    ensures At(s, id, Unsent)
  {
    hide PlaceInv, C.Apply, C.Enabled;
    if d.Recv? {
      hide DispatchApply;
      RecvEffect(s);
    }
  }

  lemma HandleStep(s: Slot, a: Act, id: nat)
    requires PlaceInv(s) && Enabled(s, a) && HoldsHandle(s, id)
    ensures HoldsHandle(Apply(s, a), id)
  {
    hide PlaceInv, Enabled, Apply, C.Apply, C.Enabled;
    if At(Apply(s, a), id, Unsent) {
      UnsentBefore(s, a, id);
      ChannelAfter(s, a, Apply(s, a));
      if OnChannel(a).Some? {
        KeepsItsHandle(s, a, id);
        HandlesAfter(s.chan, OnChannel(a).value);
      }
    }
  }

  /** What a slot asks of its channel neither moves a handle nor releases that of an unsettled submit. */
  lemma KeepsItsHandle(s: Slot, a: Act, id: nat)
    requires Enabled(s, a) && OnChannel(a).Some?
    ensures !OnChannel(a).value.Move?
    ensures OnChannel(a).value.Release? && At(s, id, Unsent) ==> OnChannel(a).value.via != Submitter(id)
    ensures a == Submit(Register(id)) ==> OnChannel(a).value.Copy? && OnChannel(a).value.b == Submitter(id)
  {
    hide C.Enabled;
  }

  lemma {:induction false} HandleRun(s: Slot, acts: seq<Act>, s': Slot, id: nat)
    requires Inv(s) && Run(s, acts, s') && HoldsHandle(s, id)
    ensures HoldsHandle(s', id)
    decreases acts
  {
    if acts != [] {
      hide Inv, Enabled, Apply, HoldsHandle;
      StepInv(s, acts[0]);
      PlaceOf(s);
      HandleStep(s, acts[0], id);
      HandleRun(Apply(s, acts[0]), acts[1..], s', id);
    }
  }

  lemma PlaceOf(s: Slot)
    requires Inv(s)
    ensures PlaceInv(s)
  {
  }

  /** Only when no handle is left does anybody owe the close of a release. */
  lemma NoCloseOwed(s: Slot, id: nat)
    requires Inv(s) && Submitter(id) in s.chan.handles
    ensures C.Inv(s.chan) && Submitter(id) !in s.chan.closing
  {
    hide PlaceInv, DispInv, CountInv, ExitInv, TasksInv, C.TokenInv, C.FifoInv;
  }

  /** The sending half of a submit: after at most three steps of its own it hands its job to the channel, which
      takes it exactly if it is open. */
  lemma SubmitSends(s: Slot, id: nat) returns (acts: seq<Act>, s': Slot)
    requires Inv(s) && At(s, id, Unsent) && HoldsHandle(s, id)
    ensures Run(s, acts + [Submit(SendJob(id))], s') && Inv(s') && |acts| <= 3
    ensures forall i :: 0 <= i < |acts| ==> acts[i].Channel? && C.OwedBy(Submitter(id), acts[i].c)
    ensures At(s', id, if s.chan.ch.closed then Rejected else Queued)
  {
    hide Inv, C.Inv, C.CanAct, Run;
    NoCloseOwed(s, id);
    var steps, c := C.NoThreadStuck(s.chan, Submitter(id));
    forall i | 0 <= i < |steps|
      ensures Passing(s.disp, steps[i])
    {
      assert C.OwedBy(Submitter(id), steps[i]);
    }
    acts := ChannelSteps(s, steps, c);
    var m := s.(chan := c);
    RunInv(s, acts, m);
    SendPossible(s, m, id);
    s' := OneStep(m, Submit(SendJob(id)));
    RunThen(s, acts, m, [Submit(SendJob(id))], s');
  }

  lemma SendPossible(s: Slot, m: Slot, id: nat)
    requires m == s.(chan := m.chan) && At(s, id, Unsent) && HoldsHandle(s, id) && C.CanAct(m.chan, Submitter(id))
    requires m.chan.handles == s.chan.handles && m.chan.ch == s.chan.ch
    ensures Enabled(m, Submit(SendJob(id)))
    ensures At(Apply(m, Submit(SendJob(id))), id, if s.chan.ch.closed then Rejected else Queued)
  {
    hide C.Apply, C.Free;
  }

  /** What a submitting thread does of its own after the registration. */
  predicate SubmitterStep(a: Act, id: nat) {
    a == Submit(SendJob(id)) || a == Submit(Unregister(id)) || (a.Channel? && C.OwedBy(Submitter(id), a.c))
  }

  /** After at most five steps of its own a submit is settled: its job is queued if the channel is open, and else
      turned away and erased again. */
  lemma SubmitSettles(s: Slot, id: nat) returns (acts: seq<Act>, s': Slot)
    requires Inv(s) && (At(s, id, Unsent) || At(s, id, Rejected)) && HoldsHandle(s, id)
    ensures Run(s, acts, s') && |acts| <= 5 && forall i :: 0 <= i < |acts| ==> SubmitterStep(acts[i], id)
    ensures At(s', id, if At(s, id, Rejected) || s.chan.ch.closed then Unregistered else Queued)
  {
    hide Inv, Run, HoldsHandle;
    Stay(s);
    acts, s' := [], s;
    if At(s, id, Unsent) {
      acts, s' := SubmitSends(s, id);
      acts := acts + [Submit(SendJob(id))];
    }
    if At(s', id, Rejected) {
      var m := s';
      s' := OneStep(m, Submit(Unregister(id)));
      RunThen(s, acts, m, [Submit(Unregister(id))], s');
      acts := acts + [Submit(Unregister(id))];
    }
  }

  // ---- The destroying thread -------------------------------------------------------------

  /** The slot's own sender handle closes the channel, by whichever thread. */
  lemma SlotCloses(s: Slot, a: Actor) returns (acts: seq<Act>, s': Slot)
    requires Inv(s) && SlotTx in s.chan.handles
    ensures Run(s, acts, s') && Inv(s') && s'.chan.ch.closed && s'.maxInFlight == s.maxInFlight
    ensures forall i :: 0 <= i < |acts| ==> acts[i].Channel? && !acts[i].c.Release?
  {
    hide Inv, C.Inv, C.CanAct, Run;
    ChannelSound(s);
    var steps, c := C.NoThreadStuck(s.chan, a);
    forall i | 0 <= i < |steps|
      ensures Passing(s.disp, steps[i])
    {
      assert C.OwedBy(a, steps[i]);
    }
    acts := ChannelSteps(s, steps, c);
    var m := s.(chan := c);
    RunInv(s, acts, m);
    var close := Channel(C.Close(a, SlotTx));
    ClosePossible(m, a);
    s' := OneStep(m, close);
    RunThen(s, acts, m, [close], s');
    acts := acts + [close];
  }

  lemma ChannelSound(s: Slot)
    requires Inv(s)
    ensures C.Inv(s.chan)
  {
    hide PlaceInv, DispInv, CountInv, ExitInv, TasksInv, C.Inv;
  }

  lemma ClosePossible(s: Slot, a: Actor)
    requires SlotTx in s.chan.handles && C.CanAct(s.chan, a)
    ensures var close := Channel(C.Close(a, SlotTx));
      Enabled(s, close) && Apply(s, close).chan.ch.closed && Apply(s, close).maxInFlight == s.maxInFlight
  {
    hide C.Free;
  }
}
