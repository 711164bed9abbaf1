/**
 One host slot of the job scheduler: its job channel, the dispatcher coroutine, the spawned
 jobs with their oneshot replies and promise bridges, the timers, the counters that keep the
 host loop alive, and the submitting and destroying threads (src/host_manager.cpp,
 src/host.cpp, src/channel.hpp).  One action is one critical section, one atomic access, or one
 piece of a coroutine between two points where another thread could look.
 */
module HostMachine {
  import opened Wrappers
  import opened Oneshot
  import C = MpscProtocol
  import T = Timers

  /** The sender handle stored in the slot, and the copy made by the submit call of a task. */
  datatype Actor = SlotTx | Submitter(id: nat)

  /** What running the function produced; encoding a result never yields a cancellation. */
  datatype JsAnswer = OkString(text: string) | OkBytes(bytes: seq<bv8>) | Err(message: string)

  datatype Answer = Cancelled | Done(js: JsAnswer)

  datatype Phase =
    | Unsent                // registered by submit, job not yet handed to the channel
    | Queued
    | Held                  // received by the dispatcher
    | Spawned               // run_one_job posted
    | Passed                // cancel flag seen clear
    | Called                // the function was called
    | Awaiting(bridge: nat) // its promise is pending
    | Replied
    | Uncounted             // in_flight decremented
    | Unpended              // pending_ops decremented
    | Forgotten             // erased from the cancel table
    | Rejected              // the channel refused the job
    | Unregistered          // and submit erased it from the cancel table

  datatype Task = Task(
    phase: Phase,
    flag: bool,                // the shared cancel flag
    sawFlag: Option<bool>,     // its value at the dequeue check
    called: bool,
    outcome: Option<JsAnswer>, // set through the promise bridge
    sets: nat,                 // how often the bridge promise was fulfilled
    shot: Shot<Answer>,
    log: seq<Answer>)          // answers whose oneshot send returned true

  datatype Disp =
    | Receiving | Holding(id: nat) | Sleeping(id: nat) | Cleared(id: nat) | Counted(id: nat) | Pended(id: nat)
    | Exiting | Stopped

  datatype Slot = Slot(
    chan: C.Sys<nat, Actor>,
    tasks: map<nat, Task>,
    disp: Disp,
    started: seq<nat>,
    inFlight: int,
    maxInFlight: int,
    pendingOps: int,
    other: nat,                // pending fetches, file operations and async calls
    timers: T.Reg,
    stopping: bool,
    bridges: map<nat, nat>,    // promise bridges that nothing settled yet, and the job each belongs to
    issued: seq<nat>,          // the job of every bridge id handed out so far
    exited: bool)

  datatype SubmitAct = Register(id: nat) | SendJob(id: nat) | Unregister(id: nat) | Cancel(id: nat)

  datatype DispatchAct = Recv | Sleep | WakeUp | CheckCap | IncInFlight | IncPending | Spawn | Exit

  datatype JobAct =
    | CheckCancel | FailBeforeCall(message: string) | Call | Return(js: JsAnswer) | Suspend(b: nat)
    | Fulfil(js: JsAnswer) | AttachFails(message: string) | Resume | DecInFlight | DecPending | Forget

  datatype HostAct = Timer(t: T.Act) | OtherBegin | OtherEnd | Shutdown | LoopExit

  datatype Act =
    | Submit(sub: SubmitAct)
    | Channel(c: C.Act<nat, Actor>)
    | Dispatch(d: DispatchAct)
    | Job(id: nat, j: JobAct)
    | Settle(b: nat, js: JsAnswer)  // a promise reaction calls bridge_on_settle
    | Host(h: HostAct)

  const NEW_TASK: Task := Task(Unsent, false, None, false, None, 0, FreshShot(), [])

  function HeldBy(d: Disp): seq<nat> {
    if d.Holding? || d.Sleeping? || d.Cleared? || d.Counted? || d.Pended? then [d.id] else []
  }

  function TaskOf(s: Slot, id: nat): Task {
    if id in s.tasks then s.tasks[id] else NEW_TASK
  }

  predicate At(s: Slot, id: nat, p: Phase) {
    id in s.tasks && s.tasks[id].phase == p
  }

  /** The channel steps that belong to nobody else's action: wakes, the executor, waiting, closing, dropping. */
  ghost predicate ChannelOnly(s: Slot, c: C.Act<nat, Actor>) {
    match c
    case Wake(_) => true
    case RunToken => true
    case CloseAfterRelease(_) => true
    case AwaitReady => s.disp.Receiving?
    case AwaitSuspend(ex) => s.disp.Receiving? && ex
    case Close(_, via) => via.SlotTx?
    case Release(_, via) => via.Submitter? ==> !At(s, via.id, Unsent) && !At(s, via.id, Rejected)
    case DropReceiver(a) => s.disp.Stopped?
    case _ => false
  }

  /** Nothing of this host is on the stack of the host thread, so its loop can look at the counters. */
  ghost predicate HostIdle(s: Slot) {
    && (s.disp.Stopped? || s.disp.Sleeping? || (s.disp.Receiving? && s.chan.rx.Suspended?))
    && forall id :: id in s.tasks ==>
         var p := s.tasks[id].phase; !(p.Passed? || p.Called? || p.Replied? || p.Uncounted? || p.Unpended?)
  }

  function Put(s: Slot, id: nat, t: Task): Slot {
    s.(tasks := s.tasks[id := t])
  }

  function Move(s: Slot, id: nat, p: Phase): Slot {
    Put(s, id, TaskOf(s, id).(phase := p))
  }

  // ---- Submitting threads ----------------------------------------------------------------

  ghost predicate SubmitEnabled(s: Slot, a: SubmitAct) {
    match a
    case Register(id) =>
      id !in s.tasks && SlotTx in s.chan.handles && C.Enabled(s.chan, C.Copy(SlotTx, Submitter(id)))
    case SendJob(id) => At(s, id, Unsent) && C.Enabled(s.chan, C.Send(Submitter(id), Submitter(id), id))
    case Unregister(id) => At(s, id, Rejected)
    case Cancel(id) => id in s.tasks
  }

  ghost function SubmitApply(s: Slot, a: SubmitAct): Slot
    requires SubmitEnabled(s, a)
  {
    match a
    case Register(id) => Put(s, id, NEW_TASK).(chan := C.Apply(s.chan, C.Copy(SlotTx, Submitter(id))))
    case SendJob(id) =>
      var s1 := s.(chan := C.Apply(s.chan, C.Send(Submitter(id), Submitter(id), id)));
      if !s.chan.ch.closed then Move(s1, id, Queued)
      // the refused job is destroyed, which closes its reply handle
      else Put(s1, id, s.tasks[id].(phase := Rejected, shot := ShotClosed(s.tasks[id].shot).0))
    case Unregister(id) => Move(s, id, Unregistered)
    case Cancel(id) => Put(s, id, s.tasks[id].(flag := true))
  }

  // ---- The dispatcher coroutine ----------------------------------------------------------

  ghost predicate DispatchEnabled(s: Slot, a: DispatchAct) {
    match a
    case Recv => s.disp.Receiving? && C.Enabled(s.chan, C.AwaitResume)
    case Sleep => s.disp.Holding? && s.inFlight >= s.maxInFlight
    case WakeUp => s.disp.Sleeping?
    case CheckCap => s.disp.Holding? && s.inFlight < s.maxInFlight
    case IncInFlight => s.disp.Cleared?
    case IncPending => s.disp.Counted?
    case Spawn => s.disp.Pended?
    case Exit => s.disp.Exiting?
  }

  ghost function DispatchApply(s: Slot, a: DispatchAct): Slot
    requires DispatchEnabled(s, a)
  {
    match a
    case Recv =>
      var s1 := s.(chan := C.Apply(s.chan, C.AwaitResume));
      if s1.chan.last.value.None? then s1.(disp := Exiting)
      else Move(s1, s1.chan.last.value.value, Held).(disp := Holding(s1.chan.last.value.value))
    case Sleep => s.(disp := Sleeping(s.disp.id))
    case WakeUp => s.(disp := Holding(s.disp.id))
    case CheckCap => s.(disp := Cleared(s.disp.id))
    case IncInFlight => s.(disp := Counted(s.disp.id), inFlight := s.inFlight + 1)
    case IncPending => s.(disp := Pended(s.disp.id), pendingOps := s.pendingOps + 1)
    case Spawn => Move(s, s.disp.id, Spawned).(disp := Receiving, started := s.started + [s.disp.id])
    case Exit => s.(disp := Stopped, pendingOps := s.pendingOps - 1)
  }

  // ---- One spawned job -------------------------------------------------------------------

  predicate JobEnabled(t: Task, j: JobAct) {
    match j
    case CheckCancel => t.phase.Spawned?
    case FailBeforeCall(_) => t.phase.Passed?
    case Call => t.phase.Passed?
    case Return(_) => t.phase.Called?
    case Suspend(_) => t.phase.Called?
    case Fulfil(_) => t.phase.Awaiting?
    case AttachFails(_) => t.phase.Awaiting?
    case Resume => t.phase.Awaiting? && t.outcome.Some?
    case DecInFlight => t.phase.Replied?
    case DecPending => t.phase.Uncounted?
    case Forget => t.phase.Unpended?
  }

  /** `reply_job`: sends through the job's oneshot handle. */
  function Reply(t: Task, ans: Answer): Task {
    var (shot, _, ok) := ShotSent(t.shot, ans);
    t.(phase := Replied, shot := shot, log := if ok then t.log + [ans] else t.log)
  }

  function JobApply(t: Task, j: JobAct): Task
    requires JobEnabled(t, j)
  {
    match j
    case CheckCancel =>
      var t1 := t.(sawFlag := Some(t.flag));
      if t.flag then Reply(t1, Cancelled) else t1.(phase := Passed)
    case FailBeforeCall(m) => Reply(t, Done(Err(m)))
    case Call => t.(phase := Called, called := true)
    case Return(js) => Reply(t, Done(js))
    case Suspend(b) => t.(phase := Awaiting(b))
    case Fulfil(js) => t.(outcome := Some(js), sets := t.sets + 1)
    case AttachFails(m) => Reply(t, Done(Err(m)))
    case Resume => Reply(t, Done(t.outcome.value))
    case DecInFlight => t.(phase := Uncounted)
    case DecPending => t.(phase := Unpended)
    case Forget => t.(phase := Forgotten)
  }

  /** The bridge table: filled when a job suspends, emptied by settling or by a failed attach. */
  function BridgesAfter(s: Slot, id: nat, j: JobAct): map<nat, nat>
    requires id in s.tasks && JobEnabled(s.tasks[id], j)
  {
    match j
    case Suspend(b) => s.bridges[b := id]
    case Fulfil(_) => s.bridges - {s.tasks[id].phase.bridge}
    case AttachFails(_) => s.bridges - {s.tasks[id].phase.bridge}
    case _ => s.bridges
  }

  function JobStep(s: Slot, id: nat, j: JobAct): Slot
    requires id in s.tasks && JobEnabled(s.tasks[id], j)
  {
    s.(tasks := s.tasks[id := JobApply(s.tasks[id], j)],
       bridges := BridgesAfter(s, id, j),
       issued := if j.Suspend? then s.issued + [id] else s.issued,
       inFlight := if j.DecInFlight? then s.inFlight - 1 else s.inFlight,
       pendingOps := if j.DecPending? then s.pendingOps - 1 else s.pendingOps)
  }

  // ---- The host thread's other work and its loop -----------------------------------------

  ghost predicate HostEnabled(s: Slot, a: HostAct) {
    match a
    case Timer(t) => T.Enabled(s.timers, t) && (t.Register? ==> !s.exited)
    case OtherBegin => !s.exited
    case OtherEnd => s.other > 0
    case Shutdown => true
    case LoopExit => s.pendingOps == 0 && HostIdle(s)
  }

  ghost function HostApply(s: Slot, a: HostAct): Slot
    requires HostEnabled(s, a)
  {
    match a
    case Timer(t) =>
      s.(timers := T.Apply(s.timers, s.stopping, t), pendingOps := s.pendingOps + T.LiveDelta(s.timers, s.stopping, t))
    case OtherBegin => s.(other := s.other + 1, pendingOps := s.pendingOps + 1)
    case OtherEnd => s.(other := s.other - 1, pendingOps := s.pendingOps - 1)
    case Shutdown => s.(stopping := true)
    case LoopExit => s.(exited := true)
  }

  // ---- All actions -----------------------------------------------------------------------

  ghost predicate Enabled(s: Slot, a: Act) {
    match a
    case Submit(sub) => SubmitEnabled(s, sub)
    case Channel(c) => C.Enabled(s.chan, c) && ChannelOnly(s, c)
    case Dispatch(d) => DispatchEnabled(s, d)
    case Job(id, j) =>
      id in s.tasks && JobEnabled(s.tasks[id], j) && !j.Fulfil? && (j.Suspend? ==> j.b == |s.issued|)
    case Settle(b, _) => b in s.bridges ==> s.bridges[b] in s.tasks && s.tasks[s.bridges[b]].phase == Awaiting(b)
    case Host(h) => HostEnabled(s, h)
  }

  ghost function Apply(s: Slot, a: Act): Slot
    requires Enabled(s, a)
  {
    match a
    case Submit(sub) => SubmitApply(s, sub)
    case Channel(c) => s.(chan := C.Apply(s.chan, c))
    case Dispatch(d) => DispatchApply(s, d)
    case Job(id, j) => JobStep(s, id, j)
    case Settle(b, js) => if b in s.bridges then JobStep(s, s.bridges[b], Fulfil(js)) else s
    case Host(h) => HostApply(s, h)
  }

  // ---- The invariant ---------------------------------------------------------------------

  predicate InTable(p: Phase) {
    !(p.Forgotten? || p.Unregistered?)
  }

  predicate StartedPhase(p: Phase) {
    !(p.Unsent? || p.Queued? || p.Held? || p.Rejected? || p.Unregistered?)
  }

  predicate AnsweredPhase(p: Phase) {
    p.Replied? || p.Uncounted? || p.Unpended? || p.Forgotten?
  }

  predicate CountedPhase(p: Phase) {
    StartedPhase(p) && !(p.Uncounted? || p.Unpended? || p.Forgotten?)
  }

  predicate PendingPhase(p: Phase) {
    StartedPhase(p) && !(p.Unpended? || p.Forgotten?)
  }

  ghost predicate NoDup(ids: seq<nat>) {
    forall i, j :: 0 <= i < j < |ids| ==> ids[i] != ids[j]
  }

  /** Every accepted job is, in order, started, with the dispatcher, or queued; and each task knows where it is. */
  ghost predicate PlaceInv(s: Slot) {
    && s.chan.received == s.started + HeldBy(s.disp)
    && (forall id :: id in s.chan.ch.queue <==> At(s, id, Queued))
    && (forall id :: id in HeldBy(s.disp) <==> At(s, id, Held))
    && (forall id :: id in s.started <==> id in s.tasks && StartedPhase(s.tasks[id].phase))
    && NoDup(s.chan.accepted)
    && (forall id :: Submitter(id) in s.chan.handles ==> id in s.tasks)
  }

  ghost predicate DispInv(s: Slot) {
    && (!s.disp.Receiving? ==> s.chan.rx.Idle? || (s.disp.Stopped? && s.chan.rx.Gone?))
    && (s.disp.Receiving? ==> !s.chan.rx.Gone?)
    && (s.disp.Exiting? || s.disp.Stopped? ==> s.chan.last == Some(None))
  }

  function CountedSet(tasks: map<nat, Task>): set<nat> {
    set id | id in tasks && CountedPhase(tasks[id].phase)
  }

  function PendingSet(tasks: map<nat, Task>): set<nat> {
    set id | id in tasks && PendingPhase(tasks[id].phase)
  }

  /** The two counters are exact, the cap holds, and a passed cap check cannot be overtaken. */
  ghost predicate CountInv(s: Slot) {
    && s.inFlight == |CountedSet(s.tasks)| + (if s.disp.Counted? || s.disp.Pended? then 1 else 0)
    && s.pendingOps == (if s.disp.Stopped? then 0 else 1) + (if s.disp.Pended? then 1 else 0)
                       + |PendingSet(s.tasks)| + |T.Live(s.timers)| + s.other
    && s.inFlight <= s.maxInFlight
    && (s.disp.Cleared? ==> s.inFlight < s.maxInFlight)
    && T.Inv(s.timers)
  }

  /** Once the loop has returned, everything that could have kept it alive is over. */
  ghost predicate ExitInv(s: Slot) {
    s.exited ==>
      && s.disp.Stopped? && s.pendingOps == 0
      && forall id :: id in s.tasks && StartedPhase(s.tasks[id].phase) ==> s.tasks[id].phase.Forgotten?
  }

  /** What a task's reply, flag and outcome are, by where the task is. */
  ghost predicate TaskInv(t: Task) {
    var p := t.phase;
    && t.sets == (if t.outcome.Some? then 1 else 0)
    && (t.outcome.Some? ==> p.Awaiting? || AnsweredPhase(p))
    && (t.sawFlag.Some? <==> StartedPhase(p) && !p.Spawned?)
    && (t.sawFlag == Some(true) ==> t.flag && !t.called && AnsweredPhase(p))
    && (t.called ==> p.Called? || p.Awaiting? || AnsweredPhase(p))
    && (p.Called? || p.Awaiting? ==> t.called)
    && t.shot.sent == AnsweredPhase(p)
    && t.shot.closed == (p.Rejected? || p.Unregistered?)
    && (if AnsweredPhase(p) then |t.log| == 1 && (t.log[0].Cancelled? <==> t.sawFlag == Some(true)) else t.log == [])
  }

  /** A bridge is in the table exactly while the job that made it waits unsettled. */
  ghost predicate BridgeInv(s: Slot) {
    && (forall b :: b in s.bridges ==>
          && b < |s.issued| && s.issued[b] == s.bridges[b]
          && At(s, s.bridges[b], Awaiting(b)) && s.tasks[s.bridges[b]].outcome.None?)
    && (forall id :: id in s.tasks && s.tasks[id].phase.Awaiting? ==> BridgeOf(s, id, s.tasks[id]))
  }

  ghost predicate BridgeOf(s: Slot, id: nat, t: Task)
    requires t.phase.Awaiting?
  {
    && t.phase.bridge < |s.issued| && s.issued[t.phase.bridge] == id
    && (t.outcome.None? ==> t.phase.bridge in s.bridges)
  }

  ghost predicate TasksInv(s: Slot) {
    BridgeInv(s) && forall id :: id in s.tasks ==> TaskInv(s.tasks[id])
  }

  ghost predicate Inv(s: Slot) {
    C.Inv(s.chan) && PlaceInv(s) && DispInv(s) && CountInv(s) && ExitInv(s) && TasksInv(s)
  }

  // ---- Every action keeps it -------------------------------------------------------------

  /** Steps that leave the queue, the histories and the reading position of the channel alone. */
  lemma ChannelFrame(s: Slot, c: C.Act<nat, Actor>)
    requires C.Inv(s.chan) && DispInv(s) && Enabled(s, Channel(c))
    ensures var x := C.Apply(s.chan, c);
      && x.received == s.chan.received && x.accepted == s.chan.accepted
      && x.ch.queue == s.chan.ch.queue && x.last == s.chan.last
      && x.handles <= s.chan.handles
      && (!s.disp.Receiving? ==> x.rx.Idle? || (s.disp.Stopped? && x.rx.Gone?))
      && (s.disp.Receiving? ==> !x.rx.Gone?)
  {
    if (c.RunToken? || c.Wake?) && !(c.Wake? && s.chan.hands[c.a].None?) {
      C.ResumeConsumesTheToken(s.chan, c);
    }
  }

  lemma ChannelStep(s: Slot, c: C.Act<nat, Actor>)
    requires Inv(s) && Enabled(s, Channel(c))
    ensures Inv(Apply(s, Channel(c)))
  {
    hide C.Inv, C.Apply, C.Enabled, ChannelOnly, CountInv, TasksInv, StartedPhase, NoDup;
    C.StepInv(s.chan, c);
    ChannelFrame(s, c);
    CountSame(s, Apply(s, Channel(c)));
    TasksSame(s, Apply(s, Channel(c)));
  }

  lemma CountSame(s: Slot, s': Slot)
    requires CountInv(s) && s'.tasks == s.tasks && s'.disp == s.disp && s'.timers == s.timers && s'.other == s.other
    requires s'.inFlight == s.inFlight && s'.maxInFlight == s.maxInFlight && s'.pendingOps == s.pendingOps
    ensures CountInv(s')
  {
  }

  lemma TasksSame(s: Slot, s': Slot)
    requires TasksInv(s) && s'.tasks == s.tasks && s'.bridges == s.bridges && s'.issued == s.issued
    ensures TasksInv(s')
  {
    hide TaskInv;
  }

  /** No pending operation: the dispatcher has stopped, every started job is past its count, no timer is live. */
  lemma NothingPending(s: Slot)
    requires Inv(s) && s.pendingOps == 0
    ensures s.disp.Stopped? && T.Live(s.timers) == {} && s.other == 0
    ensures forall id :: id in s.tasks ==> !PendingPhase(s.tasks[id].phase)
  {
    assert forall id :: id in s.tasks && PendingPhase(s.tasks[id].phase) ==> id in PendingSet(s.tasks);
  }

  /** The jobs and the channel of two slots are the same. */
  lemma JobsUntouched(s: Slot, s': Slot)
    requires PlaceInv(s) && DispInv(s) && TasksInv(s)
    requires s'.chan == s.chan && s'.tasks == s.tasks && s'.disp == s.disp && s'.started == s.started
    requires s'.bridges == s.bridges && s'.issued == s.issued
    ensures PlaceInv(s') && DispInv(s') && TasksInv(s')
  {
  }

  lemma HostStep(s: Slot, h: HostAct)
    requires Inv(s) && Enabled(s, Host(h))
    ensures Inv(Apply(s, Host(h)))
  {
    hide PlaceInv, DispInv, TasksInv, C.Inv, CountedSet, PendingSet, T.Inv, T.Apply, T.Enabled, T.LiveDelta, T.Live,
      HostIdle;
    JobsUntouched(s, HostApply(s, h));
    if h.LoopExit? {
      LoopExitStep(s);
    } else if s.exited {
      NothingPending(s);
      if h.Timer? {
        LiveOnlyGrowsByRegister(s.timers, s.stopping, h.t);
      }
    }
    if h.Timer? {
      T.StepInv(s.timers, s.stopping, h.t);
      T.LiveStep(s.timers, s.stopping, h.t);
    }
  }

  /** Where no timer is live, only a registration makes one. */
  lemma LiveOnlyGrowsByRegister(r: T.Reg, stopping: bool, a: T.Act)
    requires T.Enabled(r, a) && T.Live(r) == {} && !a.Register?
    ensures T.LiveDelta(r, stopping, a) == 0
  {
    assert forall id :: id in r.coros ==> id !in T.Live(r);
  }

  lemma LoopExitStep(s: Slot)
    requires Inv(s) && HostEnabled(s, LoopExit)
    ensures ExitInv(HostApply(s, LoopExit))
  {
    hide PlaceInv, DispInv, TasksInv, C.Inv, CountedSet, PendingSet, CountInv;
    NothingPending(s);
  }

  /** A step of a started job keeps it started and keeps the facts about its reply. */
  lemma JobKeepsTask(t: Task, j: JobAct)
    requires TaskInv(t) && JobEnabled(t, j) && (j.Fulfil? ==> t.outcome.None?)
    ensures TaskInv(JobApply(t, j)) && StartedPhase(t.phase) && StartedPhase(JobApply(t, j).phase)
    ensures CountedPhase(JobApply(t, j).phase) == (CountedPhase(t.phase) && !j.DecInFlight?)
    ensures PendingPhase(JobApply(t, j).phase) == (PendingPhase(t.phase) && !j.DecPending?)
  {
  }

  lemma CountedAfterPut(tasks: map<nat, Task>, id: nat, t: Task)
    ensures |CountedSet(tasks[id := t])| ==
            |CountedSet(tasks)| + Bit(CountedPhase(t.phase)) - Bit(id in tasks && CountedPhase(tasks[id].phase))
  {
    hide CountedPhase;
    var was, now := CountedSet(tasks), CountedSet(tasks[id := t]);
    assert id in was <==> id in tasks && CountedPhase(tasks[id].phase);
    if CountedPhase(t.phase) == (id in was) {
      assert now == was;
    } else if id in was {
      assert now == was - {id};
      OneLess(was, id);
    } else {
      assert now == was + {id};
      OneMore(was, id);
    }
  }

  lemma PendingAfterPut(tasks: map<nat, Task>, id: nat, t: Task)
    ensures |PendingSet(tasks[id := t])| ==
            |PendingSet(tasks)| + Bit(PendingPhase(t.phase)) - Bit(id in tasks && PendingPhase(tasks[id].phase))
  {
    hide PendingPhase;
    var was, now := PendingSet(tasks), PendingSet(tasks[id := t]);
    assert id in was <==> id in tasks && PendingPhase(tasks[id].phase);
    if PendingPhase(t.phase) == (id in was) {
      assert now == was;
    } else if id in was {
      assert now == was - {id};
      OneLess(was, id);
    } else {
      assert now == was + {id};
      OneMore(was, id);
    }
  }

  /** Rewriting one task moves each count by at most one. */
  lemma CountsAfterPut(tasks: map<nat, Task>, id: nat, t: Task)
    ensures |CountedSet(tasks[id := t])| ==
        |CountedSet(tasks)| + Bit(CountedPhase(t.phase)) - Bit(id in tasks && CountedPhase(tasks[id].phase))
    ensures |PendingSet(tasks[id := t])| ==
        |PendingSet(tasks)| + Bit(PendingPhase(t.phase)) - Bit(id in tasks && PendingPhase(tasks[id].phase))
  {
    CountedAfterPut(tasks, id, t);
    PendingAfterPut(tasks, id, t);
  }

  function Bit(b: bool): int {
    if b then 1 else 0
  }

  /** Rewriting one task without changing the place it is in. */
  lemma PlaceAfterPut(s: Slot, s': Slot, id: nat, t: Task)
    requires PlaceInv(s) && id in s.tasks && s'.tasks == s.tasks[id := t]
    requires s'.chan == s.chan && s'.started == s.started && s'.disp == s.disp
    requires t.phase == s.tasks[id].phase || (StartedPhase(t.phase) && StartedPhase(s.tasks[id].phase))
      || (t.phase.Unregistered? && s.tasks[id].phase.Rejected?)
    ensures PlaceInv(s')
  {
  }

  /** A bridge that is unsettled belongs to no job but the one that waits on it. */
  lemma BridgeOwner(s: Slot, id: nat, b: nat)
    requires BridgeInv(s) && id in s.tasks && b in s.bridges
    ensures s.bridges[b] == id ==> s.tasks[id].phase == Awaiting(b) && s.tasks[id].outcome.None?
    ensures s.tasks[id].phase == Awaiting(b) ==> s.bridges[b] == id
  {
    if s.tasks[id].phase == Awaiting(b) {
      assert BridgeOf(s, id, s.tasks[id]);
    }
  }

  /** The job starts to wait on a bridge with the next id. */
  lemma BridgesAfterSuspend(s: Slot, s': Slot, id: nat, t: Task)
    requires BridgeInv(s) && id in s.tasks && !s.tasks[id].phase.Awaiting?
    requires t.phase == Awaiting(|s.issued|) && t.outcome.None? && s'.tasks == s.tasks[id := t]
    requires s'.bridges == s.bridges[|s.issued| := id] && s'.issued == s.issued + [id]
    ensures BridgeInv(s')
  {
    hide TaskInv;
    forall b | b in s'.bridges
      ensures b < |s'.issued| && s'.issued[b] == s'.bridges[b]
      ensures At(s', s'.bridges[b], Awaiting(b)) && s'.tasks[s'.bridges[b]].outcome.None?
    {
      if b != |s.issued| {
        BridgeOwner(s, id, b);
      }
    }
    forall i | i in s'.tasks && s'.tasks[i].phase.Awaiting?
      ensures BridgeOf(s', i, s'.tasks[i])
    {
      assert i != id ==> BridgeOf(s, i, s.tasks[i]);
    }
  }

  /** The waiting job's bridge leaves the table: it was fulfilled, or could not be attached. */
  lemma BridgesAfterSettling(s: Slot, s': Slot, id: nat, t: Task)
    requires BridgeInv(s) && id in s.tasks && s.tasks[id].phase.Awaiting? && s'.tasks == s.tasks[id := t]
    requires t.phase.Awaiting? ==> t.phase == s.tasks[id].phase && t.outcome.Some?
    requires s'.bridges == s.bridges - {s.tasks[id].phase.bridge} && s'.issued == s.issued
    ensures BridgeInv(s')
  {
    forall b | b in s'.bridges
      ensures At(s', s'.bridges[b], Awaiting(b)) && s'.tasks[s'.bridges[b]].outcome.None?
    {
      BridgeOwner(s, id, b);
    }
    forall i | i in s'.tasks && s'.tasks[i].phase.Awaiting?
      ensures BridgeOf(s', i, s'.tasks[i])
    {
      assert BridgeOf(s, i, s.tasks[i]);
      assert BridgeOf(s, id, s.tasks[id]);
    }
  }

  /** A task that does not wait, or whose bridge is settled, moves on without touching the table. */
  lemma BridgesAfterOther(s: Slot, s': Slot, id: nat, t: Task)
    requires BridgeInv(s) && s'.tasks == s.tasks[id := t] && !t.phase.Awaiting?
    requires id in s.tasks && s.tasks[id].phase.Awaiting? ==> s.tasks[id].outcome.Some?
    requires s'.bridges == s.bridges && s'.issued == s.issued
    ensures BridgeInv(s')
  {
    forall b | b in s'.bridges
      ensures At(s', s'.bridges[b], Awaiting(b)) && s'.tasks[s'.bridges[b]].outcome.None?
    {
      if id in s.tasks {
        BridgeOwner(s, id, b);
      }
    }
    forall i | i in s'.tasks && s'.tasks[i].phase.Awaiting?
      ensures BridgeOf(s', i, s'.tasks[i])
    {
      assert BridgeOf(s, i, s.tasks[i]);
    }
  }

  /** Only where a task is, and whether its bridge is settled, matters to the table. */
  lemma BridgesAfterFlag(s: Slot, s': Slot, id: nat, t: Task)
    requires BridgeInv(s) && id in s.tasks && s'.tasks == s.tasks[id := t]
    requires t.phase == s.tasks[id].phase && t.outcome == s.tasks[id].outcome
    requires s'.bridges == s.bridges && s'.issued == s.issued
    ensures BridgeInv(s')
  {
    forall i | i in s'.tasks && s'.tasks[i].phase.Awaiting?
      ensures BridgeOf(s', i, s'.tasks[i])
    {
      assert BridgeOf(s, i, s.tasks[i]);
    }
  }

  lemma TasksAfterPut(s: Slot, s': Slot, id: nat, t: Task)
    requires TasksInv(s) && TaskInv(t) && !t.phase.Awaiting? && (id in s.tasks ==> !s.tasks[id].phase.Awaiting?)
    requires s'.tasks == s.tasks[id := t] && s'.bridges == s.bridges && s'.issued == s.issued
    ensures TasksInv(s')
  {
    hide BridgeInv, TaskInv;
    BridgesAfterOther(s, s', id, t);
  }

  lemma BridgesAfterJob(s: Slot, id: nat, j: JobAct)
    requires BridgeInv(s) && id in s.tasks && JobEnabled(s.tasks[id], j)
    requires j.Suspend? ==> j.b == |s.issued| && s.tasks[id].outcome.None?
    requires j.Fulfil? ==> s.tasks[id].outcome.None?
    ensures BridgeInv(JobStep(s, id, j))
  {
    hide BridgeInv, ShotSent;
    var s' := JobStep(s, id, j);
    if j.Suspend? {
      BridgesAfterSuspend(s, s', id, s'.tasks[id]);
    } else if j.Fulfil? || j.AttachFails? {
      BridgesAfterSettling(s, s', id, s'.tasks[id]);
    } else {
      BridgesAfterOther(s, s', id, s'.tasks[id]);
    }
  }

  lemma CountAfterJob(s: Slot, id: nat, j: JobAct)
    requires CountInv(s) && id in s.tasks && JobEnabled(s.tasks[id], j) && TaskInv(s.tasks[id])
    requires j.Fulfil? ==> s.tasks[id].outcome.None?
    ensures CountInv(JobStep(s, id, j))
  {
    JobKeepsTask(s.tasks[id], j);
    CountsAfterPut(s.tasks, id, JobApply(s.tasks[id], j));
  }

  lemma JobStepInv(s: Slot, id: nat, j: JobAct)
    requires Inv(s) && id in s.tasks && JobEnabled(s.tasks[id], j)
    requires j.Suspend? ==> j.b == |s.issued|
    requires j.Fulfil? ==> s.tasks[id].outcome.None?
    ensures Inv(JobStep(s, id, j))
  {
    hide CountInv, PlaceInv, BridgeInv, C.Inv, CountedPhase, PendingPhase;
    JobKeepsTask(s.tasks[id], j);
    CountAfterJob(s, id, j);
    PlaceAfterPut(s, JobStep(s, id, j), id, JobApply(s.tasks[id], j));
    BridgesAfterJob(s, id, j);
  }

  lemma CountAfterPhase(s: Slot, s': Slot, id: nat, t: Task)
    requires CountInv(s) && s'.tasks == s.tasks[id := t]
    requires CountedPhase(t.phase) == (id in s.tasks && CountedPhase(s.tasks[id].phase))
    requires PendingPhase(t.phase) == (id in s.tasks && PendingPhase(s.tasks[id].phase))
    requires s'.disp == s.disp || (s.disp.Receiving? && (s'.disp.Holding? || s'.disp.Exiting?))
    requires s'.inFlight == s.inFlight && s'.maxInFlight == s.maxInFlight
    requires s'.pendingOps == s.pendingOps && s'.timers == s.timers && s'.other == s.other
    ensures CountInv(s')
  {
    CountsAfterPut(s.tasks, id, t);
  }

  lemma PlaceAfterRegister(s: Slot, id: nat)
    requires PlaceInv(s) && SubmitEnabled(s, Register(id))
    ensures PlaceInv(SubmitApply(s, Register(id)))
  {
  }

  lemma RegisterStep(s: Slot, id: nat)
    requires Inv(s) && Enabled(s, Submit(Register(id)))
    ensures Inv(Apply(s, Submit(Register(id))))
  {
    hide CountInv, PlaceInv, BridgeInv, C.Inv;
    var s' := SubmitApply(s, Register(id));
    C.StepInv(s.chan, C.Copy(SlotTx, Submitter(id)));
    PlaceAfterRegister(s, id);
    CountAfterPhase(s, s', id, NEW_TASK);
    TasksAfterPut(s, s', id, NEW_TASK);
  }

  /** The job goes to the back of the queue, and nowhere else. */
  lemma PlaceAfterSend(s: Slot, s': Slot, id: nat)
    requires PlaceInv(s) && s.chan.accepted == s.chan.received + s.chan.ch.queue && At(s, id, Unsent)
    requires id in s'.tasks && s'.tasks == s.tasks[id := s'.tasks[id]] && s'.tasks[id].phase.Queued?
    requires s'.chan.ch.queue == s.chan.ch.queue + [id] && s'.chan.accepted == s.chan.accepted + [id]
    requires s'.chan.received == s.chan.received && s'.chan.handles == s.chan.handles
    requires s'.started == s.started && s'.disp == s.disp
    ensures PlaceInv(s')
  {
    assert id !in s.started && id !in s.chan.ch.queue && id !in HeldBy(s.disp);
  }

  /** A refused job is in none of the places. */
  lemma PlaceAfterReject(s: Slot, s': Slot, id: nat)
    requires PlaceInv(s) && At(s, id, Unsent)
    requires id in s'.tasks && s'.tasks == s.tasks[id := s'.tasks[id]] && s'.tasks[id].phase.Rejected?
    requires s'.chan.ch.queue == s.chan.ch.queue && s'.chan.accepted == s.chan.accepted
    requires s'.chan.received == s.chan.received && s'.chan.handles == s.chan.handles
    requires s'.started == s.started && s'.disp == s.disp
    ensures PlaceInv(s')
  {
  }

  /** What a send does to the channel, as far as the slot looks at it. */
  lemma SendEffect(x: C.Sys<nat, Actor>, a: Actor, via: Actor, id: nat)
    requires C.Inv(x) && C.Enabled(x, C.Send(a, via, id))
    ensures x.accepted == x.received + x.ch.queue
    ensures var x' := C.Apply(x, C.Send(a, via, id)); var added := if x.ch.closed then [] else [id];
      && x'.ch.queue == x.ch.queue + added && x'.accepted == x.accepted + added
      && x'.received == x.received && x'.handles == x.handles && x'.rx == x.rx && x'.last == x.last
  {
    hide C.TokenInv, C.CountInv;
  }

  lemma UnsentMoves(t: Task)
    requires TaskInv(t) && t.phase.Unsent?
    ensures TaskInv(t.(phase := Queued))
    ensures TaskInv(t.(phase := Rejected, shot := ShotClosed(t.shot).0))
  {
  }

  lemma SendStep(s: Slot, id: nat)
    requires Inv(s) && Enabled(s, Submit(SendJob(id)))
    ensures Inv(Apply(s, Submit(SendJob(id))))
  {
    hide CountInv, PlaceInv, BridgeInv, TaskInv, ExitInv, C.Inv, C.Apply, C.Enabled, ShotClosed;
    var s' := SubmitApply(s, SendJob(id));
    ExitAfterPut(s, s', id, s'.tasks[id]);
    C.StepInv(s.chan, C.Send(Submitter(id), Submitter(id), id));
    SendEffect(s.chan, Submitter(id), Submitter(id), id);
    UnsentMoves(s.tasks[id]);
    SendCounts(s, s', id);
    TasksAfterPut(s, s', id, s'.tasks[id]);
    if !s.chan.ch.closed {
      PlaceAfterSend(s, s', id);
    } else {
      PlaceAfterReject(s, s', id);
    }
  }

  lemma ExitAfterPut(s: Slot, s': Slot, id: nat, t: Task)
    requires ExitInv(s) && s'.tasks == s.tasks[id := t] && !StartedPhase(t.phase)
    requires s'.disp == s.disp && s'.pendingOps == s.pendingOps && s'.exited == s.exited
    ensures ExitInv(s')
  {
  }

  /** A task that has not been started is in no count. */
  lemma SendCounts(s: Slot, s': Slot, id: nat)
    requires CountInv(s) && At(s, id, Unsent) && id in s'.tasks && s'.tasks == s.tasks[id := s'.tasks[id]]
    requires s'.tasks[id].phase.Queued? || s'.tasks[id].phase.Rejected?
    requires s'.disp == s.disp && s'.timers == s.timers && s'.other == s.other
    requires s'.inFlight == s.inFlight && s'.maxInFlight == s.maxInFlight && s'.pendingOps == s.pendingOps
    ensures CountInv(s')
  {
    hide CountInv;
    CountAfterPhase(s, s', id, s'.tasks[id]);
  }

  lemma TasksAfterFlag(s: Slot, s': Slot, id: nat)
    requires TasksInv(s) && id in s.tasks && s'.tasks == s.tasks[id := s.tasks[id].(flag := true)]
    requires s'.bridges == s.bridges && s'.issued == s.issued
    ensures TasksInv(s')
  {
    hide BridgeInv, TaskInv;
    FlagKeepsTask(s.tasks[id]);
    BridgesAfterFlag(s, s', id, s.tasks[id].(flag := true));
  }

  lemma FlagKeepsTask(t: Task)
    requires TaskInv(t)
    ensures TaskInv(t.(flag := true))
  {
  }

  lemma RejectedMoves(t: Task)
    requires TaskInv(t) && t.phase.Rejected?
    ensures TaskInv(t.(phase := Unregistered))
  {
  }

  lemma RewriteStep(s: Slot, sub: SubmitAct)
    requires Inv(s) && Enabled(s, Submit(sub)) && (sub.Unregister? || sub.Cancel?)
    ensures Inv(Apply(s, Submit(sub)))
  {
    hide CountInv, PlaceInv, BridgeInv, TaskInv, C.Inv;
    var s' := SubmitApply(s, sub);
    CountAfterPhase(s, s', sub.id, s'.tasks[sub.id]);
    PlaceAfterPut(s, s', sub.id, s'.tasks[sub.id]);
    if sub.Cancel? {
      TasksAfterFlag(s, s', sub.id);
    } else {
      RejectedMoves(s.tasks[sub.id]);
      TasksAfterPut(s, s', sub.id, s'.tasks[sub.id]);
    }
  }

  /** The front job moves from the queue to the dispatcher. */
  lemma PlaceAfterRecv(s: Slot, s': Slot)
    requires PlaceInv(s) && s.chan.accepted == s.chan.received + s.chan.ch.queue && s.disp.Receiving?
    requires |s.chan.ch.queue| > 0 && At(s, s.chan.ch.queue[0], Queued)
    requires var id := s.chan.ch.queue[0];
      && s'.tasks == s.tasks[id := s.tasks[id].(phase := Held)] && s'.disp == Holding(id)
      && s'.chan.received == s.chan.received + [id] && s'.chan.ch.queue == s.chan.ch.queue[1..]
    requires s'.chan.accepted == s.chan.accepted && s'.chan.handles == s.chan.handles && s'.started == s.started
    ensures PlaceInv(s')
  {
    hide NoDup;
    FrontOnce(s.chan.received, s.chan.ch.queue);
    var id := s.chan.ch.queue[0];
    forall x
      ensures x in s'.chan.ch.queue <==> At(s', x, Queued)
    {
      assert x in s.chan.ch.queue <==> x == id || x in s'.chan.ch.queue;
    }
  }

  lemma FrontOnce(received: seq<nat>, queue: seq<nat>)
    requires NoDup(received + queue) && |queue| > 0
    ensures queue[0] !in queue[1..]
  {
    var all, n := received + queue, |received|;
    forall i | 1 <= i < |queue|
      ensures queue[i] != queue[0]
    {
      assert all[n] == queue[0] && all[n + i] == queue[i];
    }
  }

  lemma RecvStep(s: Slot)
    requires Inv(s) && Enabled(s, Dispatch(Recv))
    ensures Inv(Apply(s, Dispatch(Recv)))
  {
    hide PlaceInv, CountInv, TasksInv;
    C.StepInv(s.chan, C.AwaitResume);
    if |s.chan.ch.queue| > 0 {
      RecvJob(s, s.chan.ch.queue[0]);
    } else {
      RecvEnd(s);
    }
  }

  /** The channel is closed and drained. */
  lemma RecvEnd(s: Slot)
    requires PlaceInv(s) && CountInv(s) && TasksInv(s)
    requires DispatchEnabled(s, Recv) && s.chan.ch.queue == []
    ensures PlaceInv(DispatchApply(s, Recv)) && CountInv(DispatchApply(s, Recv)) && TasksInv(DispatchApply(s, Recv))
  {
    hide CountedSet, PendingSet, TaskInv, BridgeInv;
    var s' := DispatchApply(s, Recv);
    assert s'.tasks == s.tasks;
    BridgesSame(s, s');
  }

  lemma BridgesSame(s: Slot, s': Slot)
    requires BridgeInv(s) && s'.tasks == s.tasks && s'.bridges == s.bridges && s'.issued == s.issued
    ensures BridgeInv(s')
  {
  }

  lemma RecvJob(s: Slot, id: nat)
    requires PlaceInv(s) && CountInv(s) && TasksInv(s) && C.FifoInv(s.chan)
    requires DispatchEnabled(s, Recv) && |s.chan.ch.queue| > 0 && s.chan.ch.queue[0] == id
    ensures PlaceInv(DispatchApply(s, Recv)) && CountInv(DispatchApply(s, Recv)) && TasksInv(DispatchApply(s, Recv))
  {
    hide CountInv, PlaceInv, BridgeInv, TaskInv;
    var s' := DispatchApply(s, Recv);
    FrontIsQueued(s);
    QueuedMoves(s.tasks[id]);
    CountAfterPhase(s, s', id, s'.tasks[id]);
    PlaceAfterRecv(s, s');
    TasksAfterPut(s, s', id, s'.tasks[id]);
  }

  lemma FrontIsQueued(s: Slot)
    requires PlaceInv(s) && |s.chan.ch.queue| > 0
    ensures At(s, s.chan.ch.queue[0], Queued)
  {
    hide NoDup, StartedPhase;
  }

  lemma QueuedMoves(t: Task)
    requires TaskInv(t) && (t.phase.Queued? || t.phase.Held?)
    ensures TaskInv(t.(phase := Held)) && TaskInv(t.(phase := Spawned))
  {
  }

  lemma PlaceAfterSpawn(s: Slot)
    requires PlaceInv(s) && s.disp.Pended?
    ensures At(s, s.disp.id, Held)
    ensures PlaceInv(DispatchApply(s, Spawn))
  {
    var s' := DispatchApply(s, Spawn);
    assert forall id :: id in HeldBy(s.disp) <==> id == s.disp.id;
    assert HeldBy(s'.disp) == [];
    forall id
      ensures At(s', id, Held) ==> id in HeldBy(s.disp) && id != s.disp.id
    {
      assert id != s.disp.id ==> At(s', id, Held) == At(s, id, Held);
    }
  }

  lemma CountAfterSpawn(s: Slot)
    requires CountInv(s) && s.disp.Pended? && At(s, s.disp.id, Held)
    ensures CountInv(DispatchApply(s, Spawn))
  {
    CountsAfterPut(s.tasks, s.disp.id, s.tasks[s.disp.id].(phase := Spawned));
  }

  lemma SpawnStep(s: Slot)
    requires Inv(s) && Enabled(s, Dispatch(Spawn))
    ensures Inv(Apply(s, Dispatch(Spawn)))
  {
    hide CountInv, PlaceInv, BridgeInv, TaskInv, C.Inv;
    PlaceAfterSpawn(s);
    QueuedMoves(s.tasks[s.disp.id]);
    CountAfterSpawn(s);
    TasksAfterPut(s, DispatchApply(s, Spawn), s.disp.id, s.tasks[s.disp.id].(phase := Spawned));
  }

  /** The jobs stay where they are: only what the dispatcher does with the one it holds changes. */
  lemma PlaceSame(s: Slot, s': Slot)
    requires PlaceInv(s) && s'.tasks == s.tasks && s'.chan == s.chan && s'.started == s.started
    requires HeldBy(s'.disp) == HeldBy(s.disp)
    ensures PlaceInv(s')
  {
    hide NoDup, StartedPhase;
  }

  /** The steps that move only the dispatcher and the counters. */
  lemma CounterStep(s: Slot, d: DispatchAct)
    requires Inv(s) && Enabled(s, Dispatch(d)) && !d.Recv? && !d.Spawn?
    ensures Inv(Apply(s, Dispatch(d)))
  {
    hide C.Inv, PlaceInv, TasksInv, CountedSet, PendingSet, StartedPhase, T.Live, T.Inv;
    TasksSame(s, DispatchApply(s, d));
    PlaceSame(s, DispatchApply(s, d));
  }

  lemma DispatchStep(s: Slot, d: DispatchAct)
    requires Inv(s) && Enabled(s, Dispatch(d))
    ensures Inv(Apply(s, Dispatch(d)))
  {
    hide Inv, DispatchApply, DispatchEnabled;
    if d.Recv? {
      RecvStep(s);
    } else if d.Spawn? {
      SpawnStep(s);
    } else {
      CounterStep(s, d);
    }
  }

  lemma SubmitStep(s: Slot, sub: SubmitAct)
    requires Inv(s) && Enabled(s, Submit(sub))
    ensures Inv(Apply(s, Submit(sub)))
  {
    hide Inv, SubmitApply, SubmitEnabled;
    match sub
    case Register(id) => RegisterStep(s, id);
    case SendJob(id) => SendStep(s, id);
    case _ => RewriteStep(s, sub);
  }

  lemma SettleStep(s: Slot, b: nat, js: JsAnswer)
    requires Inv(s) && Enabled(s, Settle(b, js))
    ensures Inv(Apply(s, Settle(b, js)))
  {
    hide CountInv, PlaceInv, DispInv, ExitInv, C.Inv, BridgeInv, TaskInv, JobStep;
    if b in s.bridges {
      BridgeOwner(s, s.bridges[b], b);
      JobStepInv(s, s.bridges[b], Fulfil(js));
    }
  }

  lemma StepInv(s: Slot, a: Act)
    requires Inv(s) && Enabled(s, a)
    ensures Inv(Apply(s, a))
  {
    hide Inv, SubmitApply, DispatchApply, HostApply, JobStep, SubmitEnabled, DispatchEnabled, HostEnabled, JobEnabled;
    match a
    case Submit(sub) => SubmitStep(s, sub);
    case Channel(c) => ChannelStep(s, c);
    case Dispatch(d) => DispatchStep(s, d);
    case Job(id, j) => JobStepInv(s, id, j);
    case Settle(b, js) => SettleStep(s, b, js);
    case Host(h) => HostStep(s, h);
  }

  /** One step as a partial function, for the manager's machine. */
  ghost function Next(s: Slot, a: Act): Option<Slot> {
    if Enabled(s, a) then Some(Apply(s, a)) else None
  }

  lemma NextInv(s: Slot, a: Act, s': Slot)
    requires Inv(s) && Next(s, a) == Some(s')
    ensures Inv(s')
  {
    hide Inv, Enabled, Apply;
    StepInv(s, a);
  }
}
