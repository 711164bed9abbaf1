/** What every run of a host slot guarantees to the threads that submit to it. */
module HostTheorems {
  import opened Wrappers
  import opened Mpsc
  import opened HostMachine
  import C = MpscProtocol
  import O = Oneshot
  import T = Timers

  /** A slot as `create_host` leaves it: one sender handle, and one pending operation for the dispatcher. */
  ghost predicate Initial(s: Slot) {
    && s.chan == C.Sys(Fresh(), C.Idle, 0, map[], [], {SlotTx}, {}, [], [], None, None)
    && s.tasks == map[] && s.disp == Receiving && s.started == []
    && s.inFlight == 0 && s.maxInFlight >= 1 && s.pendingOps == 1 && s.other == 0
    && s.timers == T.EMPTY && !s.stopping && s.bridges == map[] && s.issued == [] && !s.exited
  }

  lemma InitialInv(s: Slot)
    requires Initial(s)
    ensures Inv(s)
  {
    assert C.Init(s.chan);
    C.InitInv(s.chan);
    assert CountedSet(s.tasks) == {} && PendingSet(s.tasks) == {} && T.Live(s.timers) == {};
  }

  ghost predicate Run(s: Slot, acts: seq<Act>, s': Slot)
    decreases acts
  {
    if acts == [] then s' == s else Enabled(s, acts[0]) && Run(Apply(s, acts[0]), acts[1..], s')
  }

  lemma {:induction false} RunInv(s: Slot, acts: seq<Act>, s': Slot)
    requires Inv(s) && Run(s, acts, s')
    ensures Inv(s')
    decreases acts
  {
    if acts != [] {
      StepInv(s, acts[0]);
      RunInv(Apply(s, acts[0]), acts[1..], s');
    }
  }

  // ---- What the actions of a run say about its end ---------------------------------------

  lemma {:induction false} RunLast(s: Slot, acts: seq<Act>, s': Slot) returns (m: Slot)
    requires Run(s, acts, s') && acts != []
    ensures Run(s, acts[..|acts| - 1], m) && Enabled(m, acts[|acts| - 1]) && s' == Apply(m, acts[|acts| - 1])
    decreases acts
  {
    hide Apply, Enabled;
    if |acts| == 1 {
      m := s;
      assert Run(Apply(s, acts[0]), [], s') && acts[1..] == [];
    } else {
      m := RunLast(Apply(s, acts[0]), acts[1..], s');
      assert acts[..|acts| - 1][1..] == acts[1..][..|acts| - 2];
    }
  }

  /** What the environment last gave a job to answer with: what its function returned, the first settling of the
      bridge it waits on, or the message of a failure. */
  function Produced(acts: seq<Act>, id: nat): Option<JsAnswer> {
    if acts == [] then None
    else
      var n := |acts| - 1;
      var before := Produced(acts[..n], id);
      match acts[n]
      case Job(i, Return(js)) => if i == id then Some(js) else before
      case Job(i, FailBeforeCall(m)) => if i == id then Some(Err(m)) else before
      case Job(i, AttachFails(m)) => if i == id then Some(Err(m)) else before
      case Settle(b, js) => if before.None? && Job(id, Suspend(b)) in acts[..n] then Some(js) else before
      case _ => before
  }

  /** What the job's dequeue check saw: whether a cancel came before it. */
  function Saw(acts: seq<Act>, id: nat): Option<bool> {
    if acts == [] then None
    else
      var n := |acts| - 1;
      if acts[n] == Job(id, CheckCancel) then Some(Submit(Cancel(id)) in acts[..n]) else Saw(acts[..n], id)
  }

  /** The answer of a job that has one. */
  function AnswerOf(acts: seq<Act>, id: nat): Option<Answer> {
    if Saw(acts, id) == Some(true) then Some(Cancelled)
    else if Produced(acts, id).Some? then Some(Done(Produced(acts, id).value))
    else None
  }

  predicate Mentions(a: Act, id: nat) {
    (a.Job? && a.id == id) || (a.Submit? && a.sub.id == id)
  }

  ghost predicate Untouched(acts: seq<Act>, id: nat) {
    forall a :: a in acts ==> !Mentions(a, id)
  }

  /** What a task holds is what the actions say. */
  ghost predicate Reflects(t: Task, acts: seq<Act>, id: nat) {
    && (t.called <==> Job(id, Call) in acts)
    && (t.flag <==> Submit(Cancel(id)) in acts)
    && t.sawFlag == Saw(acts, id)
    && (t.phase.Awaiting? ==> Job(id, Suspend(t.phase.bridge)) in acts && t.outcome == Produced(acts, id))
    && (!t.phase.Awaiting? && !AnsweredPhase(t.phase) ==> Produced(acts, id).None?)
    && (AnsweredPhase(t.phase) ==> AnswerOf(acts, id).Some? && t.log == [AnswerOf(acts, id).value])
    && (AnsweredPhase(t.phase) && t.sawFlag == Some(true) ==> Produced(acts, id).None?)
    && (t.shot.sent ==> AnswerOf(acts, id).Some? && t.shot.value == AnswerOf(acts, id))
  }

  /** A bridge belongs to the job that suspended on it, and is in the table until that job got something. */
  ghost predicate Bridged(s: Slot, acts: seq<Act>) {
    forall id: nat, b: nat :: Job(id, Suspend(b)) in acts ==>
      b < |s.issued| && s.issued[b] == id && (b in s.bridges || Produced(acts, id).Some?)
  }

  ghost predicate HistoryInv(s: Slot, acts: seq<Act>) {
    && Bridged(s, acts)
    && (forall id :: id in s.tasks ==> Submit(Register(id)) in acts && Reflects(s.tasks[id], acts, id))
    && (forall id :: id !in s.tasks ==> Untouched(acts, id))
  }

  lemma HistorySnoc(acts: seq<Act>, a: Act, id: nat)
    ensures Produced(acts + [a], id) == Given(acts, a, id)
    ensures Saw(acts + [a], id) == if a == Job(id, CheckCancel) then Some(Submit(Cancel(id)) in acts) else Saw(acts, id)
  {
    var all := acts + [a];
    assert all[..|acts|] == acts && all[|acts|] == a;
  }

  /** One step of the history of what a job was given. */
  function Given(acts: seq<Act>, a: Act, id: nat): Option<JsAnswer> {
    var before := Produced(acts, id);
    match a
    case Job(i, Return(js)) => if i == id then Some(js) else before
    case Job(i, FailBeforeCall(m)) => if i == id then Some(Err(m)) else before
    case Job(i, AttachFails(m)) => if i == id then Some(Err(m)) else before
    case Settle(b, js) => if before.None? && Job(id, Suspend(b)) in acts then Some(js) else before
    case _ => before
  }

  lemma {:induction false} UntouchedNothing(acts: seq<Act>, id: nat)
    requires Untouched(acts, id)
    ensures Produced(acts, id).None? && Saw(acts, id).None?
    ensures forall b :: Job(id, Suspend(b)) !in acts
  {
    forall j
      ensures Job(id, j) !in acts
    {
      assert Mentions(Job(id, j), id);
    }
    if acts != [] {
      var init := acts[..|acts| - 1];
      assert forall a :: a in init ==> a in acts;
      UntouchedNothing(init, id);
      assert acts == init + [acts[|acts| - 1]] && acts[|acts| - 1] in acts;
      HistorySnoc(init, acts[|acts| - 1], id);
    }
  }

  /** The step that a job takes in an action, its own or the settling of its bridge. */
  ghost function StepOf(s: Slot, a: Act, id: nat): Option<JobAct> {
    match a
    case Job(i, j) => if i == id then Some(j) else None
    case Settle(b, js) => if b in s.bridges && s.bridges[b] == id then Some(Fulfil(js)) else None
    case _ => None
  }

  /** On the way to the start of the job, nothing of its answer changes. */
  ghost predicate Carried(t: Task, t': Task) {
    || t' == t
    || (!StartedPhase(t.phase) && t' == t.(phase := t'.phase, shot := t'.shot) && t'.shot.sent == t.shot.sent
        && (t'.phase.Spawned? || !StartedPhase(t'.phase)))
  }

  lemma SubmitCarries(s: Slot, a: SubmitAct, id: nat)
    requires SubmitEnabled(s, a) && id in s.tasks && a != Cancel(id)
    ensures id in SubmitApply(s, a).tasks && Carried(s.tasks[id], SubmitApply(s, a).tasks[id])
  {
    hide C.Enabled, C.Apply;
    var s' := SubmitApply(s, a);
    if a.id != id {
      assert s'.tasks[id] == s.tasks[id];
    }
  }

  lemma DispatchCarries(s: Slot, d: DispatchAct, id: nat)
    requires PlaceInv(s) && DispatchEnabled(s, d) && id in s.tasks
    ensures id in DispatchApply(s, d).tasks && Carried(s.tasks[id], DispatchApply(s, d).tasks[id])
  {
    hide PlaceInv, C.Enabled, C.Apply;
    if d.Recv? {
      hide DispatchApply;
      RecvEffect(s);
      if |s.chan.ch.queue| > 0 {
        FrontIsQueued(s);
      }
    } else if d.Spawn? {
      PlaceAfterSpawn(s);
    }
  }

  lemma TaskAfter(s: Slot, a: Act, id: nat)
    requires PlaceInv(s) && Enabled(s, a) && id in s.tasks
    ensures id in Apply(s, a).tasks
    ensures var t, t', j := s.tasks[id], Apply(s, a).tasks[id], StepOf(s, a, id);
            if j.Some? then JobEnabled(t, j.value) && t' == JobApply(t, j.value)
            else if a == Submit(Cancel(id)) then t' == t.(flag := true)
            else Carried(t, t')
  {
    hide PlaceInv, SubmitEnabled, DispatchEnabled, SubmitApply, DispatchApply, JobApply, HostEnabled, HostApply,
      C.Apply, C.Enabled, ChannelOnly;
    match a
    case Submit(sub) =>
      if sub == Cancel(id) {
        CancelFlags(s, id);
      } else {
        SubmitCarries(s, sub, id);
      }
    case Dispatch(d) => DispatchCarries(s, d, id);
    case Host(h) => HostLeaves(s, h);
    case _ =>
  }

  lemma CancelFlags(s: Slot, id: nat)
    requires SubmitEnabled(s, Cancel(id))
    ensures id in s.tasks && SubmitApply(s, Cancel(id)).tasks == s.tasks[id := s.tasks[id].(flag := true)]
  {
  }

  lemma HostLeaves(s: Slot, h: HostAct)
    requires HostEnabled(s, h)
    ensures HostApply(s, h).tasks == s.tasks
  {
  }

  /** A job's own step leaves it with what the actions say. */
  lemma JobReflects(t: Task, acts: seq<Act>, a: Act, id: nat, j: JobAct)
    requires Reflects(t, acts, id) && TaskInv(t) && JobEnabled(t, j)
    requires if j.Fulfil? then a == Settle(t.phase.bridge, j.js) && t.outcome.None? else a == Job(id, j)
    ensures Reflects(JobApply(t, j), acts + [a], id)
  {
    hide Produced, Saw;
    HistorySnoc(acts, a, id);
  }

  lemma CarriedReflects(t: Task, t': Task, acts: seq<Act>, a: Act, id: nat)
    requires Reflects(t, acts, id) && TaskInv(t) && Carried(t, t')
    requires a != Submit(Cancel(id)) && !(a.Job? && a.id == id)
    requires Given(acts, a, id) == Produced(acts, id)
    ensures Reflects(t', acts + [a], id)
  {
    hide Produced, Saw, Given;
    HistorySnoc(acts, a, id);
  }

  lemma FlagReflects(t: Task, acts: seq<Act>, id: nat)
    requires Reflects(t, acts, id)
    ensures Reflects(t.(flag := true), acts + [Submit(Cancel(id))], id)
  {
    hide Produced, Saw;
    HistorySnoc(acts, Submit(Cancel(id)), id);
  }

  /** A settling that is not of this job's bridge gives it nothing. */
  lemma NotGiven(s: Slot, acts: seq<Act>, a: Act, id: nat)
    requires Bridged(s, acts) && BridgeInv(s) && StepOf(s, a, id).None?
    ensures Given(acts, a, id) == Produced(acts, id)
  {
    hide Produced;
  }

  lemma TaskReflects(s: Slot, acts: seq<Act>, a: Act, id: nat)
    requires Inv(s) && HistoryInv(s, acts) && Enabled(s, a) && id in s.tasks
    ensures id in Apply(s, a).tasks && Reflects(Apply(s, a).tasks[id], acts + [a], id)
  {
    hide Apply, Reflects, TaskInv, BridgeInv, C.Inv, PlaceInv, DispInv, CountInv, ExitInv, JobApply, Carried, Given,
      Bridged, JobEnabled;
    TaskAfter(s, a, id);
    var t, j := s.tasks[id], StepOf(s, a, id);
    if j.Some? {
      StepIsOf(s, a, id);
      JobReflects(t, acts, a, id, j.value);
    } else if a == Submit(Cancel(id)) {
      FlagReflects(t, acts, id);
    } else {
      NotGiven(s, acts, a, id);
      CarriedReflects(t, Apply(s, a).tasks[id], acts, a, id);
    }
  }

  lemma StepIsOf(s: Slot, a: Act, id: nat)
    requires BridgeInv(s) && Enabled(s, a) && id in s.tasks && StepOf(s, a, id).Some?
    ensures var t, j := s.tasks[id], StepOf(s, a, id).value;
            if j.Fulfil? then t.phase.Awaiting? && a == Settle(t.phase.bridge, j.js) && t.outcome.None?
            else a == Job(id, j)
  {
    hide SubmitEnabled, DispatchEnabled, HostEnabled, ChannelOnly, C.Enabled;
  }

  lemma BridgedStep(s: Slot, acts: seq<Act>, a: Act)
    requires Bridged(s, acts) && BridgeInv(s) && Enabled(s, a)
    ensures Bridged(Apply(s, a), acts + [a])
  {
    hide Produced, Enabled, Apply, BridgeInv;
    forall id: nat, b: nat {:trigger Job(id, Suspend(b))} | Job(id, Suspend(b)) in acts + [a]
      ensures b < |Apply(s, a).issued| && Apply(s, a).issued[b] == id
      ensures b in Apply(s, a).bridges || Produced(acts + [a], id).Some?
    {
      OneBridgeStep(s, acts, a, id, b);
    }
  }

  lemma OneBridgeStep(s: Slot, acts: seq<Act>, a: Act, id: nat, b: nat)
    requires Bridged(s, acts) && BridgeInv(s) && Enabled(s, a) && Job(id, Suspend(b)) in acts + [a]
    ensures b < |Apply(s, a).issued| && Apply(s, a).issued[b] == id
    ensures b in Apply(s, a).bridges || Produced(acts + [a], id).Some?
  {
    hide Produced, Enabled, Apply, BridgeInv;
    BridgeTable(s, a);
    HistorySnoc(acts, a, id);
    if b in s.bridges && b !in Apply(s, a).bridges && Job(id, Suspend(b)) in acts {
      BridgeLeaves(s, acts, a, id, b);
    }
  }

  /** What an action does to the bridge table. */
  lemma BridgeTable(s: Slot, a: Act)
    requires Enabled(s, a)
    ensures Apply(s, a).issued == s.issued + (if a.Job? && a.j.Suspend? then [a.id] else [])
    ensures a.Job? && a.j.Suspend? ==> a.j.b == |s.issued| && Apply(s, a).bridges == s.bridges[a.j.b := a.id]
    ensures !(a.Job? && (a.j.Suspend? || a.j.AttachFails?)) && !a.Settle? ==> Apply(s, a).bridges == s.bridges
  {
    hide SubmitEnabled, DispatchEnabled, HostEnabled, ChannelOnly, C.Enabled, C.Apply, JobApply;
    if a.Dispatch? {
      hide DispatchApply;
      DispatchBridges(s, a.d);
    }
  }

  lemma DispatchBridges(s: Slot, d: DispatchAct)
    requires DispatchEnabled(s, d)
    ensures DispatchApply(s, d).issued == s.issued && DispatchApply(s, d).bridges == s.bridges
  {
    hide C.Enabled, C.Apply;
  }

  /** A bridge leaves the table only when its job gets something. */
  lemma BridgeLeaves(s: Slot, acts: seq<Act>, a: Act, id: nat, b: nat)
    requires Bridged(s, acts) && BridgeInv(s) && Enabled(s, a) && Job(id, Suspend(b)) in acts
    requires b in s.bridges && b !in Apply(s, a).bridges
    ensures Given(acts, a, id).Some?
  {
    hide Produced, SubmitEnabled, DispatchEnabled, HostEnabled, ChannelOnly, C.Enabled, C.Apply, JobApply;
    BridgeTable(s, a);
  }

  /** Only a registration makes a new task, and nothing before it mentions its id. */
  lemma TaskKeys(s: Slot, a: Act)
    requires PlaceInv(s) && BridgeInv(s) && Enabled(s, a)
    ensures var s' := Apply(s, a);
      && s'.tasks.Keys == s.tasks.Keys + (if a.Submit? && a.sub.Register? then {a.sub.id} else {})
      && (a.Submit? && a.sub.Register? ==> a.sub.id !in s.tasks && s'.tasks[a.sub.id] == NEW_TASK)
      && (forall id :: Mentions(a, id) ==> id in s'.tasks)
  {
    hide PlaceInv, C.Enabled, C.Apply, JobApply, JobEnabled, HostEnabled, DispatchApply, DispatchEnabled, SubmitApply,
      SubmitEnabled, HostApply, ChannelOnly;
    match a
    case Submit(sub) => SubmitKeys(s, sub);
    case Dispatch(d) => DispatchKeys(s, d);
    case Host(h) => HostLeaves(s, h);
    case _ =>
  }

  lemma SubmitKeys(s: Slot, a: SubmitAct)
    requires SubmitEnabled(s, a)
    ensures var s' := SubmitApply(s, a);
      && s'.tasks.Keys == s.tasks.Keys + (if a.Register? then {a.id} else {}) && a.id in s'.tasks
      && (a.Register? ==> a.id !in s.tasks && s'.tasks[a.id] == NEW_TASK)
  {
    hide C.Enabled, C.Apply, O.ShotClosed;
  }

  lemma DispatchKeys(s: Slot, d: DispatchAct)
    requires PlaceInv(s) && DispatchEnabled(s, d)
    ensures DispatchApply(s, d).tasks.Keys == s.tasks.Keys
  {
    hide PlaceInv, C.Enabled, C.Apply;
    if d.Recv? {
      hide DispatchApply;
      RecvEffect(s);
      if |s.chan.ch.queue| > 0 {
        FrontIsQueued(s);
      }
    } else if d.Spawn? {
      PlaceAfterSpawn(s);
    }
  }

  lemma NewReflects(acts: seq<Act>, id: nat)
    requires Untouched(acts, id)
    ensures Reflects(NEW_TASK, acts + [Submit(Register(id))], id)
  {
    hide Produced, Saw;
    UntouchedNothing(acts, id);
    HistorySnoc(acts, Submit(Register(id)), id);
    forall a | Mentions(a, id)
      ensures a !in acts
    {
    }
    assert Mentions(Job(id, Call), id) && Mentions(Submit(Cancel(id)), id);
  }

  lemma HistoryStep(s: Slot, acts: seq<Act>, a: Act)
    requires Inv(s) && HistoryInv(s, acts) && Enabled(s, a)
    ensures HistoryInv(Apply(s, a), acts + [a])
  {
    hide Apply, Enabled, Reflects, TaskInv, BridgeInv, C.Inv, PlaceInv, DispInv, CountInv, ExitInv, Bridged, Mentions;
    var s', all := Apply(s, a), acts + [a];
    BridgedStep(s, acts, a);
    TaskKeys(s, a);
    forall id | id in s'.tasks
      ensures Submit(Register(id)) in all && Reflects(s'.tasks[id], all, id)
    {
      if id in s.tasks {
        TaskReflects(s, acts, a, id);
      } else {
        NewReflects(acts, id);
      }
    }
  }

  /** Over every run: each task exists exactly if it was registered, its flag, its dequeue check and whether its
      function was called are as the actions say, and so is its answer. */
  lemma {:induction false} RunHistory(s: Slot, acts: seq<Act>, s': Slot)
    requires Initial(s) && Run(s, acts, s')
    ensures Inv(s') && HistoryInv(s', acts)
    decreases |acts|
  {
    hide Inv, Apply, Enabled;
    InitialInv(s);
    RunInv(s, acts, s');
    if acts != [] {
      hide Initial, HistoryInv;
      var n := |acts| - 1;
      var m := RunLast(s, acts, s');
      RunHistory(s, acts[..n], m);
      HistoryStep(m, acts[..n], acts[n]);
      assert acts == acts[..n] + [acts[n]];
    }
  }

  function OtherCount(acts: seq<Act>): int {
    if acts == [] then 0
    else
      var n := |acts| - 1;
      OtherCount(acts[..n])
        + (if acts[n] == Host(OtherBegin) then 1 else if acts[n] == Host(OtherEnd) then -1 else 0)
  }

  /** The timer steps of a run, each with the stopping flag that it read. */
  function TimerSteps(acts: seq<Act>): seq<(bool, T.Act)> {
    if acts == [] then []
    else
      var n := |acts| - 1;
      TimerSteps(acts[..n])
        + (if acts[n].Host? && acts[n].h.Timer? then [(Host(Shutdown) in acts[..n], acts[n].h.t)] else [])
  }

  lemma HostFields(s: Slot, a: Act)
    requires Enabled(s, a)
    ensures var s' := Apply(s, a);
      && s'.maxInFlight == s.maxInFlight
      && (s'.stopping <==> s.stopping || a == Host(Shutdown))
      && (s'.exited <==> s.exited || a == Host(LoopExit))
      && s'.other == s.other + (if a == Host(OtherBegin) then 1 else if a == Host(OtherEnd) then -1 else 0)
      && (if a.Host? && a.h.Timer? then T.Enabled(s.timers, a.h.t) && s'.timers == T.Apply(s.timers, s.stopping, a.h.t)
          else s'.timers == s.timers)
  {
    hide C.Enabled, C.Apply, JobApply, JobEnabled, BridgesAfter, T.Apply, T.Enabled, T.LiveDelta, HostIdle,
      O.ShotClosed, ChannelOnly;
    if a.Dispatch? {
      hide DispatchApply;
      DispatchFields(s, a.d);
    }
  }

  lemma DispatchFields(s: Slot, d: DispatchAct)
    requires DispatchEnabled(s, d)
    ensures var s' := DispatchApply(s, d);
      && s'.maxInFlight == s.maxInFlight && s'.stopping == s.stopping && s'.exited == s.exited && s'.other == s.other
      && s'.timers == s.timers
  {
    hide C.Enabled, C.Apply;
  }

  lemma {:induction false} TimerRunSnoc(r: T.Reg, steps: seq<(bool, T.Act)>, m: T.Reg, stop: bool, a: T.Act)
    requires T.Run(r, steps, m) && T.Enabled(m, a)
    ensures T.Run(r, steps + [(stop, a)], T.Apply(m, stop, a))
    decreases steps
  {
    hide T.Enabled, T.Apply;
    var all := steps + [(stop, a)];
    if steps == [] {
      assert all[1..] == [] && T.Run(T.Apply(m, stop, a), [], T.Apply(m, stop, a));
    } else {
      assert all[1..] == steps[1..] + [(stop, a)];
      TimerRunSnoc(T.Apply(r, steps[0].0, steps[0].1), steps[1..], m, stop, a);
    }
  }

  /** The cap stays the one asked for, and the flags are set exactly by the shutdown and by leaving the loop. */
  lemma {:induction false} HostFieldsRun(s: Slot, acts: seq<Act>, s': Slot)
    requires Initial(s) && Run(s, acts, s')
    ensures s'.maxInFlight == s.maxInFlight && s'.other == OtherCount(acts)
    ensures (s'.stopping <==> Host(Shutdown) in acts) && (s'.exited <==> Host(LoopExit) in acts)
    decreases |acts|
  {
    hide Apply, Enabled, Initial, Run, OtherCount, T.Apply, T.Enabled;
    if acts == [] {
      NoFieldsYet(s, s');
    } else {
      var n := |acts| - 1;
      var m := RunLast(s, acts, s');
      HostFieldsRun(s, acts[..n], m);
      HostFields(m, acts[n]);
      assert acts == acts[..n] + [acts[n]];
      OtherCountSnoc(acts[..n], acts[n]);
    }
  }

  lemma NoFieldsYet(s: Slot, s': Slot)
    requires Initial(s) && Run(s, [], s')
    ensures s' == s && s.other == OtherCount([]) && !s.stopping && !s.exited
  {
  }

  lemma OtherCountSnoc(acts: seq<Act>, a: Act)
    ensures OtherCount(acts + [a]) ==
            OtherCount(acts) + (if a == Host(OtherBegin) then 1 else if a == Host(OtherEnd) then -1 else 0)
  {
    var all := acts + [a];
    assert all[..|acts|] == acts && all[|acts|] == a;
  }

  /** The timers make a run of the registry, each step under the stopping flag of the moment. */
  lemma {:induction false} TimersRun(s: Slot, acts: seq<Act>, s': Slot)
    requires Initial(s) && Run(s, acts, s')
    ensures T.Run(T.EMPTY, TimerSteps(acts), s'.timers)
    decreases |acts|
  {
    if acts == [] {
      assert TimerSteps(acts) == [];
    } else {
      hide Apply, Enabled, Initial, Run, T.Apply, T.Enabled, T.Run;
      var n := |acts| - 1;
      var m := RunLast(s, acts, s');
      TimersRun(s, acts[..n], m);
      HostFieldsRun(s, acts[..n], m);
      HostFields(m, acts[n]);
      if acts[n].Host? && acts[n].h.Timer? {
        TimerRunSnoc(T.EMPTY, TimerSteps(acts[..n]), m.timers, m.stopping, acts[n].h.t);
      } else {
        assert TimerSteps(acts) == TimerSteps(acts[..n]);
      }
    }
  }

  // ---- The channel's part of a run -------------------------------------------------------

  /** What an action asks of the channel, if anything. */
  function OnChannel(a: Act): Option<C.Act<nat, Actor>> {
    match a
    case Channel(c) => Some(c)
    case Submit(sub) =>
      if sub.Register? then Some(C.Copy(SlotTx, Submitter(sub.id)))
      else if sub.SendJob? then Some(C.Send(Submitter(sub.id), Submitter(sub.id), sub.id)) else None
    case Dispatch(d) => if d.Recv? then Some(C.AwaitResume) else None
    case _ => None
  }

  lemma DispatchChannel(s: Slot, d: DispatchAct)
    requires DispatchEnabled(s, d)
    ensures DispatchApply(s, d).chan == if d.Recv? then C.Apply(s.chan, C.AwaitResume) else s.chan
  {
    hide C.Apply, C.Enabled;
    if d.Recv? {
      hide DispatchApply;
      RecvEffect(s);
    }
  }

  lemma ChannelAfter(s: Slot, a: Act, s': Slot)
    requires Next(s, a) == Some(s')
    ensures OnChannel(a).None? ==> s'.chan == s.chan
    ensures OnChannel(a).Some? ==>
      C.Enabled(s.chan, OnChannel(a).value) && s'.chan == C.Apply(s.chan, OnChannel(a).value)
  {
    hide C.Apply, C.Enabled, JobApply, JobEnabled, BridgesAfter, ChannelOnly, HostIdle, O.ShotClosed, O.ShotSent;
    if a.Dispatch? {
      hide DispatchApply;
      DispatchChannel(s, a.d);
    }
  }

  function ChannelActs(acts: seq<Act>): seq<C.Act<nat, Actor>> {
    if acts == [] then []
    else (if OnChannel(acts[0]).Some? then [OnChannel(acts[0]).value] else []) + ChannelActs(acts[1..])
  }

  /** The channel makes a run of its own. */
  lemma {:induction false} ChannelRun(s: Slot, acts: seq<Act>, s': Slot)
    requires Run(s, acts, s')
    ensures C.Run(s.chan, ChannelActs(acts), s'.chan)
    ensures forall c :: c in ChannelActs(acts) && c.AwaitSuspend? ==> c.viaExecutor
    decreases acts
  {
    if acts != [] {
      hide C.Apply, C.Enabled, OnChannel;
      var m := Apply(s, acts[0]);
      ChannelAfter(s, acts[0], m);
      WaitsWithExecutor(s, acts[0]);
      ChannelRun(m, acts[1..], s');
      if OnChannel(acts[0]).Some? {
        assert ChannelActs(acts)[1..] == ChannelActs(acts[1..]);
      } else {
        assert ChannelActs(acts) == ChannelActs(acts[1..]);
      }
    }
  }

  lemma WaitsWithExecutor(s: Slot, a: Act)
    requires Enabled(s, a)
    ensures OnChannel(a).Some? && OnChannel(a).value.AwaitSuspend? ==> OnChannel(a).value.viaExecutor
  {
    hide C.Enabled, SubmitEnabled, DispatchEnabled, JobEnabled, HostEnabled;
  }

  lemma {:induction false} AllModes(acts: seq<C.Act<nat, Actor>>)
    requires forall c :: c in acts && c.AwaitSuspend? ==> c.viaExecutor
    ensures forall i :: 0 <= i < |C.Modes(acts)| ==> C.Modes(acts)[i]
  {
    if acts != [] {
      var init := acts[..|acts| - 1];
      assert forall c :: c in init ==> c in acts;
      assert acts[|acts| - 1] in acts;
      AllModes(init);
    }
  }

  /** The suspended dispatcher is resumed by the host's executor and by no other thread: a submitter's wake only
      posts the resumption. */
  lemma DispatcherOnItsThread(s: Slot, acts: seq<Act>, m: Slot, a: Act)
    requires Initial(s) && Run(s, acts, m) && m.chan.rx.Suspended? && Enabled(m, a)
    ensures Apply(m, a).chan.rx != m.chan.rx ==> a == Channel(C.RunToken) && Apply(m, a).chan.rx.Resuming?
    ensures a.Channel? && a.c.Wake? && m.chan.hands[a.c.a].Some? ==>
      Apply(m, a).chan.rx == m.chan.rx && Apply(m, a).chan.runq == [Token(m.chan.rx.k, true)]
  {
    hide C.Apply, C.Enabled, Apply, Enabled, Run;
    assert C.Init(s.chan);
    ChannelRun(s, acts, m);
    AllModes(ChannelActs(acts));
    ChannelAfter(m, a, Apply(m, a));
    if OnChannel(a).Some? {
      C.ResumedBy(s.chan, ChannelActs(acts), m.chan, OnChannel(a).value);
    }
    NotFromOthers(a);
  }

  lemma NotFromOthers(a: Act)
    ensures a.Channel? ==> OnChannel(a) == Some(a.c)
    ensures OnChannel(a).Some? && (OnChannel(a).value.RunToken? || OnChannel(a).value.Wake?) ==>
              a == Channel(OnChannel(a).value)
  {
  }

  /** What the dispatcher is to get is what the submitters sent before the channel was closed, in order. */
  lemma AcceptedAsSent(s: Slot, acts: seq<Act>, s': Slot)
    requires Initial(s) && Run(s, acts, s')
    ensures s'.chan.accepted == C.SentIn(ChannelActs(acts))
    ensures s'.chan.ch.closed <==> C.ClosedIn(ChannelActs(acts))
  {
    hide C.Apply, C.Enabled;
    assert C.Init(s.chan);
    ChannelRun(s, acts, s');
    C.RunHistory(s.chan, ChannelActs(acts), s'.chan);
  }

  /** Jobs start in the order in which they were accepted, and none is lost on the way. */
  lemma AcceptedInOrder(s: Slot, acts: seq<Act>, s': Slot)
    requires Initial(s) && Run(s, acts, s')
    ensures s'.chan.accepted == s'.started + HeldBy(s'.disp) + s'.chan.ch.queue
    ensures NoDup(s'.chan.accepted)
  {
    InitialInv(s);
    RunInv(s, acts, s');
  }

  /** The dispatcher leaves its loop only when the channel is closed and empty. */
  lemma DispatcherExitsDrained(s: Slot)
    requires Inv(s) && (s.disp.Exiting? || s.disp.Stopped?)
    ensures s.chan.ch.closed && s.chan.ch.queue == [] && s.started == s.chan.accepted
  {
  }

  /** in_flight never exceeds the cap or drops below zero, and is exactly the jobs not yet uncounted. */
  lemma InFlightWithinCap(s: Slot, acts: seq<Act>, s': Slot)
    requires Initial(s) && Run(s, acts, s')
    ensures 0 <= s'.inFlight <= s'.maxInFlight
    ensures s'.inFlight == |CountedSet(s'.tasks)| + (if s'.disp.Counted? || s'.disp.Pended? then 1 else 0)
  {
    InitialInv(s);
    RunInv(s, acts, s');
  }

  /** The three-file claim: with no pending operation left, every accepted job was answered exactly once, with
      Cancelled if a cancel came before its dequeue check and else with what the environment produced for it. */
  lemma AnsweredExactlyOnce(s: Slot, acts: seq<Act>, s': Slot, id: nat)
    requires Initial(s) && Run(s, acts, s') && s'.pendingOps == 0
    ensures id in s'.chan.accepted ==>
      && id in s'.tasks && AnswerOf(acts, id).Some? && s'.tasks[id].log == [AnswerOf(acts, id).value]
      && s'.tasks[id].shot.sent && !s'.tasks[id].shot.closed && s'.tasks[id].shot.value == AnswerOf(acts, id)
      && (Saw(acts, id) == Some(true) ==> Produced(acts, id).None? && Job(id, Call) !in acts)
    ensures id in s'.tasks && id !in s'.chan.accepted ==>
      s'.tasks[id].log == [] && Produced(acts, id).None? && Job(id, Call) !in acts
  {
    hide C.Inv, BridgeInv, CountInv, ExitInv, Run, Initial, Bridged, AnswerOf, Produced, Saw;
    RunHistory(s, acts, s');
    NothingPending(s');
    DispatcherExitsDrained(s');
    if id in s'.tasks {
      assert TaskInv(s'.tasks[id]) && Reflects(s'.tasks[id], acts, id);
    }
  }

  /** After the loop returned, no thread, slot or executor queue holds a wake for the destroyed host. */
  lemma NoWakeAfterExit(s: Slot, acts: seq<Act>, s': Slot)
    requires Initial(s) && Run(s, acts, s') && s'.exited
    ensures s'.chan.ch.waiter.None? && s'.chan.runq == []
    ensures forall a :: a in s'.chan.hands ==> s'.chan.hands[a].None?
    ensures T.Live(s'.timers) == {} && s'.pendingOps == 0
    ensures forall id :: id in s'.chan.accepted ==> At(s', id, Forgotten)
  {
    InitialInv(s);
    RunInv(s, acts, s');
    NothingPending(s');
    DispatcherExitsDrained(s');
    assert C.EmptyHands(s'.chan, None);
  }

  // ---- What one step of any thread may do to one task ------------------------------------

  ghost predicate TaskNext(t: Task, t': Task) {
    || t' == t || t' == t.(flag := true)
    || (exists j :: JobEnabled(t, j) && (j.Fulfil? ==> t.outcome.None?) && t' == JobApply(t, j))
    || (!StartedPhase(t.phase) && t' == t.(phase := t'.phase, shot := t'.shot)
        && (t'.phase.Spawned? || !StartedPhase(t'.phase)))
  }

  /** What a receive does to the slot: nothing but the front job's task depends on the tasks. */
  lemma RecvEffect(s: Slot)
    requires DispatchEnabled(s, Recv)
    ensures var s1, q := s.(chan := C.Apply(s.chan, C.AwaitResume)), s.chan.ch.queue;
            DispatchApply(s, Recv) ==
            if q == [] then s1.(disp := Exiting)
            else s1.(tasks := s.tasks[q[0] := TaskOf(s, q[0]).(phase := Held)], disp := Holding(q[0]))
  {
  }

  lemma DispatchTaskNext(s: Slot, d: DispatchAct, id: nat)
    requires PlaceInv(s) && DispatchEnabled(s, d) && id in s.tasks
    ensures id in DispatchApply(s, d).tasks && TaskNext(s.tasks[id], DispatchApply(s, d).tasks[id])
  {
    hide PlaceInv, C.Enabled, C.Apply, JobEnabled, JobApply;
    if d.Recv? {
      hide DispatchApply;
      RecvEffect(s);
      if |s.chan.ch.queue| > 0 {
        FrontIsQueued(s);
      }
    } else if d.Spawn? {
      PlaceAfterSpawn(s);
    }
  }

  lemma JobTaskNext(s: Slot, id: nat, j: JobAct, i: nat)
    requires id in s.tasks && JobEnabled(s.tasks[id], j) && (j.Fulfil? ==> s.tasks[id].outcome.None?) && i in s.tasks
    ensures i in JobStep(s, id, j).tasks && TaskNext(s.tasks[i], JobStep(s, id, j).tasks[i])
  {
    assert i == id ==> JobEnabled(s.tasks[i], j);
  }

  lemma SubmitTaskNext(s: Slot, a: SubmitAct, id: nat)
    requires SubmitEnabled(s, a) && id in s.tasks
    ensures id in SubmitApply(s, a).tasks && TaskNext(s.tasks[id], SubmitApply(s, a).tasks[id])
  {
    hide C.Enabled, C.Apply, JobEnabled, JobApply, O.ShotClosed;
    var s' := SubmitApply(s, a);
    if a.id != id {
      assert s'.tasks[id] == s.tasks[id];
    } else if a.SendJob? || a.Unregister? {
      var t, t' := s.tasks[id], s'.tasks[id];
      assert !StartedPhase(t.phase) && t' == t.(phase := t'.phase, shot := t'.shot) && !StartedPhase(t'.phase);
    }
  }

  lemma StepTaskNext(s: Slot, a: Act, id: nat)
    requires PlaceInv(s) && BridgeInv(s) && Enabled(s, a) && id in s.tasks
    ensures id in Apply(s, a).tasks && TaskNext(s.tasks[id], Apply(s, a).tasks[id])
  {
    match a
    case Submit(sub) => SubmitTaskNext(s, sub, id);
    case Dispatch(d) => DispatchTaskNext(s, d, id);
    case Job(i, j) => JobTaskNext(s, i, j, id);
    case Settle(b, js) => if b in s.bridges { JobTaskNext(s, s.bridges[b], Fulfil(js), id); }
    case Channel(c) =>
    case Host(h) =>
  }

  /** The same with the invariant, for walking along a run. */
  lemma StepTask(s: Slot, a: Act, id: nat)
    requires Inv(s) && Enabled(s, a) && id in s.tasks
    ensures Inv(Apply(s, a)) && id in Apply(s, a).tasks
    ensures TaskInv(s.tasks[id]) && TaskNext(s.tasks[id], Apply(s, a).tasks[id])
  {
    hide C.Inv, PlaceInv, DispInv, CountInv, ExitInv, BridgeInv, TaskInv, Apply, Enabled;
    StepInv(s, a);
    StepTaskNext(s, a, id);
  }

  // ---- Answers are final -----------------------------------------------------------------

  lemma AnsweredTaskNext(t: Task, t': Task)
    requires TaskInv(t) && t.log != [] && TaskNext(t, t')
    ensures t'.log == t.log
  {
  }

  lemma {:induction false} AnswerIsFinal(s: Slot, acts: seq<Act>, s': Slot, id: nat)
    requires Inv(s) && Run(s, acts, s') && id in s.tasks && s.tasks[id].log != []
    ensures id in s'.tasks && s'.tasks[id].log == s.tasks[id].log
    decreases acts
  {
    if acts != [] {
      hide Inv, Apply, Enabled, TaskInv, TaskNext;
      StepTask(s, acts[0], id);
      AnsweredTaskNext(s.tasks[id], Apply(s, acts[0]).tasks[id]);
      AnswerIsFinal(Apply(s, acts[0]), acts[1..], s', id);
    }
  }

  // ---- Soft cancel -----------------------------------------------------------------------

  /** Flagged before the dequeue check, or already cancelled by it. */
  ghost predicate Doomed(t: Task) {
    t.flag && (t.sawFlag.None? || t.sawFlag == Some(true))
  }

  lemma DoomedTaskNext(t: Task, t': Task)
    requires TaskInv(t) && Doomed(t) && TaskNext(t, t')
    ensures Doomed(t')
  {
  }

  lemma DoomedTask(s: Slot, id: nat)
    requires Inv(s) && id in s.tasks && Doomed(s.tasks[id])
    ensures !s.tasks[id].called && (s.tasks[id].log == [] || s.tasks[id].log == [Cancelled])
  {
    hide C.Inv, PlaceInv, DispInv, CountInv, ExitInv, BridgeInv;
    assert TaskInv(s.tasks[id]);
  }

  /** A cancel before the dequeue check: the function is never called and the only answer is Cancelled. */
  lemma {:induction false} EarlyCancelWins(s: Slot, acts: seq<Act>, s': Slot, id: nat)
    requires Inv(s) && Run(s, acts, s') && id in s.tasks && Doomed(s.tasks[id])
    ensures id in s'.tasks && !s'.tasks[id].called
    ensures s'.tasks[id].log == [] || s'.tasks[id].log == [Cancelled]
    decreases acts
  {
    if acts == [] {
      DoomedTask(s, id);
    } else {
      hide Inv, Apply, Enabled, TaskInv, TaskNext, Doomed;
      StepTask(s, acts[0], id);
      DoomedTaskNext(s.tasks[id], Apply(s, acts[0]).tasks[id]);
      EarlyCancelWins(Apply(s, acts[0]), acts[1..], s', id);
    }
  }

  ghost function Flip(s: Slot, id: nat): Slot
    requires id in s.tasks
  {
    Put(s, id, s.tasks[id].(flag := true))
  }

  /** The dequeue check has been made. */
  ghost predicate Checked(s: Slot, id: nat) {
    id in s.tasks && StartedPhase(s.tasks[id].phase) && !s.tasks[id].phase.Spawned?
  }

  lemma LateCancelTask(t: Task, j: JobAct)
    requires StartedPhase(t.phase) && !t.phase.Spawned?
    ensures JobEnabled(t.(flag := true), j) <==> JobEnabled(t, j)
    ensures JobEnabled(t, j) ==> JobApply(t.(flag := true), j) == JobApply(t, j).(flag := true)
  {
  }

  lemma LateCancelJob(s: Slot, i: nat, j: JobAct, id: nat)
    requires Checked(s, id) && i in s.tasks && JobEnabled(s.tasks[i], j)
    ensures JobEnabled(Flip(s, id).tasks[i], j) && JobStep(Flip(s, id), i, j) == Flip(JobStep(s, i, j), id)
  {
    if i == id {
      LateCancelTask(s.tasks[i], j);
    }
    assert JobStep(Flip(s, id), i, j).tasks == Flip(JobStep(s, i, j), id).tasks;
  }

  /** Raising the flag of one task and rewriting another do not see each other. */
  lemma FlipPut(tasks: map<nat, Task>, id: nat, t: Task, i: nat, t': Task)
    requires i != id
    ensures tasks[id := t][i := t'] == tasks[i := t'][id := t]
  {
  }

  lemma LateCancelRecv(s: Slot, id: nat)
    requires PlaceInv(s) && Checked(s, id) && DispatchEnabled(s, Recv)
    ensures id in DispatchApply(s, Recv).tasks && DispatchApply(Flip(s, id), Recv) == Flip(DispatchApply(s, Recv), id)
  {
    hide PlaceInv, C.Apply, C.Enabled, DispatchApply;
    RecvEffect(s);
    RecvEffect(Flip(s, id));
    if |s.chan.ch.queue| > 0 {
      var i := s.chan.ch.queue[0];
      FrontIsQueued(s);
      FlipPut(s.tasks, id, s.tasks[id].(flag := true), i, s.tasks[i].(phase := Held));
    }
  }

  lemma LateCancelSpawn(s: Slot, id: nat)
    requires PlaceInv(s) && Checked(s, id) && DispatchEnabled(s, Spawn)
    ensures id in DispatchApply(s, Spawn).tasks
    ensures DispatchApply(Flip(s, id), Spawn) == Flip(DispatchApply(s, Spawn), id)
  {
    hide PlaceInv;
    PlaceAfterSpawn(s);
    var i := s.disp.id;
    FlipPut(s.tasks, id, s.tasks[id].(flag := true), i, s.tasks[i].(phase := Spawned));
  }

  lemma LateCancelDispatch(s: Slot, d: DispatchAct, id: nat)
    requires PlaceInv(s) && Checked(s, id) && DispatchEnabled(s, d)
    ensures id in DispatchApply(s, d).tasks && DispatchApply(Flip(s, id), d) == Flip(DispatchApply(s, d), id)
  {
    hide PlaceInv, C.Apply, C.Enabled;
    if d.Recv? {
      LateCancelRecv(s, id);
    } else if d.Spawn? {
      LateCancelSpawn(s, id);
    }
  }

  lemma LateCancelSubmit(s: Slot, a: SubmitAct, id: nat)
    requires Checked(s, id) && SubmitEnabled(s, a)
    ensures SubmitEnabled(Flip(s, id), a)
    ensures id in SubmitApply(s, a).tasks && SubmitApply(Flip(s, id), a) == Flip(SubmitApply(s, a), id)
  {
    hide C.Enabled, C.Apply, O.ShotClosed, StartedPhase;
    if a.Cancel? && a.id == id {
      assert s.tasks[id := s.tasks[id].(flag := true)][id := s.tasks[id].(flag := true)] == Flip(s, id).tasks;
    } else {
      CheckedIsNot(s, a, id);
      LateCancelOther(s, a, id);
    }
  }

  lemma OtherEnabled(s: Slot, a: SubmitAct, id: nat)
    requires id in s.tasks && a.id != id && SubmitEnabled(s, a)
    ensures SubmitEnabled(Flip(s, id), a)
    ensures a.id in SubmitApply(s, a).tasks && (!a.Register? ==> a.id in s.tasks)
  {
    hide C.Enabled, C.Apply, O.ShotClosed;
  }

  lemma LateCancelOther(s: Slot, a: SubmitAct, id: nat)
    requires id in s.tasks && a.id != id && SubmitEnabled(s, a)
    ensures SubmitEnabled(Flip(s, id), a)
    ensures id in SubmitApply(s, a).tasks && SubmitApply(Flip(s, id), a) == Flip(SubmitApply(s, a), id)
  {
    hide C.Enabled, C.Apply, O.ShotClosed, SubmitEnabled;
    OtherEnabled(s, a, id);
    FlipPut(s.tasks, id, s.tasks[id].(flag := true), a.id, SubmitApply(s, a).tasks[a.id]);
  }

  /** What a submitting thread rewrites, other than a flag, has not been started. */
  lemma CheckedIsNot(s: Slot, a: SubmitAct, id: nat)
    requires Checked(s, id) && SubmitEnabled(s, a) && !(a.Cancel? && a.id == id)
    ensures a.id != id
  {
    hide C.Enabled;
  }

  lemma LateCancelHost(s: Slot, h: HostAct, id: nat)
    requires Checked(s, id) && HostEnabled(s, h)
    ensures HostEnabled(Flip(s, id), h)
    ensures id in HostApply(s, h).tasks && HostApply(Flip(s, id), h) == Flip(HostApply(s, h), id)
  {
  }

  lemma LateCancelChannel(s: Slot, c: C.Act<nat, Actor>, id: nat)
    requires Checked(s, id) && Enabled(s, Channel(c))
    ensures Enabled(Flip(s, id), Channel(c)) && Apply(Flip(s, id), Channel(c)) == Flip(Apply(s, Channel(c)), id)
  {
  }

  lemma LateCancelSettle(s: Slot, b: nat, js: JsAnswer, id: nat)
    requires BridgeInv(s) && Checked(s, id) && Enabled(s, Settle(b, js))
    ensures Enabled(Flip(s, id), Settle(b, js)) && id in Apply(s, Settle(b, js)).tasks
    ensures Apply(Flip(s, id), Settle(b, js)) == Flip(Apply(s, Settle(b, js)), id)
  {
    if b in s.bridges {
      LateCancelJob(s, s.bridges[b], Fulfil(js), id);
    }
  }

  /** Past the check, raising the flag commutes with every step of every thread. */
  lemma LateCancelStep(s: Slot, a: Act, id: nat)
    requires PlaceInv(s) && BridgeInv(s) && Checked(s, id) && Enabled(s, a)
    ensures Enabled(Flip(s, id), a) && id in Apply(s, a).tasks && Apply(Flip(s, id), a) == Flip(Apply(s, a), id)
  {
    match a
    case Submit(sub) => LateCancelSubmit(s, sub, id);
    case Dispatch(d) => LateCancelDispatch(s, d, id);
    case Job(i, j) => LateCancelJob(s, i, j, id);
    case Settle(b, js) => LateCancelSettle(s, b, js, id);
    case Channel(c) => LateCancelChannel(s, c, id);
    case Host(h) => LateCancelHost(s, h, id);
  }

  /** A cancel after the dequeue check changes no run: same steps, same answers, only the flag differs. */
  lemma {:induction false} LateCancelChangesNothing(s: Slot, acts: seq<Act>, s': Slot, id: nat)
    requires Inv(s) && Checked(s, id) && Run(s, acts, s')
    ensures id in s'.tasks && Run(Flip(s, id), acts, Flip(s', id))
    decreases acts
  {
    if acts != [] {
      StepInv(s, acts[0]);
      LateCancelStep(s, acts[0], id);
      StaysChecked(s, acts[0], id);
      LateCancelChangesNothing(Apply(s, acts[0]), acts[1..], s', id);
    }
  }

  lemma StaysChecked(s: Slot, a: Act, id: nat)
    requires Inv(s) && Checked(s, id) && Enabled(s, a)
    ensures Checked(Apply(s, a), id)
  {
    StepTaskNext(s, a, id);
    CheckedTaskNext(s.tasks[id], Apply(s, a).tasks[id]);
  }

  lemma CheckedTaskNext(t: Task, t': Task)
    requires StartedPhase(t.phase) && !t.phase.Spawned? && TaskNext(t, t')
    ensures StartedPhase(t'.phase) && !t'.phase.Spawned?
  {
  }
}
