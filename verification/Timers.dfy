/**
 The timer registry of a host and its timeout and interval coroutines (src/host.cpp).
 The class holds the registry's fields; the machine interleaves any number of timer
 coroutines with registrations, clears (also from inside a callback) and shutdown.
 */
module Timers {
  import opened Wrappers

  datatype Kind = Timeout | Interval

  /** Waiting: the wait is pending.  Due: it completed or was cancelled, the checks come next. */
  datatype Phase = Waiting | Due | InCallback | Finished

  datatype Timer = Timer(kind: Kind, phase: Phase, runs: nat)

  datatype Reg = Reg(next: nat, active: set<nat>, coros: map<nat, Timer>)

  datatype Act = Register(kind: Kind) | Clear(id: nat) | ClearAll | Expire(id: nat) | Enter(id: nat) | Leave(id: nat)

  const EMPTY: Reg := Reg(1, {}, map[])

  class TimerRegistry {
    var nextTimerId: nat
    var activeTimers: set<nat>

    ghost predicate Valid()
      reads this
    {
      forall id :: id in activeTimers ==> id < nextTimerId
    }

    constructor ()
      ensures Valid() && nextTimerId == 1 && activeTimers == {}
    {
      nextTimerId, activeTimers := 1, {};
    }

    method RegisterTimer() returns (id: nat)
      requires Valid()
      modifies this
      ensures Valid() && id == old(nextTimerId) && id !in old(activeTimers)
      ensures nextTimerId == id + 1 && activeTimers == old(activeTimers) + {id}
    {
      id := nextTimerId;
      nextTimerId := nextTimerId + 1;
      activeTimers := activeTimers + {id};
    }

    method CancelTimer(id: nat)
      requires Valid()
      modifies this`activeTimers
      ensures Valid() && activeTimers == old(activeTimers) - {id}
    {
      if id !in activeTimers {
        return;
      }
      activeTimers := activeTimers - {id};
    }

    method CancelAllTimers()
      requires Valid()
      modifies this`activeTimers
      ensures Valid() && activeTimers == {}
    {
      var ids := activeTimers;
      while ids != {}
        invariant Valid() && activeTimers <= ids
        decreases ids
      {
        var id :| id in ids;
        ids := ids - {id};
        CancelTimer(id);
      }
    }

    method EraseTimerIfActive(id: nat) returns (erased: bool)
      requires Valid()
      modifies this`activeTimers
      ensures Valid() && erased == (id in old(activeTimers)) && activeTimers == old(activeTimers) - {id}
    {
      if id !in activeTimers {
        return false;
      }
      activeTimers := activeTimers - {id};
      erased := true;
    }
  }

  predicate Enabled(r: Reg, a: Act) {
    match a
    case Register(_) => true
    case Clear(_) => true
    case ClearAll => true
    case Expire(id) => id in r.coros && r.coros[id].phase.Waiting?
    case Enter(id) => id in r.coros && r.coros[id].phase.Due?
    case Leave(id) => id in r.coros && r.coros[id].phase.InCallback?
  }

  /** A cleared timer's wait completes early; its coroutine still has to run its checks. */
  function Apply(r: Reg, stopping: bool, a: Act): Reg
    requires Enabled(r, a)
  {
    match a
    case Register(kind) => Reg(r.next + 1, r.active + {r.next}, r.coros[r.next := Timer(kind, Waiting, 0)])
    case Clear(id) => r.(active := r.active - {id})
    case ClearAll => r.(active := {})
    case Expire(id) => r.(coros := r.coros[id := r.coros[id].(phase := Due)])
    case Enter(id) =>
      var t := r.coros[id];
      if stopping || id !in r.active then r.(coros := r.coros[id := t.(phase := Finished)])
      else r.(active := if t.kind.Timeout? then r.active - {id} else r.active,
              coros := r.coros[id := t.(phase := InCallback, runs := t.runs + 1)])
    case Leave(id) =>
      var t := r.coros[id];
      r.(coros := r.coros[id := t.(phase := if t.kind.Interval? && id in r.active then Waiting else Finished)])
  }

  function Live(r: Reg): set<nat> {
    set id | id in r.coros && !r.coros[id].phase.Finished?
  }

  ghost predicate Inv(r: Reg) {
    && (forall id :: id in r.coros ==> id < r.next)
    && (forall id :: id in r.active ==> id in r.coros)
    && (forall id :: id in r.coros && r.coros[id].kind.Timeout? ==> r.coros[id].runs <= 1)
    && (forall id :: id in r.coros && r.coros[id].kind.Timeout? && r.coros[id].runs == 1 ==> id !in r.active)
    && (forall id :: id in r.coros && r.coros[id].phase.InCallback? ==> r.coros[id].runs > 0)
  }

  /** How one action changes the number of live coroutines, which the host counts as pending. */
  function LiveDelta(r: Reg, stopping: bool, a: Act): int
    requires Enabled(r, a)
  {
    match a
    case Register(_) => 1
    case Enter(id) => if stopping || id !in r.active then -1 else 0
    case Leave(id) => if r.coros[id].kind.Interval? && id in r.active then 0 else -1
    case _ => 0
  }

  predicate IsLive(coros: map<nat, Timer>, id: nat) {
    id in coros && !coros[id].phase.Finished?
  }

  /** Writing one coroutine's entry changes only its own membership. */
  lemma LiveAfterUpdate(r: Reg, r': Reg, id: nat, t: Timer)
    requires r'.coros == r.coros[id := t]
    ensures |Live(r')| == |Live(r)| + (if t.phase.Finished? then 0 else 1) - (if IsLive(r.coros, id) then 1 else 0)
  {
    if IsLive(r.coros, id) && t.phase.Finished? {
      assert Live(r') == Live(r) - {id};
      OneLess(Live(r), id);
    } else if !IsLive(r.coros, id) && !t.phase.Finished? {
      assert Live(r') == Live(r) + {id};
      OneMore(Live(r), id);
    } else {
      assert Live(r') == Live(r);
    }
  }

  lemma LiveUnchanged(r: Reg, r': Reg)
    requires r'.coros == r.coros
    ensures Live(r') == Live(r)
  {
  }

  lemma LiveStep(r: Reg, stopping: bool, a: Act)
    requires Inv(r) && Enabled(r, a)
    ensures |Live(Apply(r, stopping, a))| == |Live(r)| + LiveDelta(r, stopping, a)
  {
    hide Live;
    var r' := Apply(r, stopping, a);
    match a
    case Register(_) => LiveAfterUpdate(r, r', r.next, r'.coros[r.next]);
    case Expire(id) => LiveAfterUpdate(r, r', id, r'.coros[id]);
    case Enter(id) => LiveAfterUpdate(r, r', id, r'.coros[id]);
    case Leave(id) => LiveAfterUpdate(r, r', id, r'.coros[id]);
    case _ => LiveUnchanged(r, r');
  }

  lemma StepInv(r: Reg, stopping: bool, a: Act)
    requires Inv(r) && Enabled(r, a)
    ensures Inv(Apply(r, stopping, a))
  {
  }

  /** A run; each step carries the value of the stopping flag that it read. */
  ghost predicate Run(r: Reg, steps: seq<(bool, Act)>, r': Reg)
    decreases steps
  {
    if steps == [] then r' == r
    else Enabled(r, steps[0].1) && Run(Apply(r, steps[0].0, steps[0].1), steps[1..], r')
  }

  lemma {:induction false} RunInv(r: Reg, steps: seq<(bool, Act)>, r': Reg)
    requires Inv(r) && Run(r, steps, r')
    ensures Inv(r') && r.coros.Keys <= r'.coros.Keys
    decreases steps
  {
    if steps != [] {
      StepInv(r, steps[0].0, steps[0].1);
      RunInv(Apply(r, steps[0].0, steps[0].1), steps[1..], r');
    }
  }

  /** An id that left the registry stays out of it, and no callback of it starts any more, in any run. */
  lemma {:induction false} ClearedStaysSilent(r: Reg, steps: seq<(bool, Act)>, r': Reg, id: nat)
    requires Inv(r) && Run(r, steps, r') && id in r.coros && id !in r.active
    ensures id in r'.coros && id !in r'.active && r'.coros[id].runs == r.coros[id].runs
    decreases steps
  {
    if steps != [] {
      StepInv(r, steps[0].0, steps[0].1);
      ClearedStaysSilent(Apply(r, steps[0].0, steps[0].1), steps[1..], r', id);
    }
  }

  /** An interval cleared inside its own callback is finished when the callback returns. */
  lemma ClearedInsideItsCallback(r: Reg, stopping: bool, id: nat)
    requires Inv(r) && Enabled(r, Leave(id))
    ensures Enabled(Apply(r, stopping, Clear(id)), Leave(id))
    ensures Apply(Apply(r, stopping, Clear(id)), stopping, Leave(id)).coros[id].phase == Finished
  {
  }

  // ---- What the steps of a run say about its end -----------------------------------------

  lemma {:induction false} RunLast(r: Reg, steps: seq<(bool, Act)>, r': Reg) returns (m: Reg)
    requires Run(r, steps, r') && steps != []
    ensures var n := |steps| - 1;
            Run(r, steps[..n], m) && Enabled(m, steps[n].1) && r' == Apply(m, steps[n].0, steps[n].1)
    decreases steps
  {
    hide Apply, Enabled;
    if |steps| == 1 {
      m := r;
      assert Run(Apply(r, steps[0].0, steps[0].1), [], r') && steps[1..] == [];
    } else {
      m := RunLast(Apply(r, steps[0].0, steps[0].1), steps[1..], r');
      assert steps[..|steps| - 1][1..] == steps[1..][..|steps| - 2];
    }
  }

  /** The kinds registered, in order: the k-th registration hands out the id k, counted from 1. */
  function Kinds(steps: seq<(bool, Act)>): seq<Kind> {
    if steps == [] then []
    else
      var n := |steps| - 1;
      Kinds(steps[..n]) + (if steps[n].1.Register? then [steps[n].1.kind] else [])
  }

  predicate KindIs(steps: seq<(bool, Act)>, id: nat, kind: Kind) {
    0 < id <= |Kinds(steps)| && Kinds(steps)[id - 1] == kind
  }

  /** The id was registered, and since then nothing cleared it and no timeout of it fired. */
  predicate Standing(steps: seq<(bool, Act)>, id: nat) {
    if steps == [] then false
    else
      var n := |steps| - 1;
      var (stop, a) := steps[n];
      if a.Register? && id == |Kinds(steps[..n])| + 1 then true
      else if a.ClearAll? || a == Clear(id) then false
      else if a == Enter(id) && !stop && KindIs(steps[..n], id, Timeout) then false
      else Standing(steps[..n], id)
  }

  /** How often the callback was called: at each check that found the id standing and the host not stopping. */
  function Calls(steps: seq<(bool, Act)>, id: nat): nat {
    if steps == [] then 0
    else
      var n := |steps| - 1;
      Calls(steps[..n], id) + (if steps[n] == (false, Enter(id)) && Standing(steps[..n], id) then 1 else 0)
  }

  ghost predicate HistoryInv(r: Reg, steps: seq<(bool, Act)>) {
    && r.next == |Kinds(steps)| + 1
    && (forall id: nat :: id in r.coros <==> 0 < id <= |Kinds(steps)|)
    && (forall id :: id in r.coros ==> KindIs(steps, id, r.coros[id].kind) && r.coros[id].runs == Calls(steps, id))
    && (forall id: nat :: id in r.active <==> Standing(steps, id))
  }

  /** One step of the history, for one id. */
  lemma HistorySnoc(steps: seq<(bool, Act)>, stop: bool, a: Act, id: nat)
    ensures var all := steps + [(stop, a)];
            && Kinds(all) == Kinds(steps) + (if a.Register? then [a.kind] else [])
            && Calls(all, id) == Calls(steps, id) + (if a == Enter(id) && !stop && Standing(steps, id) then 1 else 0)
            && Standing(all, id) ==
               if a.Register? && id == |Kinds(steps)| + 1 then true
               else if a.ClearAll? || a == Clear(id) then false
               else if a == Enter(id) && !stop && KindIs(steps, id, Timeout) then false
               else Standing(steps, id)
  {
    var all := steps + [(stop, a)];
    assert all[..|steps|] == steps && all[|steps|] == (stop, a);
  }

  lemma HistoryStep(r: Reg, steps: seq<(bool, Act)>, stop: bool, a: Act)
    requires HistoryInv(r, steps) && Enabled(r, a)
    ensures HistoryInv(Apply(r, stop, a), steps + [(stop, a)])
  {
    hide Kinds, Standing, Calls;
    var r', all := Apply(r, stop, a), steps + [(stop, a)];
    HistorySnoc(steps, stop, a, 0);
    NoCalls(steps, |Kinds(steps)| + 1);
    forall id: nat
      ensures id in r'.coros <==> 0 < id <= |Kinds(all)|
      ensures id in r'.coros ==> KindIs(all, id, r'.coros[id].kind) && r'.coros[id].runs == Calls(all, id)
      ensures id in r'.active <==> Standing(all, id)
    {
      HistorySnoc(steps, stop, a, id);
    }
  }

  /** An id that was not handed out yet does not stand and was not called. */
  lemma {:induction false} NoCalls(steps: seq<(bool, Act)>, id: nat)
    requires id > |Kinds(steps)|
    ensures !Standing(steps, id) && Calls(steps, id) == 0
  {
    if steps != [] {
      NoCalls(steps[..|steps| - 1], id);
    }
  }

  /** Over every run of a new registry: ids are handed out in order, each coroutine has the kind registered, was
      called exactly as often as its checks found it standing, and the table holds exactly the ids that stand. */
  lemma {:induction false} RunHistory(steps: seq<(bool, Act)>, r': Reg)
    requires Run(EMPTY, steps, r')
    ensures HistoryInv(r', steps)
    decreases |steps|
  {
    if steps != [] {
      hide Apply, Enabled, HistoryInv;
      var n := |steps| - 1;
      var m := RunLast(EMPTY, steps, r');
      RunHistory(steps[..n], m);
      HistoryStep(m, steps[..n], steps[n].0, steps[n].1);
      assert steps == steps[..n] + [(steps[n].0, steps[n].1)];
    }
  }

  /** Scripts may register and clear timers at any moment, also inside a callback. */
  lemma NeverRefused(r: Reg, kind: Kind, id: nat)
    ensures Enabled(r, Register(kind)) && Enabled(r, Clear(id)) && Enabled(r, ClearAll)
  {
  }

  /** A due timer that is in the table of a host that is not stopping is called, any other ends; what was called
      goes on exactly if it is an interval still in the table when its callback returns. */
  lemma CalledWhenDue(r: Reg, stopping: bool, id: nat)
    requires id in r.coros
    ensures Enabled(r, Enter(id)) ==> var t := Apply(r, stopping, Enter(id)).coros[id];
      && t.kind == r.coros[id].kind
      && if id in r.active && !stopping then t.phase == InCallback && t.runs == r.coros[id].runs + 1
         else t.phase == Finished && t.runs == r.coros[id].runs
    ensures Enabled(r, Leave(id)) ==> var r' := Apply(r, stopping, Leave(id));
      && r'.active == r.active
      && r'.coros[id].phase == if r.coros[id].kind == Interval && id in r.active then Waiting else Finished
  {
  }

  /** A waiting timer whose turn comes, on a host that is not stopping. */
  function Turn(id: nat): seq<(bool, Act)> {
    [(false, Expire(id)), (false, Enter(id)), (false, Leave(id))]
  }

  lemma TurnOf(r: Reg, id: nat) returns (r': Reg)
    requires id in r.coros && id in r.active && r.coros[id].phase.Waiting?
    ensures Run(r, Turn(id), r') && id in r'.coros
    ensures r'.coros[id] == if r.coros[id].kind == Interval then Timer(Interval, Waiting, r.coros[id].runs + 1)
                            else Timer(Timeout, Finished, r.coros[id].runs + 1)
    ensures r'.active == if r.coros[id].kind == Interval then r.active else r.active - {id}
  {
    var r1 := Apply(r, false, Expire(id));
    var r2 := Apply(r1, false, Enter(id));
    r' := Apply(r2, false, Leave(id));
    assert Run(r2, [(false, Leave(id))], r');
    assert Turn(id)[1..][1..] == [(false, Leave(id))];
    assert Run(r1, Turn(id)[1..], r');
  }

  function Turns(id: nat, n: nat): seq<(bool, Act)> {
    if n == 0 then [] else Turn(id) + Turns(id, n - 1)
  }

  lemma {:induction false} RunThen(r: Reg, a: seq<(bool, Act)>, m: Reg, b: seq<(bool, Act)>, r': Reg)
    requires Run(r, a, m) && Run(m, b, r')
    ensures Run(r, a + b, r')
    decreases a
  {
    if a == [] {
      assert a + b == b;
    } else {
      RunThen(Apply(r, a[0].0, a[0].1), a[1..], m, b, r');
      assert (a + b)[1..] == a[1..] + b;
    }
  }

  /** An interval that nobody clears calls back as often as its time comes, and a timeout once. */
  lemma {:induction false} IntervalRepeats(r: Reg, id: nat, n: nat) returns (r': Reg)
    requires id in r.coros && id in r.active && r.coros[id] == Timer(Interval, Waiting, r.coros[id].runs)
    ensures Run(r, Turns(id, n), r') && id in r'.active && id in r'.coros
    ensures r'.coros[id] == Timer(Interval, Waiting, r.coros[id].runs + n)
    decreases n
  {
    r' := r;
    if n > 0 {
      var m := TurnOf(r, id);
      r' := IntervalRepeats(m, id, n - 1);
      RunThen(r, Turn(id), m, Turns(id, n - 1), r');
    }
  }

  /** From its registration on. */
  lemma RegisteredRuns(r: Reg, kind: Kind, n: nat) returns (r': Reg)
    requires Inv(r) && (kind == Timeout ==> n == 1)
    ensures Run(r, [(false, Register(kind))] + Turns(r.next, n), r') && r.next in r'.coros
    ensures r'.coros[r.next] == if kind == Timeout then Timer(Timeout, Finished, 1) else Timer(Interval, Waiting, n)
    ensures r.next in r'.active <==> kind == Interval
  {
    var m := Apply(r, false, Register(kind));
    if kind == Interval {
      r' := IntervalRepeats(m, r.next, n);
    } else {
      r' := TurnOf(m, r.next);
      assert Turns(r.next, 1) == Turn(r.next) + Turns(r.next, 0) == Turn(r.next);
    }
    assert Run(m, [], m) && [(false, Register(kind))][1..] == [];
    RunThen(r, [(false, Register(kind))], m, Turns(r.next, n), r');
  }

  predicate OwnStep(step: (bool, Act), stopping: bool, id: nat) {
    step.0 == stopping && (step.1 == Expire(id) || step.1 == Enter(id) || step.1 == Leave(id))
  }

  function StepsLeft(p: Phase): nat {
    match p
    case InCallback => 3
    case Waiting => 2
    case Due => 1
    case Finished => 0
  }

  /** The next step of a live coroutine whose id left the table, or whose host is stopping. */
  lemma OneStepToTheEnd(r: Reg, stopping: bool, id: nat) returns (a: Act)
    requires id in r.coros && (id !in r.active || stopping) && !r.coros[id].phase.Finished?
    ensures Enabled(r, a) && OwnStep((stopping, a), stopping, id)
    ensures var r' := Apply(r, stopping, a);
      && r' == r.(coros := r.coros[id := r.coros[id].(phase := r'.coros[id].phase)])
      && StepsLeft(r'.coros[id].phase) < StepsLeft(r.coros[id].phase)
  {
    var p := r.coros[id].phase;
    a := if p.Waiting? then Expire(id) else if p.Due? then Enter(id) else Leave(id);
  }

  /** A timer that left the table, or whose host is stopping, is over after at most three steps of its coroutine, and
      its callback is not called again. */
  lemma {:induction false} EndsWithoutACall(r: Reg, stopping: bool, id: nat) returns (steps: seq<(bool, Act)>, r': Reg)
    requires id in r.coros && (id !in r.active || stopping)
    ensures |steps| <= StepsLeft(r.coros[id].phase) && Run(r, steps, r')
    ensures forall i :: 0 <= i < |steps| ==> OwnStep(steps[i], stopping, id)
    ensures r' == r.(coros := r.coros[id := r.coros[id].(phase := Finished)])
    decreases StepsLeft(r.coros[id].phase)
  {
    hide OwnStep, Apply, Enabled;
    var t := r.coros[id];
    if t.phase.Finished? {
      steps, r' := [], r;
      assert r.coros[id := t.(phase := Finished)] == r.coros;
    } else {
      var a := OneStepToTheEnd(r, stopping, id);
      var r1 := Apply(r, stopping, a);
      var rest, end := EndsWithoutACall(r1, stopping, id);
      steps, r' := [(stopping, a)] + rest, end;
      assert steps[1..] == rest;
      assert r1.coros[id := t.(phase := Finished)] == r.coros[id := t.(phase := Finished)];
    }
  }
}
