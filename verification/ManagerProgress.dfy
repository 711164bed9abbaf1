/**
 Nothing gets stuck across the manager either: submit and cancel are never refused by the
 tables, every submit call can return, and every destroy can be carried through to the end of
 the host's loop, with each handle answered.
 */
module ManagerProgress {
  import opened Wrappers
  import opened Manager
  import C = MpscProtocol
  import H = HostMachine
  import HP = HostProgress
  import HT = HostTheorems

  lemma {:induction false} RunThen(s: Sys, xs: seq<Act>, m: Sys, ys: seq<Act>, s': Sys)
    requires Run(s, xs, m) && Run(m, ys, s')
    ensures Run(s, xs + ys, s')
    decreases xs
  {
    hide Next;
    if xs == [] {
      assert xs + ys == ys;
    } else {
      RunThen(Next(s, xs[0]).value, xs[1..], m, ys, s');
      assert (xs + ys)[1..] == xs[1..] + ys;
    }
  }

  lemma OneStep(s: Sys, a: Act, s': Sys)
    requires Next(s, a) == Some(s')
    ensures Run(s, [a], s')
  {
    hide Next;
    assert Run(s', [], s') && [a][1..] == [];
  }

  /** A listed host takes every submit. */
  lemma SubmitNeverRefused(s: Sys, name: string)
    requires Inv(s) && name in s.tab.hosts
    ensures Next(s, Submit(name)).Some?
  {
    hide CancelInv, ReturnInv, H.Apply, H.TasksInv, H.CountInv, H.ExitInv, H.DispInv;
    var i := s.tab.hosts[name];
    FreshIsNowhere(s, i);
    assert H.PlaceInv(s.slots[i]);
  }

  lemma CancelNeverRefused(s: Sys, id: nat)
    requires Inv(s)
    ensures Next(s, Cancel(id)).Some?
  {
    hide ReturnInv, H.Apply, H.Inv, H.InTable;
  }

  /** The steps of one slot, taken within the manager. */
  lemma {:induction false} SlotSteps(s: Sys, i: nat, steps: seq<H.Act>, h': H.Slot) returns (acts: seq<Act>, s': Sys)
    requires i in s.slots && HT.Run(s.slots[i], steps, h')
    requires forall k :: 0 <= k < |steps| ==> LocalAct(s, i, steps[k])
    ensures Run(s, acts, s') && s'.slots == s.slots[i := h'] && s'.home == s.home && s'.returned == s.returned
    ensures s'.tab.hosts == s.tab.hosts
    decreases |steps|
  {
    hide H.Enabled, H.Apply, LocalAct, PhaseOf, Erased;
    if steps == [] {
      acts, s' := [], s;
      assert s.slots[i := h'] == s.slots;
    } else {
      var m := Next(s, OnSlot(i, steps[0])).value;
      forall k | 1 <= k < |steps|
        ensures LocalAct(m, i, steps[k])
      {
        SameListing(s, m, i, steps[k]);
      }
      var rest;
      rest, s' := SlotSteps(m, i, steps[1..], h');
      acts := [OnSlot(i, steps[0])] + rest;
      assert acts[1..] == rest;
      assert s.slots[i := m.slots[i]][i := h'] == s.slots[i := h'];
    }
  }

  lemma SameListing(s: Sys, m: Sys, i: nat, a: H.Act)
    requires m.tab.hosts == s.tab.hosts && LocalAct(s, i, a)
    ensures LocalAct(m, i, a)
  {
  }

  // ---- Submit returns --------------------------------------------------------------------

  lemma HandleHeld(s0: Sys, before: seq<Act>, s: Sys, id: nat)
    requires Initial(s0) && Run(s0, before, s) && KnownTask(s, id)
    ensures H.Inv(s.slots[s.home[id]]) && HP.HoldsHandle(s.slots[s.home[id]], id)
  {
    hide Next, Run, Inv, H.Inv, HT.Run, HP.HoldsHandle, NewSlot;
    InitialRun(s0, before, s);
    InitialInv(s0);
    SlotSound(s, s.home[id]);
    var name, max := CreatedRun(s0, before, s, s.home[id]);
    NewSlotIsInitial(max);
    HT.InitialInv(NewSlot(max));
    NoneHeld(max, id);
    HP.HandleRun(NewSlot(max), SlotActs(s0, before, s.home[id]), s.slots[s.home[id]], id);
  }

  lemma NoneHeld(max: int, id: nat)
    ensures HP.HoldsHandle(NewSlot(max), id)
  {
  }

  lemma SlotSound(s: Sys, i: nat)
    requires Inv(s) && i in s.slots
    ensures H.Inv(s.slots[i])
  {
    hide TablesInv, H.Inv;
  }

  lemma OwnStepsAreLocal(s: Sys, i: nat, id: nat, steps: seq<H.Act>)
    requires forall k :: 0 <= k < |steps| ==> HP.SubmitterStep(steps[k], id)
    ensures forall k :: 0 <= k < |steps| ==> LocalAct(s, i, steps[k])
  {
    forall k | 0 <= k < |steps|
      ensures LocalAct(s, i, steps[k])
    {
      assert HP.SubmitterStep(steps[k], id);
    }
  }

  /** Wherever a submit call is, some steps of its own bring it to return: with a handle exactly if its job was
      enqueued, which a job not yet sent is exactly if the host's channel is still open. */
  lemma SubmitReturns(s0: Sys, before: seq<Act>, s: Sys, id: nat) returns (acts: seq<Act>, s': Sys)
    requires Initial(s0) && Run(s0, before, s) && id in s.home && id !in s.returned
    ensures KnownTask(s, id) && KnownTask(s', id) && Run(s, acts, s') && id in s'.returned
    ensures s'.returned[id] <==> id in s'.slots[s'.home[id]].chan.accepted
    ensures PhaseOf(s, id) == H.Unsent ==> (s'.returned[id] <==> !s.slots[s.home[id]].chan.ch.closed)
  {
    hide Inv, H.Inv, Next, Run, HT.Run, HP.HoldsHandle, HP.SubmitterStep;
    InitialRun(s0, before, s);
    HomeKnown(s, id);
    HandleHeld(s0, before, s, id);
    var i := s.home[id];
    var h := s.slots[i];
    var m;
    if PhaseOf(s, id) == H.Unsent || PhaseOf(s, id) == H.Rejected {
      var steps, h' := HP.SubmitSettles(h, id);
      OwnStepsAreLocal(s, i, id, steps);
      acts, m := SlotSteps(s, i, steps, h');
    } else {
      acts, m := [], s;
      Stay(s);
    }
    Returns(m, id);
    s' := Next(m, Return(id)).value;
    OneStep(m, Return(id), s');
    RunThen(s, acts, m, [Return(id)], s');
    acts := acts + [Return(id)];
    RunThen(s0, before, s, acts, s');
    HandleIffEnqueued(s0, before + acts, s', id);
  }

  lemma Stay(s: Sys)
    ensures Run(s, [], s)
  {
  }

  lemma HomeKnown(s: Sys, id: nat)
    requires Inv(s) && id in s.home
    ensures KnownTask(s, id) && PhaseOf(s, id) == TaskAt(s, id).phase
  {
    hide H.Inv, CancelInv, ReturnInv, TableInv;
  }

  lemma Returns(s: Sys, id: nat)
    requires id in s.home && id !in s.returned && PhaseOf(s, id) != H.Unsent && PhaseOf(s, id) != H.Rejected
    ensures var s' := Next(s, Return(id));
      && s'.Some? && s'.value.slots == s.slots && s'.value.home == s.home && id in s'.value.returned
      && (s'.value.returned[id] <==> PhaseOf(s, id) != H.Unregistered)
  {
  }

  // ---- Destroy ends the host -------------------------------------------------------------

  /** No slot is listed under two names. */
  ghost predicate Distinct(s: Sys) {
    forall x, y :: x in s.tab.hosts && y in s.tab.hosts && s.tab.hosts[x] == s.tab.hosts[y] ==> x == y
  }

  lemma DistinctStep(s: Sys, act: Act, s': Sys)
    requires TableInv(s) && Distinct(s) && Next(s, act) == Some(s')
    ensures Distinct(s')
  {
    hide H.Next, PhaseOf, LocalAct;
  }

  lemma {:induction false} DistinctRun(s: Sys, acts: seq<Act>, s': Sys)
    requires Inv(s) && Run(s, acts, s') && Distinct(s)
    ensures Distinct(s')
    decreases acts
  {
    if acts != [] {
      hide Next, SlotsInv, HomeInv, CancelInv, ReturnInv, TableInv, Distinct;
      StepInv(s, acts[0], Next(s, acts[0]).value);
      DistinctStep(s, acts[0], Next(s, acts[0]).value);
      DistinctRun(Next(s, acts[0]).value, acts[1..], s');
    }
  }

  lemma MaxIsPositive(s0: Sys, before: seq<Act>, s: Sys, i: nat)
    requires Initial(s0) && Run(s0, before, s) && i in s.slots
    ensures s.slots[i].maxInFlight >= 1
  {
    hide Next, Run, Inv, HT.Run, NewSlot;
    InitialInv(s0);
    var name, max := CreatedRun(s0, before, s, i);
    NewSlotIsInitial(max);
    HT.HostFieldsRun(NewSlot(max), SlotActs(s0, before, i), s.slots[i]);
    assert NewSlot(max).maxInFlight >= 1 by { MaxOf(max); }
  }

  lemma MaxOf(max: int)
    ensures NewSlot(max).maxInFlight == max
  {
  }

  lemma ListedHasHandle(s: Sys, name: string)
    requires Inv(s) && name in s.tab.hosts
    ensures var i := s.tab.hosts[name]; i in s.slots && H.Inv(s.slots[i]) && H.SlotTx in s.slots[i].chan.handles
  {
    hide H.Inv, HomeInv, CancelInv, ReturnInv;
  }

  lemma Unlisted(s: Sys, name: string, s': Sys)
    requires Distinct(s) && name in s.tab.hosts && Next(s, Unlist(name)) == Some(s')
    ensures !Listed(s', s.tab.hosts[name]) && name !in s'.tab.hosts
    ensures s'.slots == s.slots && s'.returned == s.returned && s'.home == s.home
  {
  }

  lemma UnlistPossible(s: Sys, name: string)
    ensures Next(s, Unlist(name)).Some?
  {
  }

  lemma UnlistedSlotIsFree(s: Sys, i: nat, steps: seq<H.Act>)
    requires !Listed(s, i) && forall k :: 0 <= k < |steps| ==> !steps[k].Submit?
    ensures forall k :: 0 <= k < |steps| ==> LocalAct(s, i, steps[k])
  {
  }

  /** The host of a name can be destroyed at any time: some continuation takes it out of the table, closes its
      channel and ends its loop, without a step of any submitting thread, and by then every handle that was
      returned for it is answered. */
  lemma DestroyCanFinish(s0: Sys, before: seq<Act>, s: Sys, name: string, js: H.JsAnswer)
    returns (acts: seq<Act>, s': Sys)
    requires Initial(s0) && Run(s0, before, s) && name in s.tab.hosts
    ensures Run(s, acts, s') && name !in s'.tab.hosts
    ensures var i := s.tab.hosts[name];
      && i in s'.slots && s'.slots[i].exited && s'.returned == s.returned && s'.home == s.home
      && forall id :: id in s.returned && s.returned[id] && id in s.home && s.home[id] == i ==>
           id in s'.slots[i].tasks && |s'.slots[i].tasks[id].log| == 1
  {
    hide Inv, H.Inv, Next, Run, HT.Run, LocalAct, Distinct, Listed;
    InitialRun(s0, before, s);
    InitialInv(s0);
    StartsDistinct(s0);
    DistinctRun(s0, before, s);
    ListedHasHandle(s, name);
    MaxIsPositive(s0, before, s, s.tab.hosts[name]);
    var i := s.tab.hosts[name];
    UnlistPossible(s, name);
    var s1 := Next(s, Unlist(name)).value;
    OneStep(s, Unlist(name), s1);
    Unlisted(s, name, s1);
    var closing, h2 := HP.SlotCloses(s.slots[i], H.SlotTx);
    var ending, h3 := HP.LoopCanEnd(h2, js);
    UnlistedSlotIsFree(s1, i, closing);
    var a2, s2 := SlotSteps(s1, i, closing, h2);
    SameHosts(s1, s2, i);
    UnlistedSlotIsFree(s2, i, ending);
    var a3;
    a3, s' := SlotSteps(s2, i, ending, h3);
    RunThen(s1, a2, s2, a3, s');
    RunThen(s, [Unlist(name)], s1, a2 + a3, s');
    acts := [Unlist(name)] + (a2 + a3);
    RunThen(s0, before, s, acts, s');
    InitialRun(s0, before + acts, s');
    ExitedIsDone(s', i);
    forall id | id in s.returned && s.returned[id] && id in s.home && s.home[id] == i
      ensures id in s'.slots[i].tasks && |s'.slots[i].tasks[id].log| == 1
    {
      EveryHandleAnsweredOnce(s0, before + acts, s', id);
    }
  }

  lemma StartsDistinct(s: Sys)
    requires Initial(s)
    ensures Distinct(s)
  {
  }

  lemma SameHosts(s: Sys, s': Sys, i: nat)
    requires s'.tab.hosts == s.tab.hosts && !Listed(s, i)
    ensures !Listed(s', i)
  {
  }

  lemma ExitedIsDone(s: Sys, i: nat)
    requires Inv(s) && i in s.slots && s.slots[i].exited
    ensures s.slots[i].pendingOps == 0
  {
    hide TablesInv, H.PlaceInv, H.DispInv, H.CountInv, H.TasksInv;
    assert H.ExitInv(s.slots[i]);
  }
}
