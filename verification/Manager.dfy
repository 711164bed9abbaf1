/**
 The process-level manager over any number of host slots (src/host_manager.cpp): the table of
 hosts, the cancel table and the task ids, all guarded by one mutex, while every slot runs on
 its own and any number of threads submit, cancel, create and destroy.
 */
module Manager {
  import opened Wrappers
  import H = HostMachine
  import HT = HostTheorems
  import C = MpscProtocol
  import O = Oneshot

  /** The fields guarded by the manager's mutex; a host entry names its slot. */
  datatype Tables = Tables(nextTaskId: nat, cancels: set<nat>, hosts: map<string, nat>)

  function Registered(t: Tables): (r: (Tables, nat)) {
    (t.(nextTaskId := t.nextTaskId + 1, cancels := t.cancels + {t.nextTaskId}), t.nextTaskId)
  }

  class Flag {
    var raised: bool

    constructor ()
      ensures !raised
    {
      raised := false;
    }
  }

  class HostManager {
    var hosts: map<string, nat>
    var cancels: map<nat, Flag>
    var nextTaskId: nat

    ghost function Abs(): Tables
      reads this
    {
      Tables(nextTaskId, cancels.Keys, hosts)
    }

    constructor ()
      ensures Abs() == Tables(1, {}, map[])
    {
      hosts, cancels, nextTaskId := map[], map[], 1;
    }

    /** The first critical section of `submit`. */
    method RegisterTask(hostId: string, flag: Flag) returns (r: Option<(nat, nat)>)
      modifies this
      ensures hostId !in old(hosts) ==> r.None? && Abs() == old(Abs())
      ensures hostId in old(hosts) ==>
        && r == Some((old(nextTaskId), old(hosts)[hostId])) && Abs() == Registered(old(Abs())).0
        && old(nextTaskId) in cancels && cancels[old(nextTaskId)] == flag
      ensures forall id :: id in old(cancels) && id != old(nextTaskId) ==>
          id in cancels && cancels[id] == old(cancels)[id]
    {
      if hostId !in hosts {
        return None;
      }
      var taskId := nextTaskId;
      nextTaskId := nextTaskId + 1;
      cancels := cancels[taskId := flag];
      r := Some((taskId, hosts[hostId]));
    }

    /** `forget_task`, and the erase of a submit whose send was refused. */
    method ForgetTask(taskId: nat)
      modifies this`cancels
      ensures cancels == old(cancels) - {taskId}
    {
      cancels := cancels - {taskId};
    }

    /** Raises the flag of a task still in the table, and of no other. */
    method Cancel(taskId: nat) returns (found: bool)
      modifies cancels.Values
      ensures found <==> taskId in cancels
      ensures found ==> cancels[taskId].raised
      ensures forall f :: f in cancels.Values && !(found && f == cancels[taskId]) ==> f.raised == old(f.raised)
    {
      if taskId !in cancels {
        return false;
      }
      var f := cancels[taskId];
      assert f in cancels.Values;
      f.raised := true;
      found := true;
    }

    /** The first critical section of `destroy_host`. */
    method RemoveHost(hostId: string) returns (slot: Option<nat>)
      modifies this`hosts
      ensures slot == (if hostId in old(hosts) then Some(old(hosts)[hostId]) else None)
      ensures hosts == old(hosts) - {hostId}
    {
      if hostId !in hosts {
        return None;
      }
      slot := Some(hosts[hostId]);
      hosts := hosts - {hostId};
    }
  }

  // ---- The machine -----------------------------------------------------------------------

  datatype Sys = Sys(
    tab: Tables,
    slots: map<nat, H.Slot>,
    home: map<nat, nat>,        // the slot that every task id was registered for
    returned: map<nat, bool>)   // whether the submit call of a task returned a handle

  datatype Act =
    | Create(name: string, slot: nat, max: int)
    | Submit(name: string)
    | Cancel(id: nat)
    | Unlist(name: string)
    | OnSlot(i: nat, a: H.Act)
    | Return(id: nat)

  ghost predicate Listed(s: Sys, i: nat) {
    exists name :: name in s.tab.hosts && s.tab.hosts[name] == i
  }

  /** Steps of one slot that touch no shared table, except the two that erase from the cancel table. */
  ghost predicate LocalAct(s: Sys, i: nat, a: H.Act) {
    && !(a.Submit? && (a.sub.Register? || a.sub.Cancel?))
    // a slot's own sender handle is closed and dropped by the thread that took the slot out of the table
    && (a.Channel? && (a.c.Close? || a.c.Release?) && a.c.via == H.SlotTx ==> !Listed(s, i))
  }

  function Erased(a: H.Act): set<nat> {
    if a.Submit? && a.sub.Unregister? then {a.sub.id}
    else if a.Job? && a.j.Forget? then {a.id}
    else {}
  }

  function PhaseOf(s: Sys, id: nat): H.Phase {
    if id in s.home && s.home[id] in s.slots then H.TaskOf(s.slots[s.home[id]], id).phase else H.Unregistered
  }

  ghost predicate Enabled(s: Sys, act: Act) {
    match act
    case Create(name, i, max) => i !in s.slots && max >= 1
    case Submit(name) =>
      name in s.tab.hosts && s.tab.hosts[name] in s.slots
      && H.Next(s.slots[s.tab.hosts[name]], H.Submit(H.Register(s.tab.nextTaskId))).Some?
    case Cancel(id) =>
      id in s.tab.cancels ==>
        id in s.home && s.home[id] in s.slots && H.Next(s.slots[s.home[id]], H.Submit(H.Cancel(id))).Some?
    case Unlist(name) => true
    case OnSlot(i, a) => i in s.slots && H.Next(s.slots[i], a).Some? && LocalAct(s, i, a)
    case Return(id) =>
      id !in s.returned && id in s.home && PhaseOf(s, id) != H.Unsent && PhaseOf(s, id) != H.Rejected
  }

  function NewSlot(max: int): H.Slot {
    H.Slot(C.Sys(C.Mpsc.Fresh(), C.Idle, 0, map[], [], {H.SlotTx}, {}, [], [], None, None), map[], H.Receiving, [],
           0, max, 1, 0, H.T.EMPTY, false, map[], [], false)
  }

  ghost function Apply(s: Sys, act: Act): Sys
    requires Enabled(s, act)
  {
    match act
    case Create(name, i, max) =>
      // a duplicate id leaves the new slot out of the table, to be closed by its creator
      var s1 := s.(slots := s.slots[i := NewSlot(max)]);
      if name in s.tab.hosts then s1 else s1.(tab := s.tab.(hosts := s.tab.hosts[name := i]))
    case Submit(name) =>
      var (tab, id) := Registered(s.tab);
      var i := s.tab.hosts[name];
      s.(tab := tab, home := s.home[id := i], slots := s.slots[i := H.Next(s.slots[i], H.Submit(H.Register(id))).value])
    case Cancel(id) =>
      if id !in s.tab.cancels then s
      else s.(slots := s.slots[s.home[id] := H.Next(s.slots[s.home[id]], H.Submit(H.Cancel(id))).value])
    case Unlist(name) => s.(tab := s.tab.(hosts := s.tab.hosts - {name}))
    case OnSlot(i, a) =>
      s.(slots := s.slots[i := H.Next(s.slots[i], a).value], tab := s.tab.(cancels := s.tab.cancels - Erased(a)))
    case Return(id) => s.(returned := s.returned[id := PhaseOf(s, id) != H.Unregistered])
  }

  ghost function Next(s: Sys, act: Act): Option<Sys> {
    if Enabled(s, act) then Some(Apply(s, act)) else None
  }

  // ---- The invariant ---------------------------------------------------------------------

  /** Task ids are below the counter and each lives in exactly the slot it was registered for. */
  ghost predicate HomeInv(s: Sys) {
    && (forall id :: id in s.home ==> id < s.tab.nextTaskId && s.home[id] in s.slots && id in s.slots[s.home[id]].tasks)
    && (forall i, id :: i in s.slots && id in s.slots[i].tasks ==> id in s.home && s.home[id] == i)
  }

  /** The cancel table holds exactly the tasks that are neither forgotten nor unregistered. */
  ghost predicate CancelInv(s: Sys) {
    forall id :: id in s.tab.cancels <==> id in s.home && H.InTable(PhaseOf(s, id))
  }

  /** A submit call returned a handle exactly when its job was enqueued. */
  ghost predicate ReturnInv(s: Sys) {
    forall id :: id in s.returned ==>
      && id in s.home && PhaseOf(s, id) != H.Unsent && PhaseOf(s, id) != H.Rejected
      && (s.returned[id] <==> PhaseOf(s, id) != H.Unregistered)
  }

  /** A listed slot still has its own sender handle, and its channel is open. */
  ghost predicate TableInv(s: Sys) {
    forall name :: name in s.tab.hosts ==>
      && s.tab.hosts[name] in s.slots
      && H.SlotTx in s.slots[s.tab.hosts[name]].chan.handles && !s.slots[s.tab.hosts[name]].chan.ch.closed
  }

  ghost predicate SlotsInv(s: Sys) {
    forall i :: i in s.slots ==> H.Inv(s.slots[i])
  }

  ghost predicate TablesInv(s: Sys) {
    HomeInv(s) && CancelInv(s) && ReturnInv(s) && TableInv(s)
  }

  ghost predicate Inv(s: Sys) {
    SlotsInv(s) && TablesInv(s)
  }

  ghost predicate Initial(s: Sys) {
    s == Sys(Tables(1, {}, map[]), map[], map[], map[])
  }

  // ---- What a slot step does to the tasks and to the slot's own handle -------------------

  /** Which phases a step leaves alone: whether the submit of the task has settled, and how. */
  ghost predicate SameStanding(p: H.Phase, q: H.Phase) {
    && (p.Unsent? || p.Rejected? || (q.Unregistered? <==> p.Unregistered?))
    && (q.Unsent? || q.Rejected? ==> p.Unsent? || p.Rejected?)
  }

  ghost predicate StandingKept(h: H.Slot, h': H.Slot, id: nat, erased: set<nat>) {
    id in h.tasks ==>
      && id in h'.tasks
      && SameStanding(h.tasks[id].phase, h'.tasks[id].phase)
      && (H.InTable(h'.tasks[id].phase) <==> H.InTable(h.tasks[id].phase) && id !in erased)
  }

  lemma SubmitStanding(h: H.Slot, sub: H.SubmitAct, id: nat)
    requires H.SubmitEnabled(h, sub) && !sub.Register?
    ensures H.SubmitApply(h, sub).tasks.Keys == h.tasks.Keys
    ensures StandingKept(h, H.SubmitApply(h, sub), id, Erased(H.Submit(sub)))
  {
    hide C.Apply, C.Enabled, O.ShotClosed, H.InTable, SameStanding;
    var h' := H.SubmitApply(h, sub);
    if id in h.tasks && id != sub.id {
      assert h'.tasks[id] == h.tasks[id];
      UnmovedStanding(h.tasks[id].phase);
    } else if id in h.tasks {
      SubmitMoves(h, sub);
    }
  }

  lemma UnmovedStanding(p: H.Phase)
    ensures SameStanding(p, p)
  {
  }

  lemma SubmitMoves(h: H.Slot, sub: H.SubmitAct)
    requires H.SubmitEnabled(h, sub) && !sub.Register? && sub.id in h.tasks
    ensures var p := h.tasks[sub.id].phase; var q := H.SubmitApply(h, sub).tasks[sub.id].phase;
      && SameStanding(p, q) && (H.InTable(q) <==> H.InTable(p) && !sub.Unregister?)
  {
    hide C.Apply, C.Enabled, O.ShotClosed;
  }

  lemma DispatchStanding(h: H.Slot, d: H.DispatchAct, id: nat)
    requires H.PlaceInv(h) && H.DispatchEnabled(h, d)
    ensures H.DispatchApply(h, d).tasks.Keys == h.tasks.Keys
    ensures StandingKept(h, H.DispatchApply(h, d), id, {})
  {
    hide H.PlaceInv, C.Apply, C.Enabled;
    if d.Recv? {
      hide H.DispatchApply;
      HT.RecvEffect(h);
      if |h.chan.ch.queue| > 0 {
        H.FrontIsQueued(h);
      }
    } else if d.Spawn? {
      H.PlaceAfterSpawn(h);
    }
  }

  lemma JobStanding(h: H.Slot, i: nat, j: H.JobAct, id: nat)
    requires i in h.tasks && H.JobEnabled(h.tasks[i], j)
    ensures H.JobStep(h, i, j).tasks.Keys == h.tasks.Keys
    ensures StandingKept(h, H.JobStep(h, i, j), id, if j.Forget? then {i} else {})
  {
  }

  lemma SlotStanding(h: H.Slot, a: H.Act, h': H.Slot, id: nat)
    requires H.PlaceInv(h) && H.Next(h, a) == Some(h') && !(a.Submit? && a.sub.Register?)
    ensures h'.tasks.Keys == h.tasks.Keys && Erased(a) <= h.tasks.Keys
    ensures StandingKept(h, h', id, Erased(a))
  {
    hide H.PlaceInv, H.SubmitApply, H.DispatchApply, H.JobStep, H.DispatchEnabled, H.JobEnabled, H.HostEnabled,
      C.Apply, C.Enabled, H.ChannelOnly;
    match a
    case Submit(sub) => SubmitStanding(h, sub, id);
    case Dispatch(d) => DispatchStanding(h, d, id);
    case Job(i, j) => JobStanding(h, i, j, id);
    case Settle(b, js) =>
      if b in h.bridges {
        FulfilEnabled(h, h.bridges[b], b, js);
        JobStanding(h, h.bridges[b], H.Fulfil(js), id);
      }
    case Channel(c) =>
    case Host(x) =>
  }

  lemma FulfilEnabled(h: H.Slot, id: nat, b: nat, js: H.JsAnswer)
    requires H.At(h, id, H.Awaiting(b))
    ensures H.JobEnabled(h.tasks[id], H.Fulfil(js))
  {
  }

  /** Only its own Close and Release take a slot's handle or close its open channel. */
  lemma ChannelKeepsOpen(x: C.Sys<nat, H.Actor>, c: C.Act<nat, H.Actor>)
    requires C.CountInv(x) && C.FifoInv(x) && C.Enabled(x, c) && H.SlotTx in x.handles && !x.ch.closed
    requires !c.DropReceiver? && !c.Move? && ((c.Close? || c.Release?) ==> c.via != H.SlotTx) && !c.Close?
    ensures H.SlotTx in C.Apply(x, c).handles && !C.Apply(x, c).ch.closed
  {
  }

  lemma SlotHandle(h: H.Slot, a: H.Act, h': H.Slot)
    requires C.CountInv(h.chan) && C.FifoInv(h.chan) && H.DispInv(h) && H.Next(h, a) == Some(h')
    requires H.SlotTx in h.chan.handles && !h.chan.ch.closed
    requires a.Channel? && (a.c.Close? || a.c.Release?) ==> a.c.via != H.SlotTx
    ensures H.SlotTx in h'.chan.handles && !h'.chan.ch.closed
  {
    hide C.Apply, C.Enabled, C.CountInv, C.FifoInv, H.Apply, H.SubmitEnabled, H.DispatchEnabled, H.JobEnabled,
      H.HostEnabled;
    HT.ChannelAfter(h, a, h');
    if a.Channel? {
      StillReceiving(h, a.c);
    }
    if HT.OnChannel(a).Some? {
      ChannelKeepsOpen(h.chan, HT.OnChannel(a).value);
    }
  }

  /** While the channel is open the dispatcher has not stopped, so the receiver is not dropped. */
  lemma StillReceiving(h: H.Slot, c: C.Act<nat, H.Actor>)
    requires C.FifoInv(h.chan) && H.DispInv(h) && H.ChannelOnly(h, c) && !h.chan.ch.closed
    ensures !c.DropReceiver? && !c.Move?
  {
  }

  /** Registering a task adds it, unsent, and one sender handle. */
  lemma RegisterShape(h: H.Slot, id: nat, h': H.Slot)
    requires H.Next(h, H.Submit(H.Register(id))) == Some(h')
    ensures h'.tasks == h.tasks[id := H.NEW_TASK]
    ensures h.chan.handles <= h'.chan.handles && h'.chan.ch.closed == h.chan.ch.closed
  {
  }

  // ---- Every action keeps it -------------------------------------------------------------

  /** The two ways the tables may grow without any known task changing its standing. */
  ghost predicate Grows(s: Sys, s': Sys) {
    && s'.returned == s.returned && s'.tab.nextTaskId >= s.tab.nextTaskId
    && (forall id :: id in s.home ==> id in s'.home && s'.home[id] == s.home[id] && PhaseOf(s', id) == PhaseOf(s, id))
  }

  lemma FreshIsNowhere(s: Sys, i: nat)
    requires HomeInv(s) && i in s.slots
    ensures s.tab.nextTaskId !in s.home && s.tab.nextTaskId !in s.slots[i].tasks
  {
  }

  lemma SubmitHome(s: Sys, i: nat, n: nat, h': H.Slot, s': Sys)
    requires HomeInv(s) && i in s.slots && n == s.tab.nextTaskId && h'.tasks == s.slots[i].tasks[n := H.NEW_TASK]
    requires s'.home == s.home[n := i] && s'.slots == s.slots[i := h'] && s'.tab.nextTaskId == n + 1
    ensures HomeInv(s')
  {
    forall k, id | k in s'.slots && id in s'.slots[k].tasks
      ensures id in s'.home && s'.home[id] == k
    {
      FreshIsNowhere(s, k);
      assert id == n || id in s.slots[k].tasks;
    }
  }

  lemma SubmitPhase(s: Sys, i: nat, n: nat, h': H.Slot, s': Sys, id: nat)
    requires i in s.slots && h'.tasks == s.slots[i].tasks[n := H.NEW_TASK]
    requires s'.home == s.home[n := i] && s'.slots == s.slots[i := h']
    ensures PhaseOf(s', id) == if id == n then H.Unsent else PhaseOf(s, id)
  {
  }

  lemma SubmitGrows(s: Sys, name: string, h': H.Slot, s': Sys)
    requires HomeInv(s) && name in s.tab.hosts && s.tab.hosts[name] in s.slots
    requires var i, id := s.tab.hosts[name], s.tab.nextTaskId;
      && h'.tasks == s.slots[i].tasks[id := H.NEW_TASK]
      && s' == s.(tab := Registered(s.tab).0, home := s.home[id := i], slots := s.slots[i := h'])
    ensures HomeInv(s') && Grows(s, s') && s.tab.nextTaskId !in s.home
    ensures PhaseOf(s', s.tab.nextTaskId) == H.Unsent
  {
    hide HomeInv, PhaseOf;
    var i, n := s.tab.hosts[name], s.tab.nextTaskId;
    FreshIsNowhere(s, i);
    SubmitHome(s, i, n, h', s');
    SubmitPhase(s, i, n, h', s', n);
    forall id | id in s.home
      ensures id in s'.home && s'.home[id] == s.home[id] && PhaseOf(s', id) == PhaseOf(s, id)
    {
      SubmitPhase(s, i, n, h', s', id);
    }
  }

  lemma SubmitKeepsTables(s: Sys, name: string, h': H.Slot, s': Sys)
    requires TablesInv(s) && name in s.tab.hosts
    requires var i, id := s.tab.hosts[name], s.tab.nextTaskId;
      && h'.tasks == s.slots[i].tasks[id := H.NEW_TASK]
      && s.slots[i].chan.handles <= h'.chan.handles && h'.chan.ch.closed == s.slots[i].chan.ch.closed
      && s' == s.(tab := Registered(s.tab).0, home := s.home[id := i], slots := s.slots[i := h'])
    ensures TablesInv(s')
  {
    var i := s.tab.hosts[name];
    assert s.slots[i].chan.handles <= h'.chan.handles;
    ReplaceListed(s, i, h', s');
    hide HomeInv, PhaseOf, TableInv;
    SubmitGrows(s, name, h', s');
    GrowthKeepsReturns(s, s');
    hide ReturnInv;
    SubmitCancels(s, s.tab.nextTaskId, s');
  }

  /** The new task is in the cancel table, and for the others nothing changed. */
  lemma SubmitCancels(s: Sys, n: nat, s': Sys)
    requires CancelInv(s) && Grows(s, s') && PhaseOf(s', n) == H.Unsent && n !in s.home
    requires s'.tab.cancels == s.tab.cancels + {n} && s'.home.Keys == s.home.Keys + {n}
    ensures CancelInv(s')
  {
    hide PhaseOf;
  }

  lemma GrowthKeepsReturns(s: Sys, s': Sys)
    requires ReturnInv(s) && Grows(s, s')
    ensures ReturnInv(s')
  {
    hide PhaseOf;
  }

  lemma CreateGrows(s: Sys, i: nat, h': H.Slot, s': Sys)
    requires HomeInv(s) && i !in s.slots && h'.tasks == map[]
    requires s' == s.(slots := s.slots[i := h'], tab := s'.tab) && s'.tab.nextTaskId == s.tab.nextTaskId
    ensures HomeInv(s') && Grows(s, s')
  {
    hide PhaseOf;
    CreateHome(s, i, h', s');
    forall id | id in s.home
      ensures PhaseOf(s', id) == PhaseOf(s, id)
    {
      CreatedElsewhere(s, i, h', s', id);
    }
  }

  lemma CreateHome(s: Sys, i: nat, h': H.Slot, s': Sys)
    requires HomeInv(s) && i !in s.slots && h'.tasks == map[]
    requires s'.slots == s.slots[i := h'] && s'.home == s.home && s'.tab.nextTaskId == s.tab.nextTaskId
    ensures HomeInv(s')
  {
  }

  lemma CreatedElsewhere(s: Sys, i: nat, h': H.Slot, s': Sys, id: nat)
    requires id in s.home && s.home[id] in s.slots && i !in s.slots && s'.slots == s.slots[i := h'] && s'.home == s.home
    ensures PhaseOf(s', id) == PhaseOf(s, id)
  {
  }

  lemma CreateKeepsTables(s: Sys, name: string, i: nat, h': H.Slot, s': Sys)
    requires TablesInv(s) && i !in s.slots
    requires h'.tasks == map[] && H.SlotTx in h'.chan.handles && !h'.chan.ch.closed
    requires s' == s.(slots := s.slots[i := h'],
                      tab := if name in s.tab.hosts then s.tab else s.tab.(hosts := s.tab.hosts[name := i]))
    ensures TablesInv(s')
  {
    CreateGrows(s, i, h', s');
  }

  /** Replacing slot i by one with the same tasks, standing as the erased set says, keeps the tables right. */
  lemma ReplaceKeepsTables(s: Sys, i: nat, h': H.Slot, erased: set<nat>, s': Sys)
    requires TablesInv(s) && i in s.slots
    requires h'.tasks.Keys == s.slots[i].tasks.Keys && erased <= h'.tasks.Keys
    requires forall id :: id in s.slots[i].tasks ==> StandingKept(s.slots[i], h', id, erased)
    requires Listed(s, i) ==> H.SlotTx in h'.chan.handles && !h'.chan.ch.closed
    requires s' == s.(slots := s.slots[i := h'], tab := s.tab.(cancels := s.tab.cancels - erased))
    ensures TablesInv(s')
  {
    ReplaceHome(s, i, h', s');
    ReplaceListed(s, i, h', s');
    hide Listed, TableInv, H.InTable, SameStanding;
    forall id | id in s.home
      ensures SameStanding(PhaseOf(s, id), PhaseOf(s', id))
      ensures H.InTable(PhaseOf(s', id)) <==> H.InTable(PhaseOf(s, id)) && id !in erased
    {
      PhaseReplaced(s, i, h', erased, s', id);
    }
    StandingKeepsTables(s, erased, s');
  }

  lemma ReplaceHome(s: Sys, i: nat, h': H.Slot, s': Sys)
    requires HomeInv(s) && i in s.slots && h'.tasks.Keys == s.slots[i].tasks.Keys
    requires s'.slots == s.slots[i := h'] && s'.home == s.home && s'.tab.nextTaskId == s.tab.nextTaskId
    ensures HomeInv(s')
  {
  }

  lemma ReplaceListed(s: Sys, i: nat, h': H.Slot, s': Sys)
    requires TableInv(s) && i in s.slots && s'.slots == s.slots[i := h'] && s'.tab.hosts == s.tab.hosts
    requires Listed(s, i) ==> H.SlotTx in h'.chan.handles && !h'.chan.ch.closed
    ensures TableInv(s')
  {
  }

  /** How the phase of one task may have changed when one slot was replaced. */
  lemma PhaseReplaced(s: Sys, i: nat, h': H.Slot, erased: set<nat>, s': Sys, id: nat)
    requires HomeInv(s) && i in s.slots && id in s.home && erased <= s.slots[i].tasks.Keys
    requires id in s.slots[i].tasks ==> StandingKept(s.slots[i], h', id, erased)
    requires s'.slots == s.slots[i := h'] && s'.home == s.home
    ensures SameStanding(PhaseOf(s, id), PhaseOf(s', id))
    ensures H.InTable(PhaseOf(s', id)) <==> H.InTable(PhaseOf(s, id)) && id !in erased
  {
    hide H.InTable;
  }

  lemma StandingKeepsTables(s: Sys, erased: set<nat>, s': Sys)
    requires CancelInv(s) && ReturnInv(s) && s'.home == s.home && s'.returned == s.returned
    requires s'.tab.cancels == s.tab.cancels - erased
    requires forall id :: id in s.home ==> SameStanding(PhaseOf(s, id), PhaseOf(s', id))
    requires forall id :: id in s.home ==> (H.InTable(PhaseOf(s', id)) <==> H.InTable(PhaseOf(s, id)) && id !in erased)
    ensures CancelInv(s') && ReturnInv(s')
  {
    hide H.InTable, PhaseOf;
  }

  lemma SlotActKeepsTables(s: Sys, i: nat, a: H.Act, h': H.Slot, s': Sys)
    requires TablesInv(s) && i in s.slots && H.Inv(s.slots[i])
    requires H.Next(s.slots[i], a) == Some(h') && !(a.Submit? && a.sub.Register?)
    requires a.Channel? && (a.c.Close? || a.c.Release?) && a.c.via == H.SlotTx ==> !Listed(s, i)
    requires s' == s.(slots := s.slots[i := h'], tab := s.tab.(cancels := s.tab.cancels - Erased(a)))
    ensures TablesInv(s')
  {
    var h := s.slots[i];
    SlotStanding(h, a, h', 0);
    forall id
      ensures StandingKept(h, h', id, Erased(a))
    {
      SlotStanding(h, a, h', id);
    }
    if Listed(s, i) {
      SlotHandle(h, a, h');
    }
    ReplaceKeepsTables(s, i, h', Erased(a), s');
  }

  lemma NewSlotIsSound(max: int)
    requires max >= 1
    ensures H.Inv(NewSlot(max))
  {
    HT.InitialInv(NewSlot(max));
  }

  lemma CreateStep(s: Sys, name: string, i: nat, h': H.Slot, s': Sys)
    requires Inv(s) && i !in s.slots && H.Inv(h')
    requires h'.tasks == map[] && H.SlotTx in h'.chan.handles && !h'.chan.ch.closed
    requires s' == s.(slots := s.slots[i := h'],
                      tab := if name in s.tab.hosts then s.tab else s.tab.(hosts := s.tab.hosts[name := i]))
    ensures Inv(s')
  {
    hide H.Inv, TablesInv;
    CreateKeepsTables(s, name, i, h', s');
  }

  lemma SubmitStep(s: Sys, name: string, h': H.Slot, s': Sys)
    requires Inv(s) && name in s.tab.hosts
    requires var i, id := s.tab.hosts[name], s.tab.nextTaskId;
      && H.Next(s.slots[i], H.Submit(H.Register(id))) == Some(h')
      && s' == s.(tab := Registered(s.tab).0, home := s.home[id := i], slots := s.slots[i := h'])
    ensures Inv(s')
  {
    hide H.Inv, H.Next, CancelInv, ReturnInv;
    var i, id := s.tab.hosts[name], s.tab.nextTaskId;
    H.NextInv(s.slots[i], H.Submit(H.Register(id)), h');
    RegisterShape(s.slots[i], id, h');
    SubmitKeepsTables(s, name, h', s');
  }

  lemma SlotStep(s: Sys, i: nat, a: H.Act, s': Sys)
    requires Inv(s) && i in s.slots && H.Next(s.slots[i], a).Some? && !(a.Submit? && a.sub.Register?)
    requires a.Channel? && (a.c.Close? || a.c.Release?) && a.c.via == H.SlotTx ==> !Listed(s, i)
    requires s' == s.(slots := s.slots[i := H.Next(s.slots[i], a).value],
                      tab := s.tab.(cancels := s.tab.cancels - Erased(a)))
    ensures Inv(s')
  {
    hide TablesInv, H.Next, H.Inv, Listed;
    H.NextInv(s.slots[i], a, s'.slots[i]);
    SlotActKeepsTables(s, i, a, s'.slots[i], s');
  }

  lemma CancelStep(s: Sys, id: nat, h': H.Slot, s': Sys)
    requires Inv(s) && id in s.tab.cancels && id in s.home && s.home[id] in s.slots
    requires H.Next(s.slots[s.home[id]], H.Submit(H.Cancel(id))) == Some(h')
    requires s' == s.(slots := s.slots[s.home[id] := h'])
    ensures Inv(s')
  {
    hide Inv, H.Next, Listed;
    assert s.tab.cancels - Erased(H.Submit(H.Cancel(id))) == s.tab.cancels;
    SlotStep(s, s.home[id], H.Submit(H.Cancel(id)), s');
  }

  lemma BookkeepingStep(s: Sys, act: Act, s': Sys)
    requires TablesInv(s) && (act.Unlist? || act.Return?) && Next(s, act) == Some(s')
    ensures TablesInv(s') && s'.slots == s.slots
  {
    hide H.Next, H.InTable;
    assert forall id :: PhaseOf(s', id) == PhaseOf(s, id);
    BookkeepingKeeps(s, s');
  }

  lemma BookkeepingKeeps(s: Sys, s': Sys)
    requires TablesInv(s) && s'.slots == s.slots && s'.home == s.home
    requires s'.tab.nextTaskId == s.tab.nextTaskId && s'.tab.cancels == s.tab.cancels
    requires forall name :: name in s'.tab.hosts ==> name in s.tab.hosts && s'.tab.hosts[name] == s.tab.hosts[name]
    requires forall id :: id in s'.returned ==>
      || (id in s.returned && s'.returned[id] == s.returned[id])
      || (id in s.home && PhaseOf(s, id) != H.Unsent && PhaseOf(s, id) != H.Rejected
          && (s'.returned[id] <==> PhaseOf(s, id) != H.Unregistered))
    ensures TablesInv(s')
  {
    hide H.InTable, PhaseOf;
    SamePhases(s, s');
  }

  lemma SamePhases(s: Sys, s': Sys)
    requires s'.slots == s.slots && s'.home == s.home
    ensures forall id :: PhaseOf(s', id) == PhaseOf(s, id)
  {
  }

  /** Every action of every thread keeps the invariant. */
  lemma StepInv(s: Sys, act: Act, s': Sys)
    requires Inv(s) && Next(s, act) == Some(s')
    ensures Inv(s')
  {
    hide H.Inv, H.Next, H.Enabled, H.Apply, TablesInv, Listed, PhaseOf;
    match act
    case Create(name, i, max) =>
      NewSlotIsSound(max);
      CreateStep(s, name, i, NewSlot(max), s');
    case Submit(name) => SubmitStep(s, name, s'.slots[s.tab.hosts[name]], s');
    case Cancel(id) => if id in s.tab.cancels { CancelStep(s, id, s'.slots[s.home[id]], s'); }
    case OnSlot(i, a) => SlotStep(s, i, a, s');
    case _ => BookkeepingStep(s, act, s');
  }

  // ---- Runs ------------------------------------------------------------------------------

  ghost predicate Run(s: Sys, acts: seq<Act>, s': Sys)
    decreases acts
  {
    if acts == [] then s' == s
    else match Next(s, acts[0]) case None => false case Some(m) => Run(m, acts[1..], s')
  }

  lemma {:induction false} RunInv(s: Sys, acts: seq<Act>, s': Sys)
    requires Inv(s) && Run(s, acts, s')
    ensures Inv(s')
    decreases acts
  {
    if acts != [] {
      var next := Next(s, acts[0]);
      StepInv(s, acts[0], next.value);
      RunInv(next.value, acts[1..], s');
    }
  }

  lemma InitialInv(s: Sys)
    requires Initial(s)
    ensures Inv(s) && s.slots == map[]
  {
  }

  lemma InitialRun(s: Sys, acts: seq<Act>, s': Sys)
    requires Initial(s) && Run(s, acts, s')
    ensures Inv(s')
  {
    RunInv(s, acts, s');
  }

  /** Task ids never repeat: a submit gets an id that no task of any host ever had. */
  lemma FreshTaskId(s: Sys, acts: seq<Act>, s': Sys, name: string, s'': Sys)
    requires Initial(s) && Run(s, acts, s') && Next(s', Submit(name)) == Some(s'')
    ensures s'.tab.nextTaskId !in s'.home && s''.home == s'.home[s'.tab.nextTaskId := s'.tab.hosts[name]]
    ensures forall i :: i in s'.slots ==> s'.tab.nextTaskId !in s'.slots[i].tasks
  {
    hide H.Inv, H.Next, CancelInv, ReturnInv, TableInv;
    InitialRun(s, acts, s');
  }

  /** `cancel` finds a task exactly while it is neither forgotten nor turned away. */
  lemma CancelTableExact(s: Sys, acts: seq<Act>, s': Sys, id: nat)
    requires Initial(s) && Run(s, acts, s')
    ensures id in s'.tab.cancels <==> id in s'.home && H.InTable(PhaseOf(s', id))
  {
    InitialRun(s, acts, s');
  }

  /** In a sound slot a task whose submit is settled was enqueued unless it was turned away. */
  lemma SettledMeansAccepted(h: H.Slot, id: nat)
    requires H.Inv(h) && id in h.tasks
    requires !h.tasks[id].phase.Unsent? && !h.tasks[id].phase.Rejected?
    ensures id in h.chan.accepted <==> !h.tasks[id].phase.Unregistered?
  {
    assert h.chan.accepted == h.started + H.HeldBy(h.disp) + h.chan.ch.queue;
    if id in h.chan.accepted {
      assert id in h.started || id in H.HeldBy(h.disp) || id in h.chan.ch.queue;
    } else {
      assert !H.At(h, id, H.Queued) && !H.At(h, id, H.Held);
    }
  }

  /** `submit` returns a handle exactly when its job was enqueued, whatever else destroys the host meanwhile. */
  lemma HandleIffEnqueued(s: Sys, acts: seq<Act>, s': Sys, id: nat)
    requires Initial(s) && Run(s, acts, s') && id in s'.returned
    ensures id in s'.home && s'.home[id] in s'.slots
    ensures s'.returned[id] <==> id in s'.slots[s'.home[id]].chan.accepted
  {
    InitialRun(s, acts, s');
    SettledMeansAccepted(s'.slots[s'.home[id]], id);
  }

  // ---- What the actions of a run say about its end ---------------------------------------

  lemma {:induction false} RunLast(s: Sys, acts: seq<Act>, s': Sys) returns (m: Sys)
    requires Run(s, acts, s') && acts != []
    ensures Run(s, acts[..|acts| - 1], m) && Next(m, acts[|acts| - 1]) == Some(s')
    decreases acts
  {
    hide Next;
    var m1 := Next(s, acts[0]).value;
    if |acts| == 1 {
      m := s;
      assert Run(m1, [], s') && acts[1..] == [];
    } else {
      m := RunLast(m1, acts[1..], s');
      assert acts[..|acts| - 1][1..] == acts[1..][..|acts| - 2];
    }
  }

  /** The slot that a host name stands for: that of the first creation under it since it was last removed. */
  function ListedAs(acts: seq<Act>, name: string): Option<nat> {
    if acts == [] then None
    else
      var n := |acts| - 1;
      var before := ListedAs(acts[..n], name);
      match acts[n]
      case Create(m, i, _) => if m == name && before.None? then Some(i) else before
      case Unlist(m) => if m == name then None else before
      case _ => before
  }

  /** A host is listed from its creation to its removal; creating it again in between changes nothing. */
  lemma {:induction false} HostsTable(s: Sys, acts: seq<Act>, s': Sys, name: string)
    requires Initial(s) && Run(s, acts, s')
    ensures ListedAs(acts, name) == if name in s'.tab.hosts then Some(s'.tab.hosts[name]) else None
    decreases |acts|
  {
    if acts != [] {
      hide Next, Initial, Run;
      var n := |acts| - 1;
      var m := RunLast(s, acts, s');
      HostsTable(s, acts[..n], m, name);
      HostsStep(m, acts[n], s', name);
    }
  }

  lemma HostsStep(s: Sys, act: Act, s': Sys, name: string)
    requires Next(s, act) == Some(s')
    ensures var was, now := if name in s.tab.hosts then Some(s.tab.hosts[name]) else None,
                            if name in s'.tab.hosts then Some(s'.tab.hosts[name]) else None;
      now == match act
             case Create(m, i, _) => if m == name && was.None? then Some(i) else was
             case Unlist(m) => if m == name then None else was
             case _ => was
  {
    hide H.Next, PhaseOf, LocalAct;
  }

  /** What an action of the manager does in slot i. */
  function StepOn(s: Sys, act: Act, i: nat): seq<H.Act> {
    match act
    case Submit(name) =>
      if name in s.tab.hosts && s.tab.hosts[name] == i then [H.Submit(H.Register(s.tab.nextTaskId))] else []
    case Cancel(id) =>
      if id in s.tab.cancels && id in s.home && s.home[id] == i then [H.Submit(H.Cancel(id))] else []
    case OnSlot(k, a) => if k == i then [a] else []
    case _ => []
  }

  ghost function SlotActs(s: Sys, acts: seq<Act>, i: nat): seq<H.Act>
    decreases acts
  {
    if acts == [] || Next(s, acts[0]).None? then []
    else StepOn(s, acts[0], i) + SlotActs(Next(s, acts[0]).value, acts[1..], i)
  }

  /** One action of the manager takes at most one step in any one slot. */
  lemma SlotAdvances(s: Sys, act: Act, s': Sys, i: nat)
    requires Next(s, act) == Some(s') && i in s.slots
    ensures i in s'.slots
    ensures if StepOn(s, act, i) == [] then s'.slots[i] == s.slots[i]
            else |StepOn(s, act, i)| == 1 && H.Next(s.slots[i], StepOn(s, act, i)[0]) == Some(s'.slots[i])
  {
    hide H.Next, PhaseOf, LocalAct;
  }

  /** Each slot makes a run of its own. */
  lemma {:induction false} SlotRun(s: Sys, acts: seq<Act>, s': Sys, i: nat)
    requires Run(s, acts, s') && i in s.slots
    ensures i in s'.slots && HT.Run(s.slots[i], SlotActs(s, acts, i), s'.slots[i])
    decreases acts
  {
    if acts != [] {
      hide Next, H.Enabled, H.Apply, StepOn;
      var m := Next(s, acts[0]).value;
      SlotAdvances(s, acts[0], m, i);
      SlotRun(m, acts[1..], s', i);
      var one, rest := StepOn(s, acts[0], i), SlotActs(m, acts[1..], i);
      if one == [] {
        assert SlotActs(s, acts, i) == rest;
      } else {
        assert (one + rest)[1..] == rest;
      }
    }
  }

  /** Which starts when the slot is made, with the cap asked for. */
  lemma {:induction false} CreatedRun(s: Sys, acts: seq<Act>, s': Sys, i: nat) returns (name: string, max: int)
    requires Inv(s) && Run(s, acts, s') && i !in s.slots && i in s'.slots
    ensures Create(name, i, max) in acts && max >= 1
    ensures HT.Run(NewSlot(max), SlotActs(s, acts, i), s'.slots[i])
    decreases acts
  {
    hide Next, Inv, StepOn, NewSlot;
    var m := Next(s, acts[0]).value;
    StepInv(s, acts[0], m);
    NoStepYet(s, acts[0], m, i);
    assert acts[0] in acts && forall a :: a in acts[1..] ==> a in acts;
    if i in m.slots {
      name, max := acts[0].name, acts[0].max;
      SlotRun(m, acts[1..], s', i);
    } else {
      name, max := CreatedRun(m, acts[1..], s', i);
    }
    assert SlotActs(s, acts, i) == SlotActs(m, acts[1..], i);
  }

  lemma NoStepYet(s: Sys, act: Act, s': Sys, i: nat)
    requires Inv(s) && Next(s, act) == Some(s') && i !in s.slots
    ensures StepOn(s, act, i) == []
    ensures i in s'.slots ==> act.Create? && act.slot == i && act.max >= 1 && s'.slots[i] == NewSlot(act.max)
  {
    hide H.Next, H.Inv, PhaseOf, LocalAct, CancelInv, ReturnInv;
  }

  /** A host never runs more jobs at once than the cap it was created with. */
  lemma {:induction false} CapAsked(s: Sys, acts: seq<Act>, s': Sys, name: string, i: nat, max: int)
    requires Inv(s) && Run(s, acts, s') && Create(name, i, max) in acts
    ensures i in s'.slots && s'.slots[i].maxInFlight == max && 0 <= s'.slots[i].inFlight <= max
    decreases acts
  {
    hide Next, Inv, StepOn, NewSlot;
    var m := Next(s, acts[0]).value;
    StepInv(s, acts[0], m);
    if acts[0] == Create(name, i, max) {
      CreateMakes(s, name, i, max, m);
      SlotRun(m, acts[1..], s', i);
      HT.HostFieldsRun(NewSlot(max), SlotActs(m, acts[1..], i), s'.slots[i]);
      HT.InFlightWithinCap(NewSlot(max), SlotActs(m, acts[1..], i), s'.slots[i]);
    } else {
      CapAsked(m, acts[1..], s', name, i, max);
    }
  }

  lemma CreateMakes(s: Sys, name: string, i: nat, max: int, s': Sys)
    requires Next(s, Create(name, i, max)) == Some(s')
    ensures i in s'.slots && s'.slots[i] == NewSlot(max)
    ensures HT.Initial(NewSlot(max)) && NewSlot(max).maxInFlight == max
  {
  }

  /** Every handle that submit ever returned is answered exactly once by the time its host is done: with Cancelled
      if a cancel came before the dequeue check, and else with what the environment produced for the job. */
  lemma EveryHandleAnsweredOnce(s: Sys, acts: seq<Act>, s': Sys, id: nat)
    requires Initial(s) && Run(s, acts, s') && id in s'.returned && s'.returned[id]
    requires id in s'.home && s'.home[id] in s'.slots && s'.slots[s'.home[id]].pendingOps == 0
    ensures var h, on := s'.slots[s'.home[id]], SlotActs(s, acts, s'.home[id]);
      && id in h.tasks && HT.AnswerOf(on, id).Some? && h.tasks[id].log == [HT.AnswerOf(on, id).value]
      && h.tasks[id].shot.sent && !h.tasks[id].shot.closed && h.tasks[id].shot.value == HT.AnswerOf(on, id)
      && (HT.Saw(on, id) == Some(true) ==> HT.Produced(on, id).None? && H.Job(id, H.Call) !in on)
  {
    hide Next, Run, HT.Run, HT.AnswerOf, HT.Saw, HT.Produced, H.Inv, TablesInv;
    HandleIffEnqueued(s, acts, s', id);
    var i := s'.home[id];
    InitialInv(s);
    var name, max := CreatedRun(s, acts, s', i);
    NewSlotIsInitial(max);
    HT.AnsweredExactlyOnce(NewSlot(max), SlotActs(s, acts, i), s'.slots[i], id);
  }

  lemma NewSlotIsInitial(max: int)
    requires max >= 1
    ensures HT.Initial(NewSlot(max))
  {
  }

  // ---- Soft cancel, from the caller's side -----------------------------------------------

  /** The task of a known id. */
  ghost predicate KnownTask(s: Sys, id: nat) {
    id in s.home && s.home[id] in s.slots && id in s.slots[s.home[id]].tasks
  }

  ghost function TaskAt(s: Sys, id: nat): H.Task
    requires KnownTask(s, id)
  {
    s.slots[s.home[id]].tasks[id]
  }

  ghost predicate DoomedAt(s: Sys, id: nat) {
    KnownTask(s, id) && HT.Doomed(TaskAt(s, id))
  }

  lemma HomeStays(s: Sys, act: Act, s': Sys, id: nat)
    requires Inv(s) && Next(s, act) == Some(s') && id in s.home
    ensures id in s'.home && s'.home[id] == s.home[id] && s.home[id] in s.slots && id in s.slots[s.home[id]].tasks
  {
    hide H.Next, H.Inv, PhaseOf, LocalAct, CancelInv, ReturnInv, TableInv;
  }

  lemma DoomedSlotStep(h: H.Slot, a: H.Act, h': H.Slot, id: nat)
    requires H.Inv(h) && H.Next(h, a) == Some(h') && id in h.tasks && HT.Doomed(h.tasks[id])
    ensures id in h'.tasks && HT.Doomed(h'.tasks[id])
  {
    hide H.Inv, H.Enabled, H.Apply, H.TaskInv, HT.TaskNext, HT.Doomed;
    HT.StepTask(h, a, id);
    HT.DoomedTaskNext(h.tasks[id], h'.tasks[id]);
  }

  lemma DoomedStep(s: Sys, act: Act, s': Sys, id: nat)
    requires Inv(s) && Next(s, act) == Some(s') && DoomedAt(s, id)
    ensures DoomedAt(s', id)
  {
    hide Next, H.Next, H.Inv, TablesInv, HT.Doomed;
    var i := s.home[id];
    HomeStays(s, act, s', id);
    SlotAdvances(s, act, s', i);
    if s'.slots[i] != s.slots[i] {
      DoomedSlotStep(s.slots[i], StepOn(s, act, i)[0], s'.slots[i], id);
    }
  }

  lemma {:induction false} DoomedRun(s: Sys, acts: seq<Act>, s': Sys, id: nat)
    requires Inv(s) && Run(s, acts, s') && DoomedAt(s, id)
    ensures Inv(s') && DoomedAt(s', id)
    decreases acts
  {
    if acts != [] {
      hide Inv, H.Inv, DoomedAt, Next;
      var next := Next(s, acts[0]);
      StepInv(s, acts[0], next.value);
      DoomedStep(s, acts[0], next.value, id);
      DoomedRun(next.value, acts[1..], s', id);
    }
  }

  lemma FoundIsKnown(s: Sys, id: nat)
    requires Inv(s) && id in s.tab.cancels
    ensures KnownTask(s, id)
  {
    hide H.Inv, ReturnInv, TableInv, H.InTable;
  }

  /** `cancel` on a task that it finds raises that task's flag and does nothing else to the task. */
  lemma CancelRaisesTheFlag(s: Sys, id: nat, s': Sys)
    requires KnownTask(s, id) && id in s.tab.cancels && Next(s, Cancel(id)) == Some(s')
    ensures KnownTask(s', id) && TaskAt(s', id) == TaskAt(s, id).(flag := true)
  {
  }

  lemma DoomedIsNotCalled(s: Sys, id: nat)
    requires Inv(s) && DoomedAt(s, id)
    ensures !TaskAt(s, id).called && (TaskAt(s, id).log == [] || TaskAt(s, id).log == [H.Cancelled])
  {
    hide TablesInv, H.Inv, HT.Doomed;
    HT.DoomedTask(s.slots[s.home[id]], id);
  }

  /** A `cancel` that finds its task before the task's dequeue check is honoured in every later state: the
      function is never called, and the only answer the handle can get is Cancelled. */
  lemma EarlyCancelHonoured(s: Sys, acts: seq<Act>, m: Sys, id: nat, m': Sys, more: seq<Act>, s': Sys)
    requires Initial(s) && Run(s, acts, m)
    requires id in m.tab.cancels && Next(m, Cancel(id)) == Some(m') && Run(m', more, s')
    ensures KnownTask(m, id)
    ensures TaskAt(m, id).sawFlag.None? ==>
      KnownTask(s', id) && !TaskAt(s', id).called && (TaskAt(s', id).log == [] || TaskAt(s', id).log == [H.Cancelled])
  {
    hide Initial, Inv, Next, Run, KnownTask;
    InitialRun(s, acts, m);
    FoundIsKnown(m, id);
    CancelRaisesTheFlag(m, id, m');
    StepInv(m, Cancel(id), m');
    if TaskAt(m, id).sawFlag.None? {
      DoomedRun(m', more, s', id);
      DoomedIsNotCalled(s', id);
    }
  }
}
