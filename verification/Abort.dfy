/** Abort propagation over a graph of signals (src/js/abort.js:17-122).  User callbacks run
    synchronously in the middle of a dispatch, so they are modelled as scripts of the calls
    they may make back into the signals. */
module Abort {
  import opened Wrappers

  /** A JavaScript value, or the AbortError made when no reason is given. */
  datatype Reason = Given(id: nat) | AbortError

  datatype Command =
    | AbortIt(s: Signal, why: Option<Reason>)
    | Listen(s: Signal, id: nat, script: seq<Command>)
    | Unlisten(s: Signal, id: nat)
    | FollowIt(s: Signal, parent: Signal)

  /** A registered listener: a user function, or the closure `_follow` makes for a child. */
  datatype Listener = Callback(id: nat, script: seq<Command>) | Follower(child: Signal)

  /** A user function that was called: the `onabort` handler, or a listener. */
  datatype Fired = Handler | Function(id: nat)

  class Signal {
    var aborted: bool
    var reason: Option<Reason>
    var onabort: Option<seq<Command>>
    var listeners: seq<Listener>
    /** The user functions this signal has called, in order. */
    ghost var fired: seq<Fired>

    constructor ()
      ensures !aborted && reason == None && onabort == None && listeners == [] && fired == []
    {
      aborted, reason, onabort, listeners, fired := false, None, None, [], [];
    }
  }

  function Children(ls: seq<Listener>): set<Signal> {
    if ls == [] then {} else (if ls[0].Follower? then {ls[0].child} else {}) + Children(ls[1..])
  }

  function Calls(ls: seq<Listener>): seq<Fired> {
    if ls == [] then [] else (if ls[0].Callback? then [Function(ls[0].id)] else []) + Calls(ls[1..])
  }

  lemma {:induction false} ChildrenPush(ls: seq<Listener>, l: Listener)
    ensures Children(ls + [l]) == Children(ls) + (if l.Follower? then {l.child} else {})
    ensures Calls(ls + [l]) == Calls(ls) + (if l.Callback? then [Function(l.id)] else [])
  {
    if ls == [] {
      assert ls + [l] == [l];
    } else {
      assert (ls + [l])[1..] == ls[1..] + [l];
      ChildrenPush(ls[1..], l);
    }
  }

  lemma PrefixStep(ls: seq<Listener>, i: nat)
    requires i < |ls|
    ensures Children(ls[..i + 1]) == Children(ls[..i]) + Children([ls[i]])
    ensures Calls(ls[..i + 1]) == Calls(ls[..i]) + Calls([ls[i]])
  {
    assert ls[..i + 1] == ls[..i] + [ls[i]];
    ChildrenPush(ls[..i], ls[i]);
  }

  /** Everything a script can reach is in `u`. */
  ghost predicate Within(script: seq<Command>, u: set<Signal>)
    decreases script
  {
    forall c <- script ::
      && c.s in u
      && (c.Listen? ==> Within(c.script, u))
      && (c.FollowIt? ==> c.parent in u)
  }

  ghost predicate ListenersWithin(ls: seq<Listener>, u: set<Signal>) {
    forall l <- ls :: if l.Callback? then Within(l.script, u) else l.child in u
  }

  /** The signals of `u` refer only to one another, and exactly the aborted ones have a reason. */
  ghost predicate Valid(u: set<Signal>)
    reads u
  {
    forall x <- u ::
      && ListenersWithin(x.listeners, u)
      && (x.onabort.Some? ==> Within(x.onabort.value, u))
      && (x.aborted <==> x.reason.Some?)
  }

  /** What can be told about a signal: its followers are the children of its listeners. */
  datatype View = View(aborted: bool, reason: Option<Reason>, fired: seq<Fired>, followers: set<Signal>)

  ghost function Snap(u: set<Signal>): map<Signal, View>
    reads u
  {
    map x <- u :: View(x.aborted, x.reason, x.fired, Children(x.listeners))
  }

  /** A script that neither aborts nor follows, nor registers one that does. */
  ghost predicate Passive(script: seq<Command>)
    decreases script
  {
    forall c <- script :: c.Unlisten? || (c.Listen? && Passive(c.script))
  }

  ghost predicate PassiveListeners(ls: seq<Listener>) { forall l <- ls :: l.Callback? ==> Passive(l.script) }

  /** No user function of the graph aborts or follows anything. */
  ghost predicate Calm(u: set<Signal>)
    reads u
  {
    forall x <- u :: PassiveListeners(x.listeners) && (x.onabort.Some? ==> Passive(x.onabort.value))
  }

  /** Every signal aborted between `a` and `b` got the reason `r`. */
  ghost predicate Spread(a: map<Signal, View>, b: map<Signal, View>, r: Option<Reason>) {
    forall x <- a :: x in b && (b[x].aborted && !a[x].aborted ==> b[x].reason == r)
  }

  function Live(m: map<Signal, View>): set<Signal> {
    set x <- m | !m[x].aborted
  }

  function Aborted(m: map<Signal, View>): set<Signal> {
    set x <- m | m[x].aborted
  }

  /** One signal from `a` to `b`: aborted once and for all, with the reason it got; once
      aborted it gains no follower and calls no one again; followers are never lost. */
  ghost predicate Steady(a: View, b: View) {
    && a.followers <= b.followers
    && (a.aborted ==> a == b)
  }

  /** All followers of `x` are aborted. */
  ghost predicate Told(x: Signal, m: map<Signal, View>)
    requires x in m
  {
    forall c <- m[x].followers :: c in m && m[c].aborted
  }

  /** What every operation keeps: signals are steady, and a signal aborted in between has told
      all its followers, unless it is `busy`, still dispatching. */
  ghost predicate Kept(a: map<Signal, View>, b: map<Signal, View>, busy: Option<Signal>) {
    && a.Keys == b.Keys
    && (forall x <- a :: Steady(a[x], b[x]))
    && (forall x <- a | b[x].aborted && !a[x].aborted && busy != Some(x) :: Told(x, b))
  }

  /** What a script that was run leaves behind for good: whom it aborts is aborted, and whom it makes follow
      another one is aborted or follows it. */
  ghost predicate Ran(script: seq<Command>, m: map<Signal, View>) {
    forall c <- script :: CommandDone(c, m)
  }

  ghost predicate CommandDone(c: Command, m: map<Signal, View>) {
    && (c.AbortIt? ==> c.s in m && m[c.s].aborted)
    && (c.FollowIt? ==> c.s in m && c.parent in m && (m[c.s].aborted || c.s in m[c.parent].followers))
  }

  ghost predicate AllRan(ls: seq<Listener>, m: map<Signal, View>) {
    forall l <- ls :: l.Callback? ==> Ran(l.script, m)
  }

  /** Nothing that was done is undone. */
  ghost predicate Grows(a: map<Signal, View>, b: map<Signal, View>) {
    forall x <- a :: x in b && (a[x].aborted ==> b[x].aborted) && a[x].followers <= b[x].followers
  }

  lemma RanStays(a: map<Signal, View>, b: map<Signal, View>)
    requires Grows(a, b)
    ensures forall c :: CommandDone(c, a) ==> CommandDone(c, b)
    ensures forall script :: Ran(script, a) ==> Ran(script, b)
    ensures forall ls :: AllRan(ls, a) ==> AllRan(ls, b)
  {
  }

  lemma KeptGrows(a: map<Signal, View>, b: map<Signal, View>, busy: Option<Signal>)
    requires Kept(a, b, busy)
    ensures Grows(a, b)
  {
    hide Told;
  }

  /** Noting a call changes nothing else. */
  lemma NoteGrows(b: map<Signal, View>, b': map<Signal, View>, c: map<Signal, View>, s: Signal)
    requires s in b && s in b' && b' == b[s := b[s].(fired := b'[s].fired)] && Grows(b', c)
    ensures Grows(b, c)
  {
  }

  lemma GrowsCompose(a: map<Signal, View>, b: map<Signal, View>, c: map<Signal, View>)
    requires Grows(a, b) && Grows(b, c)
    ensures Grows(a, c)
  {
  }

  lemma KeptRefl(a: map<Signal, View>)
    ensures Kept(a, a, None)
  {
  }

  lemma SpreadRefl(a: map<Signal, View>)
    ensures forall r :: Spread(a, a, r)
  {
  }

  lemma KeptCompose(a: map<Signal, View>, b: map<Signal, View>, c: map<Signal, View>, busy: Option<Signal>)
    requires Kept(a, b, busy) && Kept(b, c, None)
    requires busy.Some? ==> busy.value in b && b[busy.value].aborted
    ensures Kept(a, c, busy)
  {
    forall x <- a | c[x].aborted && !a[x].aborted && busy != Some(x) ensures Told(x, c) {
      if b[x].aborted {
        assert Told(x, b);
      }
    }
  }

  lemma LiveShrinks(a: map<Signal, View>, b: map<Signal, View>, busy: Option<Signal>)
    requires Kept(a, b, busy)
    ensures Live(b) <= Live(a) && |Live(b)| <= |Live(a)| && Aborted(a) <= Aborted(b)
    ensures forall x <- a | b[x].aborted && !a[x].aborted :: |Live(b)| < |Live(a)|
  {
    Smaller(Live(b), Live(a));
    forall x <- a | b[x].aborted && !a[x].aborted ensures |Live(b)| < |Live(a)| {
      assert x in Live(a) && x !in Live(b);
    }
  }

  lemma Smaller<T>(a: set<T>, b: set<T>)
    requires a <= b
    ensures |a| <= |b| && (a != b ==> |a| < |b|)
  {
    assert b == a + (b - a);
  }

  lemma FiredOnly(a: map<Signal, View>, b: map<Signal, View>, c: map<Signal, View>, s: Signal)
    requires Kept(a, b, Some(s)) && s in a && !a[s].aborted
    requires s in b && s in c && c == b[s := b[s].(fired := c[s].fired)]
    ensures Kept(a, c, Some(s)) && Live(c) == Live(b) && Aborted(c) == Aborted(b)
  {
    forall x <- a | c[x].aborted && !a[x].aborted && Some(s) != Some(x) ensures Told(x, c) {
      assert Told(x, b);
    }
  }

  lemma SpreadSame(a: map<Signal, View>, b: map<Signal, View>, c: map<Signal, View>, r: Option<Reason>)
    requires b.Keys == c.Keys && forall x <- b :: b[x].aborted ==> c[x].reason == b[x].reason
    ensures Spread(a, b, r) && Aborted(c) == Aborted(b) ==> Spread(a, c, r)
  {
    if Spread(a, b, r) && Aborted(c) == Aborted(b) {
      forall x <- a ensures x in c && (c[x].aborted && !a[x].aborted ==> c[x].reason == r) {
        IsAborted(b, x);
        IsAborted(c, x);
      }
    }
  }

  lemma StaySame(b: map<Signal, View>, c: map<Signal, View>)
    requires Kept(b, c, None)
    ensures b.Keys == c.Keys && forall x <- b :: b[x].aborted ==> c[x] == b[x]
  {
  }

  lemma SpreadCompose(a: map<Signal, View>, b: map<Signal, View>, c: map<Signal, View>, r: Option<Reason>)
    requires Kept(b, c, None)
    ensures Spread(a, b, r) && Spread(b, c, r) ==> Spread(a, c, r)
  {
    if Spread(a, b, r) {
      assert forall x <- a :: x in b && (b[x].aborted ==> c[x] == b[x]);
    }
  }

  lemma IsAborted(m: map<Signal, View>, s: Signal)
    ensures s in Aborted(m) <==> s in m && m[s].aborted
  {
  }

  /** One signal is written, which aborts nothing and loses no follower. */
  lemma OneWritten(a: map<Signal, View>, b: map<Signal, View>, s: Signal, v: View)
    requires s in a && b == a[s := v] && Steady(a[s], v) && v.aborted == a[s].aborted
    ensures Kept(a, b, None) && Aborted(b) == Aborted(a)
  {
  }

  /** The signal s has just been aborted, and is about to tell its followers. */
  lemma JustAborted(a: map<Signal, View>, b: map<Signal, View>, s: Signal, v: View)
    requires s in a && !a[s].aborted && b == a[s := v] && v.aborted && v.followers == a[s].followers
    ensures Kept(a, b, Some(s)) && |Live(b)| < |Live(a)| && Spread(a, b, v.reason)
  {
    hide Live, Told;
    LiveShrinks(a, b, Some(s));
  }

  /** A user function of the dispatching signal s was called: `b'` is `b` with that noted, `c` is what it left. */
  lemma AfterScript(a: map<Signal, View>, b: map<Signal, View>, b': map<Signal, View>, c: map<Signal, View>,
                    s: Signal, r: Option<Reason>)
    requires Kept(a, b, Some(s)) && s in a && !a[s].aborted && s in b && b[s].aborted
    requires s in b' && b' == b[s := b[s].(fired := b'[s].fired)] && Kept(b', c, None)
    ensures Kept(a, c, Some(s)) && |Live(c)| <= |Live(b)| && Aborted(b) <= Aborted(c) && s in c && c[s] == b'[s]
    ensures Aborted(c) == Aborted(b') && Spread(a, b, r) ==> Spread(a, c, r)
  {
    hide Kept, Live, Aborted, Told, Steady, Spread;
    FiredOnly(a, b, b', s);
    KeptCompose(a, b', c, Some(s));
    LiveShrinks(b', c, None);
    SpreadSame(a, b, b', r);
    StaySame(b', c);
    SpreadSame(a, b', c, r);
  }

  /** A follower of the dispatching signal s was aborted. */
  lemma AfterFollower(a: map<Signal, View>, b: map<Signal, View>, c: map<Signal, View>, s: Signal, r: Option<Reason>)
    requires Kept(a, b, Some(s)) && s in b && b[s].aborted && Kept(b, c, None)
    ensures Kept(a, c, Some(s)) && |Live(c)| <= |Live(b)| && Aborted(b) <= Aborted(c) && s in c && c[s] == b[s]
    ensures Spread(a, b, r) && Spread(b, c, r) ==> Spread(a, c, r)
  {
    hide Kept, Live, Aborted, Told, Steady, Spread;
    KeptCompose(a, b, c, Some(s));
    LiveShrinks(b, c, None);
    StaySame(b, c);
    SpreadCompose(a, b, c, r);
  }

  /** `addEventListener`. */
  method AddListener(s: Signal, l: Listener, ghost u: set<Signal>)
    requires s in u && Valid(u) && ListenersWithin([l], u) && (l.Follower? ==> !s.aborted)
    modifies s`listeners
    ensures Valid(u) && Kept(old(Snap(u)), Snap(u), None)
    ensures s.listeners == old(s.listeners) + [l]
    ensures old(Calm(u)) && PassiveListeners([l]) ==> Calm(u)
    ensures Aborted(Snap(u)) == old(Aborted(Snap(u)))
  {
    hide Within, Passive, Children, Calls, Live, Aborted, Kept, Told;
    ChildrenPush(s.listeners, l);
    assert l in [l];
    ghost var a := Snap(u);
    s.listeners := s.listeners + [l];
    assert Snap(u) == a[s := a[s].(followers := Children(s.listeners))];
    OneWritten(a, Snap(u), s, Snap(u)[s]);
  }

  /** The filter of `removeEventListener`: every registration of the function goes. */
  function Without(ls: seq<Listener>, id: nat): (r: seq<Listener>)
    ensures forall l <- r :: l in ls
    ensures Children(r) == Children(ls)
  {
    if ls == [] then []
    else
      var rest := Without(ls[1..], id);
      if ls[0].Callback? && ls[0].id == id then rest
      else
        assert ([ls[0]] + rest)[1..] == rest;
        [ls[0]] + rest
  }

  /** The filter looks at each listener on its own: it drops the function's registrations and keeps all others. */
  lemma {:induction false} WithoutEach(a: seq<Listener>, l: Listener, b: seq<Listener>, id: nat)
    ensures Without(a + [l] + b, id) ==
            Without(a, id) + (if l.Callback? && l.id == id then [] else [l]) + Without(b, id)
  {
    if a == [] {
      assert ([l] + b)[1..] == b && [] + [l] + b == [l] + b;
    } else {
      assert (a + [l] + b)[1..] == a[1..] + [l] + b;
      WithoutEach(a[1..], l, b, id);
    }
  }

  /** `removeEventListener`. */
  method RemoveListener(s: Signal, id: nat, ghost u: set<Signal>)
    requires s in u && Valid(u)
    modifies s`listeners
    ensures Valid(u) && Kept(old(Snap(u)), Snap(u), None)
    ensures s.listeners == Without(old(s.listeners), id)
    ensures old(Calm(u)) ==> Calm(u)
    ensures Aborted(Snap(u)) == old(Aborted(Snap(u)))
  {
    hide Within, Passive, Children, Without, Live, Aborted, Kept, Told;
    ghost var a := Snap(u);
    s.listeners := Without(s.listeners, id);
    assert Snap(u) == a;
    OneWritten(a, a, s, a[s]);
  }

  /** `_follow`. */
  method Follow(child: Signal, parent: Signal, ghost u: set<Signal>)
    requires child in u && parent in u && Valid(u)
    modifies u
    ensures Valid(u) && Kept(old(Snap(u)), Snap(u), None)
    ensures if old(parent.aborted) then child.aborted else child in Children(parent.listeners)
    ensures old(parent.aborted) && !old(child.aborted) ==> child.reason == old(parent.reason)
    decreases |Live(Snap(u))|, 0, 1
  {
    if parent.aborted {
      SignalAbort(child, parent.reason, u);
    } else {
      ChildrenPush(parent.listeners, Follower(child));
      AddListener(parent, Follower(child), u);
    }
  }

  /** Only listeners are added and removed. */
  ghost predicate Editing(script: seq<Command>) {
    forall c <- script :: c.Listen? || c.Unlisten?
  }

  /** The listeners of s after such a script, command by command. */
  function Edited(ls: seq<Listener>, script: seq<Command>, s: Signal): seq<Listener> {
    if script == [] then ls
    else
      var n := |script| - 1;
      var before := Edited(ls, script[..n], s);
      match script[n]
      case Listen(x, id, body) => if x == s then before + [Callback(id, body)] else before
      case Unlisten(x, id) => if x == s then Without(before, id) else before
      case _ => before
  }

  lemma EditedPush(ls: seq<Listener>, script: seq<Command>, i: nat, s: Signal)
    requires i < |script|
    ensures Edited(ls, script[..i + 1], s) ==
            var before := Edited(ls, script[..i], s);
            if script[i].s != s then before
            else if script[i].Listen? then before + [Callback(script[i].id, script[i].script)]
            else if script[i].Unlisten? then Without(before, script[i].id) else before
  {
    assert script[..i + 1][..i] == script[..i];
  }

  lemma EditedNone(ls: seq<Listener>, script: seq<Command>, s: Signal)
    ensures Edited(ls, script[..0], s) == ls
  {
  }

  /** A command that was just run is done. */
  lemma JustDone(c: Command, b: map<Signal, View>, u: set<Signal>)
    requires Within([c], u) && Kept(b, Snap(u), None)
    requires c.AbortIt? ==> c.s.aborted
    requires c.FollowIt? ==> c.s.aborted || c.s in Children(c.parent.listeners)
    ensures CommandDone(c, Snap(u))
  {
    hide Kept, Children;
    assert c in [c];
  }

  /** A user function: the calls it makes, in order. */
  method Run(script: seq<Command>, ghost u: set<Signal>)
    requires Within(script, u) && Valid(u)
    modifies u
    ensures Valid(u) && Kept(old(Snap(u)), Snap(u), None)
    ensures old(Calm(u)) && Passive(script) ==> Calm(u) && Aborted(Snap(u)) == old(Aborted(Snap(u)))
    ensures Ran(script, Snap(u))
    ensures Editing(script) ==> forall x <- u :: x.listeners == Edited(old(x.listeners), script, x)
    decreases |Live(Snap(u))|, 1
  {
    hide Kept, Live, Aborted, Told, Steady, Children, Calls, Spread, Calm, CommandDone, Edited, Without;
    ghost var a := Snap(u);
    KeptRefl(a);
    var i := 0;
    forall x <- u
      ensures x.listeners == Edited(old(x.listeners), script[..i], x)
    {
      EditedNone(x.listeners, script, x);
    }
    while i < |script|
      invariant 0 <= i <= |script| && Valid(u) && Kept(a, Snap(u), None)
      invariant forall j :: 0 <= j < i ==> CommandDone(script[j], Snap(u))
      invariant Editing(script) ==> forall x <- u :: x.listeners == Edited(old(x.listeners), script[..i], x)
      invariant old(Calm(u)) && Passive(script) ==> Calm(u) && Aborted(Snap(u)) == old(Aborted(Snap(u)))
    {
      ghost var b := Snap(u);
      LiveShrinks(a, b, None);
      var c := script[i];
      forall x <- u
        ensures Edited(old(x.listeners), script[..i + 1], x) ==
                var before := Edited(old(x.listeners), script[..i], x);
                if c.s != x then before
                else if c.Listen? then before + [Callback(c.id, c.script)]
                else if c.Unlisten? then Without(before, c.id) else before
      {
        EditedPush(old(x.listeners), script, i, x);
      }
      match c {
        case AbortIt(s, why) => SignalAbort(s, why, u);
        case Listen(s, id, body) => AddListener(s, Callback(id, body), u);
        case Unlisten(s, id) => RemoveListener(s, id, u);
        case FollowIt(s, parent) => Follow(s, parent, u);
      }
      KeptCompose(a, b, Snap(u), None);
      KeptGrows(b, Snap(u), None);
      RanStays(b, Snap(u));
      JustDone(c, b, u);
      i := i + 1;
    }
    assert script[..i] == script;
  }

  /** The `onabort` handler of a dispatching signal. */
  method Handle(s: Signal, ghost a: map<Signal, View>, ghost u: set<Signal>)
    requires s in u && Valid(u) && s.aborted
    requires Kept(a, Snap(u), Some(s)) && s in a && !a[s].aborted
    modifies u
    ensures Valid(u) && Kept(a, Snap(u), Some(s))
    ensures s.aborted && s.reason == old(s.reason)
    ensures s.fired == old(s.fired) + if old(s.onabort).Some? then [Handler] else []
    ensures old(s.onabort).Some? ==> Ran(old(s.onabort).value, Snap(u))
    ensures old(s.onabort).None? ==> s.listeners == old(s.listeners)
    ensures |Live(Snap(u))| <= old(|Live(Snap(u))|)
    ensures old(Calm(u)) && Spread(a, old(Snap(u)), s.reason) ==> Calm(u) && Spread(a, Snap(u), s.reason)
    decreases |Live(Snap(u))|, 2, 0
  {
    hide Kept, Live, Aborted, Told, Steady, Children, Calls, Spread, Passive, Within, ListenersWithin, Snap, Ran;
    if s.onabort.Some? {
      var script := s.onabort.value;
      ViewOf(s, u);
      ghost var b := Snap(u);
      Note(s, Handler, u);
      ViewOf(s, u);
      ghost var b' := Snap(u);
      FiredOnly(a, b, b', s);
      Run(script, u);
      ViewOf(s, u);
      AfterScript(a, b, b', Snap(u), s, b[s].reason);
    }
  }

  lemma ToldLast(a: map<Signal, View>, b: map<Signal, View>, s: Signal)
    requires Kept(a, b, Some(s)) && s in b && b[s].followers <= Aborted(b)
    ensures Kept(a, b, None)
  {
  }

  lemma FollowersAre(s: Signal, u: set<Signal>)
    requires s in u
    ensures s in Snap(u) && Snap(u)[s].followers == Children(s.listeners)
  {
  }

  lemma GrowsRefl(m: map<Signal, View>)
    ensures Grows(m, m)
  {
  }

  lemma AllRanPush(ls: seq<Listener>, i: nat, m: map<Signal, View>)
    requires i < |ls| && AllRan(ls[..i], m) && (ls[i].Callback? ==> Ran(ls[i].script, m))
    ensures AllRan(ls[..i + 1], m)
  {
    hide Ran;
    assert ls[..i + 1] == ls[..i] + [ls[i]];
  }

  lemma NoneYet(ls: seq<Listener>)
    ensures Children(ls[..0]) == {} && Calls(ls[..0]) == [] && forall m :: AllRan(ls[..0], m)
  {
  }

  lemma OneWithin(ls: seq<Listener>, i: nat, u: set<Signal>)
    requires i < |ls| && ListenersWithin(ls, u)
    ensures ListenersWithin([ls[i]], u)
    ensures PassiveListeners(ls) ==> PassiveListeners([ls[i]])
  {
  }

  /** The loop over the snapshot `list` of the listeners. */
  method CallAll(s: Signal, list: seq<Listener>, ghost a: map<Signal, View>, ghost u: set<Signal>)
    requires s in u && Valid(u) && s.aborted && ListenersWithin(list, u) && Children(s.listeners) == Children(list)
    requires Kept(a, Snap(u), Some(s)) && s in a && !a[s].aborted
    modifies u
    ensures Valid(u) && Kept(a, Snap(u), Some(s))
    ensures s.aborted && s.reason == old(s.reason) && s.fired == old(s.fired) + Calls(list)
    ensures Children(s.listeners) == Children(list) <= Aborted(Snap(u))
    ensures Grows(old(Snap(u)), Snap(u)) && AllRan(list, Snap(u))
    ensures old(Calm(u)) && PassiveListeners(list) && Spread(a, old(Snap(u)), s.reason) ==>
              Calm(u) && Spread(a, Snap(u), s.reason)
    decreases |Live(Snap(u))|, 3
  {
    hide Kept, Live, Aborted, Within, Told, Steady, Children, Calls, Spread, Passive, Grows, Ran, AllRan;
    hide Valid, ListenersWithin, Calm, PassiveListeners, Snap;
    NoneYet(list);
    GrowsRefl(Snap(u));
    var i := 0;
    while i < |list|
      invariant 0 <= i <= |list| && Valid(u) && Kept(a, Snap(u), Some(s)) && s.aborted && s.reason == old(s.reason)
      invariant Children(s.listeners) == Children(list)
      invariant |Live(Snap(u))| <= old(|Live(Snap(u))|)
      invariant s.fired == old(s.fired) + Calls(list[..i])
      invariant Children(list[..i]) <= Aborted(Snap(u))
      invariant Grows(old(Snap(u)), Snap(u)) && AllRan(list[..i], Snap(u))
      invariant old(Calm(u)) && PassiveListeners(list) && Spread(a, old(Snap(u)), s.reason) ==>
                  Calm(u) && Spread(a, Snap(u), s.reason)
    {
      PrefixStep(list, i);
      OneWithin(list, i, u);
      ghost var b := Snap(u);
      Call(s, list[i], a, u);
      RanStays(b, Snap(u));
      AllRanPush(list, i, Snap(u));
      GrowsCompose(old(Snap(u)), b, Snap(u));
      i := i + 1;
    }
    assert list[..i] == list;
  }

  /** What a dispatch called and ran: the handler first, then the listeners there were; the handler may have
      changed those. */
  ghost predicate HandlerThen(was: seq<Fired>, handler: Option<seq<Command>>, listeners: seq<Listener>,
                              now: seq<Fired>, m: map<Signal, View>) {
    if handler.None? then now == was + Calls(listeners) && AllRan(listeners, m)
    else was + [Handler] <= now && Ran(handler.value, m)
  }

  /** `dispatchEvent` on a signal that has just been aborted, `a` being how things were before
      that: the handler, then a snapshot of the listeners, in order. */
  method Dispatch(s: Signal, ghost a: map<Signal, View>, ghost u: set<Signal>)
    requires s in u && Valid(u) && s.aborted
    requires Kept(a, Snap(u), Some(s)) && s in a && !a[s].aborted
    modifies u
    ensures Valid(u) && Kept(a, Snap(u), None)
    ensures s.aborted && s.reason == old(s.reason)
    ensures HandlerThen(old(s.fired), old(s.onabort), old(s.listeners), s.fired, Snap(u))
    ensures old(Calm(u)) && Spread(a, old(Snap(u)), s.reason) ==> Calm(u) && Spread(a, Snap(u), s.reason)
    decreases |Live(Snap(u))|, 4
  {
    hide Kept, Live, Aborted, Within, Told, Steady, Children, Calls, Spread, Passive, Grows, Ran, AllRan;
    Handle(s, a, u);
    var list := s.listeners;
    ghost var b := Snap(u);
    CallAll(s, list, a, u);
    RanStays(b, Snap(u));
    FollowersAre(s, u);
    ToldLast(a, Snap(u), s);
  }

  lemma Single(l: Listener, u: set<Signal>)
    ensures Children([l]) == if l.Follower? then {l.child} else {}
    ensures Calls([l]) == if l.Callback? then [Function(l.id)] else []
    ensures ListenersWithin([l], u) ==> if l.Callback? then Within(l.script, u) else l.child in u
    ensures PassiveListeners([l]) && l.Callback? ==> Passive(l.script)
  {
    hide Within, Passive;
    assert l in [l];
  }

  /** Notes that a user function is called. */
  ghost method Note(s: Signal, f: Fired, u: set<Signal>)
    requires s in u && Valid(u)
    modifies s`fired
    ensures Valid(u) && (old(Calm(u)) ==> Calm(u)) && s.fired == old(s.fired) + [f]
    ensures s in Snap(u) && s in old(Snap(u))
    ensures Snap(u) == old(Snap(u))[s := old(Snap(u))[s].(fired := Snap(u)[s].fired)]
  {
    hide Within, Passive, Children;
    s.fired := s.fired + [f];
  }

  /** What a signal of the graph looks like is its view. */
  lemma ViewOf(s: Signal, u: set<Signal>)
    requires s in u
    ensures s in Snap(u) && Snap(u)[s] == View(s.aborted, s.reason, s.fired, Children(s.listeners))
    ensures Valid(u) ==> (s.aborted <==> s.reason.Some?)
  {
  }

  /** One listener of a dispatching signal. */
  method Call(s: Signal, l: Listener, ghost a: map<Signal, View>, ghost u: set<Signal>)
    requires s in u && Valid(u) && s.aborted && ListenersWithin([l], u)
    requires Kept(a, Snap(u), Some(s)) && s in a && !a[s].aborted
    modifies u
    ensures Valid(u) && Kept(a, Snap(u), Some(s))
    ensures s.aborted && s.reason == old(s.reason) && Children(s.listeners) == old(Children(s.listeners))
    ensures s.fired == old(s.fired) + Calls([l])
    ensures Children([l]) + old(Aborted(Snap(u))) <= Aborted(Snap(u))
    ensures |Live(Snap(u))| <= old(|Live(Snap(u))|)
    ensures Grows(old(Snap(u)), Snap(u)) && (l.Callback? ==> Ran(l.script, Snap(u)))
    ensures old(Calm(u)) && PassiveListeners([l]) && Spread(a, old(Snap(u)), s.reason) ==>
              Calm(u) && Spread(a, Snap(u), s.reason)
    decreases |Live(Snap(u))|, 2, 0
  {
    hide Kept, Live, Aborted, Within, Told, Steady, Children, Calls, Spread, Passive, Grows, Ran;
    hide Valid, ListenersWithin, Calm, PassiveListeners, Snap;
    Single(l, u);
    ViewOf(s, u);
    ghost var b := Snap(u);
    match l {
      case Callback(id, script) =>
        Note(s, Function(id), u);
        ViewOf(s, u);
        ghost var b' := Snap(u);
        FiredOnly(a, b, b', s);
        Run(script, u);
        ViewOf(s, u);
        AfterScript(a, b, b', Snap(u), s, b[s].reason);
        KeptGrows(b', Snap(u), None);
        NoteGrows(b, b', Snap(u), s);
      case Follower(child) =>
        SignalAbort(child, s.reason, u);
        KeptGrows(b, Snap(u), None);
        ViewOf(s, u);
        AfterFollower(a, b, Snap(u), s, b[s].reason);
        ViewOf(child, u);
        IsAborted(Snap(u), child);
    }
  }

  /** `_signalAbort`. */
  method SignalAbort(s: Signal, why: Option<Reason>, ghost u: set<Signal>)
    requires s in u && Valid(u)
    modifies u
    ensures Valid(u) && Kept(old(Snap(u)), Snap(u), None)
    ensures s.aborted
    ensures !old(s.aborted) ==> s.reason == Some(if why.Some? then why.value else AbortError)
    ensures !old(s.aborted) ==> HandlerThen(old(s.fired), old(s.onabort), old(s.listeners), s.fired, Snap(u))
    ensures old(Calm(u)) ==> Calm(u) && Spread(old(Snap(u)), Snap(u), Some(if why.Some? then why.value else AbortError))
    decreases |Live(Snap(u))|, 0, 0
  {
    hide ListenersWithin, Within, Children, Calls, Passive, PassiveListeners, Kept, Live, Told, Steady, Spread,
      HandlerThen;
    ghost var a := Snap(u);
    if s.aborted {
      KeptRefl(a);
      SpreadRefl(a);
      return;
    }
    s.aborted := true;
    s.reason := Some(if why.Some? then why.value else AbortError);
    assert Snap(u) == a[s := a[s].(aborted := true, reason := s.reason)];
    JustAborted(a, Snap(u), s, Snap(u)[s]);
    Dispatch(s, a, u);
  }

  // ---------------------------------------------------------------- at quiescence

  /** No follower of an aborted signal is left unaborted. */
  ghost predicate Quiescent(m: map<Signal, View>) {
    forall x <- m | m[x].aborted :: Told(x, m)
  }

  /** `AbortController.abort`, and `AbortSignal.abort` on a new signal: whatever the graph, it
      ends, and it leaves the graph quiescent. */
  method Abort(s: Signal, why: Option<Reason>, ghost u: set<Signal>)
    requires s in u && Valid(u) && Quiescent(Snap(u))
    modifies u
    ensures Valid(u) && Quiescent(Snap(u)) && Kept(old(Snap(u)), Snap(u), None)
    ensures s.aborted
    ensures !old(s.aborted) ==>
              && s.reason == Some(if why.Some? then why.value else AbortError)
              && HandlerThen(old(s.fired), old(s.onabort), old(s.listeners), s.fired, Snap(u))
    ensures old(Calm(u)) ==> Spread(old(Snap(u)), Snap(u), Some(if why.Some? then why.value else AbortError))
  {
    hide HandlerThen;
    ghost var a := Snap(u);
    SignalAbort(s, why, u);
    QuiescentKept(a, Snap(u));
  }

  lemma QuiescentKept(a: map<Signal, View>, b: map<Signal, View>)
    requires Quiescent(a) && Kept(a, b, None)
    ensures Quiescent(b)
  {
    forall x <- b | b[x].aborted ensures Told(x, b) {
      if a[x].aborted {
        assert Told(x, a);
      }
    }
  }

  /** Each signal of the chain follows the one before it. */
  ghost predicate Chain(m: map<Signal, View>, p: seq<Signal>) {
    && p != []
    && p[0] in m
    && forall i: nat :: i + 1 < |p| ==> p[i] in m && p[i + 1] in m[p[i]].followers
  }

  /** Every transitive follower of an aborted signal is aborted. */
  lemma {:induction false} TransitiveFollowersAborted(m: map<Signal, View>, p: seq<Signal>, i: nat)
    requires Quiescent(m) && Chain(m, p) && m[p[0]].aborted && i < |p|
    ensures p[i] in m && m[p[i]].aborted
  {
    if i > 0 {
      TransitiveFollowersAborted(m, p, i - 1);
      assert Told(p[i - 1], m);
    }
  }
}
