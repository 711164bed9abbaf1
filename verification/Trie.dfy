/**
 The trie router shipped in src/js/hono.bundle.js (`Node2`), for routes made of static, `:name`
 and `*` segments.  Nodes live in one growing sequence and refer to each other by index.
 */
module Trie {
  type Path = seq<string>

  datatype Entry = Entry(meth: string, handler: nat, score: nat)

  datatype Node = Node(children: map<string, nat>, patterns: seq<string>, methods: seq<Entry>)

  datatype Route = Route(meth: string, parts: seq<string>, handler: nat)

  /** The method searched for, and the names that every ordinary object inherits. */
  datatype Lookup = Lookup(meth: string, inherited: set<string>)

  /** What one entry is found to hold: its own handler set, or an inherited member without one. */
  datatype HandlerSet = Own(entry: Entry) | Member

  datatype Outcome = Returned(sets: seq<HandlerSet>) | TypeError

  const STAR := "*"

  const ALL := "ALL"

  // ---- Paths and labels ------------------------------------------------------------------

  /** `path.split("/")`. */
  function Split(path: string): (r: seq<string>)
    ensures |r| >= 1
  {
    if path == [] then [[]]
    else
      var rest := Split(path[1..]);
      if path[0] == '/' then [[]] + rest else [[path[0]] + rest[0]] + rest[1..]
  }

  /** A brace pair with something inside, which would be kept whole when the path is split and may hold a regular
      expression.  Other braces are characters of static labels. */
  ghost predicate HasGroup(path: string) {
    exists i, j :: 0 <= i && i + 1 < j < |path| && path[i] == '{' && path[j] == '}'
  }

  /** `splitPath`: a leading slash does not make an empty first segment. */
  function SplitPath(path: string): seq<string> {
    var paths := Split(path);
    if paths[0] == "" then paths[1..] else paths
  }

  predicate Slashless(pieces: seq<string>) {
    forall i :: 0 <= i < |pieces| ==> '/' !in pieces[i]
  }

  function Join(pieces: seq<string>): string
    requires pieces != []
  {
    if |pieces| == 1 then pieces[0] else pieces[0] + "/" + Join(pieces[1..])
  }

  /** The pieces hold no slash, and joined with slashes they are the path. */
  lemma {:induction false} JoinOfSplit(path: string)
    ensures Slashless(Split(path)) && Join(Split(path)) == path
  {
    if path != [] {
      var rest := Split(path[1..]);
      JoinOfSplit(path[1..]);
      if path[0] == '/' {
        assert ([[]] + rest)[1..] == rest;
        assert [] + "/" + Join(rest) == path;
      } else {
        JoinFirst([path[0]], rest);
        assert [path[0]] + path[1..] == path;
      }
    }
  }

  lemma JoinFirst(s: string, rest: seq<string>)
    requires rest != []
    ensures Join([s + rest[0]] + rest[1..]) == s + Join(rest)
  {
    hide Join;
    var all := [s + rest[0]] + rest[1..];
    JoinStep(all);
    JoinStep(rest);
    assert all[1..] == rest[1..];
    if |rest| > 1 {
      Regrouped(s, rest[0], Join(rest[1..]));
    }
  }

  lemma JoinStep(pieces: seq<string>)
    requires pieces != []
    ensures Join(pieces) == if |pieces| == 1 then pieces[0] else pieces[0] + "/" + Join(pieces[1..])
  {
  }

  lemma Regrouped(a: string, b: string, c: string)
    ensures (a + b) + "/" + c == a + (b + "/" + c)
  {
  }

  /** And no other list of pieces does that. */
  lemma {:induction false} SplitOfJoin(pieces: seq<string>)
    requires pieces != [] && Slashless(pieces)
    ensures Split(Join(pieces)) == pieces
    decreases |pieces|, |pieces[0]|
  {
    var p, path := pieces[0], Join(pieces);
    if p == [] && |pieces| > 1 {
      SplitOfJoin(pieces[1..]);
      assert path[1..] == Join(pieces[1..]);
    } else if p != [] {
      var rest := [p[1..]] + pieces[1..];
      assert forall i :: 0 < i < |rest| ==> rest[i] == pieces[i];
      assert '/' !in rest[0];
      SplitOfJoin(rest);
      assert p == [p[0]] + p[1..] && rest[1..] == pieces[1..];
      JoinFirst([p[0]], rest);
      assert path == [p[0]] + Join(rest) && path[1..] == Join(rest) && path[0] == p[0];
      assert p[0] in p;
    }
  }

  /** The segments of a path: the pieces between its slashes, where a leading slash is not one of them. */
  lemma SegmentsOf(path: string)
    ensures Slashless(SplitPath(path)) && (SplitPath(path) == [] <==> path == "")
    ensures path != "" ==> Join(SplitPath(path)) == if path[0] == '/' then path[1..] else path
  {
    hide Split;
    JoinOfSplit(path);
    var ps := Split(path);
    if |ps| > 1 {
      assert path == ps[0] + "/" + Join(ps[1..]);
    }
  }

  /** Any pieces are the segments of the path they make after a slash. */
  lemma SegmentsAre(pieces: seq<string>)
    requires pieces != [] && Slashless(pieces)
    ensures SplitPath("/" + Join(pieces)) == pieces
    ensures pieces[0] != "" ==> SplitPath(Join(pieces)) == pieces
  {
    hide Split;
    var all := [""] + pieces;
    assert all[1..] == pieces && Join(all) == "" + "/" + Join(pieces) == "/" + Join(pieces);
    SplitOfJoin(all);
    SplitOfJoin(pieces);
  }

  /** `getPattern` for labels without a `{regex}` part: a named parameter.  A label with stray braces is static. */
  predicate IsParam(seg: string) {
    |seg| >= 2 && seg[0] == ':' && '{' !in seg && '}' !in seg
  }

  /** A parameter is a colon and a name of at least one character, none of which is a brace. */
  lemma ParamLabels(name: string, c: char)
    ensures IsParam([':'] + name) <==> name != [] && '{' !in name && '}' !in name
    ensures c != ':' ==> !IsParam([c] + name)
    ensures !IsParam([])
  {
  }

  predicate IsPattern(seg: string) {
    seg == STAR || IsParam(seg)
  }

  /** A `*` takes any segment, a `:name` any segment but the empty one, a static label only itself. */
  predicate LabelMatches(seg: string, part: string) {
    seg == STAR || (if IsParam(seg) then part != "" else seg == part)
  }

  lemma LabelsMean(seg: string, part: string)
    ensures LabelMatches("*", part)
    ensures IsParam(seg) ==> (LabelMatches(seg, part) <==> part != [])
    ensures seg != "*" && !IsParam(seg) ==> (LabelMatches(seg, part) <==> seg == part)
  {
  }

  ghost predicate PathMatches(labels: seq<string>, parts: seq<string>) {
    |labels| == |parts| && forall i :: 0 <= i < |labels| ==> LabelMatches(labels[i], parts[i])
  }

  /** What it means for a route to match a path, with no trie in sight. */
  ghost predicate RouteMatches(route: seq<string>, parts: seq<string>) {
    route != [] &&
    if route[|route| - 1] == STAR then
      var stem := route[..|route| - 1];
      || (|stem| < |parts| && PathMatches(stem, parts[..|stem|]))
      || (PathMatches(stem, parts) && stem != [] && stem[|stem| - 1] != STAR)
    else
      PathMatches(route, parts)
  }

  /** What the search finds: also a star after a star taking no segment, when the last segment is literally a star. */
  ghost predicate Found(route: seq<string>, parts: seq<string>) {
    || RouteMatches(route, parts)
    || (|route| >= 2 && route[|route| - 1] == STAR
        && PathMatches(route[..|route| - 1], parts) && parts[|parts| - 1] == STAR)
  }

  /** In how many ways a segment leads from a node to its child under this label: as the static child, and through
      the pattern list. */
  function Step(seg: string, part: string): nat {
    (if seg == part then 1 else 0) + (if IsPattern(seg) && LabelMatches(seg, part) then 1 else 0)
  }

  /** In how many ways the segments lead to the node with these labels. */
  function Ways(labels: seq<string>, parts: seq<string>): nat {
    if |labels| != |parts| then 0
    else if labels == [] then 1
    else
      var n := |labels| - 1;
      Ways(labels[..n], parts[..n]) * Step(labels[n], parts[n])
  }

  /** How often a node pushes its child under this label, or the star child of that child. */
  function Pushed(seg: string, part: string, isLast: bool, deeper: bool): nat {
    (if isLast && seg == part then 1 else 0)
      + (if IsPattern(seg) && (if seg == STAR then !deeper else part != "" && isLast) then 1 else 0)
  }

  /** How often the search finds a route. */
  function Times(route: seq<string>, parts: seq<string>): nat {
    var n := |route|;
    if n == 0 then 0
    else if n <= |parts| then
      Ways(route[..n - 1], parts[..n - 1]) * Pushed(route[n - 1], parts[n - 1], n == |parts|, false)
    else if n == |parts| + 1 && n >= 2 && route[n - 1] == STAR then
      Ways(route[..n - 2], parts[..n - 2]) * Pushed(route[n - 2], parts[n - 2], true, true)
    else 0
  }

  /** A segment is literally the pattern label in its place. */
  ghost predicate Literal(labels: seq<string>, parts: seq<string>) {
    exists i :: 0 <= i < |labels| && i < |parts| && IsPattern(labels[i]) && labels[i] == parts[i]
  }

  /** A found route is found more than once: a segment that led to it, or the last one, is literally a pattern label. */
  ghost predicate Repeats(route: seq<string>, parts: seq<string>) {
    var n := |route|;
    if n == 0 then false
    else if n <= |parts| then
      Literal(route[..n - 1], parts[..n - 1])
      || (n == |parts| && IsPattern(route[n - 1]) && route[n - 1] == parts[n - 1])
    else if n == |parts| + 1 && n >= 2 then
      Literal(route[..n - 2], parts[..n - 2]) || (IsParam(route[n - 2]) && route[n - 2] == parts[n - 2])
    else false
  }

  /** When an entry is meant to answer a method. */
  predicate Answers(e: Entry, meth: string) {
    e.meth == meth || e.meth == ALL
  }

  lemma AnswersMean(e: Entry, meth: string)
    ensures e.meth == "ALL" ==> Answers(e, meth)
    ensures e.meth != "ALL" ==> (Answers(e, meth) <==> e.meth == meth)
  {
  }

  /** The entry was filed for another method, but its object inherits a member of that name. */
  predicate Foreign(e: Entry, look: Lookup) {
    e.meth != look.meth && look.meth in look.inherited
  }

  /** `m[method] || m[METHOD_NAME_ALL]` is something. */
  predicate Reads(e: Entry, look: Lookup) {
    Answers(e, look.meth) || Foreign(e, look)
  }

  /** And what it is. */
  function SetOf(e: Entry, look: Lookup): HandlerSet {
    if Foreign(e, look) then Member else Own(e)
  }

  function Sets(es: seq<Entry>, look: Lookup): (r: seq<HandlerSet>)
    ensures |r| == |es|
  {
    seq(|es|, i requires 0 <= i < |es| => SetOf(es[i], look))
  }

  function Owns(es: seq<Entry>): (r: seq<HandlerSet>)
    ensures |r| == |es|
  {
    seq(|es|, i requires 0 <= i < |es| => Own(es[i]))
  }

  ghost predicate NoDup<T>(s: seq<T>) {
    forall i, j :: 0 <= i < j < |s| ==> s[i] != s[j]
  }

  /** e is the entry of one of the routes: the score is its position, counted from 1. */
  ghost predicate IsEntry(routes: seq<Route>, e: Entry) {
    1 <= e.score <= |routes| && e == Entry(routes[e.score - 1].meth, routes[e.score - 1].handler, e.score)
  }

  // ---- The node structure ----------------------------------------------------------------

  /** Where x first occurs in s; that every element is its own first occurrence says that none repeats. */
  ghost function IndexOf<T>(s: seq<T>, x: T): nat {
    if s == [] || s[0] == x then 0 else 1 + IndexOf(s[1..], x)
  }

  lemma {:induction false} IndexOfSnoc<T>(s: seq<T>, y: T, x: T)
    ensures x in s ==> IndexOf(s + [y], x) == IndexOf(s, x)
    ensures x !in s && x == y ==> IndexOf(s + [y], x) == |s|
  {
    if s != [] {
      IndexOfSnoc(s[1..], y, x);
      assert (s + [y])[1..] == s[1..] + [y];
    }
  }

  /** Each node sits at its own path, is a child of its parent under its last label, and all children are nodes. */
  ghost predicate Shape(nodes: seq<Node>, paths: seq<Path>, parents: seq<nat>) {
    && |nodes| == |paths| == |parents| && |nodes| > 0 && paths[0] == []
    && (forall n, k {:trigger k in nodes[n].children} :: 0 <= n < |nodes| && k in nodes[n].children ==>
          nodes[n].children[k] < |nodes| && paths[nodes[n].children[k]] == paths[n] + [k])
    && (forall n :: 0 <= n < |nodes| ==> IndexOf(paths, paths[n]) == n)
    && (forall c {:trigger ParentOf(nodes, paths, parents[c], c)} :: 0 < c < |nodes| ==>
        ParentOf(nodes, paths, parents[c], c))
    && (forall n {:trigger PatternsOf(nodes[n])} :: 0 <= n < |nodes| ==> PatternsOf(nodes[n]))
  }

  ghost predicate ParentOf(nodes: seq<Node>, paths: seq<Path>, p: nat, c: nat)
    requires c < |nodes| == |paths|
  {
    && p < |nodes| && paths[c] != [] && paths[p] == paths[c][..|paths[c]| - 1]
    && paths[c][|paths[c]| - 1] in nodes[p].children && nodes[p].children[paths[c][|paths[c]| - 1]] == c
  }

  /** The pattern list of a node names exactly its pattern children, once each. */
  ghost predicate PatternsOf(n: Node) {
    NoDup(n.patterns) && forall k :: k in n.patterns <==> k in n.children && IsPattern(k)
  }

  /** The entries at a node are the routes with exactly the node's path, and every route has its node. */
  ghost predicate Holds(nodes: seq<Node>, paths: seq<Path>, routes: seq<Route>)
    requires |nodes| == |paths|
  {
    && (forall n :: 0 <= n < |nodes| ==> NoDup(nodes[n].methods))
    && (forall n, e :: 0 <= n < |nodes| ==>
          (e in nodes[n].methods <==> IsEntry(routes, e) && routes[e.score - 1].parts == paths[n]))
    && (forall r :: 0 <= r < |routes| ==> routes[r].parts in paths)
  }

  /** The child of n under label k, seen from the path of the child. */
  lemma ChildAt(nodes: seq<Node>, paths: seq<Path>, parents: seq<nat>, n: nat, k: string)
    requires Shape(nodes, paths, parents) && n < |nodes|
    ensures paths[n] + [k] in paths <==> k in nodes[n].children
    ensures forall c :: 0 <= c < |nodes| && paths[c] == paths[n] + [k] ==>
        k in nodes[n].children && nodes[n].children[k] == c
  {
    forall c | 0 <= c < |nodes| && paths[c] == paths[n] + [k]
      ensures k in nodes[n].children && nodes[n].children[k] == c
    {
      assert c != 0;
      assert ParentOf(nodes, paths, parents[c], c);
      assert paths[c][..|paths[c]| - 1] == paths[n];
    }
  }

  /** `curNode.#children[key] = new _Node2()`, with the pattern remembered. */
  function Grown(nodes: seq<Node>, cur: nat, key: string): seq<Node>
    requires cur < |nodes|
  {
    var n := nodes[cur];
    nodes[cur := Node(n.children[key := |nodes|], if IsPattern(key) then n.patterns + [key] else n.patterns, n.methods)]
      + [Node(map[], [], [])]
  }

  lemma GrownPatterns(n: Node, key: string, c: nat)
    requires PatternsOf(n) && key !in n.children
    ensures PatternsOf(Node(n.children[key := c], if IsPattern(key) then n.patterns + [key] else n.patterns, n.methods))
  {
    hide IsPattern;
  }

  lemma NoPatterns()
    ensures PatternsOf(Node(map[], [], []))
  {
  }

  lemma GrownChildren(nodes: seq<Node>, paths: seq<Path>, parents: seq<nat>, cur: nat, key: string, n: nat, k: string)
    requires Shape(nodes, paths, parents) && cur < |nodes| && key !in nodes[cur].children
    requires var nodes' := Grown(nodes, cur, key); n < |nodes'| && k in nodes'[n].children
    ensures var nodes', paths' := Grown(nodes, cur, key), paths + [paths[cur] + [key]];
            nodes'[n].children[k] < |nodes'| && paths'[nodes'[n].children[k]] == paths'[n] + [k]
  {
    hide IndexOf, PatternsOf, ParentOf, IsPattern;
  }

  lemma GrownShape(nodes: seq<Node>, paths: seq<Path>, parents: seq<nat>, cur: nat, key: string)
    requires Shape(nodes, paths, parents) && cur < |nodes| && key !in nodes[cur].children
    ensures Shape(Grown(nodes, cur, key), paths + [paths[cur] + [key]], parents + [cur])
  {
    hide IndexOf, PatternsOf, IsPattern;
    ChildAt(nodes, paths, parents, cur, key);
    var nodes', paths', parents' := Grown(nodes, cur, key), paths + [paths[cur] + [key]], parents + [cur];
    forall n, k | 0 <= n < |nodes'| && k in nodes'[n].children
      ensures nodes'[n].children[k] < |nodes'| && paths'[nodes'[n].children[k]] == paths'[n] + [k]
    {
      GrownChildren(nodes, paths, parents, cur, key, n, k);
    }
    forall c | 0 < c < |nodes'|
      ensures ParentOf(nodes', paths', parents'[c], c)
    {
      if c < |nodes| {
        assert ParentOf(nodes, paths, parents[c], c);
      }
    }
    NoPatterns();
    GrownPatterns(nodes[cur], key, |nodes|);
    forall n | 0 <= n < |nodes'|
      ensures PatternsOf(nodes'[n])
    {
      if n < |nodes| {
        assert PatternsOf(nodes[n]);
      }
    }
    forall n | 0 <= n < |nodes'|
      ensures IndexOf(paths', paths'[n]) == n
    {
      IndexOfSnoc(paths, paths[cur] + [key], paths'[n]);
    }
  }

  lemma GrownHolds(nodes: seq<Node>, paths: seq<Path>, cur: nat, key: string, routes: seq<Route>)
    requires |nodes| == |paths| && cur < |nodes| && Holds(nodes, paths, routes) && paths[cur] + [key] !in paths
    ensures Holds(Grown(nodes, cur, key), paths + [paths[cur] + [key]], routes)
  {
    var nodes', path := Grown(nodes, cur, key), paths[cur] + [key];
    forall e | IsEntry(routes, e)
      ensures routes[e.score - 1].parts != path
    {
      assert routes[e.score - 1].parts in paths;
    }
    assert forall n :: 0 <= n < |nodes| ==> nodes'[n].methods == nodes[n].methods;
  }

  /** `curNode.#methods.push(...)` with the next score. */
  function Filed(nodes: seq<Node>, cur: nat, e: Entry): seq<Node>
    requires cur < |nodes|
  {
    nodes[cur := nodes[cur].(methods := nodes[cur].methods + [e])]
  }

  lemma FiledShape(nodes: seq<Node>, paths: seq<Path>, parents: seq<nat>, cur: nat, e: Entry)
    requires Shape(nodes, paths, parents) && cur < |nodes|
    ensures Shape(Filed(nodes, cur, e), paths, parents)
  {
    var nodes' := Filed(nodes, cur, e);
    forall c | 0 < c < |nodes'|
      ensures ParentOf(nodes', paths, parents[c], c)
    {
      assert ParentOf(nodes, paths, parents[c], c);
    }
    forall n | 0 <= n < |nodes'|
      ensures PatternsOf(nodes'[n])
    {
      assert PatternsOf(nodes[n]);
    }
  }

  lemma FiledNoDup(nodes: seq<Node>, paths: seq<Path>, cur: nat, routes: seq<Route>, e: Entry)
    requires |nodes| == |paths| && Holds(nodes, paths, routes) && cur < |nodes| && e.score == |routes| + 1
    ensures |Filed(nodes, cur, e)| == |nodes| && forall n :: 0 <= n < |nodes| ==> NoDup(Filed(nodes, cur, e)[n].methods)
  {
    var ms := nodes[cur].methods;
    forall i | 0 <= i < |ms|
      ensures ms[i] != e
    {
      assert ms[i] in ms;
    }
  }

  lemma FiledEntry(nodes: seq<Node>, paths: seq<Path>, cur: nat, routes: seq<Route>, r: Route, n: nat, x: Entry)
    requires |nodes| == |paths| && Holds(nodes, paths, routes) && cur < |nodes| && r.parts == paths[cur]
    requires n < |nodes| && (paths[n] == paths[cur] ==> n == cur)
    ensures var e, routes' := Entry(r.meth, r.handler, |routes| + 1), routes + [r];
            x in Filed(nodes, cur, e)[n].methods <==> IsEntry(routes', x) && routes'[x.score - 1].parts == paths[n]
  {
    hide NoDup;
    var e, routes' := Entry(r.meth, r.handler, |routes| + 1), routes + [r];
    assert IsEntry(routes', x) <==> IsEntry(routes, x) || x == e;
    assert IsEntry(routes, x) ==> routes'[x.score - 1] == routes[x.score - 1];
    assert x in nodes[n].methods <==> IsEntry(routes, x) && routes[x.score - 1].parts == paths[n];
  }

  lemma FiledEntries(nodes: seq<Node>, paths: seq<Path>, cur: nat, routes: seq<Route>, r: Route)
    requires |nodes| == |paths| && Holds(nodes, paths, routes) && cur < |nodes| && r.parts == paths[cur]
    requires forall n :: 0 <= n < |nodes| ==> IndexOf(paths, paths[n]) == n
    ensures var e, routes' := Entry(r.meth, r.handler, |routes| + 1), routes + [r];
            forall n, x :: 0 <= n < |nodes| ==>
              (x in Filed(nodes, cur, e)[n].methods <==> IsEntry(routes', x) && routes'[x.score - 1].parts == paths[n])
  {
    hide IndexOf, Holds, Filed;
    var e, routes' := Entry(r.meth, r.handler, |routes| + 1), routes + [r];
    assert |Filed(nodes, cur, e)| == |nodes| by { FiledNoDup(nodes, paths, cur, routes, e); }
    forall n, x | 0 <= n < |nodes|
      ensures x in Filed(nodes, cur, e)[n].methods <==> IsEntry(routes', x) && routes'[x.score - 1].parts == paths[n]
    {
      FiledEntry(nodes, paths, cur, routes, r, n, x);
    }
  }

  /** The new route's entry goes to its node, and to no other. */
  lemma FiledHolds(nodes: seq<Node>, paths: seq<Path>, cur: nat, routes: seq<Route>, r: Route)
    requires |nodes| == |paths| && Holds(nodes, paths, routes) && cur < |nodes| && r.parts == paths[cur]
    requires forall n :: 0 <= n < |nodes| ==> IndexOf(paths, paths[n]) == n
    ensures Holds(Filed(nodes, cur, Entry(r.meth, r.handler, |routes| + 1)), paths, routes + [r])
  {
    hide IndexOf, NoDup, IsEntry, Filed;
    FiledNoDup(nodes, paths, cur, routes, Entry(r.meth, r.handler, |routes| + 1));
    FiledEntries(nodes, paths, cur, routes, r);
  }

  // ---- What the search pushes, as functions of the nodes ---------------------------------

  ghost function Flat<T>(ss: seq<seq<T>>): seq<T> {
    if ss == [] then [] else Flat(ss[..|ss| - 1]) + ss[|ss| - 1]
  }

  lemma {:induction false} FlatIn<T>(ss: seq<seq<T>>, x: T)
    ensures x in Flat(ss) <==> exists i :: 0 <= i < |ss| && x in ss[i]
  {
    if ss != [] {
      FlatIn(ss[..|ss| - 1], x);
      if i :| 0 <= i < |ss| && x in ss[i] {
        assert i < |ss| - 1 ==> x in ss[..|ss| - 1][i];
      }
    }
  }

  lemma ConcatNoDup<T>(a: seq<T>, b: seq<T>)
    requires NoDup(a) && NoDup(b) && forall x :: x in a ==> x !in b
    ensures NoDup(a + b)
  {
    forall i, j | 0 <= i < j < |a + b|
      ensures (a + b)[i] != (a + b)[j]
    {
      assert i < |a| <= j ==> (a + b)[i] in a && (a + b)[j] == b[j - |a|];
    }
  }

  ghost function Count<T>(s: seq<T>, x: T): nat {
    multiset(s)[x]
  }

  lemma CountAppend<T>(a: seq<T>, b: seq<T>, x: T)
    ensures Count(a + b, x) == Count(a, x) + Count(b, x)
  {
  }

  lemma CountIn<T>(s: seq<T>, x: T)
    ensures Count(s, x) > 0 <==> x in s
    ensures Count([x], x) == 1 && Count([], x) == 0
  {
    assert x in multiset(s) <==> x in s;
  }

  lemma {:induction false} CountOnce<T>(s: seq<T>, x: T)
    requires NoDup(s)
    ensures Count(s, x) == if x in s then 1 else 0
  {
    hide Count;
    CountIn(s, x);
    if s != [] {
      var init, last := s[..|s| - 1], s[|s| - 1];
      assert s == init + [last] && last !in init;
      CountOnce(init, x);
      CountAppend(init, [last], x);
      CountIn([last], x);
      CountIn([], x);
    }
  }

  lemma MoreTimes(c: nat, w: nat)
    ensures (c + 1) * w == c * w + w && 0 * w == 0 && 1 * w == w
  {
  }

  /** When x is w times in every part with key p and in no other part. */
  lemma {:induction false} FlatCount<K, T>(keys: seq<K>, ss: seq<seq<T>>, x: T, p: K, w: nat)
    requires |keys| == |ss|
    requires forall j :: 0 <= j < |ss| ==> Count(ss[j], x) == if keys[j] == p then w else 0
    ensures Count(Flat(ss), x) == Count(keys, p) * w
  {
    hide Count, Flat;
    CountIn(keys, p);
    MoreTimes(0, w);
    if ss == [] {
      NoneFlat<T>();
      CountIn([], x);
      CountIn([], p);
    } else {
      var n := |ss| - 1;
      var init := keys[..n];
      FlatCount(init, ss[..n], x, p, w);
      FlatLast(ss);
      CountAppend(Flat(ss[..n]), ss[n], x);
      assert keys == init + [keys[n]];
      CountAppend(init, [keys[n]], p);
      CountOnce([keys[n]], p);
      MoreTimes(Count(init, p), w);
    }
  }

  /** When x is in one part only. */
  lemma {:induction false} FlatOnly<T>(ss: seq<seq<T>>, x: T, h: nat)
    requires h < |ss| && forall j :: 0 <= j < |ss| && j != h ==> x !in ss[j]
    ensures Count(Flat(ss), x) == Count(ss[h], x)
  {
    hide Count, Flat;
    var n := |ss| - 1;
    FlatLast(ss);
    CountAppend(Flat(ss[..n]), ss[n], x);
    CountIn(ss[n], x);
    if h == n {
      FlatIn(ss[..n], x);
      CountIn(Flat(ss[..n]), x);
    } else {
      FlatOnly(ss[..n], x, h);
    }
  }

  lemma FlatLast<T>(ss: seq<seq<T>>)
    requires ss != []
    ensures Flat(ss) == Flat(ss[..|ss| - 1]) + ss[|ss| - 1]
  {
  }

  lemma {:induction false} FlatAppend<T>(a: seq<seq<T>>, b: seq<seq<T>>)
    ensures Flat(a + b) == Flat(a) + Flat(b)
  {
    hide Flat;
    if b == [] {
      assert a + b == a;
      NoneFlat<T>();
    } else {
      FlatAppend(a, b[..|b| - 1]);
      FlatLast(a + b);
      FlatLast(b);
      assert (a + b)[..|a + b| - 1] == a + b[..|b| - 1];
    }
  }

  lemma FlatSnoc<T>(ss: seq<seq<T>>, k: nat)
    requires k < |ss|
    ensures Flat(ss[..k + 1]) == Flat(ss[..k]) + ss[k]
  {
    assert ss[..k + 1][..k] == ss[..k];
  }

  lemma FlatFirst<T>(ss: seq<seq<T>>)
    requires ss != []
    ensures Flat(ss[..1]) == ss[0]
  {
    FlatSnoc(ss, 0);
    assert Flat(ss[..0]) == [];
    assert [] + ss[0] == ss[0];
  }

  /** The entries of a node in which something is found for the method. */
  function Kept(es: seq<Entry>, look: Lookup): seq<Entry> {
    if es == [] then []
    else Kept(es[..|es| - 1], look) + (if Reads(es[|es| - 1], look) then [es[|es| - 1]] else [])
  }

  function Methods(nodes: seq<Node>, n: nat): seq<Entry> {
    if n < |nodes| then nodes[n].methods else []
  }

  ghost function KeptLists(nodes: seq<Node>, from: seq<nat>, look: Lookup): seq<seq<Entry>> {
    seq(|from|, i requires 0 <= i < |from| => Kept(Methods(nodes, from[i]), look))
  }

  ghost function Gathered(nodes: seq<Node>, from: seq<nat>, look: Lookup): seq<Entry> {
    Flat(KeptLists(nodes, from, look))
  }

  function Child(nodes: seq<Node>, n: nat, key: string): seq<nat> {
    if n < |nodes| && key in nodes[n].children then [nodes[n].children[key]] else []
  }

  /** A child reached by the last segment, with the star child that then takes no segment. */
  function Landing(nodes: seq<Node>, n: nat, key: string): seq<nat> {
    if n < |nodes| && key in nodes[n].children then
      Child(nodes, nodes[n].children[key], STAR) + [nodes[n].children[key]]
    else []
  }

  function Sources(nodes: seq<Node>, n: nat, pattern: string, part: string, isLast: bool): seq<nat> {
    if pattern == STAR then Child(nodes, n, STAR)
    else if part == "" || !isLast || !(n < |nodes| && pattern in nodes[n].children) then []
    else [nodes[n].children[pattern]] + Child(nodes, nodes[n].children[pattern], STAR)
  }

  function Patterns(nodes: seq<Node>, n: nat): seq<string> {
    if n < |nodes| then nodes[n].patterns else []
  }

  function PatternSources(nodes: seq<Node>, n: nat, part: string, isLast: bool): (r: seq<seq<nat>>)
    ensures |r| == |Patterns(nodes, n)|
  {
    var ps := Patterns(nodes, n);
    seq(|ps|, i requires 0 <= i < |ps| => Sources(nodes, n, ps[i], part, isLast))
  }

  /** The nodes whose handlers one node pushes for one segment: the static child, then the patterns. */
  ghost function NodeSources(nodes: seq<Node>, n: nat, part: string, isLast: bool): seq<seq<nat>> {
    [if isLast then Landing(nodes, n, part) else []] + PatternSources(nodes, n, part, isLast)
  }

  /** The child under this pattern takes the segment and goes on. */
  predicate Marks(pattern: string, part: string, isLast: bool) {
    pattern == STAR || (part != "" && !isLast)
  }

  function PatternTemps(nodes: seq<Node>, n: nat, part: string, isLast: bool): (r: seq<seq<nat>>)
    ensures |r| == |Patterns(nodes, n)|
  {
    var ps := Patterns(nodes, n);
    seq(|ps|, i requires 0 <= i < |ps| => if Marks(ps[i], part, isLast) then Child(nodes, n, ps[i]) else [])
  }

  /** The nodes it hands to the next level. */
  ghost function NodeTemps(nodes: seq<Node>, n: nat, part: string, isLast: bool): seq<seq<nat>> {
    [if isLast then [] else Child(nodes, n, part)] + PatternTemps(nodes, n, part, isLast)
  }

  ghost function LevelSources(nodes: seq<Node>, cur: seq<nat>, part: string, isLast: bool): seq<seq<nat>> {
    seq(|cur|, j requires 0 <= j < |cur| => Flat(NodeSources(nodes, cur[j], part, isLast)))
  }

  ghost function LevelTemps(nodes: seq<Node>, cur: seq<nat>, part: string, isLast: bool): seq<seq<nat>> {
    seq(|cur|, j requires 0 <= j < |cur| => Flat(NodeTemps(nodes, cur[j], part, isLast)))
  }

  /** The current nodes at the start of level i. */
  ghost function Level(nodes: seq<Node>, parts: seq<string>, i: nat): seq<nat>
    requires i <= |parts|
  {
    if i == 0 then [0] else Flat(LevelTemps(nodes, Level(nodes, parts, i - 1), parts[i - 1], i == |parts|))
  }

  /** What each level pushes. */
  ghost function LevelBlocks(nodes: seq<Node>, parts: seq<string>): (r: seq<seq<nat>>)
    ensures |r| == |parts|
  {
    seq(|parts|, i requires 0 <= i < |parts| =>
        Flat(LevelSources(nodes, Level(nodes, parts, i), parts[i], i + 1 == |parts|)))
  }

  ghost function AllSources(nodes: seq<Node>, parts: seq<string>): seq<nat> {
    Flat(LevelBlocks(nodes, parts))
  }

  // ---- What those functions reach, in terms of paths -------------------------------------

  ghost function Lab(paths: seq<Path>, x: nat): string
    requires x < |paths| && paths[x] != []
  {
    paths[x][|paths[x]| - 1]
  }

  /** x is the child of n under a label. */
  ghost predicate Under(paths: seq<Path>, parents: seq<nat>, x: nat, n: nat, key: string) {
    0 < x < |paths| == |parents| && paths[x] != [] && parents[x] == n && Lab(paths, x) == key
  }

  /** x is reached from n through label key: as that child, or as the star child of that child. */
  ghost predicate Via(paths: seq<Path>, parents: seq<nat>, x: nat, n: nat, key: string, deeper: bool) {
    0 < x < |paths| == |parents| &&
    if deeper then Under(paths, parents, x, parents[x], STAR) && Under(paths, parents, parents[x], n, key)
    else Under(paths, parents, x, n, key)
  }

  lemma ChildIn(nodes: seq<Node>, paths: seq<Path>, parents: seq<nat>, n: nat, key: string, x: nat)
    requires Shape(nodes, paths, parents) && n < |nodes|
    ensures x in Child(nodes, n, key) <==> Under(paths, parents, x, n, key)
    ensures NoDup(Child(nodes, n, key))
    ensures Under(paths, parents, x, n, key) ==> paths[x] == paths[n] + [key]
  {
    ChildAt(nodes, paths, parents, n, key);
    if 0 < x < |nodes| {
      assert ParentOf(nodes, paths, parents[x], x);
      assert paths[x] == paths[x][..|paths[x]| - 1] + [Lab(paths, x)];
      if x in Child(nodes, n, key) {
        assert paths[x][..|paths[x]| - 1] == paths[n];
      }
    }
  }

  lemma ChildIsNode(nodes: seq<Node>, paths: seq<Path>, parents: seq<nat>, n: nat, key: string)
    requires Shape(nodes, paths, parents) && n < |nodes| && key in nodes[n].children
    ensures nodes[n].children[key] < |nodes|
  {
  }

  /** The last segment lands on a child and on its star child. */
  lemma LandingIn(nodes: seq<Node>, paths: seq<Path>, parents: seq<nat>, n: nat, key: string, x: nat)
    requires Shape(nodes, paths, parents) && n < |nodes|
    ensures x in Landing(nodes, n, key) <==>
            Via(paths, parents, x, n, key, false) || Via(paths, parents, x, n, key, true)
    ensures NoDup(Landing(nodes, n, key))
    ensures Via(paths, parents, x, n, key, true) ==> paths[x] == paths[n] + [key, STAR]
  {
    hide Shape;
    NodeCount(nodes, paths, parents);
    ChildIn(nodes, paths, parents, n, key, x);
    if key in nodes[n].children {
      var c := nodes[n].children[key];
      ChildIsNode(nodes, paths, parents, n, key);
      ChildIn(nodes, paths, parents, n, key, c);
      ChildIn(nodes, paths, parents, c, STAR, x);
      ChildIn(nodes, paths, parents, c, STAR, c);
    }
    if Via(paths, parents, x, n, key, true) {
      ChildIn(nodes, paths, parents, n, key, parents[x]);
      ChildIn(nodes, paths, parents, parents[x], STAR, x);
    }
  }

  /** Which nodes one node makes the search push for a segment. */
  ghost predicate Emits(paths: seq<Path>, parents: seq<nat>, x: nat, n: nat, part: string, isLast: bool) {
    exists key, deeper :: EmitsVia(paths, parents, x, n, part, isLast, key, deeper)
  }

  ghost predicate EmitsVia(paths: seq<Path>, parents: seq<nat>, x: nat, n: nat, part: string, isLast: bool,
                           key: string, deeper: bool) {
    && Via(paths, parents, x, n, key, deeper)
    && (if key == STAR && !deeper then true else isLast && LabelMatches(key, part) && (key == STAR ==> part == STAR))
  }

  lemma PatternLabel(nodes: seq<Node>, paths: seq<Path>, parents: seq<nat>, n: nat, k: nat)
    requires Shape(nodes, paths, parents) && n < |nodes| && k < |nodes[n].patterns|
    ensures IsPattern(nodes[n].patterns[k]) && nodes[n].patterns[k] in nodes[n].children
  {
    assert PatternsOf(nodes[n]);
    assert nodes[n].patterns[k] in nodes[n].patterns;
  }

  /** A pattern child is in the list of patterns. */
  lemma LabelIndex(nodes: seq<Node>, paths: seq<Path>, parents: seq<nat>, n: nat, key: string) returns (p: nat)
    requires Shape(nodes, paths, parents) && n < |nodes| && key in nodes[n].children && IsPattern(key)
    ensures p < |nodes[n].patterns| && nodes[n].patterns[p] == key
  {
    assert PatternsOf(nodes[n]);
    assert key in nodes[n].patterns;
    p :| p < |nodes[n].patterns| && nodes[n].patterns[p] == key;
  }

  lemma NodeCount(nodes: seq<Node>, paths: seq<Path>, parents: seq<nat>)
    requires Shape(nodes, paths, parents)
    ensures |nodes| == |paths| == |parents| && |nodes| > 0 && paths[0] == []
  {
  }

  /** The block of sources of pattern i, or of the static child when i is 0. */
  lemma BlockIn(nodes: seq<Node>, paths: seq<Path>, parents: seq<nat>, n: nat, part: string, isLast: bool, i: nat,
                x: nat)
    requires Shape(nodes, paths, parents) && n < |nodes| && i <= |nodes[n].patterns|
    ensures var key := if i == 0 then part else nodes[n].patterns[i - 1];
      && NoDup(NodeSources(nodes, n, part, isLast)[i])
      && (x in NodeSources(nodes, n, part, isLast)[i] ==>
            exists deeper :: EmitsVia(paths, parents, x, n, part, isLast, key, deeper))
      && (forall deeper :: EmitsVia(paths, parents, x, n, part, isLast, key, deeper) && (key == STAR ==>
          i > 0 && !deeper)
            ==> x in NodeSources(nodes, n, part, isLast)[i])
  {
    hide Shape, Under, Via, Landing, Sources, EmitsVia, NoDup, IsPattern, IsParam;
    BlockIs(nodes, n, part, isLast, i);
    if i > 0 {
      PatternLabel(nodes, paths, parents, n, i - 1);
      SourcesIn(nodes, paths, parents, n, nodes[n].patterns[i - 1], part, isLast, x);
    } else {
      StaticIn(nodes, paths, parents, n, part, isLast, x);
    }
  }

  lemma BlockIs(nodes: seq<Node>, n: nat, part: string, isLast: bool, i: nat)
    requires n < |nodes| && i <= |nodes[n].patterns|
    ensures |NodeSources(nodes, n, part, isLast)| == 1 + |nodes[n].patterns|
    ensures NodeSources(nodes, n, part, isLast)[i] ==
            if i > 0 then Sources(nodes, n, nodes[n].patterns[i - 1], part, isLast)
            else if isLast then Landing(nodes, n, part) else []
  {
    hide Landing, Sources;
  }

  lemma StaticIn(nodes: seq<Node>, paths: seq<Path>, parents: seq<nat>, n: nat, part: string, isLast: bool, x: nat)
    requires Shape(nodes, paths, parents) && n < |nodes|
    ensures var block := if isLast then Landing(nodes, n, part) else [];
      && NoDup(block)
      && (x in block ==> exists deeper :: EmitsVia(paths, parents, x, n, part, isLast, part, deeper))
      && (forall deeper :: EmitsVia(paths, parents, x, n, part, isLast, part, deeper) && part != STAR ==> x in block)
  {
    hide Shape, Via, Landing;
    LandingIn(nodes, paths, parents, n, part, x);
    if isLast && x in Landing(nodes, n, part) {
      if Via(paths, parents, x, n, part, false) {
        assert EmitsVia(paths, parents, x, n, part, isLast, part, false);
      } else {
        assert EmitsVia(paths, parents, x, n, part, isLast, part, true);
      }
    }
  }

  lemma SourcesIn(nodes: seq<Node>, paths: seq<Path>, parents: seq<nat>, n: nat, key: string, part: string,
                  isLast: bool, x: nat)
    requires Shape(nodes, paths, parents) && n < |nodes| && IsPattern(key) && key in nodes[n].children
    ensures var block := Sources(nodes, n, key, part, isLast);
      && NoDup(block)
      && (x in block ==> exists deeper :: EmitsVia(paths, parents, x, n, part, isLast, key, deeper))
      && (forall deeper :: EmitsVia(paths, parents, x, n, part, isLast, key, deeper) && (key == STAR ==> !deeper) ==>
            x in block)
  {
    hide Shape, Under;
    LandingIn(nodes, paths, parents, n, key, x);
    ChildIn(nodes, paths, parents, n, key, x);
    if x in Sources(nodes, n, key, part, isLast) {
      if Via(paths, parents, x, n, key, false) {
        assert EmitsVia(paths, parents, x, n, part, isLast, key, false);
      } else {
        assert EmitsVia(paths, parents, x, n, part, isLast, key, true);
      }
    }
  }

  lemma NodeSourcesIn(nodes: seq<Node>, paths: seq<Path>, parents: seq<nat>, n: nat, part: string, isLast: bool, x: nat)
    requires Shape(nodes, paths, parents) && n < |nodes|
    ensures x in Flat(NodeSources(nodes, n, part, isLast)) <==> Emits(paths, parents, x, n, part, isLast)
  {
    var blocks := NodeSources(nodes, n, part, isLast);
    FlatIn(blocks, x);
    if i :| 0 <= i < |blocks| && x in blocks[i] {
      BlockIn(nodes, paths, parents, n, part, isLast, i, x);
    }
    if key, deeper :| EmitsVia(paths, parents, x, n, part, isLast, key, deeper) {
      var i := KeyHasBlock(nodes, paths, parents, n, part, isLast, x, key, deeper);
    }
  }

  lemma KeyHasBlock(nodes: seq<Node>, paths: seq<Path>, parents: seq<nat>, n: nat, part: string, isLast: bool, x: nat,
                    key: string, deeper: bool) returns (i: nat)
    requires Shape(nodes, paths, parents) && n < |nodes| && EmitsVia(paths, parents, x, n, part, isLast, key, deeper)
    ensures i < |NodeSources(nodes, n, part, isLast)| && x in NodeSources(nodes, n, part, isLast)[i]
    ensures if i == 0 then !IsParam(key) && isLast else nodes[n].patterns[i - 1] == key
  {
    hide Shape, Under;
    NodeCount(nodes, paths, parents);
    ChildIn(nodes, paths, parents, n, key, if deeper then parents[x] else x);
    i := 0;
    if IsPattern(key) && !(key == STAR && deeper) {
      var p := LabelIndex(nodes, paths, parents, n, key);
      i := p + 1;
    }
    BlockIn(nodes, paths, parents, n, part, isLast, i, x);
    if i == 0 {
      LandingIn(nodes, paths, parents, n, part, x);
    }
  }

  /** A node is reached through one label only. */
  lemma ViaOnce(nodes: seq<Node>, paths: seq<Path>, parents: seq<nat>, x: nat, m: nat, n: nat,
                key: string, key': string, deeper: bool, deeper': bool)
    requires Shape(nodes, paths, parents) && m < |nodes| && n < |nodes| && |paths[m]| == |paths[n]|
    requires Via(paths, parents, x, m, key, deeper) && Via(paths, parents, x, n, key', deeper')
    ensures key == key' && m == n && deeper == deeper'
  {
    LandingIn(nodes, paths, parents, m, key, x);
    LandingIn(nodes, paths, parents, n, key', x);
    ChildIn(nodes, paths, parents, m, key, x);
    ChildIn(nodes, paths, parents, n, key', x);
  }

  // ---- How often ------------------------------------------------------------------------

  lemma ChildCount(nodes: seq<Node>, paths: seq<Path>, parents: seq<nat>, n: nat, k: string, key: string, x: nat)
    requires Shape(nodes, paths, parents) && n < |nodes| && Under(paths, parents, x, n, key)
    ensures Count(Child(nodes, n, k), x) == if k == key then 1 else 0
    ensures key in nodes[n].children
  {
    hide Shape, Count;
    ChildIn(nodes, paths, parents, n, k, x);
    ChildIn(nodes, paths, parents, n, key, x);
    CountOnce(Child(nodes, n, k), x);
  }

  lemma LandingCount(nodes: seq<Node>, paths: seq<Path>, parents: seq<nat>, n: nat, k: string, x: nat, key: string,
                     deeper: bool)
    requires Shape(nodes, paths, parents) && n < |nodes| && Via(paths, parents, x, n, key, deeper)
    ensures Count(Landing(nodes, n, k), x) == if k == key then 1 else 0
  {
    hide Shape, Count, Via, Landing;
    NodeCount(nodes, paths, parents);
    LandingIn(nodes, paths, parents, n, k, x);
    CountOnce(Landing(nodes, n, k), x);
    if d :| Via(paths, parents, x, n, k, d) {
      ViaOnce(nodes, paths, parents, x, n, n, key, k, deeper, d);
    } else {
      assert !Via(paths, parents, x, n, k, false) && !Via(paths, parents, x, n, k, true);
    }
  }

  lemma OneSource(nodes: seq<Node>, paths: seq<Path>, parents: seq<nat>, n: nat, k: string, part: string,
                  isLast: bool, x: nat, key: string, deeper: bool)
    requires Shape(nodes, paths, parents) && n < |nodes| && Via(paths, parents, x, n, key, deeper)
    requires IsPattern(k) && k in nodes[n].children
    ensures Count(Sources(nodes, n, k, part, isLast), x) ==
            if k == key && (if k == STAR then !deeper else part != "" && isLast) then 1 else 0
  {
    hide Shape, Count, Via, Sources;
    NodeCount(nodes, paths, parents);
    SourcesIn(nodes, paths, parents, n, k, part, isLast, x);
    CountOnce(Sources(nodes, n, k, part, isLast), x);
    if d :| Via(paths, parents, x, n, k, d) {
      ViaOnce(nodes, paths, parents, x, n, n, key, k, deeper, d);
      assert EmitsVia(paths, parents, x, n, part, isLast, k, d) || k == STAR || part == "" || !isLast;
      if k == STAR && deeper {
        StarSource(nodes, paths, parents, n, part, isLast, x);
      }
    } else {
      assert !Via(paths, parents, x, n, k, false) && !Via(paths, parents, x, n, k, true);
    }
  }

  /** The star in the pattern list pushes only the star child. */
  lemma StarSource(nodes: seq<Node>, paths: seq<Path>, parents: seq<nat>, n: nat, part: string, isLast: bool, x: nat)
    requires Shape(nodes, paths, parents) && n < |nodes| && Via(paths, parents, x, n, STAR, true)
    ensures x !in Sources(nodes, n, STAR, part, isLast)
  {
    hide Shape, Child;
    NodeCount(nodes, paths, parents);
    ChildIn(nodes, paths, parents, n, STAR, x);
    if x in Child(nodes, n, STAR) {
      ViaOnce(nodes, paths, parents, x, n, n, STAR, STAR, true, false);
    }
  }

  lemma PatternCount(nodes: seq<Node>, paths: seq<Path>, parents: seq<nat>, n: nat, key: string)
    requires Shape(nodes, paths, parents) && n < |nodes| && key in nodes[n].children
    ensures Count(Patterns(nodes, n), key) == if IsPattern(key) then 1 else 0
  {
    hide Count, IsPattern;
    assert PatternsOf(nodes[n]);
    CountOnce(Patterns(nodes, n), key);
  }

  lemma HeadCount<T>(a: seq<T>, ss: seq<seq<T>>, x: T)
    ensures Count(Flat([a] + ss), x) == Count(a, x) + Count(Flat(ss), x)
  {
    hide Count, Flat;
    FlatAppend([a], ss);
    FlatFirst([a]);
    assert [a][..1] == [a];
    CountAppend(a, Flat(ss), x);
  }

  /** A child is handed on once for each way that leads to it. */
  lemma TempsCount(nodes: seq<Node>, paths: seq<Path>, parents: seq<nat>, n: nat, part: string, x: nat, key: string)
    requires Shape(nodes, paths, parents) && n < |nodes| && Under(paths, parents, x, n, key)
    ensures Count(Flat(NodeTemps(nodes, n, part, false)), x) == Step(key, part)
  {
    hide Shape, Child, Count, Flat, IsParam, Under;
    var ps, rest := Patterns(nodes, n), PatternTemps(nodes, n, part, false);
    var w := if Marks(key, part, false) then 1 else 0;
    HeadCount(Child(nodes, n, part), rest, x);
    ChildCount(nodes, paths, parents, n, part, key, x);
    forall j | 0 <= j < |rest|
      ensures Count(rest[j], x) == if ps[j] == key then w else 0
    {
      ChildCount(nodes, paths, parents, n, ps[j], key, x);
      CountIn([], x);
    }
    FlatCount(ps, rest, x, key, w);
    PatternCount(nodes, paths, parents, n, key);
    MoreTimes(0, w);
  }

  lemma SourcesCount(nodes: seq<Node>, paths: seq<Path>, parents: seq<nat>, n: nat, part: string, isLast: bool, x: nat,
                     key: string, deeper: bool)
    requires Shape(nodes, paths, parents) && n < |nodes| && Via(paths, parents, x, n, key, deeper)
    ensures Count(Flat(NodeSources(nodes, n, part, isLast)), x) == Pushed(key, part, isLast, deeper)
  {
    hide Shape, Landing, Sources, Count, Flat, IsPattern, Via;
    var ps, rest := Patterns(nodes, n), PatternSources(nodes, n, part, isLast);
    var w := if (if key == STAR then !deeper else part != "" && isLast) then 1 else 0;
    HeadCount(if isLast then Landing(nodes, n, part) else [], rest, x);
    LandingCount(nodes, paths, parents, n, part, x, key, deeper);
    CountIn([], x);
    forall j | 0 <= j < |rest|
      ensures Count(rest[j], x) == if ps[j] == key then w else 0
    {
      PatternLabel(nodes, paths, parents, n, j);
      OneSource(nodes, paths, parents, n, ps[j], part, isLast, x, key, deeper);
    }
    FlatCount(ps, rest, x, key, w);
    ViaIsChild(nodes, paths, parents, n, x, key, deeper);
    PatternCount(nodes, paths, parents, n, key);
    MoreTimes(0, w);
  }

  lemma ViaIsChild(nodes: seq<Node>, paths: seq<Path>, parents: seq<nat>, n: nat, x: nat, key: string, deeper: bool)
    requires Shape(nodes, paths, parents) && n < |nodes| && Via(paths, parents, x, n, key, deeper)
    ensures key in nodes[n].children
  {
    hide Shape, Under;
    ChildIn(nodes, paths, parents, n, key, if deeper then parents[x] else x);
  }

  // ---- One level ----------------------------------------------------------------------

  ghost predicate Goes(paths: seq<Path>, parents: seq<nat>, x: nat, n: nat, part: string) {
    exists key :: Under(paths, parents, x, n, key) && LabelMatches(key, part)
  }

  lemma NodeTempsIn(nodes: seq<Node>, paths: seq<Path>, parents: seq<nat>, n: nat, part: string, x: nat)
    requires Shape(nodes, paths, parents) && n < |nodes|
    ensures x in Flat(NodeTemps(nodes, n, part, false)) <==> Goes(paths, parents, x, n, part)
  {
    var blocks := NodeTemps(nodes, n, part, false);
    FlatIn(blocks, x);
    if i :| 0 <= i < |blocks| && x in blocks[i] {
      TempsBlock(nodes, paths, parents, n, part, x, i);
    }
    if key :| Under(paths, parents, x, n, key) && LabelMatches(key, part) {
      var i := KeyHasTemp(nodes, paths, parents, n, part, x, key);
    }
  }

  lemma TempsBlock(nodes: seq<Node>, paths: seq<Path>, parents: seq<nat>, n: nat, part: string, x: nat, i: nat)
    requires Shape(nodes, paths, parents) && n < |nodes|
    requires i < |NodeTemps(nodes, n, part, false)| && x in NodeTemps(nodes, n, part, false)[i]
    ensures Goes(paths, parents, x, n, part)
  {
    hide Shape, Under, Child;
    var key := if i == 0 then part else nodes[n].patterns[i - 1];
    if i > 0 {
      PatternLabel(nodes, paths, parents, n, i - 1);
    }
    ChildIn(nodes, paths, parents, n, key, x);
    assert Under(paths, parents, x, n, key) && LabelMatches(key, part);
  }

  lemma KeyHasTemp(nodes: seq<Node>, paths: seq<Path>, parents: seq<nat>, n: nat, part: string, x: nat, key: string)
    returns (i: nat)
    requires Shape(nodes, paths, parents) && n < |nodes| && Under(paths, parents, x, n, key) && LabelMatches(key, part)
    ensures i < |NodeTemps(nodes, n, part, false)| && x in NodeTemps(nodes, n, part, false)[i]
  {
    hide Shape, Child, Under;
    ChildIn(nodes, paths, parents, n, key, x);
    i := 0;
    if IsPattern(key) {
      ChildCount(nodes, paths, parents, n, key, key, x);
      var p := LabelIndex(nodes, paths, parents, n, key);
      i := p + 1;
    }
  }

  lemma MatchesStep(nodes: seq<Node>, paths: seq<Path>, parents: seq<nat>, parts: seq<string>, i: nat, x: nat)
    requires Shape(nodes, paths, parents) && 0 < i <= |parts| && x < |nodes|
    ensures PathMatches(paths[x], parts[..i]) <==>
            && 0 < x && parents[x] < |nodes| && PathMatches(paths[parents[x]], parts[..i - 1])
            && Goes(paths, parents, x, parents[x], parts[i - 1])
  {
    if x > 0 {
      assert ParentOf(nodes, paths, parents[x], x);
      var stem, key := paths[x][..|paths[x]| - 1], Lab(paths, x);
      assert paths[x] == stem + [key] && Under(paths, parents, x, parents[x], key);
      assert |paths[x]| == i ==> parts[..i] == parts[..i - 1] + [parts[i - 1]];
      if PathMatches(paths[x], parts[..i]) {
        assert forall k :: 0 <= k < |stem| ==> paths[x][k] == stem[k] && parts[..i][k] == parts[..i - 1][k];
        assert LabelMatches(paths[x][i - 1], parts[..i][i - 1]);
      }
    }
  }

  lemma LevelTempsIn(nodes: seq<Node>, paths: seq<Path>, parents: seq<nat>, cur: seq<nat>, part: string, x: nat)
    requires Shape(nodes, paths, parents) && forall j :: 0 <= j < |cur| ==> cur[j] < |nodes|
    ensures x in Flat(LevelTemps(nodes, cur, part, false)) <==>
        exists j :: 0 <= j < |cur| && Goes(paths, parents, x, cur[j], part)
  {
    var blocks := LevelTemps(nodes, cur, part, false);
    FlatIn(blocks, x);
    forall j | 0 <= j < |cur|
      ensures x in blocks[j] <==> Goes(paths, parents, x, cur[j], part)
    {
      NodeTempsIn(nodes, paths, parents, cur[j], part, x);
    }
  }

  /** cur holds exactly the nodes whose paths match the first i segments. */
  ghost predicate IsLevel(nodes: seq<Node>, paths: seq<Path>, parts: seq<string>, i: nat, cur: seq<nat>)
    requires |nodes| == |paths| && i <= |parts|
  {
    forall n: nat {:trigger n in cur} :: n in cur <==> n < |nodes| && PathMatches(paths[n], parts[..i])
  }

  lemma LevelStepIn(nodes: seq<Node>, paths: seq<Path>, parents: seq<nat>, parts: seq<string>, i: nat, cur: seq<nat>,
                    x: nat)
    requires Shape(nodes, paths, parents) && 0 < i <= |parts| && IsLevel(nodes, paths, parts, i - 1, cur)
    ensures x in Flat(LevelTemps(nodes, cur, parts[i - 1], false)) <==> x < |nodes| && PathMatches(paths[x], parts[..i])
  {
    assert forall j :: 0 <= j < |cur| ==> cur[j] in cur;
    LevelTempsIn(nodes, paths, parents, cur, parts[i - 1], x);
    if x < |nodes| {
      MatchesStep(nodes, paths, parents, parts, i, x);
      if PathMatches(paths[x], parts[..i]) {
        assert parents[x] in cur;
      }
    }
  }

  lemma LevelZero(nodes: seq<Node>, paths: seq<Path>, parents: seq<nat>, parts: seq<string>)
    requires Shape(nodes, paths, parents)
    ensures IsLevel(nodes, paths, parts, 0, [0])
  {
    forall n: nat
      ensures n in [0] <==> n < |nodes| && PathMatches(paths[n], parts[..0])
    {
      if n < |nodes| && PathMatches(paths[n], parts[..0]) {
        assert paths[n] == paths[0];
      }
    }
  }

  lemma LevelStep(nodes: seq<Node>, paths: seq<Path>, parents: seq<nat>, parts: seq<string>, i: nat, cur: seq<nat>)
    requires Shape(nodes, paths, parents) && 0 < i <= |parts| && IsLevel(nodes, paths, parts, i - 1, cur)
    ensures IsLevel(nodes, paths, parts, i, Flat(LevelTemps(nodes, cur, parts[i - 1], false)))
  {
    forall x: nat
      ensures x in Flat(LevelTemps(nodes, cur, parts[i - 1], false)) <==>
          x < |nodes| && PathMatches(paths[x], parts[..i])
    {
      LevelStepIn(nodes, paths, parents, parts, i, cur, x);
    }
  }

  /** The level before segment i holds exactly the nodes whose paths match the segments so far. */
  lemma {:induction false} LevelIn(nodes: seq<Node>, paths: seq<Path>, parents: seq<nat>, parts: seq<string>, i: nat)
    requires Shape(nodes, paths, parents) && i < |parts|
    ensures IsLevel(nodes, paths, parts, i, Level(nodes, parts, i))
    decreases i
  {
    hide IsLevel, LevelTemps, Flat, ParentOf, PatternsOf, IndexOf;
    if i == 0 {
      LevelZero(nodes, paths, parents, parts);
    } else {
      LevelIn(nodes, paths, parents, parts, i - 1);
      LevelStep(nodes, paths, parents, parts, i, Level(nodes, parts, i - 1));
    }
  }

  lemma WaysSnoc(labels: seq<string>, key: string, parts: seq<string>, i: nat)
    requires i < |parts|
    ensures Ways(labels + [key], parts[..i + 1]) == Ways(labels, parts[..i]) * Step(key, parts[i])
  {
    hide Step;
    MoreTimes(0, Step(key, parts[i]));
    if |labels| == i {
      assert (labels + [key])[..i] == labels && parts[..i + 1][..i] == parts[..i];
    }
  }

  /** The level before segment i holds each node once for each way that the segments before it lead there. */
  lemma {:induction false} LevelTimes(nodes: seq<Node>, paths: seq<Path>, parents: seq<nat>, parts: seq<string>, i: nat,
                                      x: nat)
    requires Shape(nodes, paths, parents) && i < |parts| && x < |nodes| == |paths|
    ensures Count(Level(nodes, parts, i), x) == Ways(paths[x], parts[..i])
    decreases i
  {
    hide Shape, Count, Level, Ways, Step, PathMatches;
    if i == 0 || paths[x] == [] {
      RootTimes(nodes, paths, parents, parts, i, x);
    } else {
      ParentIs(nodes, paths, parents, x);
      LevelTimes(nodes, paths, parents, parts, i - 1, parents[x]);
      NextTimes(nodes, paths, parents, parts, i, x);
      WaysSnoc(paths[parents[x]], Lab(paths, x), parts, i - 1);
    }
  }

  lemma NextTimes(nodes: seq<Node>, paths: seq<Path>, parents: seq<nat>, parts: seq<string>, i: nat, x: nat)
    requires Shape(nodes, paths, parents) && 0 < i < |parts| && x < |nodes| == |paths| == |parents| && paths[x] != []
    ensures Count(Level(nodes, parts, i), x) ==
            Count(Level(nodes, parts, i - 1), parents[x]) * Step(Lab(paths, x), parts[i - 1])
  {
    hide Shape, Count, Level, Step, Flat, NodeTemps, Under, LabelMatches;
    var part, cur := parts[i - 1], Level(nodes, parts, i - 1);
    var blocks := LevelTemps(nodes, cur, part, false);
    ParentIs(nodes, paths, parents, x);
    NextLevel(nodes, parts, i - 1);
    LevelDepth(nodes, paths, parents, parts, i - 1);
    forall j | 0 <= j < |cur|
      ensures Count(blocks[j], x) == if cur[j] == parents[x] then Step(Lab(paths, x), part) else 0
    {
      if cur[j] == parents[x] {
        TempsCount(nodes, paths, parents, cur[j], part, x, Lab(paths, x));
      } else {
        NodeTempsIn(nodes, paths, parents, cur[j], part, x);
        if x in blocks[j] {
          GoesFromParent(paths, parents, x, cur[j], part);
        }
        CountIn(blocks[j], x);
      }
    }
    FlatCount(cur, blocks, x, parents[x], Step(Lab(paths, x), part));
  }

  lemma GoesFromParent(paths: seq<Path>, parents: seq<nat>, x: nat, n: nat, part: string)
    requires Goes(paths, parents, x, n, part)
    ensures x < |parents| && parents[x] == n
  {
    hide LabelMatches;
  }

  lemma RootTimes(nodes: seq<Node>, paths: seq<Path>, parents: seq<nat>, parts: seq<string>, i: nat, x: nat)
    requires Shape(nodes, paths, parents) && i < |parts| && x < |nodes| == |paths| && (i == 0 || paths[x] == [])
    ensures Count(Level(nodes, parts, i), x) == Ways(paths[x], parts[..i])
  {
    hide Count, Level;
    AtLevel(nodes, paths, parents, parts, i, x);
    CountIn(Level(nodes, parts, i), x);
    if i == 0 {
      RootKnown(nodes, paths, parents, parts, {});
      assert IndexOf(paths, paths[x]) == x && IndexOf(paths, paths[0]) == 0;
      CountIn([0], 0);
    }
  }

  /** x is pushed at level j by the node n. */
  ghost predicate EmittedAt(paths: seq<Path>, parents: seq<nat>, x: nat, parts: seq<string>, j: nat, n: nat) {
    && j < |parts| && n < |paths| && PathMatches(paths[n], parts[..j])
    && Emits(paths, parents, x, n, parts[j], j + 1 == |parts|)
  }

  lemma LevelSourcesIn(nodes: seq<Node>, paths: seq<Path>, parents: seq<nat>, parts: seq<string>, i: nat, x: nat)
    requires Shape(nodes, paths, parents) && i < |parts|
    ensures x in Flat(LevelSources(nodes, Level(nodes, parts, i), parts[i], i + 1 == |parts|))
       <==> exists n :: EmittedAt(paths, parents, x, parts, i, n)
  {
    var cur := Level(nodes, parts, i);
    var blocks := LevelSources(nodes, cur, parts[i], i + 1 == |parts|);
    FlatIn(blocks, x);
    if j :| 0 <= j < |blocks| && x in blocks[j] {
      LevelIn(nodes, paths, parents, parts, i);
      assert cur[j] in cur;
      NodeSourcesIn(nodes, paths, parents, cur[j], parts[i], i + 1 == |parts|, x);
      assert EmittedAt(paths, parents, x, parts, i, cur[j]);
    }
    if n: nat :| EmittedAt(paths, parents, x, parts, i, n) {
      LevelIn(nodes, paths, parents, parts, i);
      assert n in cur;
      NodeSourcesIn(nodes, paths, parents, n, parts[i], i + 1 == |parts|, x);
      var j :| 0 <= j < |cur| && cur[j] == n;
      assert x in blocks[j];
    }
  }

  lemma AllSourcesIn(nodes: seq<Node>, paths: seq<Path>, parents: seq<nat>, parts: seq<string>, x: nat)
    requires Shape(nodes, paths, parents)
    ensures x in AllSources(nodes, parts) <==> exists j: nat, n: nat :: EmittedAt(paths, parents, x, parts, j, n)
  {
    var blocks := LevelBlocks(nodes, parts);
    FlatIn(blocks, x);
    if x in AllSources(nodes, parts) {
      var j :| 0 <= j < |blocks| && x in blocks[j];
      LevelSourcesIn(nodes, paths, parents, parts, j, x);
    }
    if j: nat, n: nat :| EmittedAt(paths, parents, x, parts, j, n) {
      LevelSourcesIn(nodes, paths, parents, parts, j, x);
      assert x in blocks[j];
    }
  }

  /** The push of a node pins down the level. */
  lemma PushedWhere(nodes: seq<Node>, paths: seq<Path>, parents: seq<nat>, x: nat, parts: seq<string>, j: nat, n: nat)
    requires Shape(nodes, paths, parents) && EmittedAt(paths, parents, x, parts, j, n)
    ensures 0 < x < |nodes| == |paths| && paths[x] != []
    ensures |paths[x]| == j + 1 || (|paths[x]| == j + 2 == |parts| + 1 && Lab(paths, x) == STAR)
  {
    hide Shape, LabelMatches;
    NodeCount(nodes, paths, parents);
    var key, deeper :| EmitsVia(paths, parents, x, n, parts[j], j + 1 == |parts|, key, deeper);
    LandingIn(nodes, paths, parents, n, key, x);
    ChildIn(nodes, paths, parents, n, key, x);
  }

  lemma BlockTimes(nodes: seq<Node>, paths: seq<Path>, parents: seq<nat>, parts: seq<string>, i: nat, x: nat, n: nat,
                   key: string, deeper: bool)
    requires Shape(nodes, paths, parents) && i < |parts| && n < |nodes| == |paths| && |paths[n]| == i
    requires Via(paths, parents, x, n, key, deeper)
    ensures Count(LevelBlocks(nodes, parts)[i], x) ==
            Ways(paths[n], parts[..i]) * Pushed(key, parts[i], i + 1 == |parts|, deeper)
  {
    hide Shape, Count, Level, Ways, Pushed, Flat, NodeSources, Via, LabelMatches;
    var isLast, cur := i + 1 == |parts|, Level(nodes, parts, i);
    var blocks := LevelSources(nodes, cur, parts[i], isLast);
    LevelDepth(nodes, paths, parents, parts, i);
    forall j | 0 <= j < |cur|
      ensures Count(blocks[j], x) == if cur[j] == n then Pushed(key, parts[i], isLast, deeper) else 0
    {
      if cur[j] == n {
        SourcesCount(nodes, paths, parents, n, parts[i], isLast, x, key, deeper);
      } else {
        NodeSourcesIn(nodes, paths, parents, cur[j], parts[i], isLast, x);
        if key', deeper' :| EmitsVia(paths, parents, x, cur[j], parts[i], isLast, key', deeper') {
          ViaOnce(nodes, paths, parents, x, n, cur[j], key, key', deeper, deeper');
        }
        CountIn(blocks[j], x);
      }
    }
    FlatCount(cur, blocks, x, n, Pushed(key, parts[i], isLast, deeper));
    LevelTimes(nodes, paths, parents, parts, i, n);
    NextLevel(nodes, parts, i);
  }

  lemma OnlyAt(nodes: seq<Node>, paths: seq<Path>, parents: seq<nat>, parts: seq<string>, i: nat, x: nat)
    requires Shape(nodes, paths, parents) && i < |parts| && x < |nodes| == |paths|
    requires paths[x] != []
    requires |paths[x]| == i + 1 || (|paths[x]| == i + 2 == |parts| + 1 && Lab(paths, x) == STAR)
    ensures Count(AllSources(nodes, parts), x) == Count(LevelBlocks(nodes, parts)[i], x)
  {
    hide Shape, Count, LevelSources, Level, Flat, EmittedAt;
    var blocks := LevelBlocks(nodes, parts);
    forall k | 0 <= k < |blocks| && k != i
      ensures x !in blocks[k]
    {
      LevelSourcesIn(nodes, paths, parents, parts, k, x);
      if n: nat :| EmittedAt(paths, parents, x, parts, k, n) {
        PushedWhere(nodes, paths, parents, x, parts, k, n);
      }
    }
    FlatOnly(blocks, x, i);
  }

  lemma NowhereElse(nodes: seq<Node>, paths: seq<Path>, parents: seq<nat>, parts: seq<string>, x: nat)
    requires Shape(nodes, paths, parents) && x < |nodes| == |paths|
    requires paths[x] != [] ==>
               |paths[x]| > |parts| && !(|parts| > 0 && |paths[x]| == |parts| + 1 && Lab(paths, x) == STAR)
    ensures Count(AllSources(nodes, parts), x) == 0
  {
    hide Shape, Count, AllSources, EmittedAt;
    AllSourcesIn(nodes, paths, parents, parts, x);
    CountIn(AllSources(nodes, parts), x);
    if j: nat, n: nat :| EmittedAt(paths, parents, x, parts, j, n) {
      EmittedLevel(paths, parents, x, parts, j, n);
      PushedWhere(nodes, paths, parents, x, parts, j, n);
    }
  }

  lemma EmittedLevel(paths: seq<Path>, parents: seq<nat>, x: nat, parts: seq<string>, j: nat, n: nat)
    requires EmittedAt(paths, parents, x, parts, j, n)
    ensures j < |parts|
  {
  }

  /** The search pushes each node as often as its labels say. */
  lemma PushedTimes(nodes: seq<Node>, paths: seq<Path>, parents: seq<nat>, parts: seq<string>, x: nat)
    requires Shape(nodes, paths, parents) && x < |nodes| == |paths|
    ensures Count(AllSources(nodes, parts), x) == Times(paths[x], parts)
  {
    hide Shape, Count, AllSources, LevelBlocks, Ways, Pushed, Under;
    var route := paths[x];
    var n := |route|;
    if 0 < n <= |parts| {
      ParentIs(nodes, paths, parents, x);
      assert paths[parents[x]] == route[..n - 1];
      BlockTimes(nodes, paths, parents, parts, n - 1, x, parents[x], Lab(paths, x), false);
      OnlyAt(nodes, paths, parents, parts, n - 1, x);
    } else if n == |parts| + 1 && n >= 2 && route[n - 1] == STAR {
      ParentIs(nodes, paths, parents, x);
      var p := parents[x];
      assert paths[p] == route[..n - 1];
      ParentIs(nodes, paths, parents, p);
      assert paths[parents[p]] == route[..n - 2];
      BlockTimes(nodes, paths, parents, parts, n - 2, x, parents[p], Lab(paths, p), true);
      OnlyAt(nodes, paths, parents, parts, n - 2, x);
    } else {
      NowhereElse(nodes, paths, parents, parts, x);
    }
  }

  lemma StepPositive(seg: string, part: string)
    ensures Step(seg, part) > 0 <==> LabelMatches(seg, part)
  {
  }

  lemma Positive(a: nat, b: nat)
    ensures a * b > 0 <==> a > 0 && b > 0
  {
  }

  lemma {:induction false} WaysPositive(labels: seq<string>, parts: seq<string>)
    ensures Ways(labels, parts) > 0 <==> PathMatches(labels, parts)
  {
    hide Step, LabelMatches;
    if |labels| == |parts| && labels != [] {
      var n := |labels| - 1;
      WaysPositive(labels[..n], parts[..n]);
      StepPositive(labels[n], parts[n]);
      Positive(Ways(labels[..n], parts[..n]), Step(labels[n], parts[n]));
      PathMatchesSnoc(labels[..n], labels[n], parts, n);
      assert labels == labels[..n] + [labels[n]] && parts[..n + 1] == parts;
    }
  }

  /** A route is found at all exactly when it is found at least once. */
  lemma TimesFound(route: seq<string>, parts: seq<string>)
    ensures Times(route, parts) > 0 <==> Found(route, parts)
  {
    hide Ways, Pushed, LabelMatches, PathMatches, IsParam;
    var n := |route|;
    if 0 < n <= |parts| {
      TimesHere(route, parts);
    } else if n == |parts| + 1 && n >= 2 && route[n - 1] == STAR {
      TimesDeeper(route, parts);
    } else if n > 0 {
      MatchLength(route, parts);
      MatchLength(route[..n - 1], parts);
    }
  }

  lemma MatchLength(route: seq<string>, parts: seq<string>)
    ensures PathMatches(route, parts) ==> |route| == |parts|
  {
  }

  lemma TimesHere(route: seq<string>, parts: seq<string>)
    requires 0 < |route| <= |parts|
    ensures Times(route, parts) > 0 <==> Found(route, parts)
  {
    hide Ways, PathMatches;
    var n := |route| - 1;
    WaysPositive(route[..n], parts[..n]);
    Positive(Ways(route[..n], parts[..n]), Pushed(route[n], parts[n], n + 1 == |parts|, false));
    PathMatchesSnoc(route[..n], route[n], parts, n);
    MatchLength(route[..n], parts);
    MatchLength(route, parts);
    assert route == route[..n] + [route[n]];
    assert n + 1 == |parts| ==> parts[..n + 1] == parts;
  }

  lemma TimesDeeper(route: seq<string>, parts: seq<string>)
    requires |route| == |parts| + 1 && |route| >= 2 && route[|route| - 1] == STAR
    ensures Times(route, parts) > 0 <==> Found(route, parts)
  {
    hide Ways, PathMatches;
    var n := |route| - 2;
    var stem := route[..n + 1];
    WaysPositive(route[..n], parts[..n]);
    Positive(Ways(route[..n], parts[..n]), Pushed(route[n], parts[n], true, true));
    PathMatchesSnoc(route[..n], route[n], parts, n);
    assert stem == route[..n] + [route[n]] && parts[..n + 1] == parts && stem[n] == route[n];
  }

  // ---- The pushed nodes are the matching routes ------------------------------------------

  lemma PathMatchesSnoc(stem: seq<string>, key: string, parts: seq<string>, j: nat)
    requires j < |parts| && |stem| == j
    ensures PathMatches(stem + [key], parts[..j + 1]) <==> PathMatches(stem, parts[..j]) && LabelMatches(key, parts[j])
  {
    var all := stem + [key];
    if PathMatches(all, parts[..j + 1]) {
      assert forall i :: 0 <= i < j ==> all[i] == stem[i] && parts[..j + 1][i] == parts[..j][i];
      assert all[j] == key && parts[..j + 1][j] == parts[j];
    }
  }

  /** The three ways to be found: a star that takes the rest, a star that takes nothing, no star. */
  lemma FoundHow(stem: seq<string>, key: string, parts: seq<string>)
    ensures |stem| < |parts| && PathMatches(stem, parts[..|stem|]) ==> Found(stem + [STAR], parts)
    ensures PathMatches(stem, parts) && stem != [] && (stem[|stem| - 1] == STAR ==> parts[|parts| - 1] == STAR) ==>
              Found(stem + [STAR], parts)
    ensures key != STAR && PathMatches(stem + [key], parts) ==> Found(stem + [key], parts)
  {
    hide LabelMatches;
    assert (stem + [STAR])[..|stem|] == stem && (stem + [key])[|stem|] == key;
  }

  lemma EmittedIsFound(nodes: seq<Node>, paths: seq<Path>, parents: seq<nat>, x: nat, parts: seq<string>, j: nat,
                       n: nat)
    requires Shape(nodes, paths, parents) && EmittedAt(paths, parents, x, parts, j, n)
    ensures 0 < x < |nodes| && Found(paths[x], parts)
  {
    hide Shape, LabelMatches, Under, Found;
    NodeCount(nodes, paths, parents);
    var key, deeper :| EmitsVia(paths, parents, x, n, parts[j], j + 1 == |parts|, key, deeper);
    ChildIn(nodes, paths, parents, n, key, x);
    LandingIn(nodes, paths, parents, n, key, x);
    PathMatchesSnoc(paths[n], key, parts, j);
    assert parts[..|parts|] == parts;
    if deeper {
      FoundHow(paths[n] + [key], key, parts);
      assert paths[x] == paths[n] + [key] + [STAR];
    } else {
      FoundHow(paths[n], key, parts);
    }
  }

  /** Every node but the root is under its parent. */
  lemma ParentIs(nodes: seq<Node>, paths: seq<Path>, parents: seq<nat>, x: nat)
    requires Shape(nodes, paths, parents) && x < |nodes| == |paths| && paths[x] != []
    ensures 0 < x < |parents| && parents[x] < |nodes|
    ensures Under(paths, parents, x, parents[x], Lab(paths, x)) && paths[x] == paths[parents[x]] + [Lab(paths, x)]
  {
    assert ParentOf(nodes, paths, parents[x], x);
    assert paths[x] == paths[x][..|paths[x]| - 1] + [Lab(paths, x)];
  }

  lemma FoundIsEmitted(nodes: seq<Node>, paths: seq<Path>, parents: seq<nat>, x: nat, parts: seq<string>)
    returns (j: nat, n: nat)
    requires Shape(nodes, paths, parents) && x < |nodes| == |paths| && Found(paths[x], parts)
    ensures EmittedAt(paths, parents, x, parts, j, n)
  {
    hide Shape, Under, LabelMatches;
    ParentIs(nodes, paths, parents, x);
    var p, key := parents[x], Lab(paths, x);
    assert paths[x][..|paths[x]| - 1] == paths[p];
    j, n := |paths[p]|, p;
    assert parts[..|parts|] == parts;
    if key == STAR && |paths[p]| < |parts| && PathMatches(paths[p], parts[..j]) {
      assert EmitsVia(paths, parents, x, p, parts[j], j + 1 == |parts|, STAR, false);
    } else if key == STAR {
      assert PathMatches(paths[p], parts) && paths[p] != [];
      n, j := FoundByStar(nodes, paths, parents, x, parts);
    } else {
      PathMatchesSnoc(paths[p], key, parts, j);
      assert EmitsVia(paths, parents, x, p, parts[j], true, key, false);
    }
  }

  /** A star that takes no segment is pushed with its parent. */
  lemma FoundByStar(nodes: seq<Node>, paths: seq<Path>, parents: seq<nat>, x: nat, parts: seq<string>)
    returns (n: nat, j: nat)
    requires Shape(nodes, paths, parents) && 0 < x < |nodes| == |paths| == |parents| && parents[x] < |nodes|
    requires Under(paths, parents, x, parents[x], STAR)
    requires paths[parents[x]] != [] && PathMatches(paths[parents[x]], parts)
    requires Lab(paths, parents[x]) == STAR ==> parts[|parts| - 1] == STAR
    ensures EmittedAt(paths, parents, x, parts, j, n)
  {
    hide Shape, Under, LabelMatches;
    var p := parents[x];
    ParentIs(nodes, paths, parents, p);
    n, j := parents[p], |parts| - 1;
    assert parts[..|parts|] == parts;
    PathMatchesSnoc(paths[n], Lab(paths, p), parts, j);
    assert EmitsVia(paths, parents, x, n, parts[j], true, Lab(paths, p), true);
  }

  lemma GatheredAppend(nodes: seq<Node>, a: seq<nat>, b: seq<nat>, look: Lookup)
    ensures Gathered(nodes, a + b, look) == Gathered(nodes, a, look) + Gathered(nodes, b, look)
  {
    assert KeptLists(nodes, a + b, look) == KeptLists(nodes, a, look) + KeptLists(nodes, b, look);
    FlatAppend(KeptLists(nodes, a, look), KeptLists(nodes, b, look));
  }

  lemma GatheredOne(nodes: seq<Node>, x: nat, look: Lookup)
    ensures Gathered(nodes, [x], look) == Kept(Methods(nodes, x), look)
  {
    assert Flat([Kept(Methods(nodes, x), look)]) == Flat([]) + Kept(Methods(nodes, x), look);
  }

  lemma {:induction false} KeptIn(es: seq<Entry>, look: Lookup)
    ensures forall e :: e in Kept(es, look) <==> e in es && Reads(e, look)
    ensures NoDup(es) ==> NoDup(Kept(es, look))
  {
    if es != [] {
      var init, last := es[..|es| - 1], es[|es| - 1];
      KeptIn(init, look);
      assert es == init + [last];
      if NoDup(es) {
        ConcatNoDup(Kept(init, look), if Reads(last, look) then [last] else []);
      }
    }
  }

  lemma GatheredIn(nodes: seq<Node>, from: seq<nat>, look: Lookup, e: Entry)
    ensures e in Gathered(nodes, from, look) <==>
        exists i :: 0 <= i < |from| && e in Methods(nodes, from[i]) && Reads(e, look)
  {
    var blocks := KeptLists(nodes, from, look);
    FlatIn(blocks, e);
    forall i | 0 <= i < |from|
      ensures e in blocks[i] <==> e in Methods(nodes, from[i]) && Reads(e, look)
    {
      KeptIn(Methods(nodes, from[i]), look);
    }
  }

  /** The search gathers each entry as often as its route is found. */
  lemma SearchTimes(nodes: seq<Node>, paths: seq<Path>, parents: seq<nat>, routes: seq<Route>,
                    look: Lookup, parts: seq<string>, e: Entry)
    requires Shape(nodes, paths, parents) && Holds(nodes, paths, routes)
    ensures Count(Gathered(nodes, AllSources(nodes, parts), look), e) ==
            if IsEntry(routes, e) && Reads(e, look) then Times(routes[e.score - 1].parts, parts) else 0
  {
    hide Shape, Holds, Count, AllSources, Times, Flat, Methods, Reads, IsEntry;
    var from := AllSources(nodes, parts);
    if IsEntry(routes, e) {
      var x := NodeOf(nodes, paths, parents, routes, e);
      var lists := KeptLists(nodes, from, look);
      var w := if Reads(e, look) then 1 else 0;
      forall j | 0 <= j < |lists|
        ensures Count(lists[j], e) == if from[j] == x then w else 0
      {
        KeptCount(nodes, paths, parents, routes, look, x, from[j], e);
      }
      FlatCount(from, lists, e, x, w);
      PushedTimes(nodes, paths, parents, parts, x);
    } else {
      NotGathered(nodes, paths, parents, routes, from, look, e);
    }
  }

  lemma KeptCount(nodes: seq<Node>, paths: seq<Path>, parents: seq<nat>, routes: seq<Route>, look: Lookup, x: nat,
                  y: nat, e: Entry)
    requires Shape(nodes, paths, parents) && Holds(nodes, paths, routes) && IsEntry(routes, e)
    requires x < |nodes| == |paths| && paths[x] == routes[e.score - 1].parts
    ensures Count(Kept(Methods(nodes, y), look), e) == if y == x && Reads(e, look) then 1 else 0
  {
    hide Shape, Count, Reads, IsEntry;
    KeptIn(Methods(nodes, y), look);
    CountOnce(Kept(Methods(nodes, y), look), e);
    if e in Methods(nodes, y) {
      SameNode(nodes, paths, parents, routes, x, y, e);
    }
  }

  lemma NotGathered(nodes: seq<Node>, paths: seq<Path>, parents: seq<nat>, routes: seq<Route>, from: seq<nat>,
                    look: Lookup, e: Entry)
    requires Shape(nodes, paths, parents) && Holds(nodes, paths, routes) && !IsEntry(routes, e)
    ensures Count(Gathered(nodes, from, look), e) == 0
  {
    hide Shape, Count, Reads, IsEntry, Gathered;
    GatheredIn(nodes, from, look, e);
    CountIn(Gathered(nodes, from, look), e);
    NodeCount(nodes, paths, parents);
  }

  /** It gathers exactly the entries that it should find. */
  lemma SearchFinds(nodes: seq<Node>, paths: seq<Path>, parents: seq<nat>, routes: seq<Route>,
                    look: Lookup, parts: seq<string>, e: Entry)
    requires Shape(nodes, paths, parents) && Holds(nodes, paths, routes)
    ensures e in Gathered(nodes, AllSources(nodes, parts), look)
       <==> IsEntry(routes, e) && Reads(e, look) && Found(routes[e.score - 1].parts, parts)
  {
    hide Shape, Holds, Count, Gathered, AllSources, Times, Found, Reads;
    CountIn(Gathered(nodes, AllSources(nodes, parts), look), e);
    SearchTimes(nodes, paths, parents, routes, look, parts, e);
    if IsEntry(routes, e) {
      TimesFound(routes[e.score - 1].parts, parts);
    }
  }

  lemma SameNode(nodes: seq<Node>, paths: seq<Path>, parents: seq<nat>, routes: seq<Route>, x: nat, y: nat, e: Entry)
    requires Shape(nodes, paths, parents) && Holds(nodes, paths, routes)
    requires e in Methods(nodes, x) && e in Methods(nodes, y)
    ensures x == y
  {
    assert paths[x] == paths[y] && IndexOf(paths, paths[x]) == x;
  }

  // ---- Sorting, and the linear scan ------------------------------------------------------

  ghost predicate Sorted(es: seq<Entry>) {
    forall i, j :: 0 <= i < j < |es| ==> es[i].score <= es[j].score
  }

  function Placed(es: seq<Entry>, e: Entry): (r: seq<Entry>)
    ensures multiset(r) == multiset(es) + multiset{e}
  {
    if es == [] || es[|es| - 1].score <= e.score then es + [e]
    else
      assert es == es[..|es| - 1] + [es[|es| - 1]];
      Placed(es[..|es| - 1], e) + [es[|es| - 1]]
  }

  /** `Array.prototype.sort` by score, which is stable. */
  function SortByScore(es: seq<Entry>): (r: seq<Entry>)
    ensures multiset(r) == multiset(es)
  {
    if es == [] then []
    else
      assert es == es[..|es| - 1] + [es[|es| - 1]];
      Placed(SortByScore(es[..|es| - 1]), es[|es| - 1])
  }

  lemma {:induction false} PlacedSorted(es: seq<Entry>, e: Entry)
    requires Sorted(es)
    ensures Sorted(Placed(es, e))
  {
    if !(es == [] || es[|es| - 1].score <= e.score) {
      var init, last := es[..|es| - 1], es[|es| - 1];
      PlacedSorted(init, e);
      PlacedBelow(init, e, last.score);
      SortedSnoc(Placed(init, e), last);
    }
  }

  lemma PlacedBelow(es: seq<Entry>, e: Entry, m: nat)
    requires e.score <= m && forall i :: 0 <= i < |es| ==> es[i].score <= m
    ensures forall i :: 0 <= i < |Placed(es, e)| ==> Placed(es, e)[i].score <= m
  {
    hide Placed;
    var p := Placed(es, e);
    forall i | 0 <= i < |p|
      ensures p[i].score <= m
    {
      assert p[i] in multiset(p);
    }
  }

  lemma SortedSnoc(es: seq<Entry>, e: Entry)
    requires Sorted(es) && forall i :: 0 <= i < |es| ==> es[i].score <= e.score
    ensures Sorted(es + [e])
  {
  }

  lemma {:induction false} SortSorted(es: seq<Entry>)
    ensures Sorted(SortByScore(es))
  {
    if es != [] {
      SortSorted(es[..|es| - 1]);
      PlacedSorted(SortByScore(es[..|es| - 1]), es[|es| - 1]);
    }
  }

  /** The reference: go through the routes in the order of their registration.  With no inherited names
      this is what the router is for. */
  ghost function LinearScan(routes: seq<Route>, look: Lookup, parts: seq<string>): seq<Entry> {
    if routes == [] then []
    else
      var r := routes[|routes| - 1];
      var e := Entry(r.meth, r.handler, |routes|);
      LinearScan(routes[..|routes| - 1], look, parts)
        + (if Reads(e, look) && RouteMatches(r.parts, parts) then [e] else [])
  }

  function Copies<T>(x: T, n: nat): seq<T> {
    seq(n, _ => x)
  }

  /** The scan as the search makes it: each entry as often as its route is found. */
  ghost function FoundScan(routes: seq<Route>, look: Lookup, parts: seq<string>): seq<Entry> {
    if routes == [] then []
    else
      var r := routes[|routes| - 1];
      var e := Entry(r.meth, r.handler, |routes|);
      FoundScan(routes[..|routes| - 1], look, parts) + (if Reads(e, look) then Copies(e, Times(r.parts, parts)) else [])
  }

  lemma {:induction false} CopiesCount<T>(x: T, n: nat, y: T)
    ensures Count(Copies(x, n), y) == if y == x then n else 0
  {
    hide Count;
    CountIn([], y);
    if n > 0 {
      CopiesCount(x, n - 1, y);
      assert Copies(x, n) == Copies(x, n - 1) + [x];
      CountAppend(Copies(x, n - 1), [x], y);
      CountOnce([x], y);
    } else {
      assert Copies(x, n) == [];
    }
  }

  lemma LastEntry(routes: seq<Route>, e: Entry)
    requires routes != []
    ensures var n := |routes| - 1; var last := Entry(routes[n].meth, routes[n].handler, |routes|);
            && (e == last ==> IsEntry(routes, e) && !IsEntry(routes[..n], e))
            && (e != last ==> (IsEntry(routes, e) <==> IsEntry(routes[..n], e)))
            && (IsEntry(routes[..n], e) ==> routes[..n][e.score - 1] == routes[e.score - 1])
  {
  }

  lemma {:induction false} FoundCount(routes: seq<Route>, look: Lookup, parts: seq<string>, e: Entry)
    ensures Count(FoundScan(routes, look, parts), e) ==
            if IsEntry(routes, e) && Reads(e, look) then Times(routes[e.score - 1].parts, parts) else 0
  {
    hide Count, Reads, Times, Copies;
    CountIn([], e);
    if routes != [] {
      var n := |routes| - 1;
      var init, r := routes[..n], routes[n];
      var last := Entry(r.meth, r.handler, |routes|);
      FoundCount(init, look, parts, e);
      LastEntry(routes, e);
      CopiesCount(last, Times(r.parts, parts), e);
      CountAppend(FoundScan(init, look, parts),
        if Reads(last, look) then Copies(last, Times(r.parts, parts)) else [], e);
    }
  }

  lemma {:induction false} LinearCount(routes: seq<Route>, look: Lookup, parts: seq<string>, e: Entry)
    ensures Count(LinearScan(routes, look, parts), e) ==
            if IsEntry(routes, e) && Reads(e, look) && RouteMatches(routes[e.score - 1].parts, parts) then 1 else 0
  {
    hide Count, Reads, RouteMatches;
    CountIn([], e);
    if routes != [] {
      var n := |routes| - 1;
      var init, r := routes[..n], routes[n];
      var last := Entry(r.meth, r.handler, |routes|);
      LinearCount(init, look, parts, e);
      LastEntry(routes, e);
      CountOnce([last], e);
      CountAppend(LinearScan(init, look, parts),
        if Reads(last, look) && RouteMatches(r.parts, parts) then [last] else [], e);
    }
  }

  lemma {:induction false} FoundSorted(routes: seq<Route>, look: Lookup, parts: seq<string>)
    ensures Sorted(FoundScan(routes, look, parts))
  {
    hide Reads, Times, Count;
    if routes != [] {
      var init := routes[..|routes| - 1];
      var scan := FoundScan(init, look, parts);
      FoundSorted(init, look, parts);
      forall i | 0 <= i < |scan|
        ensures scan[i].score < |routes|
      {
        CountIn(scan, scan[i]);
        FoundCount(init, look, parts, scan[i]);
      }
    }
  }

  /** A list in order is determined by what is in it, when scores tell entries apart. */
  lemma {:induction false} SortedUnique(a: seq<Entry>, b: seq<Entry>)
    requires Sorted(a) && Sorted(b) && multiset(a) == multiset(b)
    requires forall e, f :: e in a && f in a && e.score == f.score ==> e == f
    ensures a == b
    decreases |a|
  {
    hide Sorted;
    SameMembers(a, b);
    SameLength(a, b);
    if a != [] {
      var n := |a| - 1;
      LastHighest(a, b[n]);
      LastHighest(b, a[n]);
      assert a[n] == b[n];
      assert a == a[..n] + [a[n]] && b == b[..n] + [b[n]];
      Cancelled(multiset(a[..n]), multiset(b[..n]), a[n]);
      SortedTake(a, n);
      SortedTake(b, n);
      SortedUnique(a[..n], b[..n]);
    }
  }

  lemma SameLength<T>(a: seq<T>, b: seq<T>)
    requires multiset(a) == multiset(b)
    ensures |a| == |b|
  {
    assert |multiset(a)| == |a| && |multiset(b)| == |b|;
  }

  lemma LastHighest(a: seq<Entry>, e: Entry)
    requires Sorted(a) && a != [] && e in a
    ensures a[|a| - 1] in a && e.score <= a[|a| - 1].score
  {
  }

  lemma SortedTake(a: seq<Entry>, n: nat)
    requires Sorted(a) && n <= |a|
    ensures Sorted(a[..n])
  {
  }

  /** All that the search itself relies on: children are nodes, and patterns name children. */
  ghost predicate Closed(nodes: seq<Node>) {
    && (forall n, k :: 0 <= n < |nodes| && k in nodes[n].children ==> nodes[n].children[k] < |nodes|)
    && (forall n, k :: 0 <= n < |nodes| && k in nodes[n].patterns ==> k in nodes[n].children)
  }

  lemma ShapeIsClosed(nodes: seq<Node>, paths: seq<Path>, parents: seq<nat>)
    requires Shape(nodes, paths, parents)
    ensures Closed(nodes)
  {
    forall n, k | 0 <= n < |nodes| && k in nodes[n].patterns
      ensures k in nodes[n].children
    {
      assert PatternsOf(nodes[n]);
    }
  }

  lemma SourcesGathered(nodes: seq<Node>, n: nat, pattern: string, part: string, isLast: bool, look: Lookup)
    requires n < |nodes| && pattern in nodes[n].children
    ensures var c := nodes[n].children[pattern];
      Gathered(nodes, Sources(nodes, n, pattern, part, isLast), look) ==
      (if pattern == STAR then Kept(Methods(nodes, c), look)
       else if part == "" || !isLast then []
       else Kept(Methods(nodes, c), look)
            + (if c < |nodes| && STAR in nodes[c].children
               then Kept(Methods(nodes, nodes[c].children[STAR]), look) else []))
  {
    hide Gathered, Kept, Methods;
    NoneGathered(nodes, look);
    var c := nodes[n].children[pattern];
    assert [c] + [] == [c] && Kept(Methods(nodes, c), look) + [] == Kept(Methods(nodes, c), look);
    GatheredOne(nodes, c, look);
    if c < |nodes| && STAR in nodes[c].children {
      GatheredOne(nodes, nodes[c].children[STAR], look);
      GatheredAppend(nodes, [c], [nodes[c].children[STAR]], look);
    }
  }

  lemma LandingGathered(nodes: seq<Node>, n: nat, key: string, look: Lookup)
    requires n < |nodes| && key in nodes[n].children
    ensures var c := nodes[n].children[key];
      Gathered(nodes, Landing(nodes, n, key), look) ==
      (if c < |nodes| && STAR in nodes[c].children then Kept(Methods(nodes, nodes[c].children[STAR]), look) else [])
      + Kept(Methods(nodes, c), look)
  {
    hide Gathered, Kept, Methods;
    var c := nodes[n].children[key];
    assert [] + [c] == [c] && [] + Kept(Methods(nodes, c), look) == Kept(Methods(nodes, c), look);
    GatheredOne(nodes, c, look);
    if c < |nodes| && STAR in nodes[c].children {
      GatheredOne(nodes, nodes[c].children[STAR], look);
      GatheredAppend(nodes, [nodes[c].children[STAR]], [c], look);
    }
  }

  /** The search and the definition differ on some route exactly when the last segment is literally a star. */
  lemma FoundMeansMatches(parts: seq<string>)
    ensures (forall route :: Found(route, parts) <==> RouteMatches(route, parts)) <==>
        parts == [] || parts[|parts| - 1] != STAR
  {
    if parts != [] && parts[|parts| - 1] == STAR {
      var stem := parts[..|parts| - 1];
      var route := seq(|parts|, i => STAR) + [STAR];
      assert route[..|route| - 1] == seq(|parts|, i => STAR);
      assert Found(route, parts) && !RouteMatches(route, parts);
    }
  }

  // ---- Binding parameters ----------------------------------------------------------------

  /** Some entry of the list yields an inherited member. */
  ghost predicate HasForeign(es: seq<Entry>, look: Lookup) {
    exists e :: e in es && Foreign(e, look)
  }

  ghost predicate HasPattern(labels: seq<string>) {
    exists i :: 0 <= i < |labels| && IsPattern(labels[i])
  }

  /** Parameters have been collected on the way to node n. */
  ghost predicate Binding(paths: seq<Path>, n: nat) {
    n < |paths| && HasPattern(paths[n])
  }

  /** What the static child of n pushes binds parameters, and an inherited member has no place for them. */
  ghost predicate StaticThrows(nodes: seq<Node>, n: nat, part: string, isLast: bool, b: bool, look: Lookup) {
    isLast && b && exists x :: x in Landing(nodes, n, part) && HasForeign(Methods(nodes, x), look)
  }

  ghost predicate PatternThrows(nodes: seq<Node>, n: nat, pattern: string, part: string, isLast: bool, b: bool,
                                look: Lookup) {
    && (b || pattern != STAR)
    && exists x :: x in Sources(nodes, n, pattern, part, isLast) && HasForeign(Methods(nodes, x), look)
  }

  ghost predicate NodeThrows(nodes: seq<Node>, n: nat, part: string, isLast: bool, b: bool, look: Lookup) {
    || StaticThrows(nodes, n, part, isLast, b, look)
    || exists k :: 0 <= k < |Patterns(nodes, n)| &&
        PatternThrows(nodes, n, Patterns(nodes, n)[k], part, isLast, b, look)
  }

  ghost predicate LevelThrows(nodes: seq<Node>, paths: seq<Path>, cur: seq<nat>, part: string, isLast: bool,
                              look: Lookup) {
    exists j :: 0 <= j < |cur| && NodeThrows(nodes, cur[j], part, isLast, Binding(paths, cur[j]), look)
  }

  ghost predicate SearchThrows(nodes: seq<Node>, paths: seq<Path>, parts: seq<string>, look: Lookup) {
    exists i :: 0 <= i < |parts| && LevelThrows(nodes, paths, Level(nodes, parts, i), parts[i], i + 1 == |parts|, look)
  }

  /** Parameters are bound when the search pushes this route: a label before its last segment is a pattern, or the
      last segment is a parameter.  A star that takes no segment is pushed by the node two labels up. */
  ghost predicate Binds(route: seq<string>, parts: seq<string>) {
    var n := |route|;
    if n == 0 then false
    else if route[n - 1] != STAR then HasPattern(route)
    else if n == |parts| + 1 && n >= 2 && route[n - 2] == STAR then HasPattern(route[..n - 2])
    else HasPattern(route[..n - 1])
  }

  lemma HasPatternSnoc(labels: seq<string>, key: string)
    ensures HasPattern(labels + [key]) <==> HasPattern(labels) || IsPattern(key)
  {
    var all := labels + [key];
    assert all[|labels|] == key;
    if i :| 0 <= i < |labels| && IsPattern(labels[i]) {
      assert all[i] == labels[i];
    }
  }

  lemma ThrowingStatic(nodes: seq<Node>, paths: seq<Path>, parents: seq<nat>, n: nat, part: string, isLast: bool,
                       b: bool, look: Lookup) returns (x: nat, deeper: bool)
    requires Shape(nodes, paths, parents) && n < |nodes| && StaticThrows(nodes, n, part, isLast, b, look)
    ensures EmitsVia(paths, parents, x, n, part, isLast, part, deeper) && HasForeign(Methods(nodes, x), look)
  {
    hide Shape, HasForeign, Methods, EmitsVia, Landing, Sources;
    x :| x in Landing(nodes, n, part) && HasForeign(Methods(nodes, x), look);
    BlockIn(nodes, paths, parents, n, part, isLast, 0, x);
    deeper :| EmitsVia(paths, parents, x, n, part, isLast, part, deeper);
  }

  lemma ThrowingPattern(nodes: seq<Node>, paths: seq<Path>, parents: seq<nat>, n: nat, part: string, isLast: bool,
                        b: bool, look: Lookup, k: nat) returns (x: nat, deeper: bool)
    requires Shape(nodes, paths, parents) && n < |nodes| && k < |nodes[n].patterns|
    requires PatternThrows(nodes, n, nodes[n].patterns[k], part, isLast, b, look)
    ensures EmitsVia(paths, parents, x, n, part, isLast, nodes[n].patterns[k], deeper)
    ensures (b || IsParam(nodes[n].patterns[k])) && HasForeign(Methods(nodes, x), look)
  {
    hide Shape, HasForeign, Methods, EmitsVia, Landing, Sources, IsParam;
    var key := nodes[n].patterns[k];
    x :| x in Sources(nodes, n, key, part, isLast) && HasForeign(Methods(nodes, x), look);
    PatternLabel(nodes, paths, parents, n, k);
    BlockIn(nodes, paths, parents, n, part, isLast, k + 1, x);
    deeper :| EmitsVia(paths, parents, x, n, part, isLast, key, deeper);
  }

  lemma ThrowingNode(nodes: seq<Node>, paths: seq<Path>, parents: seq<nat>, n: nat, part: string, isLast: bool,
                     b: bool, look: Lookup) returns (x: nat, key: string, deeper: bool)
    requires Shape(nodes, paths, parents) && n < |nodes|
    ensures NodeThrows(nodes, n, part, isLast, b, look) ==>
              && EmitsVia(paths, parents, x, n, part, isLast, key, deeper) && (b || IsParam(key))
              && HasForeign(Methods(nodes, x), look)
  {
    hide Shape, HasForeign, Methods, EmitsVia, PatternThrows, IsParam;
    x, key, deeper := 0, part, false;
    if StaticThrows(nodes, n, part, isLast, b, look) {
      x, deeper := ThrowingStatic(nodes, paths, parents, n, part, isLast, b, look);
    } else if k :| 0 <= k < |Patterns(nodes, n)| &&
                   PatternThrows(nodes, n, Patterns(nodes, n)[k], part, isLast, b, look) {
      key := nodes[n].patterns[k];
      x, deeper := ThrowingPattern(nodes, paths, parents, n, part, isLast, b, look, k);
    }
  }

  lemma NodeMayThrow(nodes: seq<Node>, paths: seq<Path>, parents: seq<nat>, n: nat, part: string, isLast: bool,
                     b: bool, look: Lookup, x: nat, key: string, deeper: bool)
    requires Shape(nodes, paths, parents) && n < |nodes| && HasForeign(Methods(nodes, x), look)
    requires EmitsVia(paths, parents, x, n, part, isLast, key, deeper) && (b || IsParam(key))
    ensures NodeThrows(nodes, n, part, isLast, b, look)
  {
    hide HasForeign, EmitsVia, Shape;
    var i := KeyHasBlock(nodes, paths, parents, n, part, isLast, x, key, deeper);
    if i == 0 {
      assert StaticThrows(nodes, n, part, isLast, b, look);
    } else {
      assert PatternThrows(nodes, n, Patterns(nodes, n)[i - 1], part, isLast, b, look);
    }
  }

  /** Whether a push binds parameters can be told from the route alone. */
  lemma BindsByRoute(nodes: seq<Node>, paths: seq<Path>, parents: seq<nat>, x: nat, parts: seq<string>, j: nat,
                     n: nat, key: string, deeper: bool)
    requires Shape(nodes, paths, parents) && n < |nodes| && j < |parts| && |paths[n]| == j
    requires EmitsVia(paths, parents, x, n, parts[j], j + 1 == |parts|, key, deeper)
    ensures x < |nodes| && (Binds(paths[x], parts) <==> HasPattern(paths[n]) || IsParam(key))
  {
    hide Shape, HasPattern, LabelMatches, Binds, Under, IsParam;
    LandingIn(nodes, paths, parents, n, key, x);
    ChildIn(nodes, paths, parents, n, key, x);
    NodeCount(nodes, paths, parents);
    if deeper {
      BindsDeeper(paths[n], key, parts);
      assert paths[x] == paths[n] + [key, STAR];
    } else {
      BindsHere(paths[n], key, parts);
    }
  }

  lemma BindsDeeper(stem: seq<string>, key: string, parts: seq<string>)
    requires |stem| + 1 == |parts|
    ensures Binds(stem + [key, STAR], parts) <==> HasPattern(stem) || IsParam(key)
  {
    hide HasPattern, IsParam;
    var r := stem + [key, STAR];
    HasPatternSnoc(stem, key);
    StarIsNoParam();
    assert r[..|r| - 1] == stem + [key] && r[..|r| - 2] == stem && r[|r| - 2] == key && r[|r| - 1] == STAR;
  }

  lemma BindsHere(stem: seq<string>, key: string, parts: seq<string>)
    requires |stem| < |parts|
    ensures Binds(stem + [key], parts) <==> HasPattern(stem) || IsParam(key)
  {
    hide HasPattern, IsParam;
    var r := stem + [key];
    HasPatternSnoc(stem, key);
    StarIsNoParam();
    assert r[..|r| - 1] == stem && r[|r| - 1] == key;
  }

  lemma StarIsNoParam()
    ensures !IsParam(STAR)
  {
  }

  /** The search throws exactly when a found route of another method binds parameters, and the method
      searched for is one that every object inherits. */
  lemma ThrowsIff(nodes: seq<Node>, paths: seq<Path>, parents: seq<nat>, routes: seq<Route>, look: Lookup,
                  parts: seq<string>)
    requires Shape(nodes, paths, parents) && Holds(nodes, paths, routes)
    ensures SearchThrows(nodes, paths, parts, look) <==> exists e :: MustThrow(routes, look, parts, e)
  {
    hide SearchThrows, MustThrow;
    if SearchThrows(nodes, paths, parts, look) {
      var e := ThrownBy(nodes, paths, parents, routes, look, parts);
    }
    if e :| MustThrow(routes, look, parts, e) {
      WillThrow(nodes, paths, parents, routes, look, parts, e);
    }
  }

  ghost predicate MustThrow(routes: seq<Route>, look: Lookup, parts: seq<string>, e: Entry) {
    IsEntry(routes, e) && Foreign(e, look)
    && Found(routes[e.score - 1].parts, parts) && Binds(routes[e.score - 1].parts, parts)
  }

  lemma ThrownBy(nodes: seq<Node>, paths: seq<Path>, parents: seq<nat>, routes: seq<Route>, look: Lookup,
                 parts: seq<string>) returns (e: Entry)
    requires Shape(nodes, paths, parents) && Holds(nodes, paths, routes)
    ensures SearchThrows(nodes, paths, parts, look) ==> MustThrow(routes, look, parts, e)
  {
    hide Shape, Holds, NodeThrows, Level, EmitsVia, Found, Binds, PathMatches;
    e := Entry("", 0, 0);
    if i: nat :| i < |parts| && LevelThrows(nodes, paths, Level(nodes, parts, i), parts[i], i + 1 == |parts|, look) {
      var cur := Level(nodes, parts, i);
      var j :| 0 <= j < |cur| && NodeThrows(nodes, cur[j], parts[i], i + 1 == |parts|, Binding(paths, cur[j]), look);
      var n := cur[j];
      AtLevel(nodes, paths, parents, parts, i, n);
      var x, key, deeper := ThrowingNode(nodes, paths, parents, n, parts[i], i + 1 == |parts|, Binding(paths, n), look);
      assert EmittedAt(paths, parents, x, parts, i, n);
      EmittedIsFound(nodes, paths, parents, x, parts, i, n);
      BindsByRoute(nodes, paths, parents, x, parts, i, n, key, deeper);
      e :| e in Methods(nodes, x) && Foreign(e, look);
      EntryAt(nodes, paths, parents, routes, x, e);
    }
  }

  /** What being in a level means. */
  lemma AtLevel(nodes: seq<Node>, paths: seq<Path>, parents: seq<nat>, parts: seq<string>, i: nat, n: nat)
    requires Shape(nodes, paths, parents) && i < |parts|
    ensures |nodes| == |paths|
    ensures n in Level(nodes, parts, i) <==> n < |nodes| && PathMatches(paths[n], parts[..i])
    ensures n in Level(nodes, parts, i) ==> |paths[n]| == i
  {
    hide Level;
    LevelIn(nodes, paths, parents, parts, i);
  }

  lemma EntryAt(nodes: seq<Node>, paths: seq<Path>, parents: seq<nat>, routes: seq<Route>, x: nat, e: Entry)
    requires Shape(nodes, paths, parents) && Holds(nodes, paths, routes) && x < |nodes|
    ensures e in Methods(nodes, x) <==> IsEntry(routes, e) && routes[e.score - 1].parts == paths[x]
  {
  }

  lemma WillThrow(nodes: seq<Node>, paths: seq<Path>, parents: seq<nat>, routes: seq<Route>, look: Lookup,
                  parts: seq<string>, e: Entry)
    requires Shape(nodes, paths, parents) && Holds(nodes, paths, routes) && MustThrow(routes, look, parts, e)
    ensures SearchThrows(nodes, paths, parts, look)
  {
    hide Shape, NodeThrows, Level, EmitsVia, Found, Binds, PathMatches, IsParam;
    var x := NodeOf(nodes, paths, parents, routes, e);
    var i, n := FoundIsEmitted(nodes, paths, parents, x, parts);
    var key, deeper :| EmitsVia(paths, parents, x, n, parts[i], i + 1 == |parts|, key, deeper);
    AtLevel(nodes, paths, parents, parts, i, n);
    BindsByRoute(nodes, paths, parents, x, parts, i, n, key, deeper);
    EntryAt(nodes, paths, parents, routes, x, e);
    assert HasForeign(Methods(nodes, x), look);
    NodeMayThrow(nodes, paths, parents, n, parts[i], i + 1 == |parts|, Binding(paths, n), look, x, key, deeper);
    var cur := Level(nodes, parts, i);
    var j :| 0 <= j < |cur| && cur[j] == n;
    assert LevelThrows(nodes, paths, cur, parts[i], i + 1 == |parts|, look);
  }

  /** The node that an entry's route ends at. */
  lemma NodeOf(nodes: seq<Node>, paths: seq<Path>, parents: seq<nat>, routes: seq<Route>, e: Entry) returns (x: nat)
    requires Shape(nodes, paths, parents) && Holds(nodes, paths, routes) && IsEntry(routes, e)
    ensures x < |nodes| == |paths| && paths[x] == routes[e.score - 1].parts
  {
    assert routes[e.score - 1].parts in paths;
    x :| x < |paths| && paths[x] == routes[e.score - 1].parts;
  }

  // ---- Which nodes the search has collected parameters at --------------------------------

  function Elements(s: seq<nat>): set<nat> {
    set x | x in s
  }

  /** `#params` of the children that one node passes its own on to. */
  function Passed(bound: set<nat>, to: seq<nat>, b: bool): set<nat> {
    if b then bound + Elements(to) else bound - Elements(to)
  }

  /** The children that the first k patterns of a node give parameters of their own. */
  ghost function Marked(nodes: seq<Node>, n: nat, part: string, isLast: bool, k: nat): set<nat> {
    if k == 0 then {}
    else
      Marked(nodes, n, part, isLast, k - 1)
      + (if k <= |Patterns(nodes, n)| && Marks(Patterns(nodes, n)[k - 1], part, isLast)
         then Elements(Child(nodes, n, Patterns(nodes, n)[k - 1])) else {})
  }

  lemma {:induction false} MarkedIn(nodes: seq<Node>, n: nat, part: string, isLast: bool, k: nat, x: nat)
    requires k <= |Patterns(nodes, n)|
    ensures x in Marked(nodes, n, part, isLast, k) <==>
            exists i :: 0 <= i < k && Marks(Patterns(nodes, n)[i], part, isLast) &&
                x in Child(nodes, n, Patterns(nodes, n)[i])
  {
    hide Child, Marks;
    if k > 0 {
      MarkedIn(nodes, n, part, isLast, k - 1, x);
    }
  }

  /** It is known of x whether parameters were collected on the way to it. */
  ghost predicate Known(paths: seq<Path>, bound: set<nat>, x: nat) {
    x in bound <==> Binding(paths, x)
  }

  ghost function BoundAfter(nodes: seq<Node>, n: nat, part: string, isLast: bool, bound: set<nat>): set<nat> {
    Passed(bound, Child(nodes, n, part), n in bound) + Marked(nodes, n, part, isLast, |Patterns(nodes, n)|)
  }

  /** A visit leaves everything but the children of its node as it was. */
  lemma BoundElsewhere(nodes: seq<Node>, paths: seq<Path>, parents: seq<nat>, n: nat, part: string, isLast: bool,
                       bound: set<nat>, x: nat)
    requires Shape(nodes, paths, parents) && n < |nodes| == |paths| && x < |nodes| && |paths[x]| != |paths[n]| + 1
    ensures x in BoundAfter(nodes, n, part, isLast, bound) <==> x in bound
  {
    hide Shape, Marked, Child;
    ChildIn(nodes, paths, parents, n, part, x);
    MarkedIn(nodes, n, part, isLast, |Patterns(nodes, n)|, x);
    forall i | 0 <= i < |Patterns(nodes, n)|
      ensures x !in Child(nodes, n, Patterns(nodes, n)[i])
    {
      ChildIn(nodes, paths, parents, n, Patterns(nodes, n)[i], x);
    }
  }

  /** Before the last segment, what is handed on is known, and nothing known is forgotten. */
  lemma BoundIsKnown(nodes: seq<Node>, paths: seq<Path>, parents: seq<nat>, n: nat, part: string, bound: set<nat>,
                     x: nat)
    requires Shape(nodes, paths, parents) && n < |nodes| == |paths| && x < |nodes| && Known(paths, bound, n)
    requires Known(paths, bound, x) || x in Flat(NodeTemps(nodes, n, part, false))
    ensures Known(paths, BoundAfter(nodes, n, part, false, bound), x)
  {
    hide Shape, Marked, Child, Flat, HasPattern, Under;
    var ps, bound' := Patterns(nodes, n), BoundAfter(nodes, n, part, false, bound);
    MarkedIn(nodes, n, part, false, |ps|, x);
    if |paths[x]| != |paths[n]| + 1 {
      BoundElsewhere(nodes, paths, parents, n, part, false, bound, x);
      NodeTempsIn(nodes, paths, parents, n, part, x);
      if key :| Under(paths, parents, x, n, key) && LabelMatches(key, part) {
        ChildIn(nodes, paths, parents, n, key, x);
      }
    } else if i :| 0 <= i < |ps| && Marks(ps[i], part, false) && x in Child(nodes, n, ps[i]) {
      ChildBinds(nodes, paths, parents, n, ps[i], x);
      PatternLabel(nodes, paths, parents, n, i);
    } else if x in Child(nodes, n, part) {
      ChildBinds(nodes, paths, parents, n, part, x);
      UnmarkedPart(nodes, paths, parents, n, part, x);
    } else {
      NodeTempsIn(nodes, paths, parents, n, part, x);
      if key :| Under(paths, parents, x, n, key) && LabelMatches(key, part) {
        MarkedKey(nodes, paths, parents, n, part, key, x);
      }
    }
  }

  lemma ChildBinds(nodes: seq<Node>, paths: seq<Path>, parents: seq<nat>, n: nat, key: string, x: nat)
    requires Shape(nodes, paths, parents) && n < |nodes| && x in Child(nodes, n, key)
    ensures Binding(paths, x) <==> Binding(paths, n) || IsPattern(key)
  {
    hide Shape, HasPattern, IsPattern;
    ChildIn(nodes, paths, parents, n, key, x);
    NodeCount(nodes, paths, parents);
    HasPatternSnoc(paths[n], key);
  }

  /** A child under the segment itself that no pattern marks is a static one. */
  lemma UnmarkedPart(nodes: seq<Node>, paths: seq<Path>, parents: seq<nat>, n: nat, part: string, x: nat)
    requires Shape(nodes, paths, parents) && n < |nodes| && x in Child(nodes, n, part)
    requires forall i :: 0 <= i < |Patterns(nodes, n)| && Marks(Patterns(nodes, n)[i], part, false) ==>
               x !in Child(nodes, n, Patterns(nodes, n)[i])
    ensures !IsPattern(part)
  {
    assert PatternsOf(nodes[n]);
    if IsPattern(part) {
      assert part in nodes[n].patterns;
      var i :| 0 <= i < |nodes[n].patterns| && nodes[n].patterns[i] == part;
      assert Marks(Patterns(nodes, n)[i], part, false);
    }
  }

  /** What is handed on is under the segment itself or under a pattern that marks it. */
  lemma MarkedKey(nodes: seq<Node>, paths: seq<Path>, parents: seq<nat>, n: nat, part: string, key: string, x: nat)
    requires Shape(nodes, paths, parents) && n < |nodes| && Under(paths, parents, x, n, key) && LabelMatches(key, part)
    ensures
      || x in Child(nodes, n, part)
      || (exists i :: 0 <= i < |Patterns(nodes, n)| &&
            Marks(Patterns(nodes, n)[i], part, false) && x in Child(nodes, n, Patterns(nodes, n)[i]))
  {
    ChildIn(nodes, paths, parents, n, key, x);
    assert PatternsOf(nodes[n]);
    if key != part {
      assert key in nodes[n].patterns;
      var i :| 0 <= i < |nodes[n].patterns| && nodes[n].patterns[i] == key;
      assert Marks(Patterns(nodes, n)[i], part, false);
    }
  }

  // ---- The outcome of a search -----------------------------------------------------------

  /** In the order of the scores, with no inherited member among them. */
  ghost predicate InOrder(sets: seq<HandlerSet>) {
    && (forall i :: 0 <= i < |sets| ==> sets[i].Own?)
    && (forall i, j :: 0 <= i < j < |sets| ==> sets[i].entry.score <= sets[j].entry.score)
  }

  function Entries(sets: seq<HandlerSet>): (r: seq<Entry>)
    requires Member !in sets
    ensures |r| == |sets|
  {
    seq(|sets|, i requires 0 <= i < |sets| && sets[i] in sets => sets[i].entry)
  }

  /** `handlerSets.sort`: by the scores, which a single inherited member makes incomparable; what the
      engine then makes of the list is some rearrangement of it. */
  function Ordered(sets: seq<HandlerSet>, engine: seq<HandlerSet> -> seq<HandlerSet>): seq<HandlerSet> {
    if |sets| <= 1 then sets else if Member in sets then engine(sets) else Owns(SortByScore(Entries(sets)))
  }

  lemma RemovedAt<T>(s: seq<T>, i: nat)
    requires i < |s|
    ensures multiset(s) == multiset(s[..i] + s[i + 1..]) + multiset{s[i]}
  {
    assert s == s[..i] + [s[i]] + s[i + 1..];
  }

  lemma Cancelled<T>(a: multiset<T>, b: multiset<T>, x: T)
    requires a + multiset{x} == b + multiset{x}
    ensures a == b
  {
    assert a == (a + multiset{x}) - multiset{x};
    assert b == (b + multiset{x}) - multiset{x};
  }

  lemma SetsRemovedAt(es: seq<Entry>, i: nat, look: Lookup)
    requires i < |es|
    ensures multiset(Sets(es, look)) == multiset(Sets(es[..i] + es[i + 1..], look)) + multiset{SetOf(es[i], look)}
  {
    hide SetOf;
    var sets := Sets(es, look);
    RemovedAt(sets, i);
    assert Sets(es[..i] + es[i + 1..], look) == sets[..i] + sets[i + 1..];
  }

  lemma {:induction false} SetsCount(es: seq<Entry>, fs: seq<Entry>, look: Lookup)
    requires multiset(es) == multiset(fs)
    ensures multiset(Sets(es, look)) == multiset(Sets(fs, look))
    decreases |es|
  {
    hide SetOf, Sets;
    SameLength(es, fs);
    if es != [] {
      var i := SamePlace(es, fs);
      SetsCount(es[..0] + es[1..], fs[..i] + fs[i + 1..], look);
      SetsRemovedAt(es, 0, look);
      SetsRemovedAt(fs, i, look);
    }
  }

  /** Where the first element of one list is in the other. */
  lemma SamePlace<T>(a: seq<T>, b: seq<T>) returns (i: nat)
    requires multiset(a) == multiset(b) && a != []
    ensures i < |b| && b[i] == a[0] && multiset(a[..0] + a[1..]) == multiset(b[..i] + b[i + 1..])
  {
    SameMembers(a, b);
    assert a[0] in a;
    i :| i < |b| && b[i] == a[0];
    RemovedAt(a, 0);
    RemovedAt(b, i);
    Cancelled(multiset(a[..0] + a[1..]), multiset(b[..i] + b[i + 1..]), a[0]);
  }

  lemma SetsIn(es: seq<Entry>, look: Lookup)
    ensures forall e :: Own(e) in Sets(es, look) <==> e in es && !Foreign(e, look)
    ensures Member in Sets(es, look) <==> HasForeign(es, look)
  {
    var sets := Sets(es, look);
    forall e | e in es
      ensures SetOf(e, look) in sets
    {
      var i :| 0 <= i < |es| && es[i] == e;
      assert sets[i] == SetOf(e, look);
    }
    assert forall i :: 0 <= i < |es| ==> sets[i] == SetOf(es[i], look) && es[i] in es;
  }

  lemma SetsOfNone(es: seq<Entry>, look: Lookup)
    requires Member !in Sets(es, look)
    ensures Sets(es, look) == Owns(es) && Entries(Sets(es, look)) == es
  {
    var sets := Sets(es, look);
    assert forall i :: 0 <= i < |es| ==> sets[i] in sets && sets[i] == SetOf(es[i], look);
  }

  lemma SetsAppend(a: seq<Entry>, b: seq<Entry>, look: Lookup)
    ensures Sets(a + b, look) == Sets(a, look) + Sets(b, look)
  {
  }

  /** The reference when no name were inherited: what the router is meant to return. */
  ghost function Intended(routes: seq<Route>, meth: string, parts: seq<string>): seq<HandlerSet> {
    Owns(LinearScan(routes, Lookup(meth, {}), parts))
  }

  /** An entry that takes the place of a handler set by yielding an inherited member. */
  ghost predicate Misread(routes: seq<Route>, look: Lookup, parts: seq<string>, e: Entry) {
    IsEntry(routes, e) && Foreign(e, look) && Found(routes[e.score - 1].parts, parts)
  }

  /** The handler sets returned, when the search returns: which, how often, and in which order. */
  ghost predicate Answer(routes: seq<Route>, look: Lookup, parts: seq<string>, sets: seq<HandlerSet>) {
    && (forall e :: Own(e) in sets <==>
          IsEntry(routes, e) && Answers(e, look.meth) && !Foreign(e, look) && Found(routes[e.score - 1].parts, parts))
    && (Member in sets <==> exists e :: Misread(routes, look, parts, e))
    && multiset(sets) == multiset(Sets(FoundScan(routes, look, parts), look))
    && (Member !in sets ==> InOrder(sets) && sets == Owns(FoundScan(routes, look, parts)))
  }

  /** Every entry meant to answer is found only where its route matches, and once there. */
  ghost predicate OnceEach(routes: seq<Route>, meth: string, parts: seq<string>) {
    forall e :: IsEntry(routes, e) && Answers(e, meth) && Found(routes[e.score - 1].parts, parts) ==>
      RouteMatches(routes[e.score - 1].parts, parts) && !Repeats(routes[e.score - 1].parts, parts)
  }

  lemma AnswerIs(nodes: seq<Node>, paths: seq<Path>, parents: seq<nat>, routes: seq<Route>, look: Lookup,
                 parts: seq<string>, engine: seq<HandlerSet> -> seq<HandlerSet>)
    requires Shape(nodes, paths, parents) && Holds(nodes, paths, routes)
    requires forall s :: multiset(engine(s)) == multiset(s)
    ensures Answer(routes, look, parts, Ordered(Sets(Gathered(nodes, AllSources(nodes, parts), look), look), engine))
  {
    hide Shape, Holds, Gathered, AllSources, Sets, Found, SortByScore, Entries, Owns, Ordered, FoundScan, InOrder;
    var hs := Gathered(nodes, AllSources(nodes, parts), look);
    var sets := Sets(hs, look);
    var r := Ordered(sets, engine);
    SetsIn(hs, look);
    OrderedKeeps(hs, look, engine);
    ScanPushed(nodes, paths, parents, routes, look, parts);
    SetsCount(hs, FoundScan(routes, look, parts), look);
    forall e
      ensures e in hs <==> IsEntry(routes, e) && Reads(e, look) && Found(routes[e.score - 1].parts, parts)
    {
      SearchFinds(nodes, paths, parents, routes, look, parts, e);
    }
    forall e
      ensures e in hs && Foreign(e, look) <==> Misread(routes, look, parts, e)
    {
    }
  }

  /** Sorting keeps what there is, and orders it unless an inherited member is among it. */
  lemma OrderedKeeps(hs: seq<Entry>, look: Lookup, engine: seq<HandlerSet> -> seq<HandlerSet>)
    requires multiset(engine(Sets(hs, look))) == multiset(Sets(hs, look))
    ensures var sets := Sets(hs, look); var r := Ordered(sets, engine);
            && multiset(r) == multiset(sets) && (forall s :: s in r <==> s in sets)
            && (Member !in sets ==> InOrder(r) && r == Owns(if |hs| > 1 then SortByScore(hs) else hs))
  {
    hide Sets, Owns, SortByScore, Entries, InOrder, Ordered;
    var sets := Sets(hs, look);
    if Member in sets {
      assert multiset(Ordered(sets, engine)) == multiset(sets) by { OrderedMembers(sets, engine); }
    } else {
      SetsOfNone(hs, look);
      OrderedOwns(hs);
      OrderedEntries(hs, sets, engine);
    }
    SameMembers(Ordered(sets, engine), sets);
  }

  lemma OrderedMembers(sets: seq<HandlerSet>, engine: seq<HandlerSet> -> seq<HandlerSet>)
    requires Member in sets && multiset(engine(sets)) == multiset(sets)
    ensures multiset(Ordered(sets, engine)) == multiset(sets)
  {
    hide SortByScore, Entries, Owns;
  }

  lemma OrderedEntries(hs: seq<Entry>, sets: seq<HandlerSet>, engine: seq<HandlerSet> -> seq<HandlerSet>)
    requires sets == Owns(hs) && Member !in sets && Entries(sets) == hs
    ensures Ordered(sets, engine) == Owns(if |hs| > 1 then SortByScore(hs) else hs)
  {
    hide SortByScore, Entries, Owns;
  }

  lemma OrderedOwns(hs: seq<Entry>)
    ensures var es := if |hs| > 1 then SortByScore(hs) else hs;
            InOrder(Owns(es)) && multiset(Owns(es)) == multiset(Owns(hs))
  {
    hide InOrder, Owns, SortByScore, Sorted;
    SortSorted(hs);
    OwnsInOrder(SortByScore(hs));
    OwnsInOrder(hs);
    OwnsCount(SortByScore(hs), hs);
  }

  lemma SameMembers<T>(a: seq<T>, b: seq<T>)
    requires multiset(a) == multiset(b)
    ensures forall x :: x in a <==> x in b
  {
    forall x
      ensures x in a <==> x in b
    {
      assert x in multiset(a) <==> x in multiset(b);
    }
  }

  lemma OwnsInOrder(es: seq<Entry>)
    ensures Sorted(es) || |es| <= 1 ==> InOrder(Owns(es))
  {
  }

  lemma OwnsCount(es: seq<Entry>, fs: seq<Entry>)
    requires multiset(es) == multiset(fs)
    ensures multiset(Owns(es)) == multiset(Owns(fs))
  {
    var none := Lookup("", {});
    SetsCount(es, fs, none);
    assert Sets(es, none) == Owns(es) && Sets(fs, none) == Owns(fs);
  }

  /** The sorted pushes are the scan in which every entry stands as often as its route is found. */
  lemma ScanPushed(nodes: seq<Node>, paths: seq<Path>, parents: seq<nat>, routes: seq<Route>, look: Lookup,
                   parts: seq<string>)
    requires Shape(nodes, paths, parents) && Holds(nodes, paths, routes)
    ensures var hs := Gathered(nodes, AllSources(nodes, parts), look);
            && (if |hs| > 1 then SortByScore(hs) else hs) == FoundScan(routes, look, parts)
            && multiset(hs) == multiset(FoundScan(routes, look, parts))
  {
    hide Shape, Holds, Gathered, AllSources, SortByScore, FoundScan, Count, Times, Reads;
    var hs, scan := Gathered(nodes, AllSources(nodes, parts), look), FoundScan(routes, look, parts);
    forall e
      ensures Count(hs, e) == Count(scan, e)
    {
      SearchTimes(nodes, paths, parents, routes, look, parts, e);
      FoundCount(routes, look, parts, e);
    }
    SameCounts(hs, scan);
    forall e | e in scan
      ensures IsEntry(routes, e)
    {
      CountIn(scan, e);
      FoundCount(routes, look, parts, e);
    }
    SortSorted(hs);
    FoundSorted(routes, look, parts);
    SortedUnique(scan, if |hs| > 1 then SortByScore(hs) else hs);
  }

  lemma SameCounts<T>(a: seq<T>, b: seq<T>)
    requires forall x :: Count(a, x) == Count(b, x)
    ensures multiset(a) == multiset(b)
  {
    forall x
      ensures multiset(a)[x] == multiset(b)[x]
    {
      assert Count(a, x) == Count(b, x);
    }
  }

  /** Where every found entry is read as it is meant to be, so is the whole scan. */
  lemma {:induction false} ScanAsIntended(routes: seq<Route>, look: Lookup, parts: seq<string>)
    requires forall e :: IsEntry(routes, e) && Foreign(e, look) ==> !Found(routes[e.score - 1].parts, parts)
    ensures FoundScan(routes, look, parts) == FoundScan(routes, Lookup(look.meth, {}), parts)
  {
    hide Found, Times, Answers;
    if routes != [] {
      var n := |routes| - 1;
      var init, r := routes[..n], routes[n];
      var last := Entry(r.meth, r.handler, |routes|);
      forall e | IsEntry(init, e) && Foreign(e, look)
        ensures !Found(init[e.score - 1].parts, parts)
      {
        LastEntry(routes, e);
      }
      ScanAsIntended(init, look, parts);
      LastEntry(routes, last);
      TimesFound(r.parts, parts);
    }
  }

  /** The scan of the search is the linear scan when all routes are found as often as they should be. */
  lemma {:induction false} OnceScan(routes: seq<Route>, look: Lookup, parts: seq<string>)
    requires forall e :: IsEntry(routes, e) && Reads(e, look) ==>
               Times(routes[e.score - 1].parts, parts) ==
               if RouteMatches(routes[e.score - 1].parts, parts) then 1 else 0
    ensures FoundScan(routes, look, parts) == LinearScan(routes, look, parts)
  {
    hide RouteMatches, Times, Reads;
    if routes != [] {
      var n := |routes| - 1;
      var init, r := routes[..n], routes[n];
      var last := Entry(r.meth, r.handler, |routes|);
      forall e | IsEntry(init, e) && Reads(e, look)
        ensures Times(init[e.score - 1].parts, parts) == if RouteMatches(init[e.score - 1].parts, parts) then 1 else 0
      {
        LastEntry(routes, e);
      }
      OnceScan(init, look, parts);
      LastEntry(routes, last);
      assert Copies(last, 1) == [last] && Copies(last, 0) == [];
    }
  }

  /** And only then. */
  lemma OnceIff(routes: seq<Route>, meth: string, parts: seq<string>)
    ensures FoundScan(routes, Lookup(meth, {}), parts) == LinearScan(routes, Lookup(meth, {}), parts) <==>
            OnceEach(routes, meth, parts)
  {
    hide Times, RouteMatches, FoundScan, LinearScan, Count, Answers, Found, Repeats;
    var look := Lookup(meth, {});
    forall e | IsEntry(routes, e)
      ensures var route := routes[e.score - 1].parts;
              (Found(route, parts) ==> RouteMatches(route, parts) && !Repeats(route, parts)) <==>
              Times(route, parts) == if RouteMatches(route, parts) then 1 else 0
    {
      OnceMeans(routes[e.score - 1].parts, parts);
    }
    if OnceEach(routes, meth, parts) {
      OnceScan(routes, look, parts);
    }
    if FoundScan(routes, look, parts) == LinearScan(routes, look, parts) {
      forall e | IsEntry(routes, e) && Answers(e, meth) && Found(routes[e.score - 1].parts, parts)
        ensures RouteMatches(routes[e.score - 1].parts, parts) && !Repeats(routes[e.score - 1].parts, parts)
      {
        FoundCount(routes, look, parts, e);
        LinearCount(routes, look, parts, e);
      }
    }
  }

  lemma OnceMeans(route: seq<string>, parts: seq<string>)
    ensures (Found(route, parts) ==> RouteMatches(route, parts) && !Repeats(route, parts)) <==>
            Times(route, parts) == if RouteMatches(route, parts) then 1 else 0
  {
    hide Times, RouteMatches, Repeats;
    TimesFound(route, parts);
    TimesOnce(route, parts);
  }

  lemma OneTimesOne(a: nat, b: nat)
    requires a > 0 && b > 0
    ensures a * b == 1 <==> a == 1 && b == 1
  {
    if a > 1 {
      assert a * b >= 2 * b;
    } else if b > 1 {
      assert a * b >= b;
    }
  }

  lemma StepOnce(seg: string, part: string)
    requires Step(seg, part) > 0
    ensures Step(seg, part) == 1 <==> !(IsPattern(seg) && seg == part)
  {
  }

  lemma LiteralSnoc(labels: seq<string>, parts: seq<string>)
    requires |labels| == |parts| > 0
    ensures var n := |labels| - 1;
            Literal(labels, parts) <==>
            Literal(labels[..n], parts[..n]) || (IsPattern(labels[n]) && labels[n] == parts[n])
  {
    hide IsPattern;
    var n := |labels| - 1;
    if i :| 0 <= i < n && IsPattern(labels[i]) && labels[i] == parts[i] {
      assert labels[..n][i] == parts[..n][i];
    }
  }

  lemma {:induction false} WaysOnce(labels: seq<string>, parts: seq<string>)
    requires Ways(labels, parts) > 0
    ensures Ways(labels, parts) == 1 <==> !Literal(labels, parts)
  {
    hide Step, LabelMatches, Literal, IsPattern;
    if labels == [] {
      NoLiteral(parts);
    } else {
      var n := |labels| - 1;
      var a, b := Ways(labels[..n], parts[..n]), Step(labels[n], parts[n]);
      Positive(a, b);
      WaysOnce(labels[..n], parts[..n]);
      StepOnce(labels[n], parts[n]);
      OneTimesOne(a, b);
      LiteralSnoc(labels, parts);
    }
  }

  lemma NoLiteral(parts: seq<string>)
    ensures !Literal([], parts)
  {
  }

  /** A found route is found once exactly when no segment on the way is literally the pattern label in its place. */
  lemma TimesOnce(route: seq<string>, parts: seq<string>)
    ensures Found(route, parts) ==> (Times(route, parts) == 1 <==> !Repeats(route, parts))
  {
    hide Ways, Literal, Found, Pushed, IsPattern, IsParam;
    TimesFound(route, parts);
    var n := |route|;
    if Times(route, parts) > 0 {
      if n <= |parts| {
        var a, b := Ways(route[..n - 1], parts[..n - 1]), Pushed(route[n - 1], parts[n - 1], n == |parts|, false);
        Positive(a, b);
        WaysOnce(route[..n - 1], parts[..n - 1]);
        PushedOnce(route[n - 1], parts[n - 1], n == |parts|, false);
        OneTimesOne(a, b);
      } else {
        var a, b := Ways(route[..n - 2], parts[..n - 2]), Pushed(route[n - 2], parts[n - 2], true, true);
        Positive(a, b);
        WaysOnce(route[..n - 2], parts[..n - 2]);
        PushedOnce(route[n - 2], parts[n - 2], true, true);
        OneTimesOne(a, b);
      }
    }
  }

  lemma PushedOnce(seg: string, part: string, isLast: bool, deeper: bool)
    requires Pushed(seg, part, isLast, deeper) > 0 && (deeper ==> isLast)
    ensures Pushed(seg, part, isLast, deeper) == 1 <==>
            !(isLast && seg == part && (if deeper then IsParam(seg) else IsPattern(seg)))
  {
  }

  lemma PushedPlain(seg: string, part: string, isLast: bool, deeper: bool)
    requires !IsPattern(part)
    ensures Step(seg, part) <= 1 && Pushed(seg, part, isLast, deeper) <= 1
  {
  }

  lemma AtMostOne(a: nat, b: nat)
    requires a <= 1 && b <= 1
    ensures a * b <= 1
  {
  }

  lemma {:induction false} WaysPlain(labels: seq<string>, parts: seq<string>)
    requires forall j :: 0 <= j < |parts| ==> !IsPattern(parts[j])
    ensures Ways(labels, parts) <= 1
  {
    hide Step, IsPattern;
    if |labels| == |parts| && labels != [] {
      var n := |labels| - 1;
      WaysPlain(labels[..n], parts[..n]);
      PushedPlain(labels[n], parts[n], false, false);
      AtMostOne(Ways(labels[..n], parts[..n]), Step(labels[n], parts[n]));
    }
  }

  /** Where no segment is a pattern label, a route is found once if it matches, else not at all. */
  lemma TimesPlain(route: seq<string>, parts: seq<string>)
    requires forall j :: 0 <= j < |parts| ==> !IsPattern(parts[j])
    ensures Times(route, parts) == if RouteMatches(route, parts) then 1 else 0
  {
    hide Ways, Pushed, RouteMatches, IsParam, Found;
    TimesFound(route, parts);
    FoundMeansMatches(parts);
    var n := |route|;
    if 0 < n <= |parts| {
      WaysPlain(route[..n - 1], parts[..n - 1]);
      PushedPlain(route[n - 1], parts[n - 1], n == |parts|, false);
      AtMostOne(Ways(route[..n - 1], parts[..n - 1]), Pushed(route[n - 1], parts[n - 1], n == |parts|, false));
    } else if n == |parts| + 1 && n >= 2 {
      WaysPlain(route[..n - 2], parts[..n - 2]);
      PushedPlain(route[n - 2], parts[n - 2], true, true);
      AtMostOne(Ways(route[..n - 2], parts[..n - 2]), Pushed(route[n - 2], parts[n - 2], true, true));
    }
  }

  lemma ScanPlain(routes: seq<Route>, look: Lookup, parts: seq<string>)
    requires forall j :: 0 <= j < |parts| ==> !IsPattern(parts[j])
    ensures OnceEach(routes, look.meth, parts) && FoundScan(routes, look, parts) == LinearScan(routes, look, parts)
  {
    hide Times, RouteMatches, IsPattern, FoundScan, LinearScan, Found, Repeats;
    forall e | IsEntry(routes, e)
      ensures var route := routes[e.score - 1].parts;
              && Times(route, parts) == (if RouteMatches(route, parts) then 1 else 0)
              && (Found(route, parts) ==> RouteMatches(route, parts) && !Repeats(route, parts))
    {
      TimesPlain(routes[e.score - 1].parts, parts);
      OnceMeans(routes[e.score - 1].parts, parts);
    }
    OnceScan(routes, look, parts);
  }

  /** What is returned is the scan that is meant exactly when no matching route is misread and each is found as
      often as it should be. */
  lemma SearchResult(routes: seq<Route>, look: Lookup, parts: seq<string>, r: seq<HandlerSet>)
    requires Answer(routes, look, parts, r)
    ensures r == Intended(routes, look.meth, parts) <==>
            !(exists e :: Misread(routes, look, parts, e)) && OnceEach(routes, look.meth, parts)
  {
    hide Sets, Owns, LinearScan, FoundScan, Found, InOrder, OnceEach;
    if exists e :: Misread(routes, look, parts, e) {
      assert Member in r;
      NoMember(LinearScan(routes, Lookup(look.meth, {}), parts));
    } else {
      forall e | IsEntry(routes, e) && Foreign(e, look)
        ensures !Found(routes[e.score - 1].parts, parts)
      {
        assert !Misread(routes, look, parts, e);
      }
      ScanAsIntended(routes, look, parts);
      OnceIff(routes, look.meth, parts);
      OwnsDiffer(FoundScan(routes, Lookup(look.meth, {}), parts), LinearScan(routes, Lookup(look.meth, {}), parts));
    }
  }

  lemma AnswerPlain(routes: seq<Route>, look: Lookup, parts: seq<string>, r: seq<HandlerSet>)
    requires Answer(routes, look, parts, r) && forall j :: 0 <= j < |parts| ==> !IsPattern(parts[j])
    ensures OnceEach(routes, look.meth, parts) && multiset(r) == multiset(Sets(LinearScan(routes, look, parts), look))
  {
    hide Sets, Owns, LinearScan, FoundScan, Found, InOrder, OnceEach, IsPattern;
    ScanPlain(routes, look, parts);
  }

  lemma OwnsDiffer(a: seq<Entry>, b: seq<Entry>)
    ensures Owns(a) == Owns(b) <==> a == b
  {
    if Owns(a) == Owns(b) {
      forall i | 0 <= i < |a|
        ensures a[i] == b[i]
      {
        assert Owns(a)[i] == Owns(b)[i];
      }
    }
  }

  lemma NoMember(es: seq<Entry>)
    ensures Member !in Owns(es)
  {
  }

  lemma MisreadIfThrown(routes: seq<Route>, look: Lookup, parts: seq<string>)
    ensures (exists e :: MustThrow(routes, look, parts, e)) ==> exists e :: Misread(routes, look, parts, e)
  {
    if e :| MustThrow(routes, look, parts, e) {
      assert Misread(routes, look, parts, e);
    }
  }

  lemma NoSets(look: Lookup)
    ensures Sets([], look) == []
  {
  }

  lemma NoneMarked(nodes: seq<Node>, n: nat, part: string, isLast: bool)
    ensures Marked(nodes, n, part, isLast, 0) == {}
  {
  }

  lemma NoneFlat<T>()
    ensures Flat<T>([]) == []
  {
  }

  lemma NoneGathered(nodes: seq<Node>, look: Lookup)
    ensures Gathered(nodes, [], look) == [] && Sets(Gathered(nodes, [], look), look) == [] && Sets([], look) == []
  {
  }

  /** One more entry of a node. */
  lemma PushStep(es: seq<Entry>, i: nat, look: Lookup)
    requires i < |es|
    ensures Sets(Kept(es[..i + 1], look), look) ==
            Sets(Kept(es[..i], look), look) + if Reads(es[i], look) then [SetOf(es[i], look)] else []
    ensures HasForeign(es[..i + 1], look) <==> HasForeign(es[..i], look) || Foreign(es[i], look)
  {
    assert es[..i + 1][..i] == es[..i] && es[..i + 1] == es[..i] + [es[i]];
    if Reads(es[i], look) {
      SetsAppend(Kept(es[..i], look), [es[i]], look);
    }
  }

  /** One more pattern of a node. */
  lemma BlocksGrow(nodes: seq<Node>, n: nat, part: string, isLast: bool, k: nat, look: Lookup)
    requires n < |nodes| && k < |nodes[n].patterns| && nodes[n].patterns[k] in nodes[n].children
    ensures var key := nodes[n].patterns[k];
            var ss, ts := NodeSources(nodes, n, part, isLast), NodeTemps(nodes, n, part, isLast);
            && Sets(Gathered(nodes, Flat(ss[..k + 2]), look), look) ==
               Sets(Gathered(nodes, Flat(ss[..k + 1]), look), look)
               + Sets(Gathered(nodes, Sources(nodes, n, key, part, isLast), look), look)
            && Flat(ts[..k + 2]) == Flat(ts[..k + 1]) + (if Marks(key, part, isLast) then Child(nodes, n, key) else [])
            && Marked(nodes, n, part, isLast, k + 1) ==
               Marked(nodes, n, part, isLast, k) + if Marks(key, part, isLast) then {nodes[n].children[key]} else {}
  {
    hide Sets, Gathered, Flat, Sources;
    var ss, ts := NodeSources(nodes, n, part, isLast), NodeTemps(nodes, n, part, isLast);
    FlatSnoc(ss, k + 1);
    FlatSnoc(ts, k + 1);
    GatheredAppend(nodes, Flat(ss[..k + 1]), ss[k + 1], look);
    SetsAppend(Gathered(nodes, Flat(ss[..k + 1]), look), Gathered(nodes, ss[k + 1], look), look);
  }

  /** One visit leaves known what was known, and makes known what it hands on. */
  lemma LevelKnown(nodes: seq<Node>, paths: seq<Path>, parents: seq<nat>, cur: seq<nat>, part: string, isLast: bool,
                   bound: set<nat>, j: nat, temps: seq<nat>)
    requires Shape(nodes, paths, parents) && j < |cur|
    requires |nodes| == |paths| && forall i :: 0 <= i < |cur| ==> cur[i] < |nodes|
    requires forall i :: 0 <= i < |cur| ==> |paths[cur[i]]| == |paths[cur[j]]|
    requires forall i :: 0 <= i < |cur| ==> Known(paths, bound, cur[i])
    requires !isLast ==> forall x :: x in temps ==> x < |nodes| && Known(paths, bound, x)
    ensures var bound' := BoundAfter(nodes, cur[j], part, isLast, bound);
            && (forall i :: 0 <= i < |cur| ==> Known(paths, bound', cur[i]))
            && (!isLast ==> forall x :: x in temps + Flat(NodeTemps(nodes, cur[j], part, isLast)) ==>
                  x < |nodes| && Known(paths, bound', x))
  {
    hide Shape, BoundAfter, Flat, NodeTemps, Binding;
    forall i | 0 <= i < |cur|
      ensures Known(paths, BoundAfter(nodes, cur[j], part, isLast, bound), cur[i])
    {
      BoundElsewhere(nodes, paths, parents, cur[j], part, isLast, bound, cur[i]);
    }
    if !isLast {
      forall x | x in temps + Flat(NodeTemps(nodes, cur[j], part, false))
        ensures x < |nodes| && Known(paths, BoundAfter(nodes, cur[j], part, false, bound), x)
      {
        if x !in temps {
          TempIsNode(nodes, paths, parents, cur[j], part, x);
        }
        BoundIsKnown(nodes, paths, parents, cur[j], part, bound, x);
      }
    }
  }

  lemma TempIsNode(nodes: seq<Node>, paths: seq<Path>, parents: seq<nat>, n: nat, part: string, x: nat)
    requires Shape(nodes, paths, parents) && n < |nodes| && x in Flat(NodeTemps(nodes, n, part, false))
    ensures x < |nodes|
  {
    NodeTempsIn(nodes, paths, parents, n, part, x);
  }

  lemma RootKnown(nodes: seq<Node>, paths: seq<Path>, parents: seq<nat>, parts: seq<string>, bound: set<nat>)
    requires Shape(nodes, paths, parents) && 0 !in bound
    ensures forall x :: x in [0] ==> Known(paths, bound, x)
    ensures |parts| > 0 ==> Level(nodes, parts, 0) == [0]
  {
  }

  lemma LevelDepth(nodes: seq<Node>, paths: seq<Path>, parents: seq<nat>, parts: seq<string>, i: nat)
    requires Shape(nodes, paths, parents) && i < |parts|
    ensures |nodes| == |paths|
    ensures forall j :: 0 <= j < |Level(nodes, parts, i)| ==>
              Level(nodes, parts, i)[j] < |nodes| && |paths[Level(nodes, parts, i)[j]]| == i
  {
    hide Level, Shape;
    var cur := Level(nodes, parts, i);
    forall j | 0 <= j < |cur|
      ensures cur[j] < |nodes| == |paths| && |paths[cur[j]]| == i
    {
      assert cur[j] in cur;
      AtLevel(nodes, paths, parents, parts, i, cur[j]);
    }
    NodeCount(nodes, paths, parents);
  }

  lemma NextLevel(nodes: seq<Node>, parts: seq<string>, i: nat)
    requires i < |parts|
    ensures LevelBlocks(nodes, parts)[i] ==
            Flat(LevelSources(nodes, Level(nodes, parts, i), parts[i], i + 1 == |parts|))
    ensures i + 1 < |parts| ==>
              Level(nodes, parts, i + 1) == Flat(LevelTemps(nodes, Level(nodes, parts, i), parts[i], false))
  {
  }

  /** The route of two stars is found where there is but one segment, itself a star. */
  lemma StarsTooMany()
    ensures SplitPath("/*/*") == [STAR, STAR] && SplitPath("/*") == [STAR]
    ensures Found(SplitPath("/*/*"), SplitPath("/*")) && !RouteMatches(SplitPath("/*/*"), SplitPath("/*"))
  {
    hide SplitPath, Found, RouteMatches;
    SegmentsAre([STAR, STAR]);
    SegmentsAre([STAR]);
    assert [STAR, STAR][1..] == [STAR];
    assert "/" + Join([STAR, STAR]) == "/*/*" && "/" + Join([STAR]) == "/*";
    TwoStars();
  }

  lemma TwoStars()
    ensures Found([STAR, STAR], [STAR]) && !RouteMatches([STAR, STAR], [STAR])
  {
    assert [STAR, STAR][..1] == [STAR];
  }

  /** On a path of one literal star the route of one star is returned twice. */
  lemma StarTwice()
    ensures Times(SplitPath("/*"), SplitPath("/*")) == 2
    ensures !OnceEach([Route("GET", SplitPath("/*"), 7)], "GET", SplitPath("/*"))
  {
    hide SplitPath, Times, RouteMatches, Found, Repeats;
    SegmentsAre([STAR]);
    assert "/" + Join([STAR]) == "/*";
    TwoWays();
    assert IsEntry([Route("GET", [STAR], 7)], Entry("GET", 7, 1));
    TimesFound([STAR], [STAR]);
    TimesOnce([STAR], [STAR]);
  }

  lemma TwoWays()
    ensures Times([STAR], [STAR]) == 2
  {
    assert Ways([], []) == 1 && Pushed(STAR, STAR, true, false) == 2;
    assert [STAR][..0] == [];
  }

  /** A search for the method "constructor", which every object inherits, on three small routers: a handler set
      that is none appears, one for all methods is lost, and binding a parameter throws. */
  lemma InheritedMethod(look: Lookup)
    requires look.meth == "constructor" && look.meth in look.inherited
    ensures var get := [Route("GET", ["a"], 7)];
            Intended(get, look.meth, ["a"]) == [] && Misread(get, look, ["a"], Entry("GET", 7, 1))
    ensures var all := [Route(ALL, ["a"], 7)];
            Intended(all, look.meth, ["a"]) == [Own(Entry(ALL, 7, 1))] && Misread(all, look, ["a"], Entry(ALL, 7, 1))
    ensures MustThrow([Route("GET", [":id"], 7)], look, ["b"], Entry("GET", 7, 1))
  {
    hide LinearScan;
    OneRouteScan(Route("GET", ["a"], 7), look.meth, ["a"]);
    OneRouteScan(Route(ALL, ["a"], 7), look.meth, ["a"]);
    assert IsPattern([":id"][0]);
  }

  lemma OneRouteScan(r: Route, meth: string, parts: seq<string>)
    ensures var e := Entry(r.meth, r.handler, 1);
            LinearScan([r], Lookup(meth, {}), parts) ==
                if Answers(e, meth) && RouteMatches(r.parts, parts) then [e] else []
  {
    assert [r][..0] == [];
    assert LinearScan([], Lookup(meth, {}), parts) == [];
  }

  class Router {
    var nodes: seq<Node>
    var order: nat
    /** The nodes whose `#params` is an object of their own. */
    var bound: set<nat>
    ghost var routes: seq<Route>
    ghost var paths: seq<Path>
    ghost var parents: seq<nat>

    ghost predicate Valid()
      reads this
    {
      Shape(nodes, paths, parents) && Holds(nodes, paths, routes) && order == |routes|
    }

    constructor ()
      ensures Valid() && routes == []
    {
      nodes, order, bound := [Node(map[], [], [])], 0, {};
      routes, paths, parents := [], [[]], [0];
    }

    method AddChild(cur: nat, key: string)
      requires Valid() && cur < |nodes| && key !in nodes[cur].children
      modifies this`nodes, this`paths, this`parents
      ensures Valid() && nodes == Grown(old(nodes), cur, key)
      ensures paths == old(paths) + [old(paths)[cur] + [key]]
    {
      GrownShape(nodes, paths, parents, cur, key);
      ChildAt(nodes, paths, parents, cur, key);
      GrownHolds(nodes, paths, cur, key, routes);
      var node := nodes[cur];
      var patterns := if IsPattern(key) then node.patterns + [key] else node.patterns;
      nodes := nodes[cur := Node(node.children[key := |nodes|], patterns, node.methods)] + [Node(map[], [], [])];
      paths, parents := paths + [paths[cur] + [key]], parents + [cur];
    }

    /** One segment of the route: follow the child under its label, making it first if need be. */
    method Descend(cur: nat, key: string) returns (next: nat)
      requires Valid() && cur < |nodes|
      modifies this`nodes, this`paths, this`parents
      ensures Valid() && next < |nodes| && paths[next] == old(paths)[cur] + [key]
    {
      if key !in nodes[cur].children {
        AddChild(cur, key);
      }
      next := nodes[cur].children[key];
    }

    /** A path with a group in braces is split differently, and its label may hold a regular expression. */
    method Insert(meth: string, path: string, handler: nat)
      requires Valid() && !HasGroup(path)
      modifies this
      ensures Valid()
      ensures routes == old(routes) + [Route(meth, SplitPath(path), handler)]
    {
      var parts := SplitPath(path);
      var cur: nat := 0;
      for i := 0 to |parts|
        invariant Valid() && routes == old(routes) && order == old(order)
        invariant cur < |nodes| && paths[cur] == parts[..i]
      {
        assert parts[..i + 1] == parts[..i] + [parts[i]];
        cur := Descend(cur, parts[i]);
      }
      assert parts[..|parts|] == parts;
      File(cur, Route(meth, parts, handler));
    }

    /** Adds the handler at the node reached, with the next score. */
    method File(cur: nat, r: Route)
      requires Valid() && cur < |nodes| && paths[cur] == r.parts
      modifies this`nodes, this`order, this`routes
      ensures Valid() && routes == old(routes) + [r]
    {
      var e := Entry(r.meth, r.handler, order + 1);
      FiledShape(nodes, paths, parents, cur, e);
      FiledHolds(nodes, paths, cur, routes, r);
      order := order + 1;
      nodes := nodes[cur := nodes[cur].(methods := nodes[cur].methods + [e])];
      routes := routes + [r];
    }

    /** `#pushHandlerSets`: what it adds to the handler sets found so far; not `ok` when an inherited member
        is asked for the names of its parameters. */
    method PushHandlerSets(n: nat, look: Lookup, binding: bool) returns (ok: bool, hs: seq<HandlerSet>)
      requires n < |nodes|
      ensures ok <==> !(binding && HasForeign(Methods(nodes, n), look))
      ensures ok ==> hs == Sets(Kept(Methods(nodes, n), look), look)
    {
      hide Sets;
      hs := [];
      NoSets(look);
      for i := 0 to |nodes[n].methods|
        invariant hs == Sets(Kept(nodes[n].methods[..i], look), look)
        invariant !(binding && HasForeign(nodes[n].methods[..i], look))
      {
        var m := nodes[n].methods[i];
        PushStep(nodes[n].methods, i, look);
        if Reads(m, look) {
          hs := hs + [SetOf(m, look)];
          if binding && SetOf(m, look).Member? {
            assert m in Methods(nodes, n);
            return false, [];
          }
        }
      }
      assert nodes[n].methods[..|nodes[n].methods|] == nodes[n].methods;
      ok := true;
    }

    /** The static child of a node. */
    method VisitStatic(n: nat, part: string, isLast: bool, look: Lookup)
      returns (ok: bool, hs: seq<HandlerSet>, temps: seq<nat>)
      requires Closed(nodes) && n < |nodes|
      modifies this`bound
      ensures bound == Passed(old(bound), Child(nodes, n, part), n in old(bound))
      ensures ok <==> !StaticThrows(nodes, n, part, isLast, n in old(bound), look)
      ensures ok ==> hs == Sets(Gathered(nodes, if isLast then Landing(nodes, n, part) else [], look), look)
      ensures ok ==> temps == if isLast then [] else Child(nodes, n, part)
    {
      hide Sets, Kept, HasForeign, Gathered;
      var b := n in bound;
      ok, hs, temps := true, [], [];
      NoneGathered(nodes, look);
      if part in nodes[n].children {
        var next := nodes[n].children[part];
        bound := if b then bound + {next} else bound - {next};
        if isLast {
          LandingGathered(nodes, n, part, look);
          if STAR in nodes[next].children {
            ok, hs := PushHandlerSets(nodes[next].children[STAR], look, b);
            if !ok {
              return;
            }
          }
          var own;
          ok, own := PushHandlerSets(next, look, b);
          ghost var first := if STAR in nodes[next].children then Kept(Methods(nodes, nodes[next].children[STAR]), look)
                             else [];
          SetsAppend(first, Kept(Methods(nodes, next), look), look);
          hs := hs + own;
        } else {
          temps := [next];
        }
      }
    }

    /** One pattern of a node. */
    method VisitPattern(n: nat, pattern: string, part: string, isLast: bool, b: bool, look: Lookup)
      returns (ok: bool, hs: seq<HandlerSet>, temps: seq<nat>)
      requires Closed(nodes) && n < |nodes| && pattern in nodes[n].children
      modifies this`bound
      ensures ok <==> !PatternThrows(nodes, n, pattern, part, isLast, b, look)
      ensures ok ==> hs == Sets(Gathered(nodes, Sources(nodes, n, pattern, part, isLast), look), look)
      ensures ok ==> temps == if Marks(pattern, part, isLast) then Child(nodes, n, pattern) else []
      ensures ok ==> bound == old(bound) + if Marks(pattern, part, isLast) then {nodes[n].children[pattern]} else {}
    {
      hide Sets, Kept, HasForeign, Gathered;
      ok, hs, temps := true, [], [];
      var child := nodes[n].children[pattern];
      NoneGathered(nodes, look);
      SourcesGathered(nodes, n, pattern, part, isLast, look);
      if pattern == STAR {
        ok, hs := PushHandlerSets(child, look, b);
        if ok {
          bound := bound + {child};
          temps := [child];
        }
      } else if part != "" {
        if isLast {
          ok, hs := PushHandlerSets(child, look, true);
          assert Kept(Methods(nodes, child), look) + [] == Kept(Methods(nodes, child), look);
          if ok && STAR in nodes[child].children {
            var starred;
            ok, starred := PushHandlerSets(nodes[child].children[STAR], look, true);
            SetsAppend(Kept(Methods(nodes, child), look),
              Kept(Methods(nodes, nodes[child].children[STAR]), look), look);
            hs := hs + starred;
          }
        } else {
          bound := bound + {child};
          temps := [child];
        }
      }
    }

    /** The body of the search for one node of the current level. */
    method Visit(n: nat, part: string, isLast: bool, look: Lookup)
      returns (ok: bool, hs: seq<HandlerSet>, temps: seq<nat>)
      requires Closed(nodes) && n < |nodes|
      modifies this`bound
      ensures ok <==> !NodeThrows(nodes, n, part, isLast, n in old(bound), look)
      ensures ok ==> hs == Sets(Gathered(nodes, Flat(NodeSources(nodes, n, part, isLast)), look), look)
      ensures ok ==> temps == Flat(NodeTemps(nodes, n, part, isLast))
      ensures ok ==> bound == BoundAfter(nodes, n, part, isLast, old(bound))
    {
      hide Sets, Gathered, Flat, StaticThrows, PatternThrows, Sources, Landing, Passed, Marked, Child, Marks;
      var b := n in bound;
      ghost var sources, onward := NodeSources(nodes, n, part, isLast), NodeTemps(nodes, n, part, isLast);
      ok, hs, temps := VisitStatic(n, part, isLast, look);
      if !ok {
        return;
      }
      ghost var passed := bound;
      NoneMarked(nodes, n, part, isLast);
      FlatFirst(sources);
      FlatFirst(onward);
      for k := 0 to |nodes[n].patterns|
        invariant hs == Sets(Gathered(nodes, Flat(sources[..k + 1]), look), look)
        invariant temps == Flat(onward[..k + 1])
        invariant bound == passed + Marked(nodes, n, part, isLast, k)
        invariant forall i :: 0 <= i < k ==> !PatternThrows(nodes, n, nodes[n].patterns[i], part, isLast, b, look)
      {
        var pattern := nodes[n].patterns[k];
        assert pattern in nodes[n].patterns;
        BlocksGrow(nodes, n, part, isLast, k, look);
        var more, further;
        ok, more, further := VisitPattern(n, pattern, part, isLast, b, look);
        if !ok {
          return;
        }
        hs, temps := hs + more, temps + further;
      }
      assert sources[..|nodes[n].patterns| + 1] == sources && onward[..|nodes[n].patterns| + 1] == onward;
      ok := true;
    }

    /** The body of the search for one level, d labels down. */
    method VisitLevel(curNodes: seq<nat>, part: string, isLast: bool, look: Lookup, ghost d: nat)
      returns (ok: bool, hs: seq<HandlerSet>, tempNodes: seq<nat>)
      requires Shape(nodes, paths, parents) && Closed(nodes)
      requires forall j :: 0 <= j < |curNodes| ==> curNodes[j] < |nodes| && |paths[curNodes[j]]| == d
      requires forall j :: 0 <= j < |curNodes| ==> Known(paths, bound, curNodes[j])
      modifies this`bound
      ensures ok <==> !LevelThrows(nodes, paths, curNodes, part, isLast, look)
      ensures ok ==> hs == Sets(Gathered(nodes, Flat(LevelSources(nodes, curNodes, part, isLast)), look), look)
      ensures ok ==> tempNodes == Flat(LevelTemps(nodes, curNodes, part, isLast))
      ensures ok && !isLast ==> forall x :: x in tempNodes ==> x < |nodes| && Known(paths, bound, x)
    {
      hide Shape, Closed, Sets, Gathered, Flat, NodeThrows, BoundAfter, NodeSources, NodeTemps, Binding;
      ghost var rows, onward := LevelSources(nodes, curNodes, part, isLast), LevelTemps(nodes, curNodes, part, isLast);
      ok, hs, tempNodes := true, [], [];
      NoneGathered(nodes, look);
      NoneFlat<nat>();
      NodeCount(nodes, paths, parents);
      for j := 0 to |curNodes|
        invariant ok && hs == Sets(Gathered(nodes, Flat(rows[..j]), look), look)
        invariant tempNodes == Flat(onward[..j])
        invariant forall i :: 0 <= i < |curNodes| ==> Known(paths, bound, curNodes[i])
        invariant forall i :: 0 <= i < j ==>
            !NodeThrows(nodes, curNodes[i], part, isLast, Binding(paths, curNodes[i]), look)
        invariant !isLast ==> forall x :: x in tempNodes ==> x < |nodes| && Known(paths, bound, x)
      {
        ghost var was := bound;
        FlatSnoc(rows, j);
        FlatSnoc(onward, j);
        GatheredAppend(nodes, Flat(rows[..j]), rows[j], look);
        SetsAppend(Gathered(nodes, Flat(rows[..j]), look), Gathered(nodes, rows[j], look), look);
        var more, further;
        ok, more, further := Visit(curNodes[j], part, isLast, look);
        if !ok {
          return;
        }
        LevelKnown(nodes, paths, parents, curNodes, part, isLast, was, j, tempNodes);
        hs, tempNodes := hs + more, tempNodes + further;
      }
      assert rows[..|rows|] == rows && onward[..|onward|] == onward;
    }

    /** `search`.  `engine` is what the sort makes of a list that cannot be compared. */
    method Search(look: Lookup, path: string, engine: seq<HandlerSet> -> seq<HandlerSet>) returns (r: Outcome)
      requires Valid() && forall s :: multiset(engine(s)) == multiset(s)
      modifies this`bound
      ensures r.TypeError? <==> exists e :: MustThrow(routes, look, SplitPath(path), e)
      ensures r.Returned? ==> Answer(routes, look, SplitPath(path), r.sets)
      ensures r == Returned(Intended(routes, look.meth, SplitPath(path))) <==>
        !(exists e :: Misread(routes, look, SplitPath(path), e)) && OnceEach(routes, look.meth, SplitPath(path))
      ensures (forall j :: 0 <= j < |SplitPath(path)| ==> !IsPattern(SplitPath(path)[j])) ==>
        && (r.Returned? ==> multiset(r.sets) == multiset(Sets(LinearScan(routes, look, SplitPath(path)), look)))
        && (r == Returned(Intended(routes, look.meth, SplitPath(path))) <==>
            !exists e :: Misread(routes, look, SplitPath(path), e))
    {
      hide Shape, Holds, Closed, Sets, Gathered, Flat, LevelThrows, MustThrow, Misread, Answer, Intended, Level,
        Found, Binding, Ordered, OnceEach, Times, LinearScan, IsPattern;
      var parts := SplitPath(path);
      ShapeIsClosed(nodes, paths, parents);
      bound := bound - {0};
      RootKnown(nodes, paths, parents, parts, bound);
      var handlerSets: seq<HandlerSet> := [];
      var curNodes := [0];
      ghost var blocks := LevelBlocks(nodes, parts);
      NoneGathered(nodes, look);
      NoneFlat<nat>();
      ThrowsIff(nodes, paths, parents, routes, look, parts);
      for i := 0 to |parts|
        invariant i < |parts| ==> curNodes == Level(nodes, parts, i)
        invariant handlerSets == Sets(Gathered(nodes, Flat(blocks[..i]), look), look)
        invariant i < |parts| ==> forall x :: x in curNodes ==> Known(paths, bound, x)
        invariant forall k :: 0 <= k < i ==>
          !LevelThrows(nodes, paths, Level(nodes, parts, k), parts[k], k + 1 == |parts|, look)
      {
        LevelDepth(nodes, paths, parents, parts, i);
        FlatSnoc(blocks, i);
        GatheredAppend(nodes, Flat(blocks[..i]), blocks[i], look);
        SetsAppend(Gathered(nodes, Flat(blocks[..i]), look), Gathered(nodes, blocks[i], look), look);
        NextLevel(nodes, parts, i);
        var ok, more;
        ok, more, curNodes := VisitLevel(curNodes, parts[i], i == |parts| - 1, look, i);
        if !ok {
          assert SearchThrows(nodes, paths, parts, look);
          MisreadIfThrown(routes, look, parts);
          return TypeError;
        }
        handlerSets := handlerSets + more;
      }
      assert blocks[..|blocks|] == blocks;
      AnswerIs(nodes, paths, parents, routes, look, parts, engine);
      r := Returned(Ordered(handlerSets, engine));
      SearchResult(routes, look, parts, r.sets);
      if forall j :: 0 <= j < |parts| ==> !IsPattern(parts[j]) {
        AnswerPlain(routes, look, parts, r.sets);
      }
    }
  }
}
