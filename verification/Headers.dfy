/** The header list of the fetch layer (src/js/headers.js:2-26, 75-87, 131-242), with no
    guard set. */
module Headers {
  import opened Wrappers

  // ---------------------------------------------------------------- names and values

  /** A character of a token (section 5.6.2 of RFC 9110). */
  predicate TokenChar(c: char) {
    'a' <= c <= 'z' || 'A' <= c <= 'Z' || '0' <= c <= '9' || c in "!#$%&'*+-.^_`|~"
  }

  const PUNCTUATION := "!#$%&'*+-.^_`|~"
  const DIGITS := "0123456789"
  const UPPER := "ABCDEFGHIJKLMNOPQRSTUVWXYZ"
  const LOWER := "abcdefghijklmnopqrstuvwxyz"

  lemma TokenLetters(i: nat)
    ensures i < |UPPER| ==> TokenChar(UPPER[i])
    ensures i < |LOWER| ==> TokenChar(LOWER[i])
  {
  }

  lemma TokenOthers(i: nat)
    ensures i < |PUNCTUATION| ==> TokenChar(PUNCTUATION[i])
    ensures i < |DIGITS| ==> TokenChar(DIGITS[i])
  {
  }

  lemma OnlyTokens(c: char)
    ensures TokenChar(c) ==> c in PUNCTUATION || c in DIGITS || c in UPPER || c in LOWER
  {
    if 'a' <= c <= 'z' {
      assert LOWER[c as int - 'a' as int] == c;
    } else if 'A' <= c <= 'Z' {
      assert UPPER[c as int - 'A' as int] == c;
    } else if '0' <= c <= '9' {
      assert DIGITS[c as int - '0' as int] == c;
    }
  }

  function Lower(c: char): char {
    if 'A' <= c <= 'Z' then c + ('a' - 'A') else c
  }

  function LowerCase(s: string): (r: string)
    ensures |r| == |s|
  {
    seq(|s|, i requires 0 <= i < |s| => Lower(s[i]))
  }

  /** Each capital letter becomes its small one, and no other character changes. */
  lemma FoldsCase(c: char)
    ensures forall i :: 0 <= i < 26 ==> Lower(UPPER[i]) == LOWER[i]
    ensures c !in UPPER ==> Lower(c) == c
  {
    if 'A' <= c <= 'Z' {
      assert UPPER[c as int - 'A' as int] == c;
    }
  }

  /** `normalizeName`; `None` is the TypeError. */
  function NormalizeName(name: string): Option<string> {
    if name != "" && forall c <- name :: TokenChar(c) then Some(LowerCase(name)) else None
  }

  predicate Blank(c: char) { c in "\t\n\r " }

  function TrimStart(s: string): (r: string)
    ensures r != "" ==> !Blank(r[0])
    ensures |r| <= |s| && r == s[|s| - |r|..]
  {
    if s != "" && Blank(s[0]) then TrimStart(s[1..]) else s
  }

  function TrimEnd(s: string): (r: string)
    ensures r != "" ==> !Blank(r[|r| - 1])
    ensures |r| <= |s| && r == s[..|r|]
  {
    if s != "" && Blank(s[|s| - 1]) then TrimEnd(s[..|s| - 1]) else s
  }

  /** `normalizeValue`; `None` is the TypeError. */
  function NormalizeValue(value: string): Option<string> {
    if exists c <- value :: c > '\U{FF}' then None
    else
      var v := TrimEnd(TrimStart(value));
      if exists c <- v :: c in "\0\r\n" then None else Some(v)
  }

  /** A value that has been normalized already. */
  predicate Stored(v: string) {
    && (v != "" ==> !Blank(v[0]) && !Blank(v[|v| - 1]))
    && forall c <- v :: c <= '\U{FF}' && c !in "\0\r\n"
  }

  lemma {:induction false} NormalizedIsStored(value: string)
    ensures NormalizeValue(value).Some? ==> Stored(NormalizeValue(value).value)
  {
    hide TrimStart, TrimEnd, Blank;
    var t := TrimStart(value);
    var v := TrimEnd(t);
    assert forall c <- v :: c in t;
    assert forall c <- t :: c in value;
    if v != "" {
      assert v[0] == t[0];
    }
  }

  lemma {:induction false} StoredIsNormal(v: string)
    ensures Stored(v) <==> NormalizeValue(v) == Some(v)
  {
    NormalizedIsStored(v);
    if Stored(v) {
      assert TrimStart(v) == v && TrimEnd(v) == v;
    }
  }

  // ---------------------------------------------------------------- order on names

  /** JavaScript's `<` on strings. */
  predicate Before(a: string, b: string) {
    if b == "" then false
    else if a == "" then true
    else if a[0] != b[0] then a[0] < b[0]
    else Before(a[1..], b[1..])
  }

  lemma {:induction false} Irreflexive(a: string)
    ensures !Before(a, a)
  {
    if a != "" {
      Irreflexive(a[1..]);
    }
  }

  lemma {:induction false} Total(a: string, b: string)
    ensures !(Before(a, b) && Before(b, a))
    ensures a == b || Before(a, b) || Before(b, a)
  {
    if a != "" && b != "" {
      Total(a[1..], b[1..]);
      assert a == [a[0]] + a[1..] && b == [b[0]] + b[1..];
    }
  }

  lemma {:induction false} Transitive(a: string, b: string, c: string)
    requires Before(a, b) && Before(b, c)
    ensures Before(a, c)
  {
    if a != "" && a[0] == b[0] && b[0] == c[0] {
      Transitive(a[1..], b[1..], c[1..]);
    }
  }

  // ---------------------------------------------------------------- the list

  type Pair = (string, string)

  /** The values stored under a name, in order. */
  function Values(list: seq<Pair>, n: string): seq<string> {
    if list == [] then [] else (if list[0].0 == n then [list[0].1] else []) + Values(list[1..], n)
  }

  function JoinComma(vs: seq<string>): string {
    if vs == [] then "" else if |vs| == 1 then vs[0] else vs[0] + ", " + JoinComma(vs[1..])
  }

  function Get(list: seq<Pair>, n: string): Option<string> {
    var vs := Values(list, n);
    if vs == [] then None else Some(JoinComma(vs))
  }

  lemma ValuesCons(p: Pair, list: seq<Pair>, n: string)
    ensures Values([p] + list, n) == (if p.0 == n then [p.1] else []) + Values(list, n)
  {
    assert ([p] + list)[1..] == list;
  }

  lemma {:induction false} ValuesConcat(a: seq<Pair>, b: seq<Pair>, n: string)
    ensures Values(a + b, n) == Values(a, n) + Values(b, n)
  {
    hide Values;
    if a == [] {
      assert a + b == b;
      NoValues(n);
    } else {
      var t := a[1..];
      assert a == [a[0]] + t && a + b == [a[0]] + (t + b);
      ValuesConcat(t, b, n);
      ValuesCons(a[0], t, n);
      ValuesCons(a[0], t + b, n);
    }
  }

  lemma NoValues(n: string)
    ensures Values([], n) == []
  {
  }

  lemma ValuesPush(list: seq<Pair>, i: nat, n: string)
    requires i < |list|
    ensures Values(list[..i + 1], n) == Values(list[..i], n) + (if list[i].0 == n then [list[i].1] else [])
  {
    assert list[..i + 1] == list[..i] + [list[i]];
    ValuesConcat(list[..i], [list[i]], n);
  }

  lemma ValuesPushes(list: seq<Pair>, i: nat)
    requires i < |list|
    ensures forall n :: Values(list[..i + 1], n) == Values(list[..i], n) + (if list[i].0 == n then [list[i].1] else [])
  {
    forall n ensures Values(list[..i + 1], n) == Values(list[..i], n) + (if list[i].0 == n then [list[i].1] else []) {
      ValuesPush(list, i, n);
    }
  }

  lemma ValuesAppend(list: seq<Pair>, p: Pair)
    ensures forall n :: Values(list + [p], n) == Values(list, n) + (if p.0 == n then [p.1] else [])
  {
    forall n ensures Values(list + [p], n) == Values(list, n) + (if p.0 == n then [p.1] else []) {
      ValuesConcat(list, [p], n);
    }
  }

  lemma {:induction false} JoinPush(vs: seq<string>, v: string)
    ensures JoinComma(vs + [v]) == if vs == [] then v else JoinComma(vs) + ", " + v
  {
    if vs == [] {
      assert vs + [v] == [v];
    } else {
      assert (vs + [v])[1..] == vs[1..] + [v];
      JoinPush(vs[1..], v);
    }
  }

  ghost predicate StoredList(list: seq<Pair>) { forall p <- list :: Stored(p.1) && NormalizeName(p.0) == Some(p.0) }

  // ---------------------------------------------------------------- Array.prototype.sort

  predicate Sorted(list: seq<Pair>) {
    forall i, j :: 0 <= i < j < |list| ==> !Before(list[j].0, list[i].0)
  }

  /** A stable sort: `p` goes before the first pair that is not before it. */
  function Insert(p: Pair, list: seq<Pair>): (r: seq<Pair>)
    ensures |r| == |list| + 1
    ensures forall q <- r :: q == p || q in list
  {
    if list == [] || !Before(list[0].0, p.0) then [p] + list else [list[0]] + Insert(p, list[1..])
  }

  function Sort(list: seq<Pair>): seq<Pair> {
    if list == [] then [] else Insert(list[0], Sort(list[1..]))
  }

  lemma NotBeforeTrans(a: string, b: string, c: string)
    requires !Before(b, a) && !Before(c, b)
    ensures !Before(c, a)
  {
    if Before(c, a) {
      Total(b, c);
      Total(a, b);
      if Before(b, c) {
        Transitive(b, c, a);
      }
    }
  }

  lemma SortedCons(x: Pair, t: seq<Pair>)
    requires Sorted(t) && forall q <- t :: !Before(q.0, x.0)
    ensures Sorted([x] + t)
  {
    hide Before;
    Irreflexive(x.0);
  }

  lemma SortedTail(list: seq<Pair>)
    requires Sorted(list) && list != []
    ensures Sorted(list[1..]) && forall q <- list[1..] :: !Before(q.0, list[0].0)
  {
    hide Before;
    var t := list[1..];
    assert forall j :: 0 <= j < |t| ==> t[j] == list[j + 1];
  }

  lemma {:induction false} InsertValues(p: Pair, list: seq<Pair>, n: string)
    requires Sorted(list)
    ensures Values(Insert(p, list), n) == (if p.0 == n then [p.1] else []) + Values(list, n)
  {
    hide Before, Sorted, Values;
    if list == [] || !Before(list[0].0, p.0) {
      ValuesCons(p, list, n);
    } else {
      SortedTail(list);
      InsertValues(p, list[1..], n);
      ValuesCons(list[0], Insert(p, list[1..]), n);
      ValuesCons(list[0], list[1..], n);
      assert list == [list[0]] + list[1..];
      Irreflexive(p.0);
    }
  }

  lemma {:induction false} InsertSorts(p: Pair, list: seq<Pair>, n: string)
    requires Sorted(list)
    ensures Sorted(Insert(p, list))
    ensures Values(Insert(p, list), n) == (if p.0 == n then [p.1] else []) + Values(list, n)
  {
    hide Before, Sorted, Values;
    InsertValues(p, list, n);
    if list == [] {
      SortedCons(p, []) by { NothingSorted(); }
    } else if !Before(list[0].0, p.0) {
      SortedTail(list);
      forall q <- list
        ensures !Before(q.0, p.0)
      {
        assert list == [list[0]] + list[1..];
        if q != list[0] {
          NotBeforeTrans(p.0, list[0].0, q.0);
        }
      }
      SortedCons(p, list);
    } else {
      SortedTail(list);
      InsertSorts(p, list[1..], n);
      Total(list[0].0, p.0);
      SortedCons(list[0], Insert(p, list[1..]));
    }
  }

  lemma NothingSorted()
    ensures Sorted([])
  {
  }

  lemma {:induction false} SortSorts(list: seq<Pair>, n: string)
    ensures Sorted(Sort(list)) && Values(Sort(list), n) == Values(list, n)
  {
    if list == [] {
    } else {
      SortSorts(list[1..], n);
      InsertSorts(list[0], Sort(list[1..]), n);
    }
  }

  // ---------------------------------------------------------------- the class

  /** Strictly increasing names. */
  predicate StrictlySorted(items: seq<Pair>) {
    forall i, j :: 0 <= i < j < |items| ==> Before(items[i].0, items[j].0)
  }

  /** The combined view: strictly sorted, with exactly the names of the list, each with what
      `get` returns for it. */
  ghost predicate Combines(items: seq<Pair>, list: seq<Pair>) {
    && StrictlySorted(items)
    && (forall p <- items :: Get(list, p.0) == Some(p.1))
    && (forall p <- list :: exists q :: q in items && q.0 == p.0)
  }

  /** `b` has `vs` under the name `n` and is as `a` under every other. */
  ghost predicate Changed(a: seq<Pair>, b: seq<Pair>, n: string, vs: seq<string>) {
    forall m :: Values(b, m) == if m == n then vs else Values(a, m)
  }

  lemma ChangedStart(list: seq<Pair>, n: string)
    ensures Changed(list[..0], [], n, []) && StoredList([])
  {
  }

  lemma ChangedStep(list: seq<Pair>, i: nat, next: seq<Pair>, n: string, vs: seq<string>)
    requires i < |list| && Changed(list[..i], next, n, vs)
    ensures Changed(list[..i + 1], if list[i].0 == n then next else next + [list[i]], n, vs)
  {
    hide Values;
    ValuesPushes(list, i);
    ValuesAppend(next, list[i]);
    assert forall m :: Values(list[..i], m) + [] == Values(list[..i], m);
  }

  lemma ChangedPut(list: seq<Pair>, next: seq<Pair>, n: string, v: string)
    ensures Changed(list, next, n, []) ==> Changed(list, next + [(n, v)], n, [v])
  {
    hide Values;
    ValuesAppend(next, (n, v));
    assert forall m :: Values(next, m) + [] == Values(next, m);
  }

  lemma StoredAppend(next: seq<Pair>, list: seq<Pair>, i: nat)
    requires i < |list| && StoredList(next) && StoredList(list)
    ensures StoredList(next + [list[i]])
  {
    assert list[i] in list;
  }

  lemma StoredPut(next: seq<Pair>, n: string, v: string)
    requires StoredList(next) && Stored(v) && NormalizeName(n) == Some(n)
    ensures StoredList(next + [(n, v)])
  {
  }

  /** Where the name first occurs, the length of the list if nowhere. */
  function FirstAt(list: seq<Pair>, n: string): (k: nat)
    ensures k <= |list| && (forall j :: 0 <= j < k ==> list[j].0 != n) && (k < |list| ==> list[k].0 == n)
  {
    if list == [] || list[0].0 == n then 0 else 1 + FirstAt(list[1..], n)
  }

  /** The pairs with another name, in order. */
  function Others(list: seq<Pair>, n: string): seq<Pair> {
    if list == [] then []
    else Others(list[..|list| - 1], n) + (if list[|list| - 1].0 == n then [] else [list[|list| - 1]])
  }

  lemma OthersStep(list: seq<Pair>, k: nat, i: nat, n: string)
    requires k <= i < |list|
    ensures Others(list[k..i + 1], n) == Others(list[k..i], n) + (if list[i].0 == n then [] else [list[i]])
  {
    assert list[k..i + 1][..i - k] == list[k..i];
  }

  lemma NoOthers(list: seq<Pair>, k: nat, n: string)
    requires k <= |list|
    ensures Others(list[k..k], n) == []
  {
  }

  /** `list` with v in the first place of the name, and no other value under it. */
  function Replaced(list: seq<Pair>, n: string, v: string): seq<Pair> {
    var k := FirstAt(list, n);
    list[..k] + [(n, v)] + Others(list[k..], n)
  }

  /** How the loop of `set` has gone on: as far as before the first place, or past it. */
  ghost predicate SetSoFar(list: seq<Pair>, i: nat, next: seq<Pair>, n: string, v: string, found: bool)
    requires i <= |list|
  {
    var k := FirstAt(list, n);
    if found then k < i && next == list[..k] + [(n, v)] + Others(list[k..i], n) else i <= k && next == list[..i]
  }

  lemma SetStart(list: seq<Pair>, n: string, v: string)
    ensures SetSoFar(list, 0, [], n, v, false)
  {
  }

  lemma SetStep(list: seq<Pair>, i: nat, next: seq<Pair>, n: string, v: string, found: bool)
    requires i < |list| && SetSoFar(list, i, next, n, v, found)
    ensures var next' := if list[i].0 != n then next + [list[i]] else if found then next else next + [(n, v)];
            SetSoFar(list, i + 1, next', n, v, found || list[i].0 == n)
  {
    hide Others;
    var k := FirstAt(list, n);
    if found {
      OthersStep(list, k, i, n);
    } else if list[i].0 == n {
      OthersStep(list, k, k, n);
      NoOthers(list, k, n);
    }
  }

  lemma SetDone(list: seq<Pair>, next: seq<Pair>, n: string, v: string, found: bool)
    requires SetSoFar(list, |list|, next, n, v, found)
    ensures Replaced(list, n, v) == if found then next else next + [(n, v)]
  {
    hide Others;
    NoOthers(list, |list|, n);
    assert list[FirstAt(list, n)..] == list[FirstAt(list, n)..|list|];
  }

  class HeaderList {
    var list: seq<Pair>

    ghost predicate Valid()
      reads this
    {
      StoredList(list)
    }

    constructor ()
      ensures Valid() && list == []
    {
      list := [];
    }

    /** `append`; on `false` it throws and nothing has changed. */
    method Append(name: string, value: string) returns (ok: bool)
      requires Valid()
      modifies this
      ensures Valid()
      ensures ok <==> NormalizeName(name).Some? && NormalizeValue(value).Some?
      ensures list == if ok then old(list) + [(NormalizeName(name).value, NormalizeValue(value).value)] else old(list)
    {
      var n, v := NormalizeName(name), NormalizeValue(value);
      if n.None? || v.None? {
        return false;
      }
      NormalizedIsStored(value);
      NormalizedName(name);
      list := list + [(n.value, v.value)];
      ok := true;
    }

    method Delete(name: string) returns (ok: bool)
      requires Valid()
      modifies this
      ensures Valid() && (ok <==> NormalizeName(name).Some?)
      ensures !ok ==> list == old(list)
      ensures ok ==> list == Others(old(list), NormalizeName(name).value)
      ensures ok ==> Changed(old(list), list, NormalizeName(name).value, [])
    {
      hide Values, StoredList, NormalizeName, Others;
      var n := NormalizeName(name);
      if n.None? {
        return false;
      }
      var next: seq<Pair> := [];
      var i := 0;
      ChangedStart(list, n.value);
      NoOthers(list, 0, n.value);
      while i < |list|
        invariant list == old(list) && 0 <= i <= |list| && StoredList(next)
        invariant Changed(list[..i], next, n.value, []) && next == Others(list[0..i], n.value)
      {
        OthersStep(list, 0, i, n.value);
        ChangedStep(list, i, next, n.value, []);
        StoredAppend(next, list, i);
        if list[i].0 != n.value {
          next := next + [list[i]];
        }
        i := i + 1;
      }
      assert list[..i] == list;
      list := next;
      ok := true;
    }

    method GetValue(name: string) returns (ok: bool, value: Option<string>)
      ensures ok <==> NormalizeName(name).Some?
      ensures ok ==> value == Get(list, NormalizeName(name).value)
    {
      var n := NormalizeName(name);
      value := None;
      if n.None? {
        return false, None;
      }
      var values: seq<string> := [];
      var i := 0;
      while i < |list|
        invariant 0 <= i <= |list| && values == Values(list[..i], n.value)
      {
        ValuesPush(list, i, n.value);
        if list[i].0 == n.value {
          values := values + [list[i].1];
        }
        i := i + 1;
      }
      assert list[..i] == list;
      return true, if values != [] then Some(JoinComma(values)) else None;
    }

    /** `set`: the first occurrence is replaced, later ones are dropped, a new name is added. */
    method Set(name: string, value: string) returns (ok: bool)
      requires Valid()
      modifies this
      ensures Valid() && (ok <==> NormalizeName(name).Some? && NormalizeValue(value).Some?)
      ensures !ok ==> list == old(list)
      ensures ok ==> list == Replaced(old(list), NormalizeName(name).value, NormalizeValue(value).value)
      ensures ok ==> Changed(old(list), list, NormalizeName(name).value, [NormalizeValue(value).value])
    {
      hide Values, StoredList, Stored, NormalizeName, NormalizeValue, Replaced, SetSoFar, Changed;
      var n, v := NormalizeName(name), NormalizeValue(value);
      if n.None? || v.None? {
        return false;
      }
      NormalizedIsStored(value);
      NormalizedName(name);
      var found := false;
      var next: seq<Pair> := [];
      var i := 0;
      ChangedStart(list, n.value);
      SetStart(list, n.value, v.value);
      while i < |list|
        invariant list == old(list) && 0 <= i <= |list| && StoredList(next)
        invariant Changed(list[..i], next, n.value, if found then [v.value] else [])
        invariant SetSoFar(list, i, next, n.value, v.value, found)
      {
        SetStep(list, i, next, n.value, v.value, found);
        ChangedStep(list, i, next, n.value, if found then [v.value] else []);
        ChangedPut(list[..i + 1], next, n.value, v.value);
        StoredAppend(next, list, i);
        StoredPut(next, n.value, v.value);
        if list[i].0 == n.value {
          if !found {
            next := next + [(n.value, v.value)];
            found := true;
          }
        } else {
          next := next + [list[i]];
        }
        i := i + 1;
      }
      assert list[..i] == list;
      SetDone(list, next, n.value, v.value, found);
      if !found {
        ChangedPut(list, next, n.value, v.value);
        StoredPut(next, n.value, v.value);
        next := next + [(n.value, v.value)];
      }
      list := next;
      ok := true;
    }

    /** `_combined`. */
    method Combined() returns (items: seq<Pair>)
      ensures Combines(items, list)
    {
      hide Get, Values, Sort, Before, Sorted;
      var sorted := Sort(list);
      SortKeeps(list);
      var seen: seq<string> := [];
      var values: map<string, string> := map[];
      var i := 0;
      NothingYet(sorted);
      while i < |sorted|
        invariant 0 <= i <= |sorted| && InOrder(seen)
        invariant forall k :: k in values <==> k in seen
        invariant Collected(values, sorted[..i])
      {
        var k, v := sorted[i].0, sorted[i].1;
        CollectedStep(values, sorted, i);
        if k in values {
          values := values[k := values[k] + ", " + v];
        } else {
          NewLast(seen, values, sorted, i);
          values := values[k := v];
          seen := seen + [k];
        }
        i := i + 1;
      }
      assert sorted[..i] == sorted;
      items := seq(|seen|, j requires 0 <= j < |seen| && seen[j] in values => (seen[j], values[seen[j]]));
      CombinedItems(items, seen, values, sorted, list);
    }
  }

  lemma SortKeeps(list: seq<Pair>)
    ensures Sorted(Sort(list)) && forall n :: Get(Sort(list), n) == Get(list, n)
  {
    SortSorts(list, "");
    forall n ensures Get(Sort(list), n) == Get(list, n) {
      SortSorts(list, n);
    }
  }

  predicate InOrder(seen: seq<string>) {
    forall a, b :: 0 <= a < b < |seen| ==> Before(seen[a], seen[b])
  }

  /** `values` maps each name of the list to all its values, joined. */
  ghost predicate Collected(values: map<string, string>, list: seq<Pair>) {
    forall k :: (if k in values then Some(values[k]) else None) == Get(list, k)
  }

  lemma NothingYet(list: seq<Pair>)
    ensures Collected(map[], list[..0])
  {
  }

  lemma CollectedStep(values: map<string, string>, list: seq<Pair>, i: nat)
    requires i < |list| && Collected(values, list[..i])
    ensures var k, v := list[i].0, list[i].1;
            Collected(values[k := if k in values then values[k] + ", " + v else v], list[..i + 1])
  {
    hide Get;
    forall m ensures var g := Get(list[..i], m);
                     Get(list[..i + 1], m) == if m != list[i].0 then g
                                              else Some(if g.None? then list[i].1 else g.value + ", " + list[i].1) {
      GetPush(list, i, m);
    }
  }

  /** In a sorted list a name not met before comes after all those met. */
  lemma NewLast(seen: seq<string>, values: map<string, string>, list: seq<Pair>, i: nat)
    requires i < |list| && Sorted(list) && Collected(values, list[..i]) && InOrder(seen)
    requires (forall k :: k in values <==> k in seen) && list[i].0 !in values
    ensures InOrder(seen + [list[i].0])
  {
    hide Before, Values, JoinComma;
    var k := list[i].0;
    forall a | 0 <= a < |seen| ensures Before(seen[a], k) {
      assert seen[a] in values;
      var j := ValuesIndex(list[..i], seen[a]);
      assert !Before(list[i].0, list[j].0);
      Total(seen[a], k);
    }
  }

  lemma CombinedItems(items: seq<Pair>, seen: seq<string>, values: map<string, string>, sorted: seq<Pair>,
                      list: seq<Pair>)
    requires InOrder(seen) && Collected(values, sorted) && (forall k :: k in values <==> k in seen)
    requires forall n :: Get(sorted, n) == Get(list, n)
    requires |items| == |seen| && forall j :: 0 <= j < |seen| ==>
        seen[j] in values && items[j] == (seen[j], values[seen[j]])
    ensures Combines(items, list)
  {
    hide Before, JoinComma;
    forall p | p in list ensures exists q :: q in items && q.0 == p.0 {
      ValuesMember(list, p);
      assert Get(list, p.0).Some? && p.0 in values;
      var j :| 0 <= j < |seen| && seen[j] == p.0;
      assert items[j] in items;
    }
  }

  lemma GetPush(list: seq<Pair>, i: nat, n: string)
    requires i < |list|
    ensures var g, v := Get(list[..i], n), list[i].1;
            Get(list[..i + 1], n) == if n != list[i].0 then g else Some(if g.None? then v else g.value + ", " + v)
  {
    hide Values, JoinComma;
    ValuesPush(list, i, n);
    JoinPush(Values(list[..i], n), list[i].1);
    assert Values(list[..i], n) + [] == Values(list[..i], n);
  }

  lemma {:induction false} ValuesIndex(list: seq<Pair>, n: string) returns (j: nat)
    requires Values(list, n) != []
    ensures j < |list| && list[j].0 == n
  {
    if list[0].0 == n {
      j := 0;
    } else {
      j := ValuesIndex(list[1..], n);
      j := j + 1;
    }
  }

  lemma {:induction false} ValuesMember(list: seq<Pair>, p: Pair)
    requires p in list
    ensures Values(list, p.0) != []
  {
    if list[0] != p {
      ValuesMember(list[1..], p);
    }
  }

  lemma {:induction false} NormalizedName(name: string)
    requires NormalizeName(name).Some?
    ensures NormalizeName(NormalizeName(name).value) == NormalizeName(name)
  {
    var n := LowerCase(name);
    forall i | 0 <= i < |n| ensures TokenChar(n[i]) && Lower(n[i]) == n[i] {
      assert name[i] in name;
    }
    assert LowerCase(n) == n;
  }

  // ---------------------------------------------------------------- copying

  function Last(vs: seq<string>): string
    requires vs != []
  {
    vs[|vs| - 1]
  }

  predicate CharsFit(v: string) { forall c <- v :: c <= '\U{FF}' && c !in "\0\r\n" }

  /** Joining stored values gives a stored value unless two or more are joined and the last of
      them is empty: then the text ends in a blank. */
  lemma {:induction false} JoinStored(vs: seq<string>)
    requires vs != [] && forall v <- vs :: Stored(v)
    ensures CharsFit(JoinComma(vs))
    ensures Stored(JoinComma(vs)) <==> |vs| == 1 || Last(vs) != ""
    ensures |vs| > 1 ==> JoinComma(vs) != "" && !Blank(JoinComma(vs)[0])
    ensures JoinComma(vs) != "" ==> (Blank(JoinComma(vs)[|JoinComma(vs)| - 1]) <==> |vs| > 1 && Last(vs) == "")
  {
    hide Blank;
    assert vs[0] in vs;
    if |vs| > 1 {
      var rest := vs[1..];
      assert forall v <- rest :: v in vs;
      JoinStored(rest);
      assert Last(rest) == Last(vs);
      JoinTwo(vs[0], JoinComma(rest));
    }
  }

  lemma JoinTwo(a: string, j: string)
    requires Stored(a) && CharsFit(j)
    ensures var s := a + ", " + j;
            && CharsFit(s)
            && !Blank(s[0])
            && (Blank(s[|s| - 1]) <==> j == "" || Blank(j[|j| - 1]))
  {
    var s := a + ", " + j;
    assert forall c <- s :: c in a || c in ", " || c in j;
    assert s[0] == if a == "" then ',' else a[0];
    assert s[|s| - 1] == if j == "" then ' ' else j[|j| - 1];
  }

  lemma StoredValues(list: seq<Pair>, n: string)
    requires StoredList(list)
    ensures forall v <- Values(list, n) :: Stored(v)
    ensures Values(list, n) != [] ==> NormalizeName(n) == Some(n)
  {
    hide Stored, NormalizeName;
    if list != [] {
      assert forall p <- list[1..] :: p in list;
      StoredValues(list[1..], n);
      assert list[0] in list;
    }
  }

  /** All pairs normalized, `None` when one of them cannot be. */
  function Normal(items: seq<Pair>): Option<seq<Pair>> {
    if items == [] then Some([])
    else
      var n, v, rest := NormalizeName(items[0].0), NormalizeValue(items[0].1), Normal(items[1..]);
      if n.None? || v.None? || rest.None? then None else Some([(n.value, v.value)] + rest.value)
  }

  lemma NothingNormal()
    ensures Normal([]) == Some([])
  {
  }

  /** What is left of the pairs, after the first i of them became `list`. */
  ghost predicate Appended(items: seq<Pair>, i: nat, list: seq<Pair>)
    requires i <= |items|
  {
    var rest := Normal(items[i..]);
    Normal(items) == if rest.None? then None else Some(list + rest.value)
  }

  lemma NormalFrom(items: seq<Pair>, i: nat)
    requires i < |items|
    ensures var n, v, rest := NormalizeName(items[i].0), NormalizeValue(items[i].1), Normal(items[i + 1..]);
            Normal(items[i..]) ==
            if n.None? || v.None? || rest.None? then None else Some([(n.value, v.value)] + rest.value)
  {
    hide NormalizeName, NormalizeValue;
    assert items[i..][1..] == items[i + 1..];
  }

  /** One pair more, or the one that is refused. */
  lemma NormalStep(items: seq<Pair>, i: nat, list: seq<Pair>)
    requires i < |items| && Appended(items, i, list)
    ensures var n, v := NormalizeName(items[i].0), NormalizeValue(items[i].1);
            if n.None? || v.None? then Normal(items).None? else Appended(items, i + 1, list + [(n.value, v.value)])
  {
    hide NormalizeName, NormalizeValue, Normal;
    var n, v, rest := NormalizeName(items[i].0), NormalizeValue(items[i].1), Normal(items[i + 1..]);
    NormalFrom(items, i);
    if n.Some? && v.Some? && rest.Some? {
      assert list + ([(n.value, v.value)] + rest.value) == list + [(n.value, v.value)] + rest.value;
    }
  }

  /** The constructor on an iterable of pairs: it appends them in turn, and throws at the first
      that is refused. */
  method FromPairs(items: seq<Pair>) returns (ok: bool, h: HeaderList)
    ensures fresh(h) && h.Valid()
    ensures Normal(items) == if ok then Some(h.list) else None
  {
    hide NormalizeName, NormalizeValue, Stored, StoredList, Normal;
    h := new HeaderList();
    var i := 0;
    NothingNormal();
    assert items[0..] == items && forall l: seq<Pair> :: [] + l == l;
    while i < |items|
      invariant 0 <= i <= |items| && h.Valid() && fresh(h)
      invariant Appended(items, i, h.list)
    {
      NormalStep(items, i, h.list);
      var done := h.Append(items[i].0, items[i].1);
      if !done {
        return false, h;
      }
      i := i + 1;
    }
    assert items[i..] == [] && h.list + [] == h.list;
    ok := true;
  }

  /** A strictly sorted list has at most one value for a name. */
  lemma {:induction false} OneValue(items: seq<Pair>, n: string)
    requires StrictlySorted(items)
    ensures Values(items, n) == [] || exists p :: p in items && p.0 == n && Values(items, n) == [p.1]
    ensures forall p <- items :: p.0 == n ==> Values(items, n) == [p.1]
  {
    if items != [] {
      var t := items[1..];
      assert StrictlySorted(t) by {
        assert forall j :: 0 <= j < |t| ==> t[j] == items[j + 1];
      }
      OneValue(t, n);
      if items[0].0 == n {
        Irreflexive(n);
        forall p | p in t ensures p.0 != n {
          var j :| 0 <= j < |t| && t[j] == p;
          assert items[j + 1] == p && Before(items[0].0, items[j + 1].0);
        }
        assert items[0] in items;
      }
    }
  }

  /** What normalizing the pairs of a combined view does to one name. */
  lemma {:induction false} NormalValues(items: seq<Pair>, n: string)
    requires forall p <- items :: NormalizeName(p.0) == Some(p.0) && NormalizeValue(p.1).Some?
    ensures Normal(items).Some? && |Values(Normal(items).value, n)| == |Values(items, n)|
    ensures forall j :: 0 <= j < |Values(items, n)| ==>
              NormalizeValue(Values(items, n)[j]) == Some(Values(Normal(items).value, n)[j])
  {
    hide NormalizeName, NormalizeValue;
    if items != [] {
      assert items[0] in items;
      assert forall p <- items[1..] :: p in items;
      NormalValues(items[1..], n);
      var r := Normal(items).value;
      assert r[1..] == Normal(items[1..]).value;
    }
  }

  lemma FitsNormalizes(v: string)
    requires CharsFit(v)
    ensures NormalizeValue(v).Some?
  {
    var t := TrimStart(v);
    var w := TrimEnd(t);
    assert forall c <- w :: c in t;
    assert forall c <- t :: c in v;
  }

  /** Copying headers through their own iterator never throws, and it keeps what `get` returns
      for a name exactly unless two or more values are stored under it and the last one is
      empty. */
  lemma {:induction false} CopyKeeps(list: seq<Pair>, items: seq<Pair>, n: string)
    requires StoredList(list) && Combines(items, list)
    ensures Normal(items).Some?
    ensures Get(Normal(items).value, n) == Get(list, n) <==>
            var vs := Values(list, n); !(|vs| > 1 && Last(vs) == "")
  {
    forall p | p in items ensures NormalizeName(p.0) == Some(p.0) && NormalizeValue(p.1).Some? {
      StoredValues(list, p.0);
      JoinStored(Values(list, p.0));
      FitsNormalizes(p.1);
    }
    OneValue(items, n);
    NormalValues(items, n);
    var vs := Values(list, n);
    if vs != [] {
      SomeValue(items, list, n);
      StoredValues(list, n);
      JoinStored(vs);
      StoredIsNormal(JoinComma(vs));
    }
  }

  lemma SomeValue(items: seq<Pair>, list: seq<Pair>, n: string)
    requires Combines(items, list) && Values(list, n) != []
    ensures Values(items, n) == [JoinComma(Values(list, n))]
  {
    OneValue(items, n);
    var j := ValuesIndex(list, n);
    assert list[j] in list;
    var q :| q in items && q.0 == n;
    assert Get(list, q.0) == Some(q.1);
  }

  /** After appending "x" and then an empty value, the name reads "x, "; in the copy it reads "x,". */
  lemma CopyLosesBlank()
    ensures var list, items := [("a", "x"), ("a", "")], [("a", "x, ")];
            && StoredList(list) && Combines(items, list) && Get(list, "a") == Some("x, ")
            && Normal(items) == Some([("a", "x,")]) && Get([("a", "x,")], "a") == Some("x,")
  {
    hide Before, Values, JoinComma, NormalizeName, NormalizeValue, Normal, Stored, Get;
    var list: seq<Pair>, items: seq<Pair> := [("a", "x"), ("a", "")], [("a", "x, ")];
    NameIsNormal();
    ValueIsTrimmed();
    TwoValues("a", "x", "");
    OneValueGot("a", "x,");
    assert "x" + ", " + "" == "x, ";
    SingleItem(list, "a", "x, ");
    OneNormal("a", "x, ");
  }

  lemma TwoValues(n: string, v: string, w: string)
    ensures Get([(n, v), (n, w)], n) == Some(v + ", " + w)
  {
    ValuesConcat([(n, v)], [(n, w)], n);
    OneValueGot(n, v);
    OneValueGot(n, w);
    assert [(n, v)] + [(n, w)] == [(n, v), (n, w)];
    JoinPush([v], w);
    assert [v] + [w] == [v, w];
  }

  lemma OneValueGot(n: string, v: string)
    ensures Values([(n, v)], n) == [v] && Get([(n, v)], n) == Some(v)
  {
    assert [(n, v)][1..] == [];
  }

  lemma SingleItem(list: seq<Pair>, n: string, v: string)
    requires Get(list, n) == Some(v) && forall p <- list :: p.0 == n
    ensures Combines([(n, v)], list)
  {
    hide Get;
    assert (n, v) in [(n, v)];
  }

  lemma OneNormal(n: string, v: string)
    requires NormalizeName(n) == Some(n) && NormalizeValue(v).Some?
    ensures Normal([(n, v)]) == Some([(n, NormalizeValue(v).value)])
  {
    hide NormalizeName, NormalizeValue;
    assert [(n, v)][1..] == [] && Normal([]) == Some([]);
    assert [(n, NormalizeValue(v).value)] + [] == [(n, NormalizeValue(v).value)];
  }

  lemma NameIsNormal()
    ensures NormalizeName("a") == Some("a") && Stored("x") && Stored("")
  {
    assert LowerCase("a") == "a";
  }

  lemma ValueIsTrimmed()
    ensures NormalizeValue("x, ") == Some("x,")
  {
    hide TrimStart, TrimEnd;
    var s, r := "x, ", "x,";
    assert s[..2] == r;
    BlankGoes(s);
    assert forall c <- s :: c == 'x' || c == ',' || c == ' ';
    assert forall c <- r :: c == 'x' || c == ',';
  }

  lemma BlankGoes(s: string)
    requires |s| >= 2 && !Blank(s[0]) && Blank(s[|s| - 1]) && !Blank(s[|s| - 2])
    ensures TrimEnd(TrimStart(s)) == s[..|s| - 1]
  {
    hide Blank;
    assert TrimStart(s) == s;
    assert TrimEnd(s[..|s| - 1]) == s[..|s| - 1];
  }
}
