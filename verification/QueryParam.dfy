/** Reading one query parameter (src/js/hono.bundle.js:261-336): an index-hopping fast path in
    front of a segment-by-segment loop over an object of results. */
module QueryParam {
  import opened Wrappers

  /** A value, `undefined`, something inherited from Object.prototype, or (for the empty key) all results. */
  datatype Answer = Text(value: string) | Undefined | Inherited | Everything(results: map<string, string>)

  // ---------------------------------------------------------------- string built-ins

  /** c does not occur in this part of s. */
  ghost predicate Without(s: string, c: char, from: nat, to: nat) {
    forall j :: from <= j < to <= |s| ==> s[j] != c
  }

  /** String.prototype.indexOf for one character. */
  function IndexOf(s: string, c: char, from: nat): (i: int)
    requires from <= |s|
    ensures i == -1 || from <= i < |s|
    ensures i >= 0 ==> s[i] == c
    ensures Without(s, c, from, if i < 0 then |s| else i)
    decreases |s| - from
  {
    if from == |s| then -1 else if s[from] == c then from else IndexOf(s, c, from + 1)
  }

  /** String.prototype.startsWith at a position. */
  predicate StartsWith(s: string, p: string, at: nat) { at + |p| <= |s| && s[at..at + |p|] == p }

  /** String.prototype.indexOf for a string. */
  function IndexOfText(s: string, p: string, from: nat): (i: int)
    ensures i == -1 || from <= i <= |s|
    ensures i >= 0 ==> StartsWith(s, p, i)
    ensures forall j: nat :: from <= j && StartsWith(s, p, j) ==> 0 <= i <= j
    decreases |s| - from
  {
    if from > |s| then -1 else if StartsWith(s, p, from) then from else IndexOfText(s, p, from + 1)
  }

  predicate Encoded(s: string) { '%' in s || '+' in s }

  function PlusToSpace(s: string): (r: string)
    ensures |r| == |s|
  {
    seq(|s|, i requires 0 <= i < |s| => if s[i] == '+' then ' ' else s[i])
  }

  /** `_decodeURI`; `percent` is the tolerant decodeURIComponent. */
  function Decode(s: string, percent: string -> string): (r: string)
    ensures !Encoded(s) ==> r == s
  {
    if !Encoded(s) then s
    else
      var v := if '+' in s then PlusToSpace(s) else s;
      if '%' in v then percent(v) else v
  }

  // ---------------------------------------------------------------- the simple reading

  /** Where the segment that starts at `at` ends. */
  function End(url: string, at: nat): (e: nat)
    requires at <= |url|
    ensures at <= e <= |url| && (e < |url| ==> url[e] == '&')
  {
    var i := IndexOf(url, '&', at);
    if i < 0 then |url| else i
  }

  /** Where its name ends. */
  function NameEnd(url: string, at: nat): (e: nat)
    requires at <= |url|
    ensures at <= e <= End(url, at)
  {
    var i := IndexOf(url, '=', at);
    if i < 0 || i > End(url, at) then End(url, at) else i
  }

  function Name(url: string, at: nat): string
    requires at <= |url|
  {
    url[at..NameEnd(url, at)]
  }

  function Value(url: string, at: nat): string
    requires at <= |url|
  {
    if NameEnd(url, at) < End(url, at) then url[NameEnd(url, at) + 1..End(url, at)] else ""
  }

  /** Where the first segment from `at` on starts whose decoded name is `key`. */
  function NamedStart(url: string, at: nat, key: string, percent: string -> string): (s: Option<nat>)
    requires at <= |url|
    ensures s.Some? ==> at <= s.value <= |url| && Decode(Name(url, s.value), percent) == key
    decreases |url| - at
  {
    if Decode(Name(url, at), percent) == key then Some(at)
    else if End(url, at) == |url| then None
    else NamedStart(url, End(url, at) + 1, key, percent)
  }

  /** The decoded value of that segment. */
  function First(url: string, at: nat, key: string, percent: string -> string): Option<string>
    requires at <= |url|
  {
    var s := NamedStart(url, at, key, percent);
    if s.None? then None else Some(Decode(Value(url, s.value), percent))
  }

  /** `key` stands at the start of a segment and is followed by `=`, `&` or the end. */
  predicate Spelled(url: string, at: nat, key: string) {
    StartsWith(url, key, at) && (at + |key| == |url| || url[at + |key|] == '&' || url[at + |key|] == '=')
  }

  /** Where the first segment from `at` on starts that spells `key` as it is. */
  function WrittenStart(url: string, at: nat, key: string): (s: Option<nat>)
    requires at <= |url|
    ensures s.Some? ==> at <= s.value <= |url| && Spelled(url, s.value, key)
    decreases |url| - at
  {
    if Spelled(url, at, key) then Some(at)
    else if End(url, at) == |url| then None
    else WrittenStart(url, End(url, at) + 1, key)
  }

  /** Where the first segment from `at` on starts whose name holds an escape and decodes to `key`. */
  function EscapedStart(url: string, at: nat, key: string, percent: string -> string): (s: Option<nat>)
    requires at <= |url|
    ensures s.Some? ==>
      at <= s.value <= |url| && Encoded(Name(url, s.value)) && Decode(Name(url, s.value), percent) == key
    decreases |url| - at
  {
    if Encoded(Name(url, at)) && Decode(Name(url, at), percent) == key then Some(at)
    else if End(url, at) == |url| then None
    else EscapedStart(url, End(url, at) + 1, key, percent)
  }

  /** The text after an equals sign at `t`, up to the next ampersand. */
  function After(url: string, t: nat): string {
    if t < |url| && url[t] == '=' then url[t + 1..End(url, t + 1)] else ""
  }

  /** Where the query starts, if there is one. */
  function Query(url: string): (q: Option<nat>)
    ensures q.Some? ==> q.value <= |url|
  {
    if |url| < 8 then None
    else
      var i := IndexOf(url, '?', 8);
      if i < 0 then None else Some(i + 1)
  }

  /** First match wins, on decoded names. */
  function Reference(url: string, key: string, percent: string -> string): Answer {
    var q := Query(url);
    if q.None? then Undefined
    else
      var r := First(url, q.value, key, percent);
      if r.None? then Undefined else Text(r.value)
  }

  /** Where the query first spells `key` as it is. */
  function Written(url: string, key: string): (s: Option<nat>)
    ensures s.Some? ==> s.value + |key| <= |url|
  {
    var q := Query(url);
    if q.None? then None else WrittenStart(url, q.value, key)
  }

  /** Where the query first spells `key` with escapes. */
  function Escaped(url: string, key: string, percent: string -> string): (s: Option<nat>)
    ensures s.Some? ==> s.value <= |url|
  {
    var q := Query(url);
    if q.None? then None else EscapedStart(url, q.value, key, percent)
  }

  /** What the source's object of results holds for `key`: nothing is ever stored over a name
      that Object.prototype has. */
  function Looped(url: string, key: string, inherited: set<string>, percent: string -> string): Answer {
    if key in inherited then Inherited else Reference(url, key, percent)
  }

  /** What the function answers for a key that is not empty. */
  function Param(url: string, key: string, inherited: set<string>, percent: string -> string): Answer {
    var w := Written(url, key);
    if Encoded(key) then Looped(url, key, inherited, percent)
    else if w.Some? then Text(Decode(After(url, w.value + |key|), percent))
    else if !Encoded(url) then Undefined
    else Looped(url, key, inherited, percent)
  }

  // ---------------------------------------------------------------- agreement

  /** A key that can be the name of a parameter as it is written. */
  predicate Plain(key: string) { key != "" && '=' !in key && '&' !in key && !Encoded(key) }

  /** Where a plain key is spelled, the segment has that name, and conversely. */
  lemma SpelledIsName(url: string, at: nat, key: string)
    requires at <= |url| && '=' !in key && '&' !in key
    ensures Spelled(url, at, key) <==> Name(url, at) == key
    ensures Spelled(url, at, key) ==> After(url, at + |key|) == Value(url, at)
  {
    hide IndexOf, StartsWith, After, Name, Value;
    StartIs(url, at, key);
    NameStops(url, at);
    if Spelled(url, at, key) {
      NameIs(url, at, at + |key|);
    }
  }

  lemma StartIs(url: string, at: nat, key: string)
    requires at <= |url|
    ensures StartsWith(url, key, at) <==> at + |key| <= |url| && url[at..at + |key|] == key
  {
  }

  /** What stands before the first separator is the name. */
  lemma NameIs(url: string, at: nat, t: nat)
    requires at <= t <= |url| && '=' !in url[at..t] && '&' !in url[at..t]
    requires t == |url| || url[t] == '=' || url[t] == '&'
    ensures Name(url, at) == url[at..t] && Value(url, at) == After(url, t)
  {
    hide IndexOf, Without;
    NotIn(url, '=', at, t);
    NotIn(url, '&', at, t);
    if t < |url| {
      IndexIs(url, url[t], at, t);
      if url[t] == '=' {
        Later(url, '&', at, t);
      } else {
        Later(url, '=', at, t);
      }
    } else {
      IndexIs(url, '=', at, -1);
      IndexIs(url, '&', at, -1);
    }
  }

  lemma NotIn(url: string, c: char, at: nat, t: nat)
    requires at <= t <= |url| && c !in url[at..t]
    ensures Without(url, c, at, t)
  {
    assert forall j :: at <= j < t ==> url[j] in url[at..t];
  }

  /** The next place of a character that does not stand before t, nor at t. */
  lemma Later(url: string, c: char, at: nat, t: nat)
    requires at <= t < |url| && Without(url, c, at, t) && url[t] != c
    ensures IndexOf(url, c, at) == IndexOf(url, c, t + 1)
  {
    hide IndexOf;
    IndexIs(url, c, at, IndexOf(url, c, t + 1));
  }

  lemma NameStops(url: string, at: nat)
    requires at <= |url|
    ensures var t := at + |Name(url, at)|;
            t <= |url| && Name(url, at) == url[at..t] && (t == |url| || url[t] == '=' || url[t] == '&')
  {
    hide IndexOf;
  }

  function Earlier(a: Option<nat>, b: Option<nat>): Option<nat> {
    if a.None? || (b.Some? && b.value < a.value) then b else a
  }

  /** The first segment named by a plain key is the first that spells it, unless one that
      spells it with escapes comes before. */
  lemma {:induction false} NamedIsEarlier(url: string, at: nat, key: string, percent: string -> string)
    requires at <= |url| && Plain(key)
    ensures NamedStart(url, at, key, percent) ==
        Earlier(WrittenStart(url, at, key), EscapedStart(url, at, key, percent))
    decreases |url| - at
  {
    hide Spelled, Name, End, After, Value, Encoded, Decode;
    SpelledIsName(url, at, key);
    PlainName(Name(url, at), key, percent);
    if End(url, at) < |url| {
      NamedIsEarlier(url, End(url, at) + 1, key, percent);
    }
  }

  lemma PlainName(name: string, key: string, percent: string -> string)
    requires Plain(key)
    ensures Decode(name, percent) == key <==> name == key || (Encoded(name) && Decode(name, percent) == key)
  {
    hide Encoded;
  }

  /** When the function gives the first-wins answer, for every plain key.  If the key is spelled as it
      is, then unless an escaped spelling comes first and has another value.  If it is not, then
      unless Object.prototype has a member of that name and the URL holds any escape. */
  lemma {:induction false} ParamIsReference(url: string, key: string, inherited: set<string>, percent: string -> string)
    requires Plain(key)
    ensures var w, e := Written(url, key), Escaped(url, key, percent);
            Param(url, key, inherited, percent) == Reference(url, key, percent) <==>
            if w.None? then !(key in inherited && Encoded(url))
            else !(e.Some? && e.value < w.value &&
                   Decode(Value(url, e.value), percent) != Decode(Value(url, w.value), percent))
  {
    hide NamedStart, WrittenStart, EscapedStart, Encoded, Decode, Name, Value, After;
    var q := Query(url);
    if q.Some? {
      NamedIsEarlier(url, q.value, key, percent);
      if Written(url, key).Some? {
        SpelledIsName(url, Written(url, key).value, key);
      }
      if !Encoded(url) {
        NoEscapedStart(url, q.value, key, percent);
      }
    }
  }

  /** A key with an equals sign or an ampersand in it names a parameter only by an escaped spelling, yet
      the fast path may come upon it across the end of a name. */
  lemma {:induction false} SeparatorKey(url: string, key: string, inherited: set<string>, percent: string -> string)
    requires ('=' in key || '&' in key) && !Encoded(key)
    ensures var w, e := Written(url, key), Escaped(url, key, percent);
            Param(url, key, inherited, percent) == Reference(url, key, percent) <==>
            if w.None? then !(key in inherited && Encoded(url))
            else e.Some? && Decode(Value(url, e.value), percent) == Decode(After(url, w.value + |key|), percent)
  {
    hide NamedStart, WrittenStart, EscapedStart, Encoded, Decode, Name, Value, After;
    var q := Query(url);
    if q.Some? {
      SeparatorNeedsEscape(url, q.value, key, percent);
      if !Encoded(url) {
        NoEscapedStart(url, q.value, key, percent);
      }
    }
  }

  /** What the fast path comes upon for such a key is never a parameter of that name: the name there ends at a
      separator inside the key.  So its answer is right only by the value of another segment. */
  lemma SeparatorHit(url: string, at: nat, key: string, percent: string -> string)
    requires at <= |url| && ('=' in key || '&' in key) && !Encoded(key) && Spelled(url, at, key)
    ensures |Name(url, at)| < |key| && Name(url, at) == key[..|Name(url, at)|]
    ensures Decode(Name(url, at), percent) != key
  {
    hide IndexOf, Encoded, Decode;
    NameEndsInside(url, at, key);
    var m := |Name(url, at)|;
    assert Name(url, at) == key[..m];
    SlicePlain(key, 0, m);
    assert key[0..m] == key[..m];
  }

  lemma NameEndsInside(url: string, at: nat, key: string)
    requires at <= |url| && ('=' in key || '&' in key) && StartsWith(url, key, at)
    ensures NameEnd(url, at) < at + |key| && url[at..at + |key|] == key
  {
    hide IndexOf, NameEnd, End;
    var j :| 0 <= j < |key| && (key[j] == '=' || key[j] == '&');
    assert url[at..at + |key|][j] == url[at + j];
    NameEndBefore(url, at, at + j);
  }

  lemma NameEndBefore(url: string, at: nat, t: nat)
    requires at <= t < |url| && (url[t] == '=' || url[t] == '&')
    ensures NameEnd(url, at) <= t
  {
    hide IndexOf;
  }

  lemma {:induction false} SeparatorNeedsEscape(url: string, at: nat, key: string, percent: string -> string)
    requires at <= |url| && ('=' in key || '&' in key)
    ensures NamedStart(url, at, key, percent) == EscapedStart(url, at, key, percent)
    decreases |url| - at
  {
    hide IndexOf, Encoded, Name, End;
    NameHasNoSeparator(url, at);
    if End(url, at) < |url| {
      SeparatorNeedsEscape(url, End(url, at) + 1, key, percent);
    }
  }

  lemma NameHasNoSeparator(url: string, at: nat)
    requires at <= |url|
    ensures '=' !in Name(url, at) && '&' !in Name(url, at)
  {
    hide IndexOf;
    var t := NameEnd(url, at);
    assert Without(url, '=', at, t) && Without(url, '&', at, t);
  }

  lemma {:induction false} NoEscapedStart(url: string, at: nat, key: string, percent: string -> string)
    requires at <= |url| && !Encoded(url)
    ensures EscapedStart(url, at, key, percent).None?
    decreases |url| - at
  {
    hide Encoded, End, NameEnd;
    SlicePlain(url, at, NameEnd(url, at));
    if End(url, at) < |url| {
      NoEscapedStart(url, End(url, at) + 1, key, percent);
    }
  }

  lemma NothingEscaped(url: string, at: nat)
    requires at <= |url| && !Encoded(url)
    ensures !Encoded(Name(url, at)) && !Encoded(Value(url, at))
  {
    hide Encoded, End, NameEnd;
    SlicePlain(url, at, NameEnd(url, at));
    if NameEnd(url, at) < End(url, at) {
      SlicePlain(url, NameEnd(url, at) + 1, End(url, at));
    } else {
      SlicePlain(url, at, at);
      assert url[at..at] == "";
    }
  }

  lemma SlicePlain(s: string, a: nat, b: nat)
    requires a <= b <= |s| && !Encoded(s)
    ensures !Encoded(s[a..b])
  {
    assert forall c :: c in s[a..b] ==> c in s;
  }

  /** A parameter whose escaped spelling comes first is passed over. */
  lemma EscapedSpellingFirst(inherited: set<string>, percent: string -> string)
    ensures Param(ESCAPED, "a b", inherited, percent) == Text("2")
    ensures Reference(ESCAPED, "a b", percent) == Text("1")
  {
    hide Query, Name, Value, End, Spelled, IndexOf, After;
    EscapedPieces();
    assert PlusToSpace("a+b") == "a b";
    SpelledIsName(ESCAPED, 9, "a b");
    SpelledIsName(ESCAPED, 15, "a b");
  }

  const ESCAPED := "http://h?a+b=1&a b=2"

  lemma EscapedPieces()
    ensures Query(ESCAPED) == Some(9)
    ensures Name(ESCAPED, 9) == "a+b" && Value(ESCAPED, 9) == "1" && End(ESCAPED, 9) == 14
    ensures Name(ESCAPED, 15) == "a b" && Value(ESCAPED, 15) == "2"
  {
    hide IndexOf;
    IndexIs(ESCAPED, '?', 8, 8);
    IndexIs(ESCAPED, '&', 9, 14);
    IndexIs(ESCAPED, '=', 9, 12);
    IndexIs(ESCAPED, '&', 15, -1);
    IndexIs(ESCAPED, '=', 15, 18);
    assert ESCAPED[9..12] == "a+b" && ESCAPED[13..14] == "1" && ESCAPED[15..18] == "a b" && ESCAPED[19..20] == "2";
  }

  /** One parameter `x` with an escaped value, and a key that every object inherits. */
  lemma InheritedKeyAnswers(inherited: set<string>, percent: string -> string)
    requires "constructor" in inherited
    ensures Param("http://h?x=%41", "constructor", inherited, percent) == Inherited
    ensures Reference("http://h?x=%41", "constructor", percent) == Undefined
  {
    hide Query, Name, End;
    SinglePieces("http://h?x=%41");
    SpelledIsName("http://h?x=%41", 9, "constructor");
    assert "http://h?x=%41"[11] == '%';
  }

  /** No parameter of this URL is named `x=y`, escaped or not. */
  lemma SeparatorKeyAnswers(inherited: set<string>, percent: string -> string)
    ensures Param("http://h?x=y=z", "x=y", inherited, percent) == Text("z")
    ensures Reference("http://h?x=y=z", "x=y", percent) == Undefined
  {
    var url := "http://h?x=y=z";
    hide Query, Name, End;
    SinglePieces(url);
    assert url[9..12] == "x=y" && url[13..14] == "z";
  }

  lemma SinglePieces(url: string)
    requires |url| == 14 && url[8..11] == "?x=" && '&' !in url
    ensures Query(url) == Some(9) && End(url, 9) == 14 && End(url, 13) == 14 && Name(url, 9) == "x"
  {
    hide IndexOf;
    assert url[8] == url[8..11][0] && url[9] == url[8..11][1] && url[10] == url[8..11][2];
    IndexIs(url, '?', 8, 8);
    IndexIs(url, '&', 9, -1);
    IndexIs(url, '&', 13, -1);
    IndexIs(url, '=', 9, 10);
    assert url[9..10] == "x";
  }

  lemma {:induction false} IndexIs(s: string, c: char, from: nat, i: int)
    requires from <= |s| && (i == -1 || from <= i < |s|) && (i >= 0 ==> s[i] == c)
    requires Without(s, c, from, if i < 0 then |s| else i)
    ensures IndexOf(s, c, from) == i
  {
  }

  // ---------------------------------------------------------------- the source's loops

  /** From a segment that does not spell the key, the next candidate is the next place
      where the key follows an ampersand. */
  lemma {:induction false} SkipTo(url: string, at: nat, key: string)
    requires at <= |url| && !Spelled(url, at, key)
    ensures var i := IndexOfText(url, "&" + key, at);
            WrittenStart(url, at, key) == if i < 0 then None else WrittenStart(url, i + 1, key)
    decreases |url| - at
  {
    hide IndexOf, IndexOfText, End, StartsWith;
    var e := End(url, at);
    NextMatch(url, at, key);
    if e < |url| && !StartsWith(url, key, e + 1) {
      SkipTo(url, e + 1, key);
    }
  }

  lemma NextMatch(url: string, at: nat, key: string)
    requires at <= |url|
    ensures var e := End(url, at);
            IndexOfText(url, "&" + key, at) ==
            if e == |url| then -1 else if StartsWith(url, key, e + 1) then e else IndexOfText(url, "&" + key, e + 1)
  {
    hide IndexOf;
    var e := End(url, at);
    forall j: nat | at <= j <= e && StartsWith(url, "&" + key, j)
      ensures j == e < |url| && StartsWith(url, key, e + 1) {
      assert url[j..j + 1 + |key|][0] == url[j];
      AmpersandKey(url, j, key);
    }
    if e < |url| {
      AmpersandKey(url, e, key);
    }
  }

  lemma AmpersandKey(url: string, e: nat, key: string)
    requires e < |url| && url[e] == '&'
    ensures StartsWith(url, "&" + key, e) <==> StartsWith(url, key, e + 1)
  {
    if e + 1 + |key| <= |url| {
      assert url[e..e + 1 + |key|] == "&" + url[e + 1..e + 1 + |key|];
      assert ("&" + key)[1..] == key;
    }
  }

  /** The fast path: `found` says whether it came upon the key as written. */
  method FastPath(url: string, key: string, percent: string -> string) returns (found: bool, value: string)
    ensures found <==> Written(url, key).Some?
    ensures found ==> value == Decode(After(url, Written(url, key).value + |key|), percent)
  {
    hide WrittenStart, IndexOfText, IndexOf, StartsWith, Spelled, Decode, After, Without;
    value := "";
    var q := if |url| < 8 then -1 else IndexOf(url, '?', 8);
    if q == -1 {
      return false, "";
    }
    var keyIndex := q;
    if !StartsWith(url, key, keyIndex + 1) {
      NextCandidate(url, keyIndex + 1, key);
      keyIndex := IndexOfText(url, "&" + key, keyIndex + 1);
    }
    while keyIndex != -1
      invariant keyIndex == -1 || (0 <= keyIndex < |url| && StartsWith(url, key, keyIndex + 1))
      invariant Written(url, key) == if keyIndex == -1 then None else WrittenStart(url, keyIndex + 1, key)
      decreases if keyIndex == -1 then 0 else |url| - keyIndex
    {
      var t := keyIndex + |key| + 1;
      Candidate(url, keyIndex + 1, key);
      if t < |url| && url[t] == '=' {
        var end := IndexOf(url, '&', t + 1);
        return true, Decode(url[t + 1..if end == -1 then |url| else end], percent);
      } else if t == |url| || url[t] == '&' {
        return true, "";
      }
      NextCandidate(url, keyIndex + 1, key);
      keyIndex := IndexOfText(url, "&" + key, keyIndex + 1);
    }
    return false, "";
  }

  /** Where the key was come upon, one character tells. */
  lemma Candidate(url: string, at: nat, key: string)
    requires StartsWith(url, key, at)
    ensures var t := at + |key|;
            && at <= t <= |url|
            && (t == |url| || url[t] == '&' || url[t] == '=' ==> WrittenStart(url, at, key) == Some(at))
            && (t < |url| && url[t] == '=' ==> After(url, t) == url[t + 1..End(url, t + 1)])
            && (t == |url| || url[t] == '&' ==> After(url, t) == "")
  {
  }

  /** Otherwise the next place where the key follows an ampersand is looked at. */
  lemma NextCandidate(url: string, at: nat, key: string)
    requires at <= |url|
    requires StartsWith(url, key, at) ==> at + |key| < |url| && url[at + |key|] != '&' && url[at + |key|] != '='
    ensures var i := IndexOfText(url, "&" + key, at);
            && (i >= 0 ==> at <= i < |url| && StartsWith(url, key, i + 1))
            && WrittenStart(url, at, key) == if i < 0 then None else WrittenStart(url, i + 1, key)
  {
    hide WrittenStart, IndexOfText, StartsWith;
    SkipTo(url, at, key);
    FollowsAmpersand(url, key, at);
  }

  lemma FollowsAmpersand(url: string, key: string, from: nat)
    ensures var i := IndexOfText(url, "&" + key, from);
            i >= 0 ==> i < |url| && StartsWith(url, key, i + 1)
  {
    var i := IndexOfText(url, "&" + key, from);
    if i >= 0 {
      assert url[i..i + 1 + |key|][1..] == key;
    }
  }

  lemma FirstStep(url: string, at: nat, percent: string -> string)
    requires at <= |url|
    ensures forall k :: First(url, at, k, percent) ==
                        if Decode(Name(url, at), percent) == k then Some(Decode(Value(url, at), percent))
                        else if End(url, at) == |url| then None
                        else First(url, End(url, at) + 1, k, percent)
  {
  }

  /** The loop body's reading half: the segment after `keyIndex`. */
  method ReadSegment(url: string, keyIndex: nat, encoded: bool, percent: string -> string)
    returns (name: string, value: string, nextKeyIndex: int)
    requires keyIndex < |url| && url[keyIndex] != '=' && encoded == Encoded(url)
    ensures name == Decode(Name(url, keyIndex + 1), percent)
    ensures value == Decode(Value(url, keyIndex + 1), percent)
    ensures nextKeyIndex == if End(url, keyIndex + 1) == |url| then -1 else End(url, keyIndex + 1)
  {
    hide Encoded, IndexOf, Decode, Name, Value, End, Without;
    Cuts(url, keyIndex);
    nextKeyIndex := IndexOf(url, '&', keyIndex + 1);
    var valueIndex := IndexOf(url, '=', keyIndex);
    if valueIndex > nextKeyIndex && nextKeyIndex != -1 {
      valueIndex := -1;
    }
    var end := if nextKeyIndex == -1 then |url| else nextKeyIndex;
    name := url[keyIndex + 1..if valueIndex == -1 then end else valueIndex];
    value := if valueIndex == -1 then "" else url[valueIndex + 1..end];
    if encoded {
      name, value := Decode(name, percent), Decode(value, percent);
    } else {
      NothingEscaped(url, keyIndex + 1);
    }
  }

  /** The index arithmetic of the loop cuts out the segment after `keyIndex`. */
  lemma Cuts(url: string, keyIndex: nat)
    requires keyIndex < |url| && url[keyIndex] != '='
    ensures var next, eq := IndexOf(url, '&', keyIndex + 1), IndexOf(url, '=', keyIndex);
            var v := if eq > next && next != -1 then -1 else eq;
            var end := if next == -1 then |url| else next;
            && End(url, keyIndex + 1) == end && keyIndex + 1 <= (if v == -1 then end else v) <= end <= |url|
            && (v != -1 ==> v < end)
            && Name(url, keyIndex + 1) == url[keyIndex + 1..if v == -1 then end else v]
            && Value(url, keyIndex + 1) == if v == -1 then "" else url[v + 1..end]
  {
    hide IndexOf, Without;
    IndexNext(url, '=', keyIndex);
  }

  lemma IndexNext(s: string, c: char, at: nat)
    requires at < |s| && s[at] != c
    ensures IndexOf(s, c, at) == IndexOf(s, c, at + 1)
  {
  }

  /** `results` answers for every name that is neither empty nor inherited, and holds no other. */
  ghost predicate FirstOfEach(results: map<string, string>, url: string, inherited: set<string>,
                              percent: string -> string) {
    && (forall k :: k in results ==> k != "" && k !in inherited)
    && (forall k :: k != "" && k !in inherited ==>
          (if k in results then Text(results[k]) else Undefined) == Reference(url, k, percent))
  }

  /** The segment loop over the object of results. */
  method SegmentLoop(url: string, inherited: set<string>, percent: string -> string)
    returns (results: map<string, string>)
    ensures FirstOfEach(results, url, inherited, percent)
  {
    hide First, Encoded, IndexOf, Decode, Name, Value, Without;
    results := map[];
    var encoded := Encoded(url);
    var keyIndex := if |url| < 8 then -1 else IndexOf(url, '?', 8);
    ghost var q := keyIndex + 1;
    assert Query(url) == if q == 0 then None else Some(q);
    while keyIndex != -1
      invariant -1 <= keyIndex < |url| && (q == 0 ==> keyIndex == -1 && results == map[])
      invariant keyIndex >= 0 ==> url[keyIndex] != '='
      invariant forall k :: k in results ==> k != "" && k !in inherited
      invariant q > 0 ==> forall k :: k != "" && k !in inherited ==>
                  First(url, q, k, percent) ==
                  if k in results then Some(results[k])
                  else if keyIndex == -1 then None else First(url, keyIndex + 1, k, percent)
      decreases if keyIndex == -1 then 0 else |url| - keyIndex
    {
      FirstStep(url, keyIndex + 1, percent);
      var name, value;
      name, value, keyIndex := ReadSegment(url, keyIndex, encoded, percent);
      if name == "" {
        continue;
      }
      if name !in inherited && name !in results {
        results := results[name := value];
      }
    }
    forall k | k != "" && k !in inherited
      ensures (if k in results then Text(results[k]) else Undefined) == Reference(url, k, percent)
    {
      if q > 0 {
        assert First(url, q, k, percent) == if k in results then Some(results[k]) else None;
      }
    }
  }

  /** `_getQueryParam` for one value; the empty key asks for all of them. */
  method GetQueryParam(url: string, key: string, inherited: set<string>, percent: string -> string) returns (r: Answer)
    ensures key != "" ==> r == Param(url, key, inherited, percent)
    ensures key == "" ==> r.Everything? && FirstOfEach(r.results, url, inherited, percent)
  {
    hide Encoded, Written, Decode, After, Reference;
    if key != "" && !Encoded(key) {
      var found, value := FastPath(url, key, percent);
      if found {
        return Text(value);
      }
      if !Encoded(url) {
        return Undefined;
      }
    }
    var results := SegmentLoop(url, inherited, percent);
    return if key == "" then Everything(results)
           else if key in results then Text(results[key]) else if key in inherited then Inherited else Undefined;
  }
}
