/** The IPv6 host parser and serializer of the URL polyfill
    (src/js/whatwg-url-polyfill.js:15, `aq`, `nq`, `zr`): a one-pass index machine over eight
    pieces, against the text form of section 2.2 of RFC 4291 read by splitting. */
module Ipv6 {
  import opened Hexadecimal
  import opened Wrappers

  const PIECES := 8

  // ---------------------------------------------------------------- the meaning of a text

  /** One group between colons. */
  predicate Group(s: string) { 1 <= |s| <= 4 && AllHex(s) }

  function Colon(s: string): (k: nat)
    ensures k <= |s| && (k < |s| ==> s[k] == ':') && forall j :: 0 <= j < k ==> s[j] != ':'
  {
    if s == "" || s[0] == ':' then 0 else 1 + Colon(s[1..])
  }

  predicate DoubleAt(s: string, j: nat) { j + 1 < |s| && s[j] == ':' && s[j + 1] == ':' }

  /** The first `::`. */
  function DoubleColon(s: string): (k: Option<nat>)
    ensures k.Some? ==> DoubleAt(s, k.value)
    ensures forall j: nat :: DoubleAt(s, j) ==> k.Some? && k.value <= j
  {
    if |s| < 2 then None
    else if DoubleAt(s, 0) then Some(0)
    else
      assert forall j: nat :: j > 0 && DoubleAt(s, j) ==> DoubleAt(s[1..], j - 1);
      var k := DoubleColon(s[1..]);
      if k.None? then None else Some(k.value + 1)
  }

  /** How many decimal digits a string starts with. */
  function Digits(s: string): (k: nat)
    ensures k <= |s| && (k < |s| ==> !IsDigit(s[k])) && AllDigits(s[..k])
  {
    if s == "" || !IsDigit(s[0]) then 0
    else
      var k := 1 + Digits(s[1..]);
      assert s[..k] == [s[0]] + s[1..][..k - 1];
      k
  }

  predicate AllDigits(s: string) { forall j :: 0 <= j < |s| ==> IsDigit(s[j]) }

  function Decimal(s: string): nat
    requires AllDigits(s)
  {
    if s == "" then 0
    else
      var last := s[|s| - 1];
      assert IsDigit(last);
      Decimal(s[..|s| - 1]) * 10 + DigitValue(last)
  }

  /** A decimal byte: no sign, no leading zero. */
  predicate DecimalByte(s: string) {
    s != "" && AllDigits(s) && (s[0] == '0' ==> |s| == 1) && Decimal(s) < 256
  }

  /** What is left of a dotted quad after `c` of its numbers. */
  function Quad(s: string, c: nat): Option<seq<nat>>
    decreases |s|, 1
  {
    if s == "" then if c == 4 then Some([]) else None
    else if c > 0 && (s[0] != '.' || c >= 4) then None
    else NextByte(if c > 0 then s[1..] else s, c)
  }

  function NextByte(s: string, c: nat): Option<seq<nat>>
    decreases |s|, 0
  {
    var k := Digits(s);
    if k == 0 || !DecimalByte(s[..k]) then None
    else
      var rest := Quad(s[k..], c + 1);
      if rest.None? then None else Some([Decimal(s[..k])] + rest.value)
  }

  /** The groups of a text without `::`; at its end, if `last`, a dotted quad fills two pieces. */
  function Words(s: string, last: bool): (r: Option<seq<nat>>)
    ensures r.Some? ==> r.value != []
    decreases |s|
  {
    var k := Colon(s);
    if k == |s| then
      if Group(s) then Some([HexValue(s)])
      else if last then
        var q := Quad(s, 0);
        if q.Some? && |q.value| == 4 then
          Some([q.value[0] * 256 + q.value[1], q.value[2] * 256 + q.value[3]])
        else None
      else None
    else if !Group(s[..k]) then None
    else
      var rest := Words(s[k + 1..], last);
      if rest.None? then None else Some([HexValue(s[..k])] + rest.value)
  }

  function Side(s: string, last: bool): Option<seq<nat>> {
    if s == "" then Some([]) else Words(s, last)
  }

  function Zeros(n: nat): seq<nat> { seq(n, _ => 0) }

  /** Section 2.2 of RFC 4291: eight pieces, or `::` standing for one or more zero pieces. */
  function Meaning(s: string): Option<seq<nat>> {
    var k := DoubleColon(s);
    if k.None? then
      var w := Words(s, true);
      if w.Some? && |w.value| == PIECES then w else None
    else
      var l, r := Side(s[..k.value], false), Side(s[k.value + 2..], true);
      if l.None? || r.None? || |l.value| + |r.value| >= PIECES then None
      else Some(l.value + Zeros(PIECES - |l.value| - |r.value|) + r.value)
  }

  // ---------------------------------------------------------------- the machine

  /** The main loop from the start of a group on: `w` the pieces filled so far, a zero
      standing in for `::`, and `a` the count of pieces up to and including it. */
  function Run(s: string, w: seq<nat>, a: Option<nat>): Option<(seq<nat>, Option<nat>)>
    decreases |s|
  {
    if s == "" then Some((w, a))
    else if |w| == PIECES then None
    else if s[0] == ':' then
      if a.Some? then None else Run(s[1..], w + [0], Some(|w| + 1))
    else
      var k := HexPrefix(s, 4);
      if k < |s| && s[k] == '.' then
        var q := Quad(s, 0);
        if k == 0 || |w| > 6 || q.None? || |q.value| != 4 then None
        else Some((w + [q.value[0] * 256 + q.value[1], q.value[2] * 256 + q.value[3]], a))
      else if k < |s| && s[k] == ':' then
        if k + 1 == |s| then None else Run(s[k + 1..], w + [HexValue(s[..k])], a)
      else if k < |s| then None
      else Some((w + [HexValue(s[..k])], a))
  }

  function Finish(w: seq<nat>, a: Option<nat>): Option<seq<nat>>
    requires a.Some? ==> a.value <= |w|
  {
    if a.Some? then
      if |w| <= PIECES then Some(w[..a.value] + Zeros(PIECES - |w|) + w[a.value..]) else None
    else if |w| == PIECES then Some(w)
    else None
  }

  function Parsed(s: string): Option<seq<nat>> {
    if s != "" && s[0] == ':' then
      if |s| < 2 || s[1] != ':' then None else Ended(Run(s[2..], [0], Some(1)))
    else Ended(Run(s, [], None))
  }

  function Ended(r: Option<(seq<nat>, Option<nat>)>): Option<seq<nat>> {
    if r.None? || (r.value.1.Some? && r.value.1.value > |r.value.0|) then None
    else Finish(r.value.0, r.value.1)
  }

  // ---------------------------------------------------------------- the machine means the text

  lemma {:induction false} QuadHasNoColon(s: string, c: nat)
    ensures Quad(s, c).Some? ==> forall j :: 0 <= j < |s| ==> s[j] != ':'
    decreases |s|
  {
    hide Decimal, DecimalByte, Digits, Quad, NextByte;
    if s != "" && Quad(s, c).Some? {
      var k := QuadStarts(s, c);
      var d := if c > 0 then 1 else 0;
      QuadHasNoColon(s[d..][k..], c + 1);
      assert forall j :: d + k <= j < |s| ==> s[j] == s[d..][k..][j - d - k];
    }
  }

  /** A dotted quad starts with its separator, if one is due, then digits. */
  lemma QuadStarts(s: string, c: nat) returns (k: nat)
    requires s != "" && Quad(s, c).Some?
    ensures var d := if c > 0 then 1 else 0;
            && 0 < d + k <= |s| && Quad(s[d..][k..], c + 1).Some?
            && forall j :: 0 <= j < d + k ==> s[j] != ':'
  {
    hide Decimal, DecimalByte, Digits;
    var s' := if c > 0 then s[1..] else s;
    k := Digits(s');
    assert NextByte(s', c).Some?;
    assert s[0..] == s;
    assert forall j :: 0 <= j < k ==> s'[..k][j] == s'[j];
  }

  lemma {:induction false} LongDecimal(s: string)
    requires |s| >= 4 && AllDigits(s) && s[0] != '0'
    ensures Decimal(s) >= 1000
  {
    var p := s[..|s| - 1];
    if |s| > 4 {
      LongDecimal(p);
    } else {
      var q := p[..2];
      assert p[..|p| - 1] == q && q[..|q| - 1] == [s[0]] && [s[0]][..0] == "";
      assert IsDigit(s[0]) && DigitValue(s[0]) >= 1;
      assert Decimal([s[0]]) >= 1 && Decimal(q) >= 10 && Decimal(p) >= 100;
    }
  }

  /** A dotted quad starts with one to three digits and a dot, so the group loop stops there. */
  lemma {:induction false} QuadStart(s: string)
    requires Quad(s, 0).Some? && |Quad(s, 0).value| == 4
    ensures var k := HexPrefix(s, 4); 0 < k < |s| && s[k] == '.'
  {
    var k := Digits(s);
    if k >= 4 {
      LongDecimal(s[..k]);
      assert false;
    }
    assert Quad(s[k..], 1).Some? && |Quad(s[k..], 1).value| == 3;
    assert s[k] == '.';
    PrefixIs(s, k, 4);
  }

  /** What one group of the machine does, in terms of the first colon. */
  lemma {:induction false} GroupStep(s: string)
    requires s != "" && s[0] != ':'
    ensures var k, p := Colon(s), HexPrefix(s, 4);
            && (p == k <==> Group(s[..k]))
            && (p != k ==> p < k)
            && (k < |s| ==> Quad(s, 0).None?)
            && (k == |s| && Quad(s, 0).Some? && |Quad(s, 0).value| == 4 ==> 0 < p < k && s[p] == '.')
  {
    var k, p := Colon(s), HexPrefix(s, 4);
    QuadHasNoColon(s, 0);
    if Group(s[..k]) {
      PrefixIs(s, k, 4);
    }
    if Quad(s, 0).Some? && |Quad(s, 0).value| == 4 {
      QuadStart(s);
    }
  }

  /** The machine takes one group up to its colon, or the last one. */
  lemma {:induction false} RunStep(s: string, w: seq<nat>, a: Option<nat>)
    requires s != "" && s[0] != ':' && |w| <= PIECES
    ensures var k := Colon(s);
            k < |s| ==> Run(s, w, a) == if |w| == PIECES || !Group(s[..k]) || k + 1 == |s| then None
                                        else Run(s[k + 1..], w + [HexValue(s[..k])], a)
    ensures Colon(s) == |s| ==> Run(s, w, a) == var g := Words(s, true);
                                if |w| == PIECES || g.None? || |w| + |g.value| > PIECES then None
                                else Some((w + g.value, a))
  {
    hide Quad, HexPrefix, HexValue;
    GroupStep(s);
    if Colon(s) == |s| {
      assert s[..|s|] == s;
    }
  }

  /** With no `::` ahead the machine adds exactly the groups of what is left. */
  lemma {:induction false} RunWords(s: string, w: seq<nat>, a: Option<nat>)
    requires s != "" && |w| <= PIECES
    requires a.None? ==> s[0] != ':' && DoubleColon(s).None?
    ensures Run(s, w, a) == var g := Words(s, true);
                            if g.None? || |w| + |g.value| > PIECES then None else Some((w + g.value, a))
    decreases |s|
  {
    hide Run, Words, HexValue;
    WordsStep(s, true);
    var k := Colon(s);
    if s[0] == ':' {
      RunColon(s, w, a);
    } else {
      RunStep(s, w, a);
      if k < |s| && Group(s[..k]) {
        var rest := s[k + 1..];
        if rest == "" {
          NoWords(true);
        } else {
          if a.None? {
            DoubleColonAfter(s, k);
          }
          var h := [HexValue(s[..k])];
          if |w| < PIECES {
            RunWords(rest, w + h, a);
            if Words(rest, true).Some? {
              assert w + h + Words(rest, true).value == w + (h + Words(rest, true).value);
            }
          }
        }
      }
    }
  }

  lemma WordsStep(s: string, last: bool)
    ensures Colon(s) < |s| ==> Words(s, last) == WordsAfter(s, Colon(s), last)
    ensures Colon(s) == |s| && (!last || Group(s)) ==> Words(s, last) == if Group(s) then Some([HexValue(s)]) else None
  {
    hide Quad, HexValue, Group, HexPrefix;
  }

  /** The group before the colon at `k`, then the rest. */
  function WordsAfter(s: string, k: nat, last: bool): Option<seq<nat>>
    requires k < |s|
  {
    if !Group(s[..k]) then None
    else
      var rest := Words(s[k + 1..], last);
      if rest.None? then None else Some([HexValue(s[..k])] + rest.value)
  }

  lemma NoWords(last: bool)
    ensures Words("", last).None?
  {
  }

  /** Past the first colon, when it is a single one, `::` is where it was. */
  lemma DoubleColonAfter(s: string, k: nat)
    requires k == Colon(s) && k + 1 < |s|
    ensures s[k + 1] == ':' ==> DoubleColon(s) == Some(k)
    ensures s[k + 1] != ':' ==> var d := DoubleColon(s[k + 1..]);
                                DoubleColon(s) == if d.None? then None else Some(d.value + k + 1)
  {
    hide Colon, DoubleColon, DoubleAt;
    NoneBefore(s, k);
    if s[k + 1] != ':' {
      var d, d' := DoubleColon(s), DoubleColon(s[k + 1..]);
      if d.Some? {
        DoubleAtLater(s, k + 1, d.value - k - 1);
      }
      if d'.Some? {
        DoubleAtLater(s, k + 1, d'.value);
      }
    }
  }

  lemma NoneBefore(s: string, k: nat)
    requires k == Colon(s) && k + 1 < |s|
    ensures forall j: nat :: DoubleAt(s, j) ==> j >= k
    ensures DoubleAt(s, k) <==> s[k + 1] == ':'
  {
    hide Colon, DoubleColon;
  }

  lemma DoubleAtLater(s: string, m: nat, j: nat)
    requires m <= |s|
    ensures DoubleAt(s[m..], j) <==> DoubleAt(s, j + m)
  {
  }

  /** What the machine goes on with after the groups `l` before a `::` and the rest `after`. */
  function BeyondDouble(l: Option<seq<nat>>, after: string, w: seq<nat>): Option<(seq<nat>, Option<nat>)> {
    if l.None? || |w| + |l.value| >= PIECES then None
    else Run(after, w + l.value + [0], Some(|w| + |l.value| + 1))
  }

  lemma BeyondStep(l: Option<seq<nat>>, after: string, w: seq<nat>, h: seq<nat>)
    ensures BeyondDouble(l, after, w + h) ==
            BeyondDouble(if l.None? then None else Some(h + l.value), after, w)
  {
    hide Run;
    if l.Some? {
      assert w + h + l.value + [0] == w + (h + l.value) + [0];
    }
  }

  lemma NoneBeyond(l: Option<seq<nat>>, after: string, w: seq<nat>)
    requires l.None? || |w| >= PIECES
    ensures BeyondDouble(l, after, w) == None
  {
  }

  lemma FirstBeyond(after: string, w: seq<nat>, h: seq<nat>)
    requires |h| == 1
    ensures BeyondDouble(Some(h), after, w) ==
            if |w| + 1 >= PIECES then None else Run(after, w + h + [0], Some(|w + h| + 1))
  {
  }

  lemma Slices(s: string, c: nat, k: nat)
    requires c <= k && k + 2 <= |s|
    ensures s[..k][..c] == s[..c]
    ensures c < k ==> s[c + 1..][..k - c - 1] == s[..k][c + 1..] && s[c + 1..][k - c - 1 + 2..] == s[k + 2..]
  {
  }

  /** Up to the first `::` the machine adds exactly the groups before it. */
  lemma {:induction false} RunToDouble(s: string, w: seq<nat>)
    requires s != "" && |w| <= PIECES && s[0] != ':' && DoubleColon(s).Some?
    ensures DoubleColon(s).value > 0
    ensures var k := DoubleColon(s).value;
            Run(s, w, None) == BeyondDouble(Words(s[..k], false), s[k + 2..], w)
    decreases |s|
  {
    hide Run, Words, HexValue, Colon, DoubleColon, BeyondDouble;
    RunStep(s, w, None);
    var c, k := Colon(s), DoubleColon(s).value;
    assert k >= c && c + 1 < |s|;
    var before, after := s[..k], s[k + 2..];
    WordsStep(before, false);
    DoubleColonAfter(s, c);
    ColonOfPrefix(s, k);
    Slices(s, c, k);
    if !Group(s[..c]) || |w| == PIECES {
      NoneBeyond(Words(before, false), after, w);
    } else {
      var h, rest := [HexValue(s[..c])], s[c + 1..];
      if s[c + 1] == ':' {
        RunColon(rest, w + h, None);
        assert rest[1..] == after;
        FirstBeyond(after, w, h);
      } else {
        var d := DoubleColon(rest).value;
        RunToDouble(rest, w + h);
        BeyondStep(Words(rest[..d], false), after, w, h);
      }
    }
  }

  lemma RunColon(s: string, w: seq<nat>, a: Option<nat>)
    requires s != "" && s[0] == ':'
    ensures Run(s, w, a) == if |w| == PIECES || a.Some? then None else Run(s[1..], w + [0], Some(|w| + 1))
  {
  }

  lemma {:induction false} ColonOfPrefix(s: string, k: nat)
    requires k <= |s| && Colon(s) <= k
    ensures Colon(s[..k]) == Colon(s)
  {
    if Colon(s) > 0 {
      assert s[..k][1..] == s[1..][..k - 1];
      ColonOfPrefix(s[1..], k - 1);
    }
  }

  /** On every string the one-pass machine accepts exactly the texts that have a meaning, and
      yields it. */
  lemma {:induction false} ParsedIsMeaning(s: string)
    ensures Parsed(s) == Meaning(s)
  {
    hide Run, Words;
    var d := DoubleColon(s);
    if s == "" {
      NothingRuns([], None);
      NoWords(true);
    } else if s[0] == ':' {
      LeadingColon(s);
      if |s| >= 2 && s[1] == ':' {
        AfterDouble(s[2..], [0]);
        assert s[..0] == "";
      } else if d.Some? {
        assert s[..d.value][0] == ':';
        LeadingColon(s[..d.value]);
      }
    } else if d.None? {
      RunWords(s, [], None);
      assert forall g: seq<nat> :: [] + g == g;
    } else {
      var k := d.value;
      RunToDouble(s, []);
      var l := Words(s[..k], false);
      if l.Some? && |l.value| < PIECES {
        assert [] + l.value + [0] == l.value + [0] && (l.value + [0])[..|l.value|] == l.value;
        AfterDouble(s[k + 2..], l.value + [0]);
      }
    }
  }

  lemma NothingRuns(w: seq<nat>, a: Option<nat>)
    ensures Run("", w, a) == Some((w, a))
  {
  }

  lemma LeadingColon(s: string)
    requires s != "" && s[0] == ':'
    ensures Words(s, true).None? && Words(s, false).None?
  {
    assert Colon(s) == 0;
  }

  /** What follows `::`, `w` being what precedes it with its zero. */
  lemma {:induction false} AfterDouble(s: string, w: seq<nat>)
    requires 0 < |w| <= PIECES && w[|w| - 1] == 0
    ensures Ended(Run(s, w, Some(|w|))) ==
            var r := Side(s, true);
            if r.None? || |w| + |r.value| > PIECES then None
            else Some(w[..|w| - 1] + Zeros(PIECES - (|w| - 1) - |r.value|) + r.value)
  {
    hide Run, Words;
    var r := Side(s, true);
    if s == "" {
      NothingRuns(w, Some(|w|));
    } else {
      RunWords(s, w, Some(|w|));
    }
    if r.Some? && |w| + |r.value| <= PIECES {
      assert s == "" ==> w + r.value == w;
      FinishAt(w, r.value);
    }
  }

  lemma FinishAt(w: seq<nat>, r: seq<nat>)
    requires 0 < |w| && |w| + |r| <= PIECES && w[|w| - 1] == 0
    ensures Finish(w + r, Some(|w|)) == Some(w[..|w| - 1] + Zeros(PIECES - (|w| - 1) - |r|) + r)
  {
    var n := PIECES - |w| - |r|;
    var p := w[..|w| - 1];
    assert (w + r)[..|w|] == w && (w + r)[|w|..] == r;
    assert w + Zeros(n) == p + Zeros(n + 1);
  }

  // ---------------------------------------------------------------- the source's loops

  lemma NoDigits()
    ensures AllHex("") && HexValue("") == 0
  {
  }

  /** At most four hexadecimal digits from `n` on. */
  method ReadGroup(r: string, n: nat) returns (i: nat, n': nat, u: nat)
    requires n <= |r|
    ensures n' <= |r| && n' - n == u == HexPrefix(r[n..], 4)
    ensures i == HexValue(r[n..][..u])
  {
    hide HexValue, HexPrefix, DigitValue;
    NoDigits();
    assert r[n..n] == "";
    i, n', u := 0, n, 0;
    while u < 4 && n' < |r| && IsHex(r[n'])
      invariant u <= 4 && n' == n + u <= |r| && AllHex(r[n..n']) && i == HexValue(r[n..n'])
    {
      HexValuePush(r, n, n');
      i := i * 16 + DigitValue(r[n']);
      n', u := n' + 1, u + 1;
    }
    assert r[n..][..u] == r[n..n'];
    PrefixIs(r[n..], u, 4);
  }

  lemma {:induction false} DecimalPrefix(s: string, k: nat)
    requires AllDigits(s) && k <= |s|
    ensures AllDigits(s[..k]) && Decimal(s[..k]) <= Decimal(s)
    decreases |s|
  {
    if k < |s| {
      var p := s[..|s| - 1];
      DecimalPrefix(p, k);
      assert p[..k] == s[..k];
    } else {
      assert s[..k] == s;
    }
  }

  /** What one more digit does to a number being read; `v` is its value so far. */
  lemma DigitRead(whole: string, m: nat, v: nat)
    requires AllDigits(whole) && m < |whole|
    requires m > 0 ==> DecimalByte(whole[..m]) && v == Decimal(whole[..m]) && (v == 0 <==> whole[0] == '0')
    ensures var w := (if m == 0 then 0 else v * 10) + DigitValue(whole[m]);
            && (m > 0 && v == 0 ==> !DecimalByte(whole))
            && (w > 255 ==> !DecimalByte(whole))
            && ((m == 0 || v > 0) && w <= 255 ==>
                  DecimalByte(whole[..m + 1]) && Decimal(whole[..m + 1]) == w && (w == 0 <==> whole[0] == '0'))
  {
    var s := whole[..m + 1];
    DecimalPrefix(whole, m + 1);
    assert s[..m] == whole[..m] && s[m] == whole[m];
    assert m == 0 ==> s[..m] == "";
  }

  /** One number of a dotted quad, refused at the first digit that spoils it. */
  method ReadByte(r: string, n: nat) returns (v: Option<nat>, n': nat)
    requires n <= |r|
    ensures n <= n' <= |r|
    ensures v.Some? <==> DecimalByte(r[n..][..Digits(r[n..])])
    ensures v.Some? ==> n < n' == n + Digits(r[n..]) && v.value == Decimal(r[n..][..Digits(r[n..])])
  {
    hide Decimal, DecimalByte, Digits;
    ghost var s := r[n..];
    ghost var k := Digits(s);
    ghost var whole := s[..k];
    v, n' := None, n;
    while n' < |r| && IsDigit(r[n'])
      invariant n <= n' <= n + k && (v.None? <==> n' == n)
      invariant v.Some? ==>
        DecimalByte(whole[..n' - n]) && v.value == Decimal(whole[..n' - n]) && (v.value == 0 <==> whole[0] == '0')
    {
      assert r[n'] == s[n' - n];
      DigitRead(whole, n' - n, if v.Some? then v.value else 0);
      var f := DigitValue(r[n']);
      var w := f;
      if v.Some? {
        if v.value == 0 {
          return None, n';
        }
        w := v.value * 10 + f;
      }
      if w > 255 {
        return None, n';
      }
      v, n' := Some(w), n' + 1;
    }
    assert n' < |r| ==> r[n'] == s[n' - n];
    assert whole[..k] == whole;
    NoByteAtAll();
  }

  lemma NoByteAtAll()
    ensures !DecimalByte("")
  {
  }

  /** The whole quad once `seen` has been read and `s` is left. */
  function QuadFrom(seen: seq<nat>, s: string): Option<seq<nat>> {
    var q := Quad(s, |seen|);
    if q.None? then None else Some(seen + q.value)
  }

  /** Where the next number starts, past its dot if it needs one. */
  lemma QuadStep(seen: seq<nat>, r: string, n: nat)
    requires n < |r|
    ensures var c := |seen|;
            var at := if c > 0 then n + 1 else n;
            if c > 0 && (r[n] != '.' || c >= 4) then QuadFrom(seen, r[n..]).None?
            else
              var k := Digits(r[at..]);
              QuadFrom(seen, r[n..]) == if !DecimalByte(r[at..][..k]) then None
                                        else QuadFrom(seen + [Decimal(r[at..][..k])], r[at..][k..])
  {
    hide NextByte;
    var c := |seen|;
    var at := if c > 0 then n + 1 else n;
    assert r[n..][1..] == r[n + 1..];
    if c == 0 || (r[n] == '.' && c < 4) {
      assert Quad(r[n..], c) == NextByte(r[at..], c);
      ByteStep(seen, r[at..]);
    }
  }

  lemma ByteStep(seen: seq<nat>, s: string)
    ensures var k, q := Digits(s), NextByte(s, |seen|);
            (if q.None? then None else Some(seen + q.value)) ==
            if !DecimalByte(s[..k]) then None else QuadFrom(seen + [Decimal(s[..k])], s[k..])
  {
    hide Decimal, Quad, AllDigits, Digits, DecimalByte;
    var k := Digits(s);
    if DecimalByte(s[..k]) {
      NoByte(s[..k]);
      PutInFront(seen, Decimal(s[..k]), Quad(s[k..], |seen| + 1));
    }
  }

  lemma NoByte(s: string)
    requires DecimalByte(s)
    ensures s != ""
  {
  }

  lemma PutInFront(seen: seq<nat>, v: nat, q: Option<seq<nat>>)
    ensures |seen + [v]| == |seen| + 1
    ensures q.Some? ==> seen + ([v] + q.value) == seen + [v] + q.value
  {
  }

  lemma QuadEnds(seen: seq<nat>, s: string)
    ensures QuadFrom(seen, "") == if |seen| == 4 then Some(seen) else None
    ensures QuadFrom([], s) == Quad(s, 0)
  {
    assert seen + [] == seen;
    var q := Quad(s, 0);
    assert q.Some? ==> [] + q.value == q.value;
  }

  /** Two pieces from up to four bytes, as the loop has them after each byte. */
  function Packed(v: seq<nat>): (nat, nat)
    requires |v| <= 4
  {
    (if |v| == 0 then 0 else if |v| == 1 then v[0] else v[0] * 256 + v[1],
     if |v| <= 2 then 0 else if |v| == 3 then v[2] else v[2] * 256 + v[3])
  }

  lemma PackedStep(seen: seq<nat>, v: nat)
    requires |seen| < 4
    ensures Packed([]) == (0, 0)
    ensures Packed(seen + [v]) == var p := Packed(seen);
                                  if |seen| < 2 then (p.0 * 256 + v, p.1) else (p.0, p.1 * 256 + v)
  {
  }

  /** The dotted quad, to the end of the text, into the pieces `t` and `t + 1`. */
  method ReadQuad(e: array<nat>, t: nat, r: string, n: nat) returns (ok: bool)
    requires e.Length == PIECES && t <= 6 && n < |r| && e[t] == e[t + 1] == 0
    modifies e
    ensures ok <==> Quad(r[n..], 0).Some? && |Quad(r[n..], 0).value| == 4
    ensures forall j :: 0 <= j < PIECES && j != t && j != t + 1 ==> e[j] == old(e[j])
    ensures ok ==> (e[t], e[t + 1]) == Packed(Quad(r[n..], 0).value)
  {
    hide Quad, QuadFrom, DecimalByte, Decimal, Digits, Packed;
    PackedStep([], 0);
    QuadEnds([], r[n..]);
    ghost var goal := Quad(r[n..], 0);
    ghost var seen: seq<nat> := [];
    var c, t', n' := 0, t, n;
    while n' < |r|
      invariant n' <= |r| && c == |seen| <= 4 && t' == (if c < 2 then t else if c < 4 then t + 1 else t + 2)
      invariant goal == QuadFrom(seen, r[n'..])
      invariant (e[t], e[t + 1]) == Packed(seen)
      invariant forall j :: 0 <= j < PIECES && j != t && j != t + 1 ==> e[j] == old(e[j])
    {
      QuadStep(seen, r, n');
      if c > 0 {
        if r[n'] == '.' && c < 4 {
          n' := n' + 1;
        } else {
          return false;
        }
      }
      ghost var at := n';
      var v;
      v, n' := ReadByte(r, n');
      if v.None? {
        return false;
      }
      assert r[at..][n' - at..] == r[n'..];
      PackedStep(seen, v.value);
      e[t'] := e[t'] * 256 + v.value;
      seen := seen + [v.value];
      c := c + 1;
      if c == 2 || c == 4 {
        t' := t' + 1;
      }
    }
    assert r[n'..] == "";
    QuadEnds(seen, "");
    ok := c == 4;
  }

  /** w with z zeros put in before piece m. */
  function Opened(w: seq<nat>, m: nat, z: nat): (r: seq<nat>)
    requires m <= |w|
    ensures |r| == |w| + z
  {
    w[..m] + Zeros(z) + w[m..]
  }

  /** Swapping the last of the zeros with the piece before them moves all of them one to the front. */
  lemma SwapStep(w: seq<nat>, m: nat, z: nat)
    requires 0 < m <= |w|
    ensures var g := Opened(w, m, z); var t := m + z - 1;
            g[t := g[m - 1]][m - 1 := g[t]] == Opened(w, m - 1, z)
  {
    var g, t, o := Opened(w, m, z), m + z - 1, Opened(w, m - 1, z);
    var f := g[t := g[m - 1]][m - 1 := g[t]];
    forall j | 0 <= j < |f|
      ensures f[j] == o[j]
    {
    }
  }

  lemma OpenedEnds(w: seq<nat>, a: nat, m: nat, z: nat)
    requires a <= m <= |w| && (z == 0 || m == a)
    ensures Opened(w, m, z) == Opened(w, a, z)
    ensures Opened(w, |w|, z) == w + Zeros(z)
  {
    assert w[..m] + Zeros(0) + w[m..] == w == w[..a] + Zeros(0) + w[a..];
  }

  method Swap(e: array<nat>, i: nat, j: nat)
    requires i < e.Length && j < e.Length
    modifies e
    ensures e[..] == old(e[..][i := e[j]][j := e[i]])
  {
    var o := e[i];
    e[i] := e[j];
    e[j] := o;
  }

  /** The loop that moves the pieces after `::` to the end, swapping the zeros there forward. */
  method SwapRun(e: array<nat>, a: nat, t0: nat)
    requires e.Length == PIECES && a <= t0 <= PIECES
    requires forall j :: t0 <= j < PIECES ==> e[j] == 0
    modifies e
    ensures Some(e[..]) == Finish(old(e[..t0]), Some(a))
  {
    hide Opened, Zeros, Finish;
    ghost var w, z := e[..t0], PIECES - t0;
    var h, t := t0 - a, 7;
    OpenedEnds(w, a, a, z);
    ZerosAre(e[t0..]);
    assert e[..] == w + e[t0..];
    while t != 0 && h > 0
      invariant 0 <= h <= t0 - a && t == a + h + z - 1 && e[..] == Opened(w, a + h, z)
      decreases h
    {
      SwapStep(w, a + h, z);
      Swap(e, t, a + h - 1);
      t, h := t - 1, h - 1;
    }
    OpenedEnds(w, a, a + h, z);
    OpenedIsFinish(w, a);
  }

  lemma OpenedIsFinish(w: seq<nat>, a: nat)
    requires a <= |w| <= PIECES
    ensures Finish(w, Some(a)) == Some(Opened(w, a, PIECES - |w|))
  {
  }

  lemma EndedIs(w: seq<nat>, a: Option<nat>)
    ensures Ended(None) == None
    ensures (a.Some? ==> a.value <= |w|) ==> Ended(Some((w, a))) == Finish(w, a)
    ensures a.None? ==> Finish(w, a) == if |w| == PIECES then Some(w) else None
  {
  }

  /** One piece of the loop that does not start with a colon: a hexadecimal group, or the dotted quad. */
  method ReadPiece(e: array<nat>, t: nat, r: string, n: nat, ghost a: Option<nat>) returns (ok: bool, t': nat, n': nat)
    requires e.Length == PIECES && t < PIECES && n < |r| && r[n] != ':'
    requires forall j :: t <= j < PIECES ==> e[j] == 0
    modifies e
    ensures !ok ==> Run(r[n..], old(e[..t]), a) == None
    ensures ok ==>
      && n < n' <= |r| && t <= t' <= PIECES && (forall j :: t' <= j < PIECES ==> e[j] == 0)
      && Run(r[n..], old(e[..t]), a) == Run(r[n'..], e[..t'], a)
  {
    hide Run, Quad, HexValue, HexPrefix, Packed;
    ghost var w := e[..t];
    MachineStep(r, n, w, a);
    var i, u;
    i, n', u := ReadGroup(r, n);
    t' := t;
    if n' < |r| && r[n'] == '.' {
      if u == 0 || t > 6 {
        return false, t, n;
      }
      ok := ReadQuad(e, t, r, n);
      t', n' := t + 2, |r|;
      assert ok ==> e[..t'] == w + [e[t], e[t + 1]];
      RunsOut(r, e[..t'], a);
      return;
    } else if n' < |r| && r[n'] == ':' {
      n' := n' + 1;
      if n' == |r| {
        return false, t, n;
      }
    } else if n' < |r| {
      return false, t, n;
    }
    e[t] := i;
    t' := t + 1;
    assert e[..t'] == w + [i];
    RunsOut(r, e[..t'], a);
    return true, t', n';
  }

  lemma RunsOut(r: string, w: seq<nat>, a: Option<nat>)
    ensures Run(r[|r|..], w, a) == Some((w, a))
  {
    assert r[|r|..] == "";
    NothingRuns(w, a);
  }

  /** `aq`. */
  method Parse(r: string) returns (res: Option<seq<nat>>)
    ensures res == Meaning(r)
  {
    hide Run, Meaning, Quad, HexValue, HexPrefix, Packed, Words, Ended, Finish;
    EndedIs([], None);
    ParsedIsMeaning(r);
    var e := new nat[PIECES](_ => 0);
    var t: nat, n: nat := 0, 0;
    var a: Option<nat> := None;
    if r != "" && r[0] == ':' {
      if |r| < 2 || r[1] != ':' {
        return None;
      }
      t, n, a := 1, 2, Some(1);
    }
    assert a.None? ==> r[n..] == r && e[..t] == [];
    assert a.Some? ==> e[..t] == [0];
    while n < |r|
      invariant n <= |r| && t <= PIECES && (a.Some? ==> a.value <= t)
      invariant forall j :: t <= j < PIECES ==> e[j] == 0
      invariant Ended(Run(r[n..], e[..t], a)) == Meaning(r)
    {
      MachineColon(r, n, e[..t], a);
      if t == PIECES {
        return None;
      }
      if r[n] == ':' {
        if a.Some? {
          return None;
        }
        assert e[..t + 1] == e[..t] + [0];
        n, t := n + 1, t + 1;
        a := Some(t);
        continue;
      }
      var ok;
      ok, t, n := ReadPiece(e, t, r, n, a);
      if !ok {
        return None;
      }
    }
    RunsOut(r, e[..t], a);
    EndedIs(e[..t], a);
    if a.Some? {
      SwapRun(e, a.value, t);
    } else if t != PIECES {
      return None;
    } else {
      assert e[..t] == e[..];
    }
    return Some(e[..]);
  }

  /** The main loop's body where there is no room, or a colon. */
  lemma MachineColon(r: string, n: nat, w: seq<nat>, a: Option<nat>)
    requires n < |r| && |w| <= PIECES
    ensures |w| == PIECES ==> Run(r[n..], w, a) == None
    ensures |w| < PIECES && r[n] == ':' ==>
              Run(r[n..], w, a) == if a.Some? then None else Run(r[n + 1..], w + [0], Some(|w| + 1))
  {
    hide Run, Quad, HexValue;
    MachineStep(r, n, w, a);
  }

  /** The main loop's body, read off the machine. */
  lemma MachineStep(r: string, n: nat, w: seq<nat>, a: Option<nat>)
    requires n < |r| && |w| <= PIECES
    ensures var k := HexPrefix(r[n..], 4);
            var p := n + k;
            Run(r[n..], w, a) ==
            if |w| == PIECES then None
            else if r[n] == ':' then
              if a.Some? then None else Run(r[n + 1..], w + [0], Some(|w| + 1))
            else if p < |r| && r[p] == '.' then
              var q := Quad(r[n..], 0);
              if p == n || |w| > 6 || q.None? || |q.value| != 4 then None
              else Some((w + [Packed(q.value).0, Packed(q.value).1], a))
            else if p < |r| && r[p] == ':' then
              if p + 1 == |r| then None else Run(r[p + 1..], w + [HexValue(r[n..][..k])], a)
            else if p < |r| then None
            else Some((w + [HexValue(r[n..][..k])], a))
  {
    hide Quad, HexValue, HexPrefix, Run;
    var s := r[n..];
    var k := HexPrefix(s, 4);
    MachineUnfolds(s, w, a);
    assert s[1..] == r[n + 1..];
    if k < |s| {
      assert s[k + 1..] == r[n + k + 1..];
    }
  }

  /** The machine's first step on s. */
  lemma MachineUnfolds(s: string, w: seq<nat>, a: Option<nat>)
    requires s != "" && |w| <= PIECES
    ensures var k := HexPrefix(s, 4);
            Run(s, w, a) ==
            if |w| == PIECES then None
            else if s[0] == ':' then
              if a.Some? then None else Run(s[1..], w + [0], Some(|w| + 1))
            else if k < |s| && s[k] == '.' then
              var q := Quad(s, 0);
              if k == 0 || |w| > 6 || q.None? || |q.value| != 4 then None
              else Some((w + [Packed(q.value).0, Packed(q.value).1], a))
            else if k < |s| && s[k] == ':' then
              if k + 1 == |s| then None else Run(s[k + 1..], w + [HexValue(s[..k])], a)
            else if k < |s| then None
            else Some((w + [HexValue(s[..k])], a))
  {
    hide Quad, HexValue, HexPrefix;
  }

  // ---------------------------------------------------------------- the serializer

  /** How many zero pieces start at `i`. */
  function RunLength(p: seq<nat>, i: nat): (n: nat)
    ensures i <= |p| ==> i + n <= |p|
    decreases |p| - i
  {
    if i < |p| && p[i] == 0 then 1 + RunLength(p, i + 1) else 0
  }

  /** `a` is the first longest run of two or more zero pieces, if there is any such run. */
  ghost predicate IsLongest(p: seq<nat>, a: Option<nat>) {
    if a.None? then forall i: nat :: i < |p| ==> RunLength(p, i) < 2
    else
      && a.value < |p| && RunLength(p, a.value) >= 2
      && forall i: nat :: i < |p| ==> RunLength(p, i) <= RunLength(p, a.value)
                                      && (i < a.value ==> RunLength(p, i) < RunLength(p, a.value))
  }

  lemma {:induction false} RunLengthIs(p: seq<nat>, a: nat, n: nat)
    requires a + n <= |p| && forall j :: a <= j < a + n ==> p[j] == 0
    requires a + n == |p| || p[a + n] != 0
    ensures forall k: nat :: a <= k <= a + n ==> RunLength(p, k) == a + n - k
    decreases n
  {
    if n > 0 {
      RunLengthIs(p, a + 1, n - 1);
    } else if a < |p| {
      assert RunLength(p, a) == 0;
    }
  }

  lemma {:induction false} RunIsZeros(p: seq<nat>, i: nat)
    requires i <= |p|
    ensures forall j :: i <= j < i + RunLength(p, i) ==> p[j] == 0
    ensures i + RunLength(p, i) < |p| ==> p[i + RunLength(p, i)] != 0
    decreases |p| - i
  {
    if i < |p| && p[i] == 0 {
      RunIsZeros(p, i + 1);
    }
  }

  /** `nq`. */
  method LongestRun(r: seq<nat>) returns (res: Option<nat>)
    requires |r| == PIECES
    ensures IsLongest(r, res)
  {
    var e: Option<nat>, t, a: Option<nat>, n := None, 1, None, 0;
    var i: nat := 0;
    while i < 8
      invariant i <= 8 && n <= i && (a.None? <==> n == 0) && (a.Some? ==> a.value == i - n)
      invariant forall j :: i - n <= j < i ==> r[j] == 0
      invariant if e.None? then t == 1 else t >= 2 && e.value < i - n && RunLength(r, e.value) == t
      invariant forall k: nat :: k < i - n ==> RunLength(r, k) <= t && (e.Some? && k < e.value ==> RunLength(r, k) < t)
    {
      if r[i] != 0 {
        RunLengthIs(r, i - n, n);
        if n > t {
          e, t := a, n;
        }
        a, n := None, 0;
      } else {
        if a.None? {
          a := Some(i);
        }
        n := n + 1;
      }
      i := i + 1;
    }
    RunLengthIs(r, 8 - n, n);
    res := if n > t then a else e;
  }

  /** Pieces with colons between them. */
  function Joined(p: seq<nat>): string {
    if p == [] then ""
    else if |p| == 1 then HexText(p[0])
    else HexText(p[0]) + ":" + Joined(p[1..])
  }

  /** The text with the run at `a` compressed. */
  function Compressed(p: seq<nat>, a: Option<nat>): string
    requires a.Some? ==> a.value <= |p|
  {
    if a.None? then Joined(p)
    else Joined(p[..a.value]) + "::" + Joined(p[a.value + RunLength(p, a.value)..])
  }

  /** The pieces from `lo` up to `hi`, as the loop appends them. */
  function Listed(p: seq<nat>, lo: nat, hi: nat): string
    requires |p| == PIECES && lo <= hi <= PIECES
  {
    if hi == lo then "" else Listed(p, lo, hi - 1) + HexText(p[hi - 1]) + (if hi - 1 < 7 then ":" else "")
  }

  lemma ListedNone(p: seq<nat>, lo: nat)
    requires |p| == PIECES && lo <= PIECES
    ensures Listed(p, lo, lo) == ""
  {
  }

  lemma ListedStep(p: seq<nat>, lo: nat, hi: nat)
    requires |p| == PIECES && lo <= hi < PIECES
    ensures Listed(p, lo, hi + 1) == Listed(p, lo, hi) + HexText(p[hi]) + (if hi < 7 then ":" else "")
  {
  }

  lemma {:induction false} JoinedPush(q: seq<nat>, v: nat)
    ensures Joined(q + [v]) == (if q == [] then "" else Joined(q) + ":") + HexText(v)
  {
    if q == [] {
      assert q + [v] == [v];
    } else {
      assert (q + [v])[1..] == q[1..] + [v];
      JoinedPush(q[1..], v);
      if |q| > 1 {
        assert q[1..] != [];
      }
    }
  }

  lemma JoinedNone()
    ensures Joined([]) == ""
  {
  }

  lemma {:induction false} ListedIsJoined(p: seq<nat>, lo: nat, hi: nat)
    requires |p| == PIECES && lo <= hi <= PIECES
    ensures Listed(p, lo, hi) == Joined(p[lo..hi]) + (if lo < hi <= 7 then ":" else "")
  {
    hide Joined, HexText;
    JoinedNone();
    assert p[lo..lo] == [];
    if lo < hi {
      ListedIsJoined(p, lo, hi - 1);
      assert p[lo..hi] == p[lo..hi - 1] + [p[hi - 1]];
      JoinedPush(p[lo..hi - 1], p[hi - 1]);
    }
  }

  /** What the loop has written before piece t, when the pieces from k up to l are left out. */
  function Written(r: seq<nat>, k: nat, l: nat, t: nat): string
    requires |r| == PIECES && k <= l <= PIECES && t <= PIECES
  {
    if t <= k then Listed(r, 0, t)
    else Listed(r, 0, k) + (if k > 0 then ":" else "::") + (if t <= l then "" else Listed(r, l, t))
  }

  lemma WrittenStep(r: seq<nat>, k: nat, l: nat, t: nat)
    requires |r| == PIECES && (k < l <= PIECES || k == l == PIECES) && t < PIECES
    ensures Written(r, k, l, t + 1) == Written(r, k, l, t) +
            if k < t < l then "" else if t == k then (if k > 0 then ":" else "::")
            else HexText(r[t]) + (if t < 7 then ":" else "")
  {
    hide Listed, HexText;
    if t < k {
      ListedStep(r, 0, t);
    } else if t >= l {
      ListedNone(r, l);
      ListedStep(r, l, t);
    }
  }

  /** Where the run ends, the text is the compressed one. */
  lemma WrittenIsCompressed(r: seq<nat>, run: Option<nat>, k: nat, l: nat)
    requires |r| == PIECES && (run.None? ==> k == l == PIECES)
    requires run.Some? ==> k == run.value < l <= PIECES && l == k + RunLength(r, k)
    ensures Written(r, k, l, PIECES) == Compressed(r, run)
  {
    hide Listed, HexText, RunLength, Joined;
    ListedIsJoined(r, 0, k);
    ListedIsJoined(r, l, 8);
    ListedNone(r, l);
    assert r[0..k] == r[..k] && r[l..8] == r[l..] && r[..8] == r;
  }

  /** `zr` on an address, without the brackets. */
  method Serialize(r: seq<nat>) returns (e: string)
    requires |r| == PIECES
    ensures exists a :: IsLongest(r, a) && e == Compressed(r, a)
    ensures forall a :: IsLongest(r, a) ==> e == Compressed(r, a)
  {
    hide RunLength, HexText, Joined, Listed, Written, Compressed;
    e := "";
    var run := LongestRun(r);
    var n := false;
    var t := 0;
    ghost var k := if run.Some? then run.value else 8;
    ghost var l := if run.Some? then k + RunLength(r, k) else 8;
    if run.Some? {
      RunIsZeros(r, k);
    }
    NothingWritten(r, k, l);
    while t < 8
      invariant t <= 8 && k <= l <= 8 && (n <==> k < t <= l) && e == Written(r, k, l, t)
    {
      WrittenStep(r, k, l, t);
      if n && r[t] == 0 {
      } else {
        if n {
          n := false;
        }
        if run == Some(t) {
          e := e + (if t > 0 then ":" else "::");
          n := true;
        } else {
          e := e + HexText(r[t]);
          if t < 7 {
            e := e + ":";
          }
        }
      }
      t := t + 1;
    }
    WrittenIsCompressed(r, run, k, l);
    assert IsLongest(r, run) && e == Compressed(r, run);
  }

  lemma NothingWritten(r: seq<nat>, k: nat, l: nat)
    requires |r| == PIECES && k <= l <= PIECES
    ensures Written(r, k, l, 0) == ""
  {
  }

  // ---------------------------------------------------------------- round trip

  lemma ColonAfter(g: string, rest: string)
    requires AllHex(g)
    ensures Colon(g + ":" + rest) == |g| && Colon(g) == |g|
  {
    var s := g + ":" + rest;
    assert forall j :: 0 <= j < |g| ==> s[j] == g[j];
    assert s[|g|] == ':';
  }

  ghost predicate Pieces(p: seq<nat>) { forall j :: 0 <= j < |p| ==> p[j] < 0x10000 }

  lemma PieceGroup(v: nat)
    requires v < 0x10000
    ensures Group(HexText(v)) && HexValue(HexText(v)) == v
  {
    assert Power16(1) == 16 && Power16(2) == 256 && Power16(3) == 4096 && Power16(4) == 0x10000;
    HexTextLength(v, 4);
    HexOfText(v);
  }

  lemma {:induction false} WordsOfJoined(p: seq<nat>, last: bool)
    requires p != [] && Pieces(p)
    ensures Words(Joined(p), last) == Some(p)
    ensures Joined(p) != "" && Joined(p)[0] != ':' && Joined(p)[|Joined(p)| - 1] != ':'
    ensures forall j: nat :: !DoubleAt(Joined(p), j)
  {
    hide Words, HexText, HexValue;
    var g, s := HexText(p[0]), Joined(p);
    PieceGroup(p[0]);
    WordsStep(s, last);
    if |p| == 1 {
      assert s == g && [p[0]] == p;
      ColonAfter(g, "");
      assert forall j: nat :: j < |s| ==> IsHex(s[j]);
    } else {
      var q := p[1..];
      WordsOfJoined(q, last);
      var rest := Joined(q);
      assert s == g + ":" + rest;
      ColonAfter(g, rest);
      assert s[..|g|] == g && s[|g| + 1..] == rest;
      assert [p[0]] + q == p;
      NoDoubleAcross(g, rest);
    }
  }

  lemma NoDoubleAcross(g: string, rest: string)
    requires AllHex(g) && rest != "" && rest[0] != ':' && forall j: nat :: !DoubleAt(rest, j)
    ensures forall j: nat :: !DoubleAt(g + ":" + rest, j)
  {
    var s := g + ":" + rest;
    assert forall j: nat :: j < |g| ==> s[j] == g[j];
    assert s[|g| + 1] == rest[0];
    assert forall j: nat :: |g| < j && j + 1 < |s| ==> DoubleAt(s, j) == DoubleAt(rest, j - |g| - 1);
  }

  /** Parsing the serialized text between the brackets gives back the same eight pieces. */
  lemma {:induction false} RoundTrip(p: seq<nat>, a: Option<nat>)
    requires |p| == PIECES && Pieces(p) && IsLongest(p, a)
    ensures Meaning(Compressed(p, a)) == Some(p)
  {
    hide Side, Joined, RunLength, DoubleColon, Words, Meaning, DoubleAt;
    if a.None? {
      WordsOfJoined(p, true);
      MeaningOfWords(Joined(p), p);
    } else {
      var k := a.value;
      var n := RunLength(p, k);
      RunIsZeros(p, k);
      var l, r := p[..k], p[k + n..];
      SideOfJoined(l, false);
      SideOfJoined(r, true);
      DoubleAfter(Joined(l), Joined(r));
      var s := Joined(l) + "::" + Joined(r);
      assert s[..|Joined(l)|] == Joined(l) && s[|Joined(l)| + 2..] == Joined(r);
      MeaningOfDouble(s, |Joined(l)|, l, r);
      ZerosAre(p[k..k + n]);
      ThreeParts(p, k, k + n);
    }
  }

  lemma MeaningOfDouble(s: string, k: nat, l: seq<nat>, r: seq<nat>)
    requires DoubleColon(s) == Some(k) && Side(s[..k], false) == Some(l) && Side(s[k + 2..], true) == Some(r)
    requires |l| + |r| < PIECES
    ensures Meaning(s) == Some(l + Zeros(PIECES - |l| - |r|) + r)
  {
    hide DoubleColon, Side, Words, Zeros;
  }

  lemma MeaningOfWords(s: string, p: seq<nat>)
    requires Words(s, true) == Some(p) && |p| == PIECES && forall j: nat :: !DoubleAt(s, j)
    ensures Meaning(s) == Some(p)
  {
    hide Words;
  }

  lemma ThreeParts(p: seq<nat>, i: nat, j: nat)
    requires i <= j <= |p|
    ensures p[..i] + p[i..j] + p[j..] == p
  {
    assert p[i..j] + p[j..] == p[i..];
  }

  lemma ZerosAre(z: seq<nat>)
    requires forall j :: 0 <= j < |z| ==> z[j] == 0
    ensures z == Zeros(|z|)
  {
  }

  lemma SideOfJoined(p: seq<nat>, last: bool)
    requires Pieces(p)
    ensures Side(Joined(p), last) == Some(p)
    ensures forall j: nat :: !DoubleAt(Joined(p), j)
    ensures Joined(p) != "" ==> Joined(p)[|Joined(p)| - 1] != ':'
  {
    hide Words;
    if p != [] {
      WordsOfJoined(p, last);
    }
  }

  lemma DoubleAfter(l: string, r: string)
    requires forall j: nat :: !DoubleAt(l, j)
    requires l != "" ==> l[|l| - 1] != ':'
    ensures DoubleColon(l + "::" + r) == Some(|l|)
  {
    var s := l + "::" + r;
    assert DoubleAt(s, |l|);
    assert forall j: nat :: j + 1 < |l| && DoubleAt(s, j) ==> DoubleAt(l, j);
    assert l != "" ==> s[|l| - 1] == l[|l| - 1];
  }
}
