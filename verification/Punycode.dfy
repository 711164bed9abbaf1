/** The Punycode encoder of the URL polyfill (src/js/whatwg-url-polyfill.js:15,
    `Ag`, `xg`, `lo`, `Eg`), proved equal to section 6.3 of RFC 3492 and inverted by
    the decoder of section 6.2. */
module Punycode {
  import opened Wrappers

  const BASE := 36
  const T_MIN := 1
  const T_MAX := 26
  const SKEW := 38
  const DAMP := 700
  const INITIAL_BIAS := 72
  const INITIAL_N := 128
  const DELIMITER := 45
  const MAX_INT := 2147483647

  /** One UTF-16 code unit of a JavaScript string. */
  type Unit = u: nat | u < 0x10000

  /** A code point; unpaired surrogates are kept as they are. */
  type CodePoint = c: nat | c < 0x110000

  // ---------------------------------------------------------------- UTF-16

  predicate High(u: nat) { 0xD800 <= u <= 0xDBFF }

  predicate Low(u: nat) { 0xDC00 <= u <= 0xDFFF }

  function Pair(hi: nat, lo: nat): CodePoint
    requires High(hi) && Low(lo)
  {
    (hi - 0xD800) * 0x400 + (lo - 0xDC00) + 0x10000
  }

  function CodePoints(s: seq<Unit>): (r: seq<CodePoint>)
    ensures |r| <= |s|
  {
    if s == [] then []
    else if |s| > 1 && High(s[0]) && Low(s[1]) then [Pair(s[0], s[1])] + CodePoints(s[2..])
    else [s[0]] + CodePoints(s[1..])
  }

  function UnitsOf(c: CodePoint): seq<Unit> {
    if c < 0x10000 then [c]
    else [0xD800 + (c - 0x10000) / 0x400, 0xDC00 + (c - 0x10000) % 0x400]
  }

  function Units(cs: seq<CodePoint>): seq<Unit> {
    if cs == [] then [] else UnitsOf(cs[0]) + Units(cs[1..])
  }

  lemma PairSplits(hi: Unit, lo: Unit)
    requires High(hi) && Low(lo)
    ensures UnitsOf(Pair(hi, lo)) == [hi, lo]
  {
    var x := Pair(hi, lo) - 0x10000;
    assert x == 0x400 * (hi - 0xD800) + (lo - 0xDC00);
    assert x / 0x400 == hi - 0xD800 && x % 0x400 == lo - 0xDC00;
  }

  /** Reading a string as code points loses nothing, unpaired surrogates included. */
  lemma {:induction false} UnitsOfCodePoints(s: seq<Unit>)
    ensures Units(CodePoints(s)) == s
  {
    hide Pair, UnitsOf;
    if s == [] {
    } else if |s| > 1 && High(s[0]) && Low(s[1]) {
      UnitsOfCodePoints(s[2..]);
      var p := Pair(s[0], s[1]);
      PairSplits(s[0], s[1]);
      assert ([p] + CodePoints(s[2..]))[1..] == CodePoints(s[2..]);
      assert UnitsOf(p) + s[2..] == s;
    } else {
      UnitsOfCodePoints(s[1..]);
      Single(s[0]);
      assert ([s[0]] + CodePoints(s[1..]))[1..] == CodePoints(s[1..]);
    }
  }

  lemma Single(u: Unit)
    ensures UnitsOf(u) == [u]
  {
  }

  /** The mask `& 1023`; `& 64512` keeps what it drops. */
  function Low10(u: nat): nat {
    if u < 1024 then u else Low10(u - 1024)
  }

  lemma {:induction false} Low10IsRemainder(u: nat)
    ensures Low10(u) == u % 1024
  {
    if u >= 1024 {
      Low10IsRemainder(u - 1024);
    }
  }

  lemma {:induction false} SurrogateBits(n: Unit, i: Unit)
    ensures i - Low10(i) == 56320 <==> Low(i)
    ensures High(n) && Low(i) ==> Low10(n) * 1024 + Low10(i) + 65536 == Pair(n, i)
  {
    Low10IsRemainder(n);
    Low10IsRemainder(i);
    assert High(n) ==> n == 54 * 1024 + (n - 0xD800);
    assert Low(i) ==> i == 55 * 1024 + (i - 0xDC00);
  }

  lemma {:induction false} CodePointsFrom(r: seq<Unit>, t: nat)
    requires t < |r|
    ensures CodePoints(r[t..]) == if t + 1 < |r| && High(r[t]) && Low(r[t + 1])
                                  then [Pair(r[t], r[t + 1])] + CodePoints(r[t + 2..])
                                  else [r[t]] + CodePoints(r[t + 1..])
  {
    var rest := r[t..];
    assert rest[1..] == r[t + 1..];
    if |rest| > 1 {
      assert rest[2..] == r[t + 2..];
    }
  }

  /** `Eg`: the loop looks one unit ahead and steps back when it was not a low surrogate. */
  method ReadCodePoints(r: seq<Unit>) returns (e: seq<CodePoint>)
    ensures e == CodePoints(r)
  {
    e := [];
    var t := 0;
    while t < |r|
      invariant 0 <= t <= |r|
      invariant e + CodePoints(r[t..]) == CodePoints(r)
    {
      ghost var before, rest := e, CodePoints(r[t..]);
      CodePointsFrom(r, t);
      var n: nat := r[t];
      var c: CodePoint := n;
      t := t + 1;
      if n >= 55296 && n <= 56319 && t < |r| {
        var i: nat := r[t];
        t := t + 1;
        SurrogateBits(n, i);
        if i - Low10(i) == 56320 {
          var p := Low10(n) * 1024 + Low10(i) + 65536;
          assert p == Pair(n, i);
          c := p;
        } else {
          t := t - 1;
        }
      }
      e := e + [c];
      assert rest == [c] + CodePoints(r[t..]);
      assert e + CodePoints(r[t..]) == before + rest;
    }
  }

  // ---------------------------------------------------------------- digits, thresholds, bias

  /** The letter or digit standing for `d` (section 5 of RFC 3492). */
  function Digit(d: nat): (c: nat)
    requires d < BASE
    ensures DigitValue(c) == Some(d) && c != DELIMITER
  {
    d + 22 + (if d < 26 then 75 else 0)
  }

  function DigitValue(c: nat): Option<nat> {
    if 'a' as nat <= c <= 'z' as nat then Some(c - 'a' as nat)
    else if 'A' as nat <= c <= 'Z' as nat then Some(c - 'A' as nat)
    else if '0' as nat <= c <= '9' as nat then Some(c - '0' as nat + 26)
    else None
  }

  function Threshold(k: nat, bias: nat): (t: nat)
    ensures T_MIN <= t <= T_MAX
  {
    if k <= bias + T_MIN then T_MIN else if k >= bias + T_MAX then T_MAX else k - bias
  }

  /** Product, quotient and remainder by repeated addition and subtraction, so that the
      proofs below stay linear; TimesIsProduct and OverAndMod say that they are those. */
  function Times(a: nat, b: nat): (p: nat) {
    if a == 0 then 0 else b + Times(a - 1, b)
  }

  lemma {:induction false} TimesIsProduct(a: nat, b: nat)
    ensures Times(a, b) == a * b
  {
    if a > 0 {
      TimesIsProduct(a - 1, b);
    }
  }

  function Over(a: nat, b: nat): (q: nat)
    requires b > 0
    ensures q <= a && (a > 0 && b > 1 ==> q < a)
    decreases a
  {
    if a < b then 0 else 1 + Over(a - b, b)
  }

  function Mod(a: nat, b: nat): (m: nat)
    requires b > 0
    ensures m < b
    decreases a
  {
    if a < b then a else Mod(a - b, b)
  }

  lemma {:induction false} OverAndMod(a: nat, b: nat)
    requires b > 0
    ensures Times(Over(a, b), b) + Mod(a, b) == a
    decreases a
  {
    if a >= b {
      OverAndMod(a - b, b);
    }
  }

  /** Position arithmetic: a decoder `i` steps past the start of block zero is in block `q`. */
  lemma {:induction false} QuotientIs(i: nat, p: nat, q: nat, k: nat)
    requires k < p && i == Times(q, p) + k
    ensures Over(i, p) == q && Mod(i, p) == k
    decreases q
  {
    if q > 0 {
      QuotientIs(i - p, p, q - 1, k);
    }
  }

  lemma {:induction false} TimesDifference(n: nat, m: nat, p: nat)
    requires n <= m
    ensures Times(n, p) + Times(m - n, p) == Times(m, p)
    decreases n
  {
    if n > 0 {
      TimesDifference(n - 1, m - 1, p);
    }
  }

  /** The division loop of section 6.1, ((base - tmin) * tmax) / 2 being 455. */
  function AdaptLoop(delta: nat, k: nat): nat {
    if delta > 455 then AdaptLoop(Over(delta, BASE - T_MIN), k + BASE)
    else k + Over(36 * delta, delta + SKEW)
  }

  function Scaled(delta: nat, points: nat, first: bool): nat
    requires points > 0
  {
    var d := if first then delta / DAMP else delta / 2;
    d + Over(d, points)
  }

  function Adapt(delta: nat, points: nat, first: bool): nat
    requires points > 0
  {
    AdaptLoop(Scaled(delta, points, first), 0)
  }

  /** `xg`; its shifts are exact because no delta ever leaves 31 bits. */
  method AdaptBias(delta: nat, points: nat, first: bool) returns (bias: nat)
    requires points > 0 && delta <= MAX_INT
    ensures bias == Adapt(delta, points, first)
  {
    hide ToInt32;
    var a: nat := 0;
    var r: nat := if first then delta / DAMP else ToInt32(delta) / 2;
    r := r + Over(r, points);
    assert r == Scaled(delta, points, first);
    var limit := ToInt32((BASE - T_MIN) * T_MAX) / 2;
    assert limit == 455;
    ghost var goal := AdaptLoop(r, 0);
    while r > limit
      invariant AdaptLoop(r, a) == goal
      decreases r
    {
      r := Over(r, BASE - T_MIN);
      a := a + BASE;
    }
    bias := a + Over(36 * r, r + SKEW);
  }

  /** The digit put out for `q` when it does not fit, and what remains of `q`. */
  function LowDigit(q: nat, t: nat): (d: nat)
    requires T_MIN <= t <= T_MAX && t <= q
    ensures t <= d < BASE
    ensures d + Times(Higher(q, t), BASE - t) == q
  {
    OverAndMod(q - t, BASE - t);
    t + Mod(q - t, BASE - t)
  }

  function Higher(q: nat, t: nat): (r: nat)
    requires T_MIN <= t <= T_MAX && t <= q
    ensures r < q
  {
    Over(q - t, BASE - t)
  }

  /** A generalized variable-length integer (section 3.3), least significant digit first. */
  function EncodeInt(q: nat, k: nat, bias: nat): (s: seq<nat>)
    ensures s != []
    ensures forall c <- s :: c != DELIMITER
    decreases q
  {
    var t := Threshold(k, bias);
    if q < t then [Digit(q)] else [Digit(LowDigit(q, t))] + EncodeInt(Higher(q, t), k + BASE, bias)
  }

  /** The inner loop of section 6.2: the value read and what is left of the input.
      Integers here are unbounded, so the only failures are a missing or a bad digit. */
  function DecodeInt(s: seq<nat>, i: nat, w: nat, k: nat, bias: nat): (r: Option<(nat, seq<nat>)>)
    ensures r.Some? ==> |r.value.1| < |s| && r.value.0 >= i
    decreases |s|
  {
    if s == [] || DigitValue(s[0]).None? then None
    else
      var d := DigitValue(s[0]).value;
      var t := Threshold(k, bias);
      if d < t then Some((i + Times(d, w), s[1..]))
      else DecodeInt(s[1..], i + Times(d, w), Times(w, BASE - t), k + BASE, bias)
  }

  lemma {:induction false} Regroup(q: nat, d: nat, r: nat, m: nat, w: nat)
    requires d + Times(r, m) == q
    ensures Times(d, w) + Times(r, Times(w, m)) == Times(q, w)
    decreases r
  {
    if r == 0 {
    } else {
      Regroup(q - m, d, r - 1, m, w);
      Commute(w, m);
      TimesDifference(m, q, w);
    }
  }

  lemma {:induction false} Commute(a: nat, b: nat)
    ensures Times(a, b) == Times(b, a)
  {
    TimesIsProduct(a, b);
    TimesIsProduct(b, a);
  }

  lemma {:induction false} DecodeEncodedInt(q: nat, rest: seq<nat>, i: nat, w: nat, k: nat, bias: nat)
    ensures DecodeInt(EncodeInt(q, k, bias) + rest, i, w, k, bias) == Some((i + Times(q, w), rest))
    decreases q
  {
    hide Digit, DigitValue, LowDigit, Higher, Threshold, Times;
    var t := Threshold(k, bias);
    var s := EncodeInt(q, k, bias) + rest;
    if q < t {
      assert s[1..] == rest;
    } else {
      var r, d := Higher(q, t), LowDigit(q, t);
      assert s[1..] == EncodeInt(r, k + BASE, bias) + rest;
      DecodeEncodedInt(r, rest, i + Times(d, w), Times(w, BASE - t), k + BASE, bias);
      Regroup(q, d, r, BASE - t, w);
    }
  }

  // ---------------------------------------------------------------- section 6.3: the encoder

  /** The code points below `n`, in order: the ones handled when the encoder reaches `n`. */
  function Less(cs: seq<CodePoint>, n: nat): (r: seq<CodePoint>)
    ensures |r| <= |cs|
    ensures |r| == |cs| ==> r == cs && forall j :: 0 <= j < |cs| ==> cs[j] < n
    ensures forall c <- r :: c < n
  {
    if cs == [] then [] else (if cs[0] < n then [cs[0]] else []) + Less(cs[1..], n)
  }

  lemma {:induction false} LessOfConcat(a: seq<CodePoint>, b: seq<CodePoint>, n: nat)
    ensures Less(a + b, n) == Less(a, n) + Less(b, n)
  {
    if a == [] {
      assert a + b == b;
    } else {
      assert (a + b)[1..] == a[1..] + b;
      LessOfConcat(a[1..], b, n);
    }
  }

  lemma {:induction false} LessSame(cs: seq<CodePoint>, n: nat, m: nat)
    requires n <= m && forall j :: 0 <= j < |cs| ==> cs[j] < n || m <= cs[j]
    ensures Less(cs, m) == Less(cs, n)
  {
    if cs != [] {
      assert forall j :: 0 <= j < |cs[1..]| ==> cs[1..][j] == cs[j + 1];
      LessSame(cs[1..], n, m);
    }
  }

  /** Splitting at `u`, one element at a time. */
  lemma {:induction false} LessAt(cs: seq<CodePoint>, u: nat, n: nat)
    requires u < |cs|
    ensures Less(cs[..u + 1], n) == Less(cs[..u], n) + (if cs[u] < n then [cs[u]] else [])
    ensures Less(cs[u..], n) == (if cs[u] < n then [cs[u]] else []) + Less(cs[u + 1..], n)
  {
    assert cs[..u + 1] == cs[..u] + [cs[u]];
    LessOfConcat(cs[..u], [cs[u]], n);
    assert cs[u..][1..] == cs[u + 1..];
  }

  /** The code points handled when the scan for `m` has reached index `u`. */
  function Handled(cs: seq<CodePoint>, m: nat, u: nat): seq<CodePoint>
    requires u <= |cs|
  {
    Less(cs[..u], m + 1) + Less(cs[u..], m)
  }

  /** How many of them lie to the left of the scan. */
  function Passed(cs: seq<CodePoint>, m: nat, u: nat): nat
    requires u <= |cs|
  {
    |Less(cs[..u], m + 1)|
  }

  function Insert<T>(s: seq<T>, at: nat, x: T): seq<T>
    requires at <= |s|
  {
    s[..at] + [x] + s[at..]
  }

  /** Passing an occurrence of `m` inserts it where the scan is; anything else changes nothing. */
  lemma {:induction false} HandledStep(cs: seq<CodePoint>, m: nat, u: nat)
    requires u < |cs|
    ensures Passed(cs, m, u) <= |Handled(cs, m, u)|
    ensures Passed(cs, m, u + 1) == Passed(cs, m, u) + (if cs[u] <= m then 1 else 0)
    ensures Handled(cs, m, u + 1) == if cs[u] == m then Insert(Handled(cs, m, u), Passed(cs, m, u), m)
                                     else Handled(cs, m, u)
  {
    hide Less;
    LessAt(cs, u, m + 1);
    LessAt(cs, u, m);
    var l, r := Less(cs[..u], m + 1), Less(cs[u + 1..], m);
    if cs[u] == m {
      assert Handled(cs, m, u) == l + r && Handled(cs, m, u + 1) == (l + [m]) + r;
      assert Insert(l + r, |l|, m) == (l + [m]) + r;
    } else if cs[u] < m {
      assert l + ([cs[u]] + r) == (l + [cs[u]]) + r;
    }
  }

  lemma {:induction false} HandledEnds(cs: seq<CodePoint>, m: nat)
    ensures Handled(cs, m, 0) == Less(cs, m) && Passed(cs, m, 0) == 0
    ensures Handled(cs, m, |cs|) == Less(cs, m + 1) && Passed(cs, m, |cs|) == |Less(cs, m + 1)|
  {
    assert cs[..0] == [] && cs[0..] == cs && cs[|cs|..] == [] && cs[..|cs|] == cs;
  }

  /** `n` is the code point being inserted, `h` the handled count. */
  datatype State = State(n: nat, delta: nat, bias: nat, h: nat, out: seq<nat>)

  function Start(cs: seq<CodePoint>): State {
    var b := Less(cs, INITIAL_N);
    State(INITIAL_N, 0, INITIAL_BIAS, |b|, b + (if b == [] then [] else [DELIMITER]))
  }

  /** Puts out the pending delta and adapts the bias with the handled count plus one. */
  function Emit(e: State, b: nat): State {
    State(e.n, 0, Adapt(e.delta, e.h + 1, e.h == b), e.h + 1, e.out + EncodeInt(e.delta, BASE, e.bias))
  }

  /** The smallest code point not yet handled. */
  function Smallest(cs: seq<CodePoint>, n: nat): (m: CodePoint)
    requires |Less(cs, n)| < |cs|
    ensures m in cs && m >= n
    ensures forall j :: 0 <= j < |cs| && cs[j] >= n ==> m <= cs[j]
  {
    var rest := cs[1..];
    assert forall j :: 1 <= j < |cs| ==> cs[j] == rest[j - 1];
    if |Less(rest, n)| == |rest| then
      cs[0]
    else
      var m := Smallest(rest, n);
      if n <= cs[0] < m then cs[0] else m
  }

  /** Moves on to the smallest unhandled code point, `None` when the delta overflows. */
  function Advance(cs: seq<CodePoint>, e: State): (r: Option<State>)
    requires e.h == |Less(cs, e.n)| < |cs|
    ensures r.Some? ==> r.value.n in cs && r.value.h == e.h == |Handled(cs, r.value.n, 0)|
  {
    var m := Smallest(cs, e.n);
    LessSame(cs, e.n, m);
    HandledEnds(cs, m);
    var delta := e.delta + Times(m - e.n, e.h + 1);
    if delta > MAX_INT then None else Some(e.(n := m, delta := delta))
  }

  function NextRound(e: State): State { e.(n := e.n + 1, delta := e.delta + 1) }

  /** The main loop; `None` is the overflow error. */
  function Rounds(cs: seq<CodePoint>, e: State, b: nat): Option<seq<nat>>
    requires e.n <= 0x110000 && e.h == |Less(cs, e.n)|
    decreases 0x110000 - e.n, |cs| + 1
  {
    if e.h == |cs| then Some(e.out)
    else
      var a := Advance(cs, e);
      if a.None? then None else Scan(cs, 0, a.value, b)
  }

  /** One code point of the inner loop. */
  function Visit(c: CodePoint, e: State, b: nat): Option<State> {
    if c < e.n then if e.delta + 1 > MAX_INT then None else Some(e.(delta := e.delta + 1))
    else if c == e.n then Some(Emit(e, b))
    else Some(e)
  }

  /** The inner "for each code point" loop from index `u` on, and all later rounds. */
  function Scan(cs: seq<CodePoint>, u: nat, e: State, b: nat): Option<seq<nat>>
    requires u <= |cs| && e.n < 0x110000 && e.h == |Handled(cs, e.n, u)|
    decreases 0x110000 - e.n, |cs| - u
  {
    hide Handled, Less, Visit;
    ScanReady(cs, u, e, b);
    if u == |cs| then Rounds(cs, NextRound(e), b)
    else
      var e' := Visit(cs[u], e, b);
      if e'.None? then None else Scan(cs, u + 1, e'.value, b)
  }

  lemma ScanReady(cs: seq<CodePoint>, u: nat, e: State, b: nat)
    requires u <= |cs| && e.h == |Handled(cs, e.n, u)|
    ensures u == |cs| ==> e.h == |Less(cs, e.n + 1)|
    ensures u < |cs| && Visit(cs[u], e, b).Some? ==>
              var e' := Visit(cs[u], e, b).value;
              e'.n == e.n && e'.h == |Handled(cs, e.n, u + 1)|
  {
    hide Handled, Passed, Less;
    HandledEnds(cs, e.n);
    if u < |cs| {
      HandledStep(cs, e.n, u);
    }
  }

  function Encode(cs: seq<CodePoint>): Option<seq<nat>> {
    Rounds(cs, Start(cs), |Less(cs, INITIAL_N)|)
  }

  // ---------------------------------------------------------------- section 6.2: the decoder

  /** `at` is where the next insertion would go if its delta were zero. */
  datatype Decoder = Decoder(out: seq<nat>, n: nat, at: nat, bias: nat)

  function DecodeLoop(s: seq<nat>, d: Decoder): Option<seq<nat>>
    decreases |s|
  {
    if s == [] then Some(d.out)
    else
      var r := DecodeInt(s, d.at, 1, BASE, d.bias);
      if r.None? then None
      else
        DecodeLoop(r.value.1, Inserted(d, r.value.0))
  }

  function Inserted(d: Decoder, i: nat): Decoder
    requires i >= d.at
  {
    var points := |d.out| + 1;
    var n, at := d.n + Over(i, points), Mod(i, points);
    Decoder(Insert(d.out, at, n), n, at + 1, Adapt(i - d.at, points, d.at == 0))
  }

  /** How many characters precede the last delimiter, zero when there is none. */
  function BeforeLastDelimiter(s: seq<nat>): (b: nat)
    ensures b < |s| || b == 0
  {
    if s == [] then 0
    else if s[|s| - 1] == DELIMITER then |s| - 1
    else BeforeLastDelimiter(s[..|s| - 1])
  }

  function Decode(s: seq<nat>): Option<seq<nat>> {
    var b := BeforeLastDelimiter(s);
    if exists j :: 0 <= j < b && s[j] >= INITIAL_N then None
    else DecodeLoop(if b > 0 then s[b + 1..] else s, Decoder(s[..b], INITIAL_N, 0, INITIAL_BIAS))
  }

  /** Every code point before the last delimiter has to be basic. */
  lemma OnlyBasicBefore(s: seq<nat>, j: nat)
    requires j < BeforeLastDelimiter(s) && s[j] >= 128
    ensures Decode(s).None?
  {
    hide DecodeLoop, BeforeLastDelimiter;
  }

  // ---------------------------------------------------------------- the decoder recovers the input

  /** The decoder `d` has read everything the encoder `e` has put out, and `e`'s pending
      delta is the distance from `d`'s position to code point `n`, `k` handled ones to its left. */
  predicate Sync(d: Decoder, e: State, handled: seq<nat>, k: nat) {
    && d.out == handled
    && e.h == |handled|
    && d.bias == e.bias
    && k <= e.h
    && d.at <= e.h
    && Times(d.n, e.h + 1) + d.at + e.delta == Times(e.n, e.h + 1) + k
    && d.n >= INITIAL_N
  }

  lemma {:induction false} PositionReached(n: nat, at: nat, delta: nat, m: nat, k: nat, p: nat)
    requires Times(n, p) + at + delta == Times(m, p) + k && k < p && at < p
    ensures n <= m
    ensures n + Over(at + delta, p) == m && Mod(at + delta, p) == k
  {
    if n > m {
      TimesDifference(m, n, p);
    } else {
      TimesDifference(n, m, p);
      QuotientIs(at + delta, p, m - n, k);
    }
  }

  lemma {:induction false} EmitKeepsSync(d: Decoder, e: State, handled: seq<nat>, k: nat, b: nat)
    requires Sync(d, e, handled, k)
    requires d.at == 0 <==> e.h == b
    ensures Sync(Inserted(d, d.at + e.delta), Emit(e, b), Insert(handled, k, e.n), k + 1)
  {
    hide Times, Over, Mod, Adapt, EncodeInt;
    PositionReached(d.n, d.at, e.delta, e.n, k, e.h + 1);
    var d' := Inserted(d, d.at + e.delta);
    assert d'.n == e.n && d'.at == k + 1;
    assert |Insert(handled, k, e.n)| == e.h + 1;
  }

  /** One variable-length integer moves the decoder over the encoder's delta exactly. */
  lemma {:induction false} EmitDecodes(d: Decoder, delta: nat, rest: seq<nat>)
    ensures DecodeLoop(EncodeInt(delta, BASE, d.bias) + rest, d) == DecodeLoop(rest, Inserted(d, d.at + delta))
  {
    DecodeEncodedInt(delta, rest, d.at, 1, BASE, d.bias);
    TimesIsProduct(delta, 1);
  }

  lemma {:induction false} DeltaFits(d: Decoder, e: State, handled: seq<nat>, k: nat)
    requires Sync(d, e, handled, k) && |handled| <= LONGEST && e.n < 0x110000
    ensures e.delta < MAX_INT
  {
    var p := e.h + 1;
    if d.n <= e.n {
      TimesDifference(d.n, e.n, p);
      TimesIsProduct(e.n - d.n, p);
      ProductFits(e.n - d.n, p);
    } else {
      TimesDifference(e.n, d.n, p);
    }
  }

  /** No label this short overflows; a DNS label has at most 63 characters. */
  const LONGEST := 1926

  lemma {:induction false} ProductFits(x: nat, p: nat)
    requires x <= 1113983 && p <= 1927
    ensures x * p <= 1113983 * 1927
  {
    var y := 1927 - p;
    assert x * p == x * 1927 - x * y;
    assert x * y >= 0;
  }

  /** What the encoder still puts out, `r`, is what brings the decoder to the whole input. */
  predicate Recovery(cs: seq<CodePoint>, r: Option<seq<nat>>, out: seq<nat>, x: seq<nat>, d: Decoder) {
    && (|cs| <= LONGEST ==> r.Some?)
    && (r.Some? ==> r.value == out + x && DecodeLoop(x, d) == Some(cs))
    && DELIMITER !in x
  }

  lemma {:induction false} NothingLeft(cs: seq<CodePoint>, out: seq<nat>, d: Decoder)
    requires d.out == cs
    ensures Recovery(cs, Some(out), out, [], d)
  {
  }

  /** What the decoder does with what one visit puts out. */
  function Follow(c: CodePoint, e: State, d: Decoder): Decoder {
    if c == e.n then Inserted(d, d.at + e.delta) else d
  }

  function PutOut(c: CodePoint, e: State): seq<nat> {
    if c == e.n then EncodeInt(e.delta, BASE, e.bias) else []
  }

  lemma {:induction false} VisitKeepsSync(cs: seq<CodePoint>, u: nat, e: State, b: nat, d: Decoder)
    requires u < |cs| && Visit(cs[u], e, b).Some?
    requires Sync(d, e, Handled(cs, e.n, u), Passed(cs, e.n, u))
    requires e.h >= b && (d.at == 0 <==> e.h == b)
    ensures var e', d' := Visit(cs[u], e, b).value, Follow(cs[u], e, d);
            && Sync(d', e', Handled(cs, e.n, u + 1), Passed(cs, e.n, u + 1))
            && e'.h >= b && (d'.at == 0 <==> e'.h == b)
    ensures d.bias == e.bias
  {
    hide Less, Times, Over, Mod, EncodeInt, Adapt, Insert;
    HandledStep(cs, e.n, u);
    if cs[u] == e.n {
      EmitKeepsSync(d, e, Handled(cs, e.n, u), Passed(cs, e.n, u), b);
    }
  }

  lemma {:induction false} VisitRecovers(cs: seq<CodePoint>, r: Option<seq<nat>>, c: CodePoint, e: State, b: nat,
                                         d: Decoder, tail: seq<nat>)
    requires Visit(c, e, b).Some? && d.bias == e.bias
    requires Recovery(cs, r, Visit(c, e, b).value.out, tail, Follow(c, e, d))
    ensures Recovery(cs, r, e.out, PutOut(c, e) + tail, d)
  {
    hide EncodeInt, DecodeLoop, Inserted, Adapt;
    if c == e.n {
      EmitDecodes(d, e.delta, tail);
      assert e.out + (PutOut(c, e) + tail) == Emit(e, b).out + tail;
    } else {
      assert PutOut(c, e) + tail == tail;
    }
  }

  /** A finished scan is one block further on: the pending delta grows by one. */
  lemma {:induction false} NextRoundKeepsSync(d: Decoder, e: State, handled: seq<nat>)
    requires Sync(d, e, handled, |handled|)
    ensures Sync(d, NextRound(e), handled, 0)
  {
    assert Times(e.n + 1, e.h + 1) == Times(e.n, e.h + 1) + e.h + 1;
  }

  lemma {:induction false} ScanDecodes(cs: seq<CodePoint>, u: nat, e: State, b: nat, d: Decoder)
    returns (x: seq<nat>)
    requires u <= |cs| && e.n < 0x110000 && e.h == |Handled(cs, e.n, u)|
    requires Sync(d, e, Handled(cs, e.n, u), Passed(cs, e.n, u))
    requires e.h >= b && (d.at == 0 <==> e.h == b)
    ensures Recovery(cs, Scan(cs, u, e, b), e.out, x, d)
    decreases 0x110000 - e.n, |cs| - u
  {
    hide Sync, Recovery, PutOut, Follow, Less, Times;
    HandledEnds(cs, e.n);
    if u == |cs| {
      NextRoundKeepsSync(d, e, Less(cs, e.n + 1));
      x := RoundDecodes(cs, NextRound(e), b, d);
    } else {
      HandledStep(cs, e.n, u);
      var e' := Visit(cs[u], e, b);
      if e'.Some? {
        VisitKeepsSync(cs, u, e, b, d);
        var tail := ScanDecodes(cs, u + 1, e'.value, b, Follow(cs[u], e, d));
        x := PutOut(cs[u], e) + tail;
        VisitRecovers(cs, Scan(cs, u + 1, e'.value, b), cs[u], e, b, d, tail);
      } else {
        Overflows(cs, e, Handled(cs, e.n, u), Passed(cs, e.n, u), d);
        x := [];
      }
    }
  }

  lemma {:induction false} Overflows(cs: seq<CodePoint>, e: State, handled: seq<nat>, k: nat, d: Decoder)
    requires Sync(d, e, handled, k) && |handled| <= |cs| && e.n < 0x110000 && e.delta >= MAX_INT
    ensures forall out :: Recovery(cs, None, out, [], d)
  {
    if |cs| <= LONGEST {
      DeltaFits(d, e, handled, k);
    }
  }

  lemma {:induction false} RoundDecodes(cs: seq<CodePoint>, e: State, b: nat, d: Decoder)
    returns (x: seq<nat>)
    requires e.n <= 0x110000 && e.h == |Less(cs, e.n)|
    requires Sync(d, e, Less(cs, e.n), 0)
    requires e.h >= b && (d.at == 0 <==> e.h == b)
    ensures Recovery(cs, Rounds(cs, e, b), e.out, x, d)
    decreases 0x110000 - e.n, |cs| + 1
  {
    hide Recovery, Scan, Less, Times;
    x := [];
    if e.h == |cs| {
      NothingLeft(cs, e.out, d);
    } else {
      var m := Smallest(cs, e.n);
      var a := e.(n := m, delta := e.delta + Times(m - e.n, e.h + 1));
      LessSame(cs, e.n, m);
      HandledEnds(cs, m);
      TimesDifference(e.n, m, e.h + 1);
      if a.delta <= MAX_INT {
        x := ScanDecodes(cs, 0, a, b, d);
        assert Rounds(cs, e, b) == Scan(cs, 0, a, b);
      } else {
        Overflows(cs, a, Less(cs, m), 0, d);
      }
    }
  }

  lemma {:induction false} LastDelimiterAt(a: seq<nat>, x: seq<nat>)
    requires DELIMITER !in x
    ensures BeforeLastDelimiter(x) == 0
    ensures BeforeLastDelimiter(a + [DELIMITER] + x) == |a|
  {
    if x == [] {
      assert (a + [DELIMITER])[..|a|] == a;
    } else {
      var y := x[..|x| - 1];
      assert (a + [DELIMITER] + x)[..|a| + 1 + |y|] == a + [DELIMITER] + y;
      LastDelimiterAt(a, y);
    }
  }

  lemma {:induction false} DecodeSplits(basic: seq<nat>, x: seq<nat>)
    requires DELIMITER !in x && forall c <- basic :: c < INITIAL_N
    ensures var s := basic + (if basic == [] then [] else [DELIMITER]) + x;
            Decode(s) == DecodeLoop(x, Decoder(basic, INITIAL_N, 0, INITIAL_BIAS))
  {
    hide BeforeLastDelimiter, DecodeLoop;
    LastDelimiterAt(basic, x);
    var s := basic + (if basic == [] then [] else [DELIMITER]) + x;
    if basic == [] {
      assert s == x && s[..0] == basic;
    } else {
      assert s == basic + [DELIMITER] + x;
      assert s[..|basic|] == basic && s[|basic| + 1..] == x;
      assert forall j :: 0 <= j < |basic| ==> s[j] == basic[j] && basic[j] in basic;
    }
  }

  /** The decoder of section 6.2 recovers every code point sequence the encoder accepts, and
      the encoder accepts every sequence of at most LONGEST code points. */
  lemma {:induction false} RoundTrip(cs: seq<CodePoint>)
    ensures |cs| <= LONGEST ==> Encode(cs).Some?
    ensures Encode(cs).Some? ==> Decode(Encode(cs).value) == Some(cs)
  {
    hide Rounds, Less, Times, DecodeLoop, Decode;
    var basic := Less(cs, INITIAL_N);
    var x := RoundDecodes(cs, Start(cs), |basic|, Decoder(basic, INITIAL_N, 0, INITIAL_BIAS));
    DecodeSplits(basic, x);
  }

  // ---------------------------------------------------------------- the source's loops

  /** Math.floor of a quotient whose dividend may be negative. */
  function Floor(x: int, p: nat): int
    requires p > 0
  {
    if x >= 0 then Over(x, p) else -1 - Over(-1 - x, p)
  }

  lemma FloorIs(x: int, p: nat)
    requires p > 0
    ensures var r := Floor(x, p);
      if x >= 0 then r >= 0 && Times(r, p) <= x < Times(r + 1, p) else r < 0 && Times(-r - 1, p) < -x <= Times(-r, p)
  {
    var y := if x >= 0 then x else -1 - x;
    OverAndMod(y, p);
  }

  /** The source tests for overflow before it multiplies.  The pending delta may be one past
      the maximum here; the quotient is then -1. */
  lemma {:induction false} OverflowGuard(delta: nat, k: nat, points: nat)
    requires points > 0 && delta <= MAX_INT + 1
    ensures k > Floor(MAX_INT - delta, points) <==> delta + Times(k, points) > MAX_INT
  {
    if delta <= MAX_INT {
      var q := Over(MAX_INT - delta, points);
      OverAndMod(MAX_INT - delta, points);
      if k > q {
        TimesDifference(q, k, points);
      } else {
        TimesDifference(k, q, points);
      }
    }
  }

  /** The source adapts every insertion of a round with the handled count of the round's
      start.  After the first insertion the delta is below that count, so nothing changes. */
  lemma {:induction false} HoistedCount(delta: nat, o: nat, h: nat, b: nat)
    requires 0 < o <= h + 1 && b < o
    requires h + 1 > o ==> delta < o
    ensures Adapt(delta, o, h == b) == Adapt(delta, h + 1, h == b)
  {
    if h + 1 > o {
      assert Over(delta / 2, o) == 0 == Over(delta / 2, h + 1);
    }
  }

  method SmallestAtLeast(cs: seq<CodePoint>, a: nat) returns (h: nat)
    requires |Less(cs, a)| < |cs|
    ensures h == Smallest(cs, a)
  {
    h := MAX_INT;
    var u := 0;
    while u < |cs|
      invariant 0 <= u <= |cs|
      invariant forall j :: 0 <= j < u && cs[j] >= a ==> h <= cs[j]
      invariant h == MAX_INT || (h in cs[..u] && h >= a)
    {
      var c := cs[u];
      if c >= a && c < h {
        h := c;
      }
      u := u + 1;
    }
    var m := Smallest(cs, a);
    var j :| 0 <= j < |cs| && cs[j] == m;
    assert h in cs[..u] && cs[..u] == cs;
  }

  lemma {:induction false} EncodeIntStep(q: nat, k: nat, bias: nat)
    ensures EncodeInt(q, k, bias) ==
            var t := Threshold(k, bias);
            if q < t then [Digit(q)] else [Digit(LowDigit(q, t))] + EncodeInt(Higher(q, t), k + BASE, bias)
  {
  }

  /** The digit loop for one delta. */
  method PutDelta(e: seq<nat>, n: nat, i: nat) returns (r: seq<nat>)
    ensures r == e + EncodeInt(n, BASE, i)
  {
    hide EncodeInt, Digit, Over, Mod, Times;
    r := e;
    var l: nat, p: nat := n, BASE;
    while true
      invariant r + EncodeInt(l, p, i) == e + EncodeInt(n, BASE, i)
      decreases l
    {
      EncodeIntStep(l, p, i);
      var g: nat := if p <= i then T_MIN else if p >= i + T_MAX then T_MAX else p - i;
      assert g == Threshold(p, i);
      if l < g {
        break;
      }
      var q, d := l - g, BASE - g;
      r := r + [Digit(g + Mod(q, d))];
      l := Over(q, d);
      p := p + BASE;
    }
    r := r + [Digit(l)];
  }

  /** The body of the inner loop: `o` is the count hoisted out of it, `v` the number of basic
      code points. */
  method VisitPoint(c: CodePoint, a: nat, n: nat, i: nat, f: nat, e: seq<nat>, v: nat, o: nat)
    returns (ok: bool, n': nat, i': nat, f': nat, e': seq<nat>)
    requires n <= MAX_INT && v < o <= f + 1
    requires f + 1 > o ==> n < o
    ensures Visit(c, State(a, n, i, f, e), v) == if ok then Some(State(a, n', i', f', e')) else None
    ensures ok ==> n' <= MAX_INT
  {
    hide EncodeInt, Adapt;
    ok, n', i', f', e' := true, n, i, f, e;
    if c < a {
      n' := n' + 1;
      if n' > MAX_INT {
        ok := false;
        return;
      }
    }
    if c == a {
      HoistedCount(n', o, f, v);
      e' := PutDelta(e', n', i');
      i' := AdaptBias(n', o, f' == v);
      n' := 0;
      f' := f' + 1;
    }
  }

  /** The inner loop: a round for the code point `a`. */
  method ScanRound(cs: seq<CodePoint>, a: nat, s: State, v: nat) returns (ok: bool, r: State)
    requires a < 0x110000 && s.n == a && s.h == |Handled(cs, a, 0)| && v <= s.h && s.delta <= MAX_INT
    ensures ok ==> r.n == a && r.delta <= MAX_INT && s.h <= r.h == |Less(cs, a + 1)|
    ensures Scan(cs, 0, s, v) == if ok then Rounds(cs, NextRound(r), v) else None
  {
    hide Rounds, Less, Visit, Scan, Handled, Passed;
    var n: nat, i: nat, f: nat, e: seq<nat> := s.delta, s.bias, s.h, s.out;
    var o := f + 1;
    r := s;
    HandledEnds(cs, a);
    var u := 0;
    while u < |cs|
      invariant 0 <= u <= |cs| && n <= MAX_INT && f == |Handled(cs, a, u)|
      invariant o == |Less(cs, a)| + 1 <= f + 1 && (f + 1 > o ==> n <= |Less(cs[..u], a)|)
      invariant Scan(cs, u, State(a, n, i, f, e), v) == Scan(cs, 0, s, v)
    {
      HandledStep(cs, a, u);
      PassedBelow(cs, a, u);
      VisitCounts(cs, u, State(a, n, i, f, e), v);
      ScanStep(cs, u, State(a, n, i, f, e), v);
      ok, n, i, f, e := VisitPoint(cs[u], a, n, i, f, e, v, o);
      if !ok {
        return;
      }
      u := u + 1;
    }
    ok, r := true, State(a, n, i, f, e);
    ScanEnd(cs, r, v);
  }

  lemma ScanStep(cs: seq<CodePoint>, u: nat, e: State, b: nat)
    requires u < |cs| && e.n < 0x110000 && e.h == |Handled(cs, e.n, u)|
    ensures var e' := Visit(cs[u], e, b);
            && (e'.Some? ==> e'.value.n < 0x110000 && e'.value.h == |Handled(cs, e'.value.n, u + 1)|)
            && Scan(cs, u, e, b) == if e'.None? then None else Scan(cs, u + 1, e'.value, b)
  {
    hide Rounds, Less, Handled, Passed;
    HandledStep(cs, e.n, u);
  }

  lemma ScanEnd(cs: seq<CodePoint>, e: State, b: nat)
    requires e.n < 0x110000 && e.h == |Handled(cs, e.n, |cs|)|
    ensures e.h == |Less(cs, e.n + 1)| && Scan(cs, |cs|, e, b) == Rounds(cs, NextRound(e), b)
  {
    hide Rounds, Less, Handled, Visit;
    HandledEnds(cs, e.n);
  }

  lemma {:induction false} VisitCounts(cs: seq<CodePoint>, u: nat, e: State, b: nat)
    requires u < |cs|
    ensures |Less(cs[..u + 1], e.n)| == |Less(cs[..u], e.n)| + (if cs[u] < e.n then 1 else 0)
    ensures var e' := Visit(cs[u], e, b);
            e'.Some? ==> && e'.value.n == e.n
                         && e'.value.h == e.h + (if cs[u] == e.n then 1 else 0)
                         && e'.value.delta == (if cs[u] == e.n then 0 else e.delta + (if cs[u] < e.n then 1 else 0))
  {
    LessAt(cs, u, e.n);
  }

  lemma {:induction false} RoundsStep(cs: seq<CodePoint>, e: State, b: nat)
    requires e.n <= 0x110000 && e.h == |Less(cs, e.n)| < |cs|
    ensures var m := Smallest(cs, e.n);
            var a := e.(n := m, delta := e.delta + Times(m - e.n, e.h + 1));
            && a.h == |Handled(cs, m, 0)|
            && Rounds(cs, e, b) == if a.delta > MAX_INT then None else Scan(cs, 0, a, b)
  {
    hide Scan, Less, Times;
    LessSame(cs, e.n, Smallest(cs, e.n));
    HandledEnds(cs, Smallest(cs, e.n));
  }

  lemma RoundsEnd(cs: seq<CodePoint>, e: State, b: nat)
    requires e.n <= 0x110000 && e.h == |Less(cs, e.n)| == |cs|
    ensures Rounds(cs, e, b) == Some(e.out)
  {
    hide Less;
  }

  /** The pending delta grows by k blocks of o positions, unless that overflows. */
  method RaiseDelta(n: nat, k: nat, o: nat) returns (fits: bool, n': nat)
    requires o > 0 && n <= MAX_INT + 1
    ensures fits <==> n + Times(k, o) <= MAX_INT
    ensures fits ==> n' == n + Times(k, o)
  {
    hide Times, Floor;
    OverflowGuard(n, k, o);
    if k > Floor(MAX_INT - n, o) {
      return false, n;
    }
    TimesIsProduct(k, o);
    return true, n + k * o;
  }

  /** `Ag`. */
  method EncodeLabel(s: seq<Unit>) returns (r: Option<seq<nat>>)
    ensures r == Encode(CodePoints(s))
  {
    hide Scan, Less, Times, Smallest, Over, Handled, CodePoints, Rounds, Floor;
    var cs := ReadCodePoints(s);
    var t := |cs|;
    var a: nat, n: nat, i: nat := INITIAL_N, 0, INITIAL_BIAS;
    var e: seq<nat> := PutBasic(cs);
    var v := |e|;
    var f := v;
    if v != 0 {
      e := e + [DELIMITER];
    }
    assert State(a, n, i, f, e) == Start(cs);
    while f < t
      invariant a <= 0x110000 && n <= MAX_INT + 1 && v <= f == |Less(cs, a)|
      invariant Rounds(cs, State(a, n, i, f, e), v) == Encode(cs)
      decreases 0x110000 - a
    {
      ghost var here := State(a, n, i, f, e);
      RoundsStep(cs, here, v);
      var h := SmallestAtLeast(cs, a);
      var o := f + 1;
      var fits;
      fits, n := RaiseDelta(n, h - a, o);
      if !fits {
        return None;
      }
      a := h;
      assert Scan(cs, 0, State(a, n, i, f, e), v) == Rounds(cs, here, v);
      var ok, after := ScanRound(cs, a, State(a, n, i, f, e), v);
      if !ok {
        return None;
      }
      n, i, f, e := after.delta + 1, after.bias, after.h, after.out;
      a := a + 1;
      assert State(a, n, i, f, e) == NextRound(after);
    }
    RoundsEnd(cs, State(a, n, i, f, e), v);
    return Some(e);
  }

  lemma {:induction false} PassedBelow(cs: seq<CodePoint>, a: nat, u: nat)
    requires u <= |cs|
    ensures |Less(cs[..u], a)| <= |Less(cs, a)|
  {
    assert cs == cs[..u] + cs[u..];
    LessOfConcat(cs[..u], cs[u..], a);
  }

  method PutBasic(cs: seq<CodePoint>) returns (e: seq<nat>)
    ensures e == Less(cs, INITIAL_N)
  {
    e := [];
    var u := 0;
    while u < |cs|
      invariant 0 <= u <= |cs| && e == Less(cs[..u], INITIAL_N)
    {
      var c := cs[u];
      LessAt(cs, u, INITIAL_N);
      if c < INITIAL_N {
        e := e + [c];
      }
      u := u + 1;
    }
    assert cs[..u] == cs;
  }

  /** A whole label: short strings are always encoded, and what is encoded can be read back,
      unpaired surrogates included. */
  lemma {:induction false} LabelSurvives(s: seq<Unit>)
    ensures |s| <= LONGEST ==> Encode(CodePoints(s)).Some?
    ensures Encode(CodePoints(s)).Some? ==>
              exists cs: seq<CodePoint> :: Decode(Encode(CodePoints(s)).value) == Some(cs) && Units(cs) == s
  {
    hide Encode, Decode, Units, CodePoints;
    RoundTrip(CodePoints(s));
    UnitsOfCodePoints(s);
  }
}
