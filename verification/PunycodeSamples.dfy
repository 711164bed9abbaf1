/** Labels of section 7.1 of RFC 3492 encoded step by step, and the parameters of section 5 by what they do: no
    statement here names a parameter of the encoder. */
module PunycodeSamples {
  import opened Wrappers
  import opened Punycode

  function Codes(s: string): (r: seq<nat>)
    ensures |r| == |s|
  {
    seq(|s|, i requires 0 <= i < |s| => s[i] as nat)
  }

  // ---------------------------------------------------------------- digits and bias, one step at a time

  lemma DigitStep(q: nat, k: nat, bias: nat, t: nat, d: nat, r: nat)
    requires Threshold(k, bias) == t && t <= q && t <= d < 36 && q == d + r * (36 - t)
    ensures EncodeInt(q, k, bias) == [Digit(d)] + EncodeInt(r, k + 36, bias)
  {
    TimesIsProduct(r, 36 - t);
    QuotientIs(q - t, 36 - t, r, d - t);
  }

  lemma LastDigit(q: nat, k: nat, bias: nat)
    requires q < Threshold(k, bias)
    ensures q < 36 && EncodeInt(q, k, bias) == [Digit(q)]
  {
  }

  lemma OverIs(a: nat, b: nat, q: nat)
    requires b > 0 && q * b <= a < q * b + b
    ensures Over(a, b) == q
  {
    TimesIsProduct(q, b);
    QuotientIs(a, b, q, a - q * b);
  }

  lemma ScaledIs(delta: nat, points: nat, first: bool, d: nat, q: nat)
    requires points > 0 && d == (if first then delta / 700 else delta / 2) && q * points <= d < q * points + points
    ensures Adapt(delta, points, first) == AdaptLoop(d + q, 0)
  {
    hide AdaptLoop;
    OverIs(d, points, q);
  }

  lemma AdaptStep(delta: nat, k: nat, q: nat)
    requires delta > 455 && q * 35 <= delta < q * 35 + 35
    ensures AdaptLoop(delta, k) == AdaptLoop(q, k + 36)
  {
    hide Over;
    OverIs(delta, 35, q);
  }

  lemma AdaptEnd(delta: nat, k: nat, q: nat)
    requires delta <= 455 && q * (delta + 38) <= 36 * delta < q * (delta + 38) + (delta + 38)
    ensures AdaptLoop(delta, k) == k + q
  {
    hide Over;
    OverIs(36 * delta, delta + 38, q);
  }

  /** The letters of section 5. */
  lemma Letters(d: nat)
    requires d < 36
    ensures Digit(d) == "abcdefghijklmnopqrstuvwxyz0123456789"[d] as nat
  {
  }

  /** What the decoder takes for digits: these, and the capital letters for the small ones. */
  lemma CapitalsToo(c: nat)
    ensures 65 <= c <= 90 ==> DigitValue(c) == DigitValue(c + 32)
    ensures DigitValue(c).Some? ==>
      var d := DigitValue(c).value; d < 36 && (Digit(d) == c || (65 <= c <= 90 && Digit(d) == c + 32))
  {
  }

  /** Values on both sides of where damp, skew and the division loop change the bias, and of both thresholds. */
  lemma Parameters()
    ensures Adapt(699, 1, true) == 0 && Adapt(700, 1, true) == 1
    ensures Adapt(74, 100, false) == 17 && Adapt(76, 100, false) == 18
    ensures Adapt(910, 1000, false) == 33 && Adapt(912, 1000, false) == 45
    ensures Threshold(36, 72) == 1 && Threshold(37, 36) == 1 && Threshold(38, 36) == 2
    ensures Threshold(61, 36) == 25 && Threshold(62, 36) == 26 && Threshold(98, 36) == 26
  {
    hide Adapt;
    Damp();
    Skew();
    Division();
  }

  lemma Damp()
    ensures Adapt(699, 1, true) == 0 && Adapt(700, 1, true) == 1
  {
    hide Adapt, AdaptLoop;
    ScaledIs(699, 1, true, 0, 0);
    AdaptEnd(0, 0, 0);
    ScaledIs(700, 1, true, 1, 1);
    AdaptEnd(2, 0, 1);
  }

  lemma Skew()
    ensures Adapt(74, 100, false) == 17 && Adapt(76, 100, false) == 18
  {
    hide Adapt, AdaptLoop;
    ScaledIs(74, 100, false, 37, 0);
    AdaptEnd(37, 0, 17);
    ScaledIs(76, 100, false, 38, 0);
    AdaptEnd(38, 0, 18);
  }

  lemma Division()
    ensures Adapt(910, 1000, false) == 33 && Adapt(912, 1000, false) == 45
  {
    hide Adapt, AdaptLoop;
    ScaledIs(910, 1000, false, 455, 0);
    AdaptEnd(455, 0, 33);
    ScaledIs(912, 1000, false, 456, 0);
    AdaptStep(456, 0, 13);
    AdaptEnd(13, 36, 9);
  }

  // ---------------------------------------------------------------- one round of the main loop

  /** The rest of the encoder, from a state it may be in. */
  function From(cs: seq<CodePoint>, e: State, b: nat): Option<seq<nat>> {
    if e.n <= 0x110000 && e.h == |Less(cs, e.n)| then Rounds(cs, e, b) else None
  }

  function ScanFrom(cs: seq<CodePoint>, u: nat, e: State, b: nat): Option<seq<nat>> {
    if u <= |cs| && e.n < 0x110000 && e.h == |Handled(cs, e.n, u)| then Scan(cs, u, e, b) else None
  }

  lemma ScanFromStep(cs: seq<CodePoint>, u: nat, e: State, b: nat)
    requires u < |cs| && e.n < 0x110000 && e.h == |Handled(cs, e.n, u)|
    ensures var e' := Visit(cs[u], e, b);
            ScanFrom(cs, u, e, b) == if e'.None? then None else ScanFrom(cs, u + 1, e'.value, b)
  {
    hide Handled, Visit, Scan, Less;
    ScanStep(cs, u, e, b);
  }

  /** Code points other than the one looked for only add to the delta. */
  lemma {:induction false} ScanSkips(cs: seq<CodePoint>, u: nat, v: nat, e: State, b: nat)
    requires u <= v <= |cs| && e.n < 0x110000 && e.h == |Handled(cs, e.n, u)| && e.delta + (v - u) <= 2147483647
    requires forall j :: u <= j < v ==> cs[j] != e.n
    ensures |Handled(cs, e.n, v)| == e.h
    ensures ScanFrom(cs, u, e, b) == ScanFrom(cs, v, e.(delta := e.delta + |Less(cs[u..v], e.n)|), b)
    decreases v - u
  {
    hide Handled, ScanFrom, Less;
    if u < v {
      ScanFromStep(cs, u, e, b);
      SkipOne(cs, u, v, e.n);
      var e' := Visit(cs[u], e, b).value;
      ScanSkips(cs, u + 1, v, e', b);
    } else {
      NoneLess(cs, u, e.n);
    }
  }

  lemma SkipOne(cs: seq<CodePoint>, u: nat, v: nat, m: nat)
    requires u < v <= |cs| && cs[u] != m
    ensures |Handled(cs, m, u + 1)| == |Handled(cs, m, u)|
    ensures |Less(cs[u..v], m)| == |Less(cs[u + 1..v], m)| + if cs[u] < m then 1 else 0
  {
    hide Handled;
    HandledStep(cs, m, u);
    assert cs[u..v][1..] == cs[u + 1..v];
  }

  lemma NoneLess(cs: seq<CodePoint>, u: nat, m: nat)
    requires u <= |cs|
    ensures |Less(cs[u..u], m)| == 0
  {
  }

  lemma {:induction false} LessGrows(cs: seq<CodePoint>, n: nat, m: nat, i: nat)
    requires n <= m && i < |cs| && n <= cs[i] < m
    ensures |Less(cs, n)| < |Less(cs, m)|
  {
    if i > 0 {
      LessGrows(cs[1..], n, m, i - 1);
    } else {
      LessKeeps(cs[1..], n, m);
    }
  }

  lemma {:induction false} LessKeeps(cs: seq<CodePoint>, n: nat, m: nat)
    requires n <= m
    ensures |Less(cs, n)| <= |Less(cs, m)|
  {
    if cs != [] {
      LessKeeps(cs[1..], n, m);
    }
  }

  lemma SmallestIs(cs: seq<CodePoint>, n: nat, at: nat)
    requires at < |cs| && n <= cs[at] && |Less(cs, n)| == |Less(cs, cs[at])| < |cs|
    ensures Smallest(cs, n) == cs[at]
  {
    hide Less;
    var m := Smallest(cs, n);
    if m < cs[at] {
      var i :| 0 <= i < |cs| && cs[i] == m;
      LessGrows(cs, n, cs[at], i);
    }
  }

  /** A code point that stands once in the label is put out with the delta gathered so far and in its round. */
  lemma Round(cs: seq<CodePoint>, e: State, b: nat, at: nat, gap: nat, before: nat, after: nat)
    requires Alone(cs, at) && e.n <= cs[at] && gap == Times(cs[at] - e.n, e.h + 1)
    requires e.h == |Less(cs, e.n)| == |Less(cs, cs[at])| < |cs|
    requires before == |Less(cs[..at], cs[at])| && after == |Less(cs[at + 1..], cs[at])|
    requires e.delta + gap + |cs| <= 2147483647
    ensures var m: nat, d := cs[at], e.delta + gap + before;
            var e' := State(m + 1, after + 1, Adapt(d, e.h + 1, e.h == b), e.h + 1, e.out + EncodeInt(d, 36, e.bias));
            From(cs, e, b) == From(cs, e', b)
  {
    hide Less, Adapt, EncodeInt, Handled, ScanFrom, Times, From;
    var m: nat := cs[at];
    var e0 := e.(n := m, delta := e.delta + gap);
    RoundStarts(cs, e, b, at, gap);
    ScanSkips(cs, 0, at, e0, b);
    assert cs[0..at] == cs[..at];
    var e1 := e0.(delta := e0.delta + before);
    ScanFromStep(cs, at, e1, b);
    HandledHere(cs, at);
    var e2 := Emit(e1, b);
    ScanSkips(cs, at + 1, |cs|, e2, b);
    assert cs[at + 1..|cs|] == cs[at + 1..];
    ScanFromEnd(cs, e2.(delta := after), b);
  }

  predicate Alone(cs: seq<CodePoint>, at: nat) {
    at < |cs| && forall j :: 0 <= j < |cs| && j != at ==> cs[j] != cs[at]
  }

  lemma HandledHere(cs: seq<CodePoint>, at: nat)
    requires at < |cs|
    ensures |Handled(cs, cs[at], at + 1)| == |Handled(cs, cs[at], at)| + 1
  {
    hide Handled, Passed;
    HandledStep(cs, cs[at], at);
  }

  lemma RoundStarts(cs: seq<CodePoint>, e: State, b: nat, at: nat, gap: nat)
    requires at < |cs| && e.n <= cs[at] && e.h == |Less(cs, e.n)| == |Less(cs, cs[at])| < |cs|
    requires gap == Times(cs[at] - e.n, e.h + 1) && e.delta + gap <= 2147483647
    ensures |Handled(cs, cs[at], 0)| == e.h
    ensures From(cs, e, b) == ScanFrom(cs, 0, e.(n := cs[at], delta := e.delta + gap), b)
  {
    hide Less, Handled, Scan, Times;
    SmallestIs(cs, e.n, at);
    HandledEnds(cs, cs[at]);
  }

  lemma ScanFromEnd(cs: seq<CodePoint>, e: State, b: nat)
    requires e.n < 0x110000 && e.h == |Handled(cs, e.n, |cs|)|
    ensures ScanFrom(cs, |cs|, e, b) == From(cs, e.(n := e.n + 1, delta := e.delta + 1), b)
  {
    hide Less, Handled, Scan, Rounds;
    ScanEnd(cs, e, b);
  }

  lemma AllHandled(cs: seq<CodePoint>, e: State, b: nat)
    requires e.n <= 0x110000 && e.h == |Less(cs, e.n)| == |cs|
    ensures From(cs, e, b) == Some(e.out)
  {
  }

  lemma Spelled(s: string)
    ensures forall i :: 0 <= i < |s| ==> Codes(s)[i] == s[i] as nat
  {
  }

  lemma Joined(a: string, b: string)
    ensures Codes(a + b) == Codes(a) + Codes(b)
  {
  }

  // ---------------------------------------------------------------- sample (L): 3B-ww4c5e180e575a65lsy2b

  const KINPACHI: seq<CodePoint> := [0x33, 0x5e74, 0x42, 0x7d44, 0x91d1, 0x516b, 0x5148, 0x751f]

  lemma Kinpachi1()
    ensures EncodeInt(62042, 36, 72) == Codes("ww4c") && Adapt(62042, 3, true) == 27
  {
    hide EncodeInt, Adapt, AdaptLoop, Over, Codes;
    DigitStep(62042, 36, 72, 1, 22, 1772);
    DigitStep(1772, 72, 72, 1, 22, 50);
    DigitStep(50, 108, 72, 26, 30, 2);
    LastDigit(2, 144, 72);
    ScaledIs(62042, 3, true, 88, 29);
    AdaptEnd(117, 0, 27);
    assert Codes("ww4c") == ['w' as nat, 'w' as nat, '4' as nat, 'c' as nat] by { Spelled("ww4c"); }
  }

  lemma Kinpachi2()
    ensures EncodeInt(139, 36, 27) == Codes("5e") && Adapt(139, 4, false) == 24
  {
    hide EncodeInt, Adapt, AdaptLoop, Over, Codes;
    DigitStep(139, 36, 27, 9, 31, 4);
    LastDigit(4, 72, 27);
    ScaledIs(139, 4, false, 69, 17);
    AdaptEnd(86, 0, 24);
    assert Codes("5e") == ['5' as nat, 'e' as nat] by { Spelled("5e"); }
  }

  lemma Kinpachi3()
    ensures EncodeInt(16683, 36, 24) == Codes("180e") && Adapt(16683, 5, false) == 67
  {
    hide EncodeInt, Adapt, AdaptLoop, Over, Codes;
    DigitStep(16683, 36, 24, 12, 27, 694);
    DigitStep(694, 72, 24, 26, 34, 66);
    DigitStep(66, 108, 24, 26, 26, 4);
    LastDigit(4, 144, 24);
    ScaledIs(16683, 5, false, 8341, 1668);
    AdaptStep(10009, 0, 285);
    AdaptEnd(285, 36, 31);
    assert Codes("180e") == ['1' as nat, '8' as nat, '0' as nat, 'e' as nat] by { Spelled("180e"); }
  }

  lemma Kinpachi4()
    ensures EncodeInt(34821, 36, 67) == Codes("575a") && Adapt(34821, 6, false) == 82
  {
    hide EncodeInt, Adapt, AdaptLoop, Over, Codes;
    DigitStep(34821, 36, 67, 1, 31, 994);
    DigitStep(994, 72, 67, 5, 33, 31);
    DigitStep(31, 108, 67, 26, 31, 0);
    LastDigit(0, 144, 67);
    ScaledIs(34821, 6, false, 17410, 2901);
    AdaptStep(20311, 0, 580);
    AdaptStep(580, 36, 16);
    AdaptEnd(16, 72, 10);
    assert Codes("575a") == ['5' as nat, '7' as nat, '5' as nat, 'a' as nat] by { Spelled("575a"); }
  }

  lemma Kinpachi5()
    ensures EncodeInt(14592, 36, 82) == Codes("65l") && Adapt(14592, 7, false) == 67
  {
    hide EncodeInt, Adapt, AdaptLoop, Over, Codes;
    DigitStep(14592, 36, 82, 1, 32, 416);
    DigitStep(416, 72, 82, 1, 31, 11);
    LastDigit(11, 108, 82);
    ScaledIs(14592, 7, false, 7296, 1042);
    AdaptStep(8338, 0, 238);
    AdaptEnd(238, 36, 31);
    assert Codes("65l") == ['6' as nat, '5' as nat, 'l' as nat] by { Spelled("65l"); }
  }

  lemma Kinpachi6()
    ensures EncodeInt(42088, 36, 67) == Codes("sy2b") && Adapt(42088, 8, false) == 84
  {
    hide EncodeInt, Adapt, AdaptLoop, Over, Codes;
    DigitStep(42088, 36, 67, 1, 18, 1202);
    DigitStep(1202, 72, 67, 5, 24, 38);
    DigitStep(38, 108, 67, 26, 28, 1);
    LastDigit(1, 144, 67);
    ScaledIs(42088, 8, false, 21044, 2630);
    AdaptStep(23674, 0, 676);
    AdaptStep(676, 36, 19);
    AdaptEnd(19, 72, 12);
    assert Codes("sy2b") == ['s' as nat, 'y' as nat, '2' as nat, 'b' as nat] by { Spelled("sy2b"); }
  }

  lemma KinpachiStart()
    ensures Start(KINPACHI) == State(128, 0, 72, 2, Codes("3B-")) && |Less(KINPACHI, 128)| == 2
  {
    assert Less([0x33, 0x5e74, 0x42, 0x7d44, 0x91d1, 0x516b, 0x5148, 0x751f], 128) == [0x33, 0x42];
    assert Codes("3B-") == [0x33, 0x42, 0x2d];
  }

  lemma KinpachiDistinct()
    ensures forall i :: 0 <= i < |KINPACHI| ==> Alone(KINPACHI, i)
  {
  }

  lemma KinpachiLess1()
    ensures |Less(KINPACHI, 128)| == |Less(KINPACHI, 0x5148)| == 2
  {
    assert |Less([0x33, 0x5e74, 0x42, 0x7d44, 0x91d1, 0x516b, 0x5148, 0x751f], 128)| == 2;
    assert |Less([0x33, 0x5e74, 0x42, 0x7d44, 0x91d1, 0x516b, 0x5148, 0x751f], 0x5148)| == 2;
  }

  lemma KinpachiSides1()
    ensures |Less(KINPACHI[..6], 0x5148)| == 2 && |Less(KINPACHI[7..], 0x5148)| == 0
  {
    assert KINPACHI[..6] == [0x33, 0x5e74, 0x42, 0x7d44, 0x91d1, 0x516b] && KINPACHI[7..] == [0x751f];
    assert |Less([0x33, 0x5e74, 0x42, 0x7d44, 0x91d1, 0x516b], 0x5148)| == 2 && |Less([0x751f], 0x5148)| == 0;
  }

  lemma KinpachiRound1()
    ensures var e := State(128, 0, 72, 2, Codes("3B-"));
            var e' := State(0x5149, 1, 27, 3, Codes("3B-ww4c"));
            From(KINPACHI, e, 2) == From(KINPACHI, e', 2)
  {
    hide From, EncodeInt, Adapt, Codes, Less, Times, Alone;
    KinpachiDistinct();
    KinpachiLess1();
    KinpachiSides1();
    TimesIsProduct(20680, 3);
    Round(KINPACHI, State(128, 0, 72, 2, Codes("3B-")), 2, 6, 62040, 2, 0);
    Kinpachi1();
    assert "3B-" + "ww4c" == "3B-ww4c";
    Joined("3B-", "ww4c");
  }

  lemma KinpachiLess2()
    ensures |Less(KINPACHI, 0x5149)| == |Less(KINPACHI, 0x516b)| == 3
  {
    assert |Less([0x33, 0x5e74, 0x42, 0x7d44, 0x91d1, 0x516b, 0x5148, 0x751f], 0x5149)| == 3;
    assert |Less([0x33, 0x5e74, 0x42, 0x7d44, 0x91d1, 0x516b, 0x5148, 0x751f], 0x516b)| == 3;
  }

  lemma KinpachiSides2()
    ensures |Less(KINPACHI[..5], 0x516b)| == 2 && |Less(KINPACHI[6..], 0x516b)| == 1
  {
    assert KINPACHI[..5] == [0x33, 0x5e74, 0x42, 0x7d44, 0x91d1] && KINPACHI[6..] == [0x5148, 0x751f];
    assert |Less([0x33, 0x5e74, 0x42, 0x7d44, 0x91d1], 0x516b)| == 2 && |Less([0x5148, 0x751f], 0x516b)| == 1;
  }

  lemma KinpachiRound2()
    ensures var e := State(0x5149, 1, 27, 3, Codes("3B-ww4c"));
            var e' := State(0x516c, 2, 24, 4, Codes("3B-ww4c5e"));
            From(KINPACHI, e, 2) == From(KINPACHI, e', 2)
  {
    hide From, EncodeInt, Adapt, Codes, Less, Times, Alone;
    KinpachiDistinct();
    KinpachiLess2();
    KinpachiSides2();
    TimesIsProduct(34, 4);
    Round(KINPACHI, State(0x5149, 1, 27, 3, Codes("3B-ww4c")), 2, 5, 136, 2, 1);
    Kinpachi2();
    assert "3B-ww4c" + "5e" == "3B-ww4c5e";
    Joined("3B-ww4c", "5e");
  }

  lemma KinpachiLess3()
    ensures |Less(KINPACHI, 0x516c)| == |Less(KINPACHI, 0x5e74)| == 4
  {
    assert |Less([0x33, 0x5e74, 0x42, 0x7d44, 0x91d1, 0x516b, 0x5148, 0x751f], 0x516c)| == 4;
    assert |Less([0x33, 0x5e74, 0x42, 0x7d44, 0x91d1, 0x516b, 0x5148, 0x751f], 0x5e74)| == 4;
  }

  lemma KinpachiSides3()
    ensures |Less(KINPACHI[..1], 0x5e74)| == 1 && |Less(KINPACHI[2..], 0x5e74)| == 3
  {
    assert KINPACHI[..1] == [0x33] && KINPACHI[2..] == [0x42, 0x7d44, 0x91d1, 0x516b, 0x5148, 0x751f];
    assert |Less([0x33], 0x5e74)| == 1 && |Less([0x42, 0x7d44, 0x91d1, 0x516b, 0x5148, 0x751f], 0x5e74)| == 3;
  }

  lemma KinpachiRound3()
    ensures var e := State(0x516c, 2, 24, 4, Codes("3B-ww4c5e"));
            var e' := State(0x5e75, 4, 67, 5, Codes("3B-ww4c5e180e"));
            From(KINPACHI, e, 2) == From(KINPACHI, e', 2)
  {
    hide From, EncodeInt, Adapt, Codes, Less, Times, Alone;
    KinpachiDistinct();
    KinpachiLess3();
    KinpachiSides3();
    TimesIsProduct(3336, 5);
    Round(KINPACHI, State(0x516c, 2, 24, 4, Codes("3B-ww4c5e")), 2, 1, 16680, 1, 3);
    Kinpachi3();
    assert "3B-ww4c5e" + "180e" == "3B-ww4c5e180e";
    Joined("3B-ww4c5e", "180e");
  }

  lemma KinpachiLess4()
    ensures |Less(KINPACHI, 0x5e75)| == |Less(KINPACHI, 0x751f)| == 5
  {
    assert |Less([0x33, 0x5e74, 0x42, 0x7d44, 0x91d1, 0x516b, 0x5148, 0x751f], 0x5e75)| == 5;
    assert |Less([0x33, 0x5e74, 0x42, 0x7d44, 0x91d1, 0x516b, 0x5148, 0x751f], 0x751f)| == 5;
  }

  lemma KinpachiSides4()
    ensures |Less(KINPACHI[..7], 0x751f)| == 5 && |Less(KINPACHI[8..], 0x751f)| == 0
  {
    assert KINPACHI[..7] == [0x33, 0x5e74, 0x42, 0x7d44, 0x91d1, 0x516b, 0x5148] && KINPACHI[8..] == [];
    assert |Less([0x33, 0x5e74, 0x42, 0x7d44, 0x91d1, 0x516b, 0x5148], 0x751f)| == 5 && |Less([], 0x751f)| == 0;
  }

  lemma KinpachiRound4()
    ensures var e := State(0x5e75, 4, 67, 5, Codes("3B-ww4c5e180e"));
            var e' := State(0x7520, 1, 82, 6, Codes("3B-ww4c5e180e575a"));
            From(KINPACHI, e, 2) == From(KINPACHI, e', 2)
  {
    hide From, EncodeInt, Adapt, Codes, Less, Times, Alone;
    KinpachiDistinct();
    KinpachiLess4();
    KinpachiSides4();
    TimesIsProduct(5802, 6);
    Round(KINPACHI, State(0x5e75, 4, 67, 5, Codes("3B-ww4c5e180e")), 2, 7, 34812, 5, 0);
    Kinpachi4();
    assert "3B-ww4c5e180e" + "575a" == "3B-ww4c5e180e575a";
    Joined("3B-ww4c5e180e", "575a");
  }

  lemma KinpachiLess5()
    ensures |Less(KINPACHI, 0x7520)| == |Less(KINPACHI, 0x7d44)| == 6
  {
    assert |Less([0x33, 0x5e74, 0x42, 0x7d44, 0x91d1, 0x516b, 0x5148, 0x751f], 0x7520)| == 6;
    assert |Less([0x33, 0x5e74, 0x42, 0x7d44, 0x91d1, 0x516b, 0x5148, 0x751f], 0x7d44)| == 6;
  }

  lemma KinpachiSides5()
    ensures |Less(KINPACHI[..3], 0x7d44)| == 3 && |Less(KINPACHI[4..], 0x7d44)| == 3
  {
    assert KINPACHI[..3] == [0x33, 0x5e74, 0x42] && KINPACHI[4..] == [0x91d1, 0x516b, 0x5148, 0x751f];
    assert |Less([0x33, 0x5e74, 0x42], 0x7d44)| == 3 && |Less([0x91d1, 0x516b, 0x5148, 0x751f], 0x7d44)| == 3;
  }

  lemma KinpachiRound5()
    ensures var e := State(0x7520, 1, 82, 6, Codes("3B-ww4c5e180e575a"));
            var e' := State(0x7d45, 4, 67, 7, Codes("3B-ww4c5e180e575a65l"));
            From(KINPACHI, e, 2) == From(KINPACHI, e', 2)
  {
    hide From, EncodeInt, Adapt, Codes, Less, Times, Alone;
    KinpachiDistinct();
    KinpachiLess5();
    KinpachiSides5();
    TimesIsProduct(2084, 7);
    Round(KINPACHI, State(0x7520, 1, 82, 6, Codes("3B-ww4c5e180e575a")), 2, 3, 14588, 3, 3);
    Kinpachi5();
    assert "3B-ww4c5e180e575a" + "65l" == "3B-ww4c5e180e575a65l";
    Joined("3B-ww4c5e180e575a", "65l");
  }

  lemma KinpachiLess6()
    ensures |Less(KINPACHI, 0x7d45)| == |Less(KINPACHI, 0x91d1)| == 7
  {
    assert |Less([0x33, 0x5e74, 0x42, 0x7d44, 0x91d1, 0x516b, 0x5148, 0x751f], 0x7d45)| == 7;
    assert |Less([0x33, 0x5e74, 0x42, 0x7d44, 0x91d1, 0x516b, 0x5148, 0x751f], 0x91d1)| == 7;
  }

  lemma KinpachiSides6()
    ensures |Less(KINPACHI[..4], 0x91d1)| == 4 && |Less(KINPACHI[5..], 0x91d1)| == 3
  {
    assert KINPACHI[..4] == [0x33, 0x5e74, 0x42, 0x7d44] && KINPACHI[5..] == [0x516b, 0x5148, 0x751f];
    assert |Less([0x33, 0x5e74, 0x42, 0x7d44], 0x91d1)| == 4 && |Less([0x516b, 0x5148, 0x751f], 0x91d1)| == 3;
  }

  lemma KinpachiRound6()
    ensures var e := State(0x7d45, 4, 67, 7, Codes("3B-ww4c5e180e575a65l"));
            var e' := State(0x91d2, 4, 84, 8, Codes("3B-ww4c5e180e575a65lsy2b"));
            From(KINPACHI, e, 2) == From(KINPACHI, e', 2)
  {
    hide From, EncodeInt, Adapt, Codes, Less, Times, Alone;
    KinpachiDistinct();
    KinpachiLess6();
    KinpachiSides6();
    TimesIsProduct(5260, 8);
    Round(KINPACHI, State(0x7d45, 4, 67, 7, Codes("3B-ww4c5e180e575a65l")), 2, 4, 42080, 4, 3);
    Kinpachi6();
    assert "3B-ww4c5e180e575a65l" + "sy2b" == "3B-ww4c5e180e575a65lsy2b";
    Joined("3B-ww4c5e180e575a65l", "sy2b");
  }

  lemma KinpachiEncoded()
    ensures Encode(KINPACHI) == Some(Codes("3B-ww4c5e180e575a65lsy2b"))
  {
    hide Codes, Rounds, EncodeInt, Adapt, Less;
    KinpachiStart();
    KinpachiRound1();
    KinpachiRound2();
    KinpachiRound3();
    KinpachiRound4();
    KinpachiRound5();
    KinpachiRound6();
    KinpachiEnd();
    AllHandled(KINPACHI, State(0x91d2, 4, 84, 8, Codes("3B-ww4c5e180e575a65lsy2b")), 2);
  }

  lemma KinpachiEnd()
    ensures |Less(KINPACHI, 0x91d2)| == 8 == |KINPACHI|
  {
    assert |Less([0x33, 0x5e74, 0x42, 0x7d44, 0x91d1, 0x516b, 0x5148, 0x751f], 0x91d2)| == 8;
  }
  // ---------------------------------------------------------------- bcher-kva

  const BUECHER: seq<CodePoint> := [0x62, 0xfc, 0x63, 0x68, 0x65, 0x72]

  lemma Buecher1()
    ensures EncodeInt(745, 36, 72) == Codes("kva") && Adapt(745, 6, true) == 0
  {
    hide EncodeInt, Adapt, AdaptLoop, Over, Codes;
    DigitStep(745, 36, 72, 1, 10, 21);
    DigitStep(21, 72, 72, 1, 21, 0);
    LastDigit(0, 108, 72);
    ScaledIs(745, 6, true, 1, 0);
    AdaptEnd(1, 0, 0);
    assert Codes("kva") == ['k' as nat, 'v' as nat, 'a' as nat] by { Spelled("kva"); }
  }

  lemma BuecherStart()
    ensures Start(BUECHER) == State(128, 0, 72, 5, Codes("bcher-")) && |Less(BUECHER, 128)| == 5
  {
    assert Less([0x62, 0xfc, 0x63, 0x68, 0x65, 0x72], 128) == [0x62, 0x63, 0x68, 0x65, 0x72];
    assert Codes("bcher-") == [0x62, 0x63, 0x68, 0x65, 0x72, 0x2d];
  }

  lemma BuecherDistinct()
    ensures forall i :: 0 <= i < |BUECHER| ==> Alone(BUECHER, i)
  {
  }

  lemma BuecherLess1()
    ensures |Less(BUECHER, 128)| == |Less(BUECHER, 0xfc)| == 5
  {
    assert |Less([0x62, 0xfc, 0x63, 0x68, 0x65, 0x72], 128)| == 5;
    assert |Less([0x62, 0xfc, 0x63, 0x68, 0x65, 0x72], 0xfc)| == 5;
  }

  lemma BuecherSides1()
    ensures |Less(BUECHER[..1], 0xfc)| == 1 && |Less(BUECHER[2..], 0xfc)| == 4
  {
    assert BUECHER[..1] == [0x62] && BUECHER[2..] == [0x63, 0x68, 0x65, 0x72];
    assert |Less([0x62], 0xfc)| == 1 && |Less([0x63, 0x68, 0x65, 0x72], 0xfc)| == 4;
  }

  lemma BuecherRound1()
    ensures var e := State(128, 0, 72, 5, Codes("bcher-"));
            var e' := State(0xfd, 5, 0, 6, Codes("bcher-kva"));
            From(BUECHER, e, 5) == From(BUECHER, e', 5)
  {
    hide From, EncodeInt, Adapt, Codes, Less, Times, Alone;
    BuecherDistinct();
    BuecherLess1();
    BuecherSides1();
    TimesIsProduct(124, 6);
    Round(BUECHER, State(128, 0, 72, 5, Codes("bcher-")), 5, 1, 744, 1, 4);
    Buecher1();
    assert "bcher-" + "kva" == "bcher-kva";
    Joined("bcher-", "kva");
  }

  lemma BuecherEncoded()
    ensures Encode(BUECHER) == Some(Codes("bcher-kva"))
  {
    hide Codes, Rounds, EncodeInt, Adapt, Less;
    BuecherStart();
    BuecherRound1();
    BuecherEnd();
    AllHandled(BUECHER, State(0xfd, 5, 0, 6, Codes("bcher-kva")), 5);
  }

  lemma BuecherEnd()
    ensures |Less(BUECHER, 0xfd)| == 6 == |BUECHER|
  {
    assert |Less([0x62, 0xfc, 0x63, 0x68, 0x65, 0x72], 0xfd)| == 6;
  }
}
