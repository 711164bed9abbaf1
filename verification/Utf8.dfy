/** The UTF-8 encoder and decoder of the text encoding polyfill
    (src/js/text-encoding-polyfill.js:12, `F` and `h`), on code units and bytes as the
    bit vectors they are. */
module Utf8 {
  import opened Wrappers

  type Unit = bv16
  type Byte = bv8

  // ---------------------------------------------------------------- what is encoded

  predicate High(u: Unit) { 0xD800 <= u <= 0xDBFF }

  predicate Low(u: Unit) { 0xDC00 <= u <= 0xDFFF }

  predicate PairAt(s: seq<Unit>, k: nat) { k + 1 < |s| && High(s[k]) && Low(s[k + 1]) }

  /** The code point of a surrogate pair (section 2.1 of RFC 2781). */
  function PairValue(hi: Unit, lo: Unit): (c: bv32)
    requires High(hi) && Low(lo)
    ensures 0x10000 <= c < 0x110000
  {
    0x10000 + (hi as bv32 - 0xD800) * 0x400 + (lo as bv32 - 0xDC00)
  }

  /** A lead byte, and a continuation byte carrying six bits. */
  function Lead2(c: bv32): Byte
    requires c < 0x800
  {
    (0xC0 + c / 0x40) as bv8
  }

  function Lead3(c: bv32): Byte
    requires c < 0x10000
  {
    (0xE0 + c / 0x1000) as bv8
  }

  function Lead4(c: bv32): Byte
    requires c < 0x110000
  {
    (0xF0 + c / 0x40000) as bv8
  }

  function Tail(c: bv32): Byte { (0x80 + c % 0x40) as bv8 }

  /** The octets of one code point: the table of section 3 of RFC 3629. */
  function Octets(c: bv32): (r: seq<Byte>)
    requires c < 0x110000
    ensures 1 <= |r| <= 4
    ensures c < 0x10000 ==> |r| <= 3
  {
    if c < 0x80 then [c as bv8]
    else if c < 0x800 then [Lead2(c), Tail(c)]
    else if c < 0x10000 then [Lead3(c), Tail(c / 0x40), Tail(c)]
    else [Lead4(c), Tail(c / 0x1000), Tail(c / 0x40), Tail(c)]
  }

  /** The bytes of a string; an unpaired high surrogate has none. */
  function Encoded(s: seq<Unit>): (r: seq<Byte>)
    ensures |r| <= 3 * |s|
  {
    if s == [] then []
    else if PairAt(s, 0) then Octets(PairValue(s[0], s[1])) + Encoded(s[2..])
    else if High(s[0]) then Encoded(s[1..])
    else Octets(s[0] as bv32) + Encoded(s[1..])
  }

  /** The string without its unpaired high surrogates. */
  function Scrubbed(s: seq<Unit>): (r: seq<Unit>)
    ensures |r| <= |s|
  {
    if s == [] then []
    else if PairAt(s, 0) then s[..2] + Scrubbed(s[2..])
    else if High(s[0]) then Scrubbed(s[1..])
    else [s[0]] + Scrubbed(s[1..])
  }

  // ---------------------------------------------------------------- what is decoded

  /** A byte past the end reads as zero, like `undefined` in a bit operation. */
  function At(b: seq<Byte>, k: nat): (v: bv32)
    ensures v < 0x100
  {
    if k < |b| then b[k] as bv32 else 0
  }

  function Drop(b: seq<Byte>, k: nat): seq<Byte> {
    if k <= |b| then b[k..] else []
  }

  /** How many bytes a lead byte takes, itself included. */
  function Width(a: Byte): (w: nat)
    ensures 1 <= w <= 4
  {
    if 0xC0 <= a < 0xE0 then 2 else if 0xE0 <= a < 0xF0 then 3 else if 0xF0 <= a < 0xF8 then 4 else 1
  }

  /** The surrogates of a code point beyond the first plane (section 2.1 of RFC 2781). */
  function HighOf(c: bv32): (u: bv32)
    ensures 0xD800 <= u < 0xDC00
  {
    0xD800 + (c - 0x10000) / 0x400 % 0x400
  }

  function LowOf(c: bv32): (u: bv32)
    ensures 0xDC00 <= u < 0xE000
  {
    0xDC00 + (c - 0x10000) % 0x400
  }

  /** The units of a code point. */
  function UnitsOf(c: bv32): (r: seq<Unit>)
    ensures 1 <= |r| <= 2
  {
    if c < 0x10000 then [c as bv16] else [HighOf(c) as bv16, LowOf(c) as bv16]
  }

  function Join2(a: Byte, x: bv32): (c: bv32)
    ensures c < 0x10000
  { (a as bv32) % 0x20 * 0x40 + x % 0x40 }

  function Join3(a: Byte, x: bv32, y: bv32): (c: bv32)
    ensures c < 0x10000
  {
    (a as bv32) % 0x10 * 0x1000 + x % 0x40 * 0x40 + y % 0x40
  }

  function Join4(a: Byte, x: bv32, y: bv32, z: bv32): (c: bv32)
    ensures c < 0x200000
  {
    (a as bv32) % 8 * 0x40000 + x % 0x40 * 0x1000 + y % 0x40 * 0x40 + z % 0x40
  }

  /** The units the first sequence of `b` stands for: none for a stray continuation byte or
      for a byte that cannot lead. */
  function First(b: seq<Byte>): (r: seq<Unit>)
    requires b != []
    ensures |r| <= 2
  {
    if b[0] < 0x80 then [b[0] as bv16]
    else if Width(b[0]) == 2 then UnitsOf(Join2(b[0], At(b, 1)))
    else if Width(b[0]) == 3 then UnitsOf(Join3(b[0], At(b, 1), At(b, 2)))
    else if Width(b[0]) == 4 then UnitsOf(Join4(b[0], At(b, 1), At(b, 2), At(b, 3)))
    else []
  }

  function Decoded(b: seq<Byte>): (r: seq<Unit>)
    decreases |b|
  {
    if b == [] then [] else First(b) + Decoded(Drop(b, Width(b[0])))
  }

  function Zeros(n: nat): seq<Byte> { seq(n, _ => 0) }

  /** What the first sequence stands for depends on its bytes alone. */
  lemma FirstSame(b: seq<Byte>, c: seq<Byte>)
    requires b != [] && c != [] && b[0] == c[0]
    requires At(b, 1) == At(c, 1) && At(b, 2) == At(c, 2) && At(b, 3) == At(c, 3)
    ensures First(b) == First(c)
  {
    hide Width, Join2, Join3, Join4, UnitsOf, At;
  }

  /** A sequence cut short by the end reads as if zero bytes completed it. */
  lemma CutShort(b: seq<Byte>)
    requires b != [] && |b| < Width(b[0])
    ensures Decoded(b) == Decoded(b + Zeros(Width(b[0]) - |b|))
  {
    hide Width, First;
    var all := b + Zeros(Width(b[0]) - |b|);
    assert forall k: nat :: At(all, k) == At(b, k);
    FirstSame(b, all);
    assert Drop(b, Width(b[0])) == [] && Drop(all, Width(all[0])) == [];
  }

  // ---------------------------------------------------------------- round trip

  lemma Octets2(c: bv32)
    requires 0x80 <= c < 0x800
    ensures 0xC0 <= Lead2(c) < 0xE0 && Join2(Lead2(c), Tail(c) as bv32) == c
  {
  }

  lemma Octets3(c: bv32)
    requires 0x800 <= c < 0x10000
    ensures 0xE0 <= Lead3(c) < 0xF0 && Join3(Lead3(c), Tail(c / 0x40) as bv32, Tail(c) as bv32) == c
  {
  }

  lemma Octets4(c: bv32)
    requires 0x10000 <= c < 0x110000
    ensures 0xF0 <= Lead4(c) < 0xF8
    ensures Join4(Lead4(c), Tail(c / 0x1000) as bv32, Tail(c / 0x40) as bv32, Tail(c) as bv32) == c
  {
  }

  /** The lead byte tells how many octets there are. */
  lemma OctetsWidth(c: bv32)
    requires c < 0x110000
    ensures Width(Octets(c)[0]) == |Octets(c)|
  {
    hide Lead2, Lead3, Lead4, Tail, Join2, Join3, Join4;
    if c < 0x80 {
      Ascii(c);
    } else if c < 0x800 {
      Octets2(c);
    } else if c < 0x10000 {
      Octets3(c);
    } else {
      Octets4(c);
    }
  }

  /** A sequence is read from its own octets only. */
  lemma OctetsAt(o: seq<Byte>, rest: seq<Byte>)
    requires o != []
    ensures var b := o + rest;
            && b[0] == o[0] && Drop(b, |o|) == rest
            && (forall k: nat :: k < |o| ==> At(b, k) == o[k] as bv32)
  {
    var b := o + rest;
    assert b[|o|..] == rest;
  }

  /** Decoding undoes the table, whatever follows. */
  lemma {:induction false} FirstOfOctets(c: bv32, rest: seq<Byte>)
    requires c < 0x110000
    ensures var b := Octets(c) + rest;
            Width(b[0]) == |Octets(c)| && First(b) == UnitsOf(c) && Drop(b, Width(b[0])) == rest
  {
    hide UnitsOf, Lead2, Lead3, Lead4, Tail, Join2, Join3, Join4, Width, At, Drop;
    OctetsAt(Octets(c), rest);
    OctetsWidth(c);
    if c < 0x80 {
      Ascii(c);
    } else if c < 0x800 {
      Octets2(c);
    } else if c < 0x10000 {
      Octets3(c);
    } else {
      Octets4(c);
    }
  }

  lemma Ascii(c: bv32)
    requires c < 0x80
    ensures UnitsOf(c) == [c as bv16] && (c as bv8) as bv16 == c as bv16 && c as bv8 as bv32 == c
    ensures c as bv8 < 0x80
  {
  }

  lemma {:induction false} UnitsOfPair(hi: Unit, lo: Unit)
    requires High(hi) && Low(lo)
    ensures UnitsOf(PairValue(hi, lo)) == [hi, lo]
  {
  }

  /** Decoding an encoded string gives it back without its unpaired high surrogates. */
  lemma {:induction false} RoundTrip(s: seq<Unit>)
    ensures Decoded(Encoded(s)) == Scrubbed(s)
  {
    if s == [] {
    } else if PairAt(s, 0) {
      RoundTrip(s[2..]);
      FirstOfOctets(PairValue(s[0], s[1]), Encoded(s[2..]));
      UnitsOfPair(s[0], s[1]);
      assert s[..2] == [s[0], s[1]];
    } else {
      RoundTrip(s[1..]);
      if !High(s[0]) {
        FirstOfOctets(s[0] as bv32, Encoded(s[1..]));
      }
    }
  }

  /** Index `k` holds a high surrogate with no low one after it. */
  predicate Unpaired(s: seq<Unit>, k: nat) { k < |s| && High(s[k]) && !PairAt(s, k) }

  /** Exactly the strings without an unpaired high surrogate survive. */
  lemma {:induction false} SurvivesIff(s: seq<Unit>)
    ensures Decoded(Encoded(s)) == s <==> !exists k: nat :: Unpaired(s, k)
  {
    RoundTrip(s);
    ScrubbedIff(s);
  }

  ghost predicate Broken(s: seq<Unit>) { exists k: nat :: Unpaired(s, k) }

  /** Where the first w units are whole, the string is broken exactly if the rest of it is. */
  lemma BrokenLater(s: seq<Unit>, w: nat)
    requires 1 <= w <= 2 && w <= |s| && (w == 2 <==> PairAt(s, 0)) && !Unpaired(s, 0)
    ensures Broken(s) <==> Broken(s[w..])
  {
    var rest := s[w..];
    if k: nat :| Unpaired(rest, k) {
      assert Unpaired(s, k + w);
    }
    if k: nat :| Unpaired(s, k) {
      assert k >= w && Unpaired(rest, k - w);
    }
  }

  lemma ScrubbedStep(s: seq<Unit>)
    requires s != []
    ensures var w := if PairAt(s, 0) then 2 else 1;
            Scrubbed(s) == (if Unpaired(s, 0) then [] else s[..w]) + Scrubbed(s[w..])
  {
  }

  lemma {:induction false} ScrubbedIff(s: seq<Unit>)
    ensures Scrubbed(s) == s <==> !Broken(s)
    ensures Broken(s) ==> |Scrubbed(s)| < |s|
  {
    hide Scrubbed, High, Low;
    if s == [] {
      NothingBroken();
    } else {
      var w := if PairAt(s, 0) then 2 else 1;
      ScrubbedIff(s[w..]);
      ScrubbedStep(s);
      if Unpaired(s, 0) {
        assert Broken(s);
      } else {
        BrokenLater(s, w);
        assert s == s[..w] + s[w..];
      }
    }
  }

  lemma NothingBroken()
    ensures Scrubbed([]) == [] && !Broken([])
  {
  }

  // ---------------------------------------------------------------- the decoder's loop

  lemma LeadBits(a: Byte)
    ensures a & 128 == 0 <==> a < 0x80
    ensures Width(a) == if a & 224 == 192 then 2 else if a & 240 == 224 then 3 else if a & 248 == 240 then 4 else 1
    ensures a & 128 == 0 ==> Width(a) == 1
  {
  }

  /** The source's expressions for two, three and four bytes. */
  function Bits2(a: Byte, d: bv32): bv32 {
    ((a as bv32 & 31) << 6) | (d & 63)
  }

  function Bits3(a: Byte, d: bv32, l: bv32): bv32 {
    ((a as bv32 & 31) << 12) | ((d & 63) << 6) | (l & 63)
  }

  function Bits4(a: Byte, d: bv32, l: bv32, r: bv32): bv32 {
    ((a as bv32 & 7) << 18) | ((d & 63) << 12) | ((l & 63) << 6) | (r & 63)
  }

  lemma JoinBits2(a: Byte, d: bv32)
    ensures Bits2(a, d) == Join2(a, d)
  {
  }

  lemma JoinBits3(a: Byte, d: bv32, l: bv32)
    requires a & 240 == 224
    ensures Bits3(a, d, l) == Join3(a, d, l)
  {
  }

  lemma JoinBits4(a: Byte, d: bv32, l: bv32, r: bv32)
    ensures Bits4(a, d, l, r) == Join4(a, d, l, r)
  {
  }

  /** Storing into a 16-bit array keeps the low half. */
  function Low16(c: bv32): Unit { (c & 0xFFFF) as bv16 }

  function HighHalf(c: bv32): bv32 { (((c - 65536) >> 10) & 1023) | 55296 }

  function LowHalf(c: bv32): bv32 { 56320 | ((c - 65536) & 1023) }

  lemma HalfBits(c: bv32)
    ensures HighHalf(c) == HighOf(c) && LowHalf(c) == LowOf(c)
  {
  }

  lemma Low16Is(c: bv32)
    requires c < 0x10000
    ensures Low16(c) == c as bv16
  {
  }

  lemma PairBits(c: bv32)
    ensures UnitsOf(c) == if c > 65535 then [Low16(HighHalf(c)), Low16(LowHalf(c))] else [Low16(c)]
  {
    hide HighOf, LowOf, HighHalf, LowHalf, Low16;
    if c > 65535 {
      HalfBits(c);
      Low16Is(HighOf(c));
      Low16Is(LowOf(c));
    } else {
      Low16Is(c);
    }
  }

  function Joined(parts: seq<seq<Unit>>): seq<Unit> {
    if parts == [] then [] else Joined(parts[..|parts| - 1]) + parts[|parts| - 1]
  }

  lemma AtSlice(r: seq<Byte>, e: nat)
    requires e < |r|
    ensures At(r, e + 1) == At(r[e..], 1) && At(r, e + 2) == At(r[e..], 2) && At(r, e + 3) == At(r[e..], 3)
  {
  }

  /** What the branches store, by the bits of the lead byte. */
  lemma FirstBits(r: seq<Byte>, e: nat)
    requires e < |r|
    ensures var a, d, l, x := r[e], At(r, e + 1), At(r, e + 2), At(r, e + 3); var f := First(r[e..]);
            if a & 128 == 0 then f == [a as bv16] && Width(a) == 1
            else if a & 224 == 192 then f == [Low16(Bits2(a, d))] && Width(a) == 2
            else if a & 240 == 224 then f == [Low16(Bits3(a, d, l))] && Width(a) == 3
            else if a & 248 == 240 then
              var c := Bits4(a, d, l, x);
              f == (if c > 65535 then [Low16(HighHalf(c)), Low16(LowHalf(c))] else [Low16(c)]) && Width(a) == 4
            else f == [] && Width(a) == 1
  {
    hide Join2, Join3, Join4, Bits2, Bits3, Bits4, HighHalf, LowHalf, UnitsOf, Low16, At, Width;
    AtSlice(r, e);
    var a, d, l, x := r[e], At(r, e + 1), At(r, e + 2), At(r, e + 3);
    LeadBits(a);
    if a & 128 == 0 {
    } else if a & 224 == 192 {
      JoinBits2(a, d);
      PairBits(Bits2(a, d));
    } else if a & 240 == 224 {
      JoinBits3(a, d, l);
      PairBits(Bits3(a, d, l));
    } else if a & 248 == 240 {
      JoinBits4(a, d, l, x);
      PairBits(Bits4(a, d, l, x));
    }
  }

  /** Up to four values written at o, and nothing before it. */
  lemma Appended<T>(was: seq<T>, now: seq<T>, o: nat, values: seq<T>)
    requires |was| == |now| && o + |values| <= |now| && |values| <= 4
    requires forall j :: 0 <= j < o ==> now[j] == was[j]
    requires |values| > 0 ==> now[o] == values[0]
    requires |values| > 1 ==> now[o + 1] == values[1]
    requires |values| > 2 ==> now[o + 2] == values[2]
    requires |values| > 3 ==> now[o + 3] == values[3]
    ensures now[..o + |values|] == was[..o] + values
  {
    assert now[..o] == was[..o];
    assert now[o..o + |values|] == values;
    assert now[..o + |values|] == now[..o] + now[o..o + |values|];
  }

  /** The loop body: one sequence, stored at `o`. */
  method ReadSequence(n: array<Unit>, o: nat, r: seq<Byte>, e: nat) returns (o': nat, e': nat)
    requires o + 2 <= n.Length && e < |r|
    modifies n
    ensures o <= o' <= o + 2 && n[..o'] == old(n[..o]) + First(r[e..])
    ensures e' == e + Width(r[e])
  {
    hide First, Bits2, Bits3, Bits4, HighHalf, LowHalf, Low16, At, Width;
    FirstBits(r, e);
    var a := r[e];
    o', e' := o, e + 1;
    if a & 128 == 0 {
      n[o'] := a as bv16;
      o' := o' + 1;
    } else if a & 224 == 192 {
      var d := At(r, e');
      e' := e' + 1;
      var c := Bits2(a, d);
      n[o'] := Low16(c);
      o' := o' + 1;
    } else if a & 240 == 224 {
      var d, l := At(r, e'), At(r, e' + 1);
      e' := e' + 2;
      var c := Bits3(a, d, l);
      n[o'] := Low16(c);
      o' := o' + 1;
    } else if a & 248 == 240 {
      var d, l, x := At(r, e'), At(r, e' + 1), At(r, e' + 2);
      e' := e' + 3;
      var c := Bits4(a, d, l, x);
      if c > 65535 {
        n[o'] := Low16(HighHalf(c));
        o' := o' + 1;
        c := LowHalf(c);
      }
      n[o'] := Low16(c);
      o' := o' + 1;
    }
    Appended(old(n[..]), n[..], o, First(r[e..]));
    assert n[..][..o'] == n[..o'] && old(n[..])[..o] == old(n[..o]);
  }

  lemma DecodedStep(b: seq<Byte>)
    ensures Decoded(b) == if b == [] then [] else First(b) + Decoded(Drop(b, Width(b[0])))
  {
  }

  lemma Regroup<T>(a: seq<T>, b: seq<T>, c: seq<T>, d: seq<T>)
    ensures a + (b + c) + d == a + b + (c + d)
    ensures b == [] ==> a + c + d == a + (c + d)
  {
    if b == [] {
      assert b + c == c && a + b == a;
    }
  }

  lemma JoinedPush(parts: seq<seq<Unit>>, part: seq<Unit>)
    ensures Joined(parts + [part]) == Joined(parts) + part
  {
    assert (parts + [part])[..|parts|] == parts;
  }

  /** `h`: a fixed buffer of at most 65536 units, flushed whenever it is nearly full and at the
      end.  Where the flushes fall makes no difference, and no write leaves the buffer. */
  method Decode(bytes: seq<Byte>) returns (out: seq<Unit>)
    ensures out == Decoded(bytes)
  {
    hide Decoded, First, Width;
    var r, e := bytes, 0;
    var f := if |r| + 1 < 65536 then |r| + 1 else 65536;
    var n := new Unit[f];
    var i: seq<seq<Unit>> := [];
    var o := 0;
    assert Joined(i) == [];
    while true
      invariant 0 <= o <= f && 0 <= e && (f == 1 ==> r == [])
      invariant Joined(i) + n[..o] + Decoded(Drop(r, e)) == Decoded(bytes)
      decreases |Drop(r, e)|
    {
      var t := e < |r|;
      if !t || o >= f - 1 {
        JoinedPush(i, n[..o]);
        i := i + [n[..o]];
        if !t {
          DecodedStep([]);
          return Joined(i);
        }
        r, e, o := r[e..], 0, 0;
        assert Joined(i) + n[..o] == Joined(i);
      }
      ghost var before, part, rest := Joined(i), n[..o], r[e..];
      DecodedStep(rest);
      o, e := ReadSequence(n, o, r, e);
      assert Drop(rest, Width(rest[0])) == Drop(r, e);
      Regroup(before, part, First(rest), Decoded(Drop(r, e)));
    }
  }

  // ---------------------------------------------------------------- the encoder's loop

  /** The source's byte expressions: `bits` of `t` from bit `shift` on, under a marker. */
  function Field(t: bv32, shift: bv6, bits: bv32, marker: bv32): Byte
    requires shift < 32 && bits < 0x40 && marker < 0x100
  {
    (((t >> shift) & bits) | marker) as bv8
  }

  lemma FieldBits(t: bv32)
    requires t < 0x110000
    ensures t < 0x800 ==> Field(t, 6, 31, 192) == Lead2(t)
    ensures t < 0x10000 ==> Field(t, 12, 15, 224) == Lead3(t)
    ensures Field(t, 18, 7, 240) == Lead4(t)
    ensures Field(t, 0, 63, 128) == Tail(t)
    ensures Field(t, 6, 63, 128) == Tail(t / 0x40)
    ensures Field(t, 12, 63, 128) == Tail(t / 0x1000)
  {
  }

  lemma RangeBits(t: bv32)
    requires t < 0x110000
    ensures t & 4294967168 == 0 <==> t < 0x80
    ensures t & 4294965248 == 0 <==> t < 0x800
    ensures t & 4294901760 == 0 <==> t < 0x10000
    ensures t & 4292870144 == 0
  {
  }

  /** What the branches write, by the bits that are set. */
  lemma OctetsBits(t: bv32)
    requires t < 0x110000
    ensures Octets(t) ==
            if t & 4294967168 == 0 then [t as bv8]
            else if t & 4294965248 == 0 then [Field(t, 6, 31, 192), Field(t, 0, 63, 128)]
            else if t & 4294901760 == 0 then [Field(t, 12, 15, 224), Field(t, 6, 63, 128), Field(t, 0, 63, 128)]
            else [Field(t, 18, 7, 240), Field(t, 12, 63, 128), Field(t, 6, 63, 128), Field(t, 0, 63, 128)]
    ensures t & 4292870144 == 0
  {
    hide Field, Lead2, Lead3, Lead4, Tail;
    RangeBits(t);
    FieldBits(t);
  }

  /** The loop body's writes for one code point. */
  method WriteOctets(o: array<Byte>, n: nat, t: bv32) returns (n': nat)
    requires n + 4 <= o.Length && t < 0x110000
    modifies o
    ensures n' <= o.Length && o[..n'] == old(o[..n]) + Octets(t)
  {
    hide Field, Octets;
    OctetsBits(t);
    n' := n;
    if t & 4294967168 == 0 {
      AsciiFits(t);
      o[n'] := t as bv8;
      n' := n' + 1;
    } else {
      if t & 4294965248 == 0 {
        o[n'] := Field(t, 6, 31, 192);
        n' := n' + 1;
      } else if t & 4294901760 == 0 {
        o[n'], o[n' + 1] := Field(t, 12, 15, 224), Field(t, 6, 63, 128);
        n' := n' + 2;
      } else if t & 4292870144 == 0 {
        o[n'], o[n' + 1], o[n' + 2] := Field(t, 18, 7, 240), Field(t, 12, 63, 128), Field(t, 6, 63, 128);
        n' := n' + 3;
      }
      o[n'] := Field(t, 0, 63, 128);
      n' := n' + 1;
    }
    Appended(old(o[..]), o[..], n, Octets(t));
    assert o[..][..n'] == o[..n'] && old(o[..])[..n] == old(o[..n]);
  }

  lemma AsciiFits(t: bv32)
    requires t & 4294967168 == 0
    ensures t < 0x100
  {
  }

  /** `i >>> 3 << 3`: the multiple of eight below, as the signed 32-bit number it yields. */
  function Trim8(i: nat): int {
    var u := i % 0x1_0000_0000;
    var v := u - u % 8;
    if v < 0x8000_0000 then v else v - 0x1_0000_0000
  }

  lemma TrimBounds(i: nat)
    requires i < 0x1_8000_0000
    ensures i < 0x8000_0000 ==> i - 8 < Trim8(i) <= i
    ensures 0x8000_0000 <= i < 0x1_0000_0000 ==> Trim8(i) < 0
    ensures i >= 0x1_0000_0000 ==> Trim8(i) <= i - 0x1_0000_0000
  {
  }

  /** The first capacity; `len` is the string's length. */
  function Capacity(len: nat): (i: nat)
    ensures i >= 32 && 2 * i >= 3 * len + 13
    ensures i <= 32 || 2 * i <= 3 * len + 14
  {
    var i := len + len / 2 + 7;
    if i < 32 then 32 else i
  }

  /** The grown capacity before trimming, (i + 8) * (1 + 2 * e / len) rounded down. */
  function Grown(i: nat, e: nat, len: nat): nat
    requires 0 < e <= len
  {
    (i + 8) * (len + 2 * e) / len
  }

  /** The longest string a JavaScript engine of this kind can hold. */
  const STRING_LIMIT := 0x4000_0000

  /** Strings this long or shorter never fail. */
  const ENCODABLE := 477218578

  lemma ProductBound(a: nat, b: nat, c: nat, d: nat)
    requires a <= b && c <= d
    ensures a * c <= b * d
  {
    assert a * c <= b * c;
  }

  lemma QuotientBounds(p: nat, lo: nat, hi: nat, len: nat)
    requires len > 0 && lo * len <= p <= hi * len
    ensures lo <= p / len <= hi
  {
    var q := p / len;
    assert q * len <= p < q * len + len;
    if q < lo {
      ProductBound(q + 1, lo, len, len);
    }
  }

  lemma CapacityProduct(len: nat, x: nat, y: nat)
    requires len >= 3 && 2 * x >= 3 * len + 29 && 6 * len - 7 <= 3 * y <= 9 * len
    ensures (3 * len + 11) * len <= x * y <= 3 * x * len
  {
    Expanded(len);
    ProductBound(3 * len + 29, 2 * x, 6 * len - 7, 3 * y);
    Sixfold(x, y);
    ProductBound(x, x, y, 3 * len);
    Rotated(x, len);
  }

  lemma Expanded(len: nat)
    requires len >= 3
    ensures (3 * len + 29) * (6 * len - 7) >= 6 * ((3 * len + 11) * len)
  {
    assert (3 * len + 29) * (6 * len - 7) == 18 * (len * len) + 153 * len - 203;
    assert (3 * len + 11) * len == 3 * (len * len) + 11 * len;
  }

  lemma Sixfold(x: nat, y: nat)
    ensures (2 * x) * (3 * y) == 6 * (x * y)
  {
  }

  lemma Rotated(x: nat, len: nat)
    ensures x * (3 * len) == 3 * x * len
  {
  }

  /** A buffer that fills up is grown enough for every byte still to come. */
  lemma {:induction false} OneGrowthSuffices(len: nat, e: nat, n: nat)
    requires 0 < e <= len && n <= 3 * e
    requires n + 4 > Capacity(len) - 7
    ensures Grown(Capacity(len), e, len) >= 3 * len + 11
    ensures Grown(Capacity(len), e, len) <= 3 * Capacity(len) + 24
  {
    var i := Capacity(len);
    CapacityProduct(len, i + 8, len + 2 * e);
    QuotientBounds((i + 8) * (len + 2 * e), 3 * len + 11, 3 * (i + 8), len);
  }

  /** Where a scan that has consumed `e` units stands. */
  lemma EncodedStep(s: seq<Unit>, e: nat)
    requires e < |s|
    ensures Encoded(s[e..]) ==
            if PairAt(s, e) then Octets(PairValue(s[e], s[e + 1])) + Encoded(s[e + 2..])
            else if High(s[e]) then Encoded(s[e + 1..])
            else Octets(s[e] as bv32) + Encoded(s[e + 1..])
  {
    assert s[e..][1..] == s[e + 1..];
    if PairAt(s, e) {
      assert s[e..][2..] == s[e + 2..];
    }
  }

  function Combined(t: bv32, s: Unit): bv32 { ((t & 1023) << 10) + (s as bv32 & 1023) + 65536 }

  lemma SurrogateBits(t: Unit, s: Unit)
    ensures s & 64512 == 56320 <==> Low(s)
    ensures High(t) && Low(s) ==> Combined(t as bv32, s) == PairValue(t, s)
  {
  }

  /** The loop body's reading half: one code point, or a high surrogate to be left out. */
  method ReadPoint(r: seq<Unit>, e: nat) returns (keep: bool, t: bv32, e': nat)
    requires e < |r|
    ensures e < e' <= |r| && t < 0x110000
    ensures Encoded(r[e..]) == (if keep then Octets(t) else []) + Encoded(r[e'..])
    ensures keep ==> |Octets(t)| <= 3 * (e' - e)
  {
    hide Encoded, Octets, PairValue, Combined;
    EncodedStep(r, e);
    var u := r[e];
    keep, t, e' := true, u as bv32, e + 1;
    if u >= 55296 && u <= 56319 {
      if e' < |r| {
        var s := r[e'];
        SurrogateBits(u, s);
        if s & 64512 == 56320 {
          e' := e' + 1;
          t := Combined(t, s);
        }
      }
      keep := !(t >= 55296 && t <= 56319);
    }
  }

  /** The growing step: `o` is full, so it is copied into a bigger buffer. */
  method Grow(o: array<Byte>, i: nat, e: nat, n: nat, f: nat) returns (ok: bool, m: array<Byte>, i': nat)
    requires 0 < e <= f < STRING_LIMIT && n <= 3 * e && n <= o.Length < n + 4
    requires i == Capacity(f) && i - 8 < o.Length
    ensures fresh(m)
    ensures ok ==> m.Length >= 3 * f + 4 && m[..n] == old(o[..n])
    ensures f <= ENCODABLE ==> ok
  {
    hide Grown, Capacity, Trim8;
    OneGrowthSuffices(f, e, n);
    i' := Grown(i, e, f);
    TrimBounds(i');
    var size := Trim8(i');
    m := new Byte[if size < 0 then 0 else size];
    ok := m.Length >= o.Length;
    if ok {
      forall k | 0 <= k < o.Length {
        m[k] := o[k];
      }
      assert m[..n] == o[..n];
    }
  }

  /** `F`: the buffer is grown at most once, every write is inside it, and only a string of
      more than ENCODABLE units can fail (with a range error, for want of a bigger buffer). */
  method Encode(r: seq<Unit>) returns (res: Option<seq<Byte>>, growths: nat)
    requires |r| < STRING_LIMIT
    ensures res.Some? ==> res.value == Encoded(r)
    ensures |r| <= ENCODABLE ==> res.Some?
    ensures growths <= 1
  {
    hide Encoded, Octets, PairValue, Grown, Capacity, Trim8;
    growths := 0;
    var e: nat, f: nat, n: nat := 0, |r|, 0;
    var i := Capacity(f);
    TrimBounds(i);
    var o := new Byte[Trim8(i)];
    assert r[0..] == r;
    while e < f
      invariant e <= f && n <= o.Length && n <= 3 * e && fresh(o)
      invariant o[..n] + Encoded(r[e..]) == Encoded(r)
      invariant growths <= 1
      invariant if growths == 0 then i == Capacity(f) && o.Length > i - 8 else o.Length >= 3 * f + 4
    {
      var keep, t, e' := ReadPoint(r, e);
      e := e';
      if !keep {
        continue;
      }
      if n + 4 > o.Length {
        var ok;
        ok, o, i := Grow(o, i, e, n, f);
        if !ok {
          return None, growths;
        }
        growths := growths + 1;
      }
      ghost var before := o[..n];
      n := WriteOctets(o, n, t);
      Regroup(before, [], Octets(t), Encoded(r[e..]));
    }
    assert r[e..] == [] && Encoded([]) == [];
    return Some(o[..n]), growths;
  }
}
