/** The base64 encoder of the Buffer bundle and the three decoders the runtime ships
    (src/js/buffer.js:1, src/js/crypto.js:40-61, src/js/fetch.js:67-87), against section 4 of
    RFC 4648.  Bit operations are written on the numbers they act on: a left shift multiplies,
    a right shift divides towards minus infinity, a mask takes a remainder. */
module Base64 {
  import opened Wrappers

  type Byte = b: nat | b < 256

  const PAD := '='

  // ---------------------------------------------------------------- the alphabet

  /** The 64 letters of table 1 of RFC 4648. */
  function Letter(v: nat): (c: char)
    requires v < 64
    ensures Index(c) == v && c != PAD
  {
    if v < 26 then 'A' + v as char
    else if v < 52 then 'a' + (v - 26) as char
    else if v < 62 then '0' + (v - 52) as char
    else if v == 62 then '+'
    else '/'
  }

  /** Its place in the alphabet, -1 for any other character. */
  function Index(c: char): (v: int)
    ensures -1 <= v < 64
    ensures c == PAD ==> v == -1
  {
    if 'A' <= c <= 'Z' then (c - 'A') as int
    else if 'a' <= c <= 'z' then (c - 'a') as int + 26
    else if '0' <= c <= '9' then (c - '0') as int + 52
    else if c == '+' then 62
    else if c == '/' then 63
    else -1
  }

  /** The table, letter by letter. */
  lemma Alphabet(v: nat)
    requires v < 64
    ensures v < 26 ==> Letter(v) == "ABCDEFGHIJKLMNOPQRSTUVWXYZ"[v]
    ensures 26 <= v < 52 ==> Letter(v) == "abcdefghijklmnopqrstuvwxyz"[v - 26]
    ensures 52 <= v ==> Letter(v) == "0123456789+/"[v - 52]
  {
  }

  /** Nothing else has a place in it. */
  lemma OnlyLetters(c: char)
    ensures Index(c) >= 0 ==> Letter(Index(c)) == c
  {
  }

  // ---------------------------------------------------------------- section 4 of RFC 4648

  /** Three bytes are four letters; one or two left over are padded. */
  function Encoded(b: seq<Byte>): string {
    if b == [] then ""
    else if |b| == 1 then [Letter(b[0] / 4), Letter(b[0] % 4 * 16), PAD, PAD]
    else if |b| == 2 then [Letter(b[0] / 4), Letter(b[0] % 4 * 16 + b[1] / 16), Letter(b[1] % 16 * 4), PAD]
    else Quad(b[0], b[1], b[2]) + Encoded(b[3..])
  }

  function Quad(x: Byte, y: Byte, z: Byte): (s: string)
    ensures |s| == 4
  {
    Four(x / 4, x % 4 * 16 + y / 16, y % 16 * 4 + z / 64, z % 64)
  }

  function Four(a: nat, b: nat, c: nat, d: nat): (s: string)
    requires a < 64 && b < 64 && c < 64 && d < 64
    ensures |s| == 4
  {
    [Letter(a), Letter(b), Letter(c), Letter(d)]
  }

  /** The test vectors of section 10: `f`, `fo`, `foo` and `foobar`. */
  lemma TestVectors()
    ensures Encoded([0x66]) == "Zg==" && Encoded([0x66, 0x6f]) == "Zm8=" && Encoded([0x66, 0x6f, 0x6f]) == "Zm9v"
    ensures Encoded([0x66, 0x6f, 0x6f, 0x62, 0x61, 0x72]) == "Zm9vYmFy"
  {
    hide Quad, Letter;
    OneAndTwo();
    Quads();
    assert [0x66 as Byte, 0x6f, 0x6f][3..] == [];
    assert [0x66 as Byte, 0x6f, 0x6f, 0x62, 0x61, 0x72][3..] == [0x62, 0x61, 0x72];
    assert [0x62 as Byte, 0x61, 0x72][3..] == [];
  }

  lemma OneAndTwo()
    ensures Encoded([0x66]) == "Zg==" && Encoded([0x66, 0x6f]) == "Zm8="
  {
  }

  lemma Quads()
    ensures Quad(0x66, 0x6f, 0x6f) == "Zm9v" && Quad(0x62, 0x61, 0x72) == "YmFy"
  {
    hide Letter, Four;
    FoobarLetters();
    assert Quad(0x66, 0x6f, 0x6f) == Four(25, 38, 61, 47);
    assert Quad(0x62, 0x61, 0x72) == Four(24, 38, 5, 50);
  }

  lemma FoobarLetters()
    ensures Four(25, 38, 61, 47) == "Zm9v" && Four(24, 38, 5, 50) == "YmFy"
  {
    assert Letter(25) == 'Z' && Letter(38) == 'm' && Letter(61) == '9' && Letter(47) == 'v';
    assert Letter(24) == 'Y' && Letter(5) == 'F' && Letter(50) == 'y';
  }

  type Sextet = v: nat | v < 64

  /** The letters' places, up to the first pad, other characters skipped. */
  function Sextets(s: string): (r: seq<Sextet>)
  {
    if s == "" || s[0] == PAD then []
    else if Index(s[0]) < 0 then Sextets(s[1..])
    else [Index(s[0])] + Sextets(s[1..])
  }

  /** The three bytes of four sextets. */
  function Byte0(a: nat, b: nat): Byte
    requires a < 64 && b < 64
  {
    a * 4 + b / 16
  }

  function Byte1(b: nat, c: nat): Byte
    requires b < 64 && c < 64
  {
    b % 16 * 16 + c / 4
  }

  function Byte2(c: nat, d: nat): Byte
    requires c < 64 && d < 64
  {
    c % 4 * 64 + d
  }

  /** Four sextets are three bytes; left over bits are dropped. */
  function Bytes(v: seq<Sextet>): (b: seq<Byte>)
  {
    if |v| < 2 then []
    else if |v| == 2 then [Byte0(v[0], v[1])]
    else if |v| == 3 then [Byte0(v[0], v[1]), Byte1(v[1], v[2])]
    else [Byte0(v[0], v[1]), Byte1(v[1], v[2]), Byte2(v[2], v[3])] + Bytes(v[4..])
  }

  lemma SextetsCons(v: nat, rest: string)
    requires v < 64
    ensures Sextets([Letter(v)] + rest) == [v] + Sextets(rest)
  {
    hide Letter, Index;
    assert ([Letter(v)] + rest)[1..] == rest;
  }

  lemma QuadSextets(x: Byte, y: Byte, z: Byte, rest: string)
    ensures Sextets(Quad(x, y, z) + rest) ==
            [x / 4, x % 4 * 16 + y / 16, y % 16 * 4 + z / 64, z % 64] + Sextets(rest)
  {
    hide Four;
    FourSextets(x / 4, x % 4 * 16 + y / 16, y % 16 * 4 + z / 64, z % 64, rest);
  }

  lemma FourSextets(a: nat, b: nat, c: nat, d: nat, rest: string)
    requires a < 64 && b < 64 && c < 64 && d < 64
    ensures Sextets(Four(a, b, c, d) + rest) == [a, b, c, d] + Sextets(rest)
  {
    hide Letter, Index, Sextets;
    assert Four(a, b, c, d) + rest == [Letter(a)] + ([Letter(b)] + ([Letter(c)] + ([Letter(d)] + rest)));
    SextetsCons(a, [Letter(b)] + ([Letter(c)] + ([Letter(d)] + rest)));
    SextetsCons(b, [Letter(c)] + ([Letter(d)] + rest));
    SextetsCons(c, [Letter(d)] + rest);
    SextetsCons(d, rest);
  }

  lemma QuadBytes(x: Byte, y: Byte, z: Byte, rest: seq<Sextet>)
    ensures Bytes([x / 4, x % 4 * 16 + y / 16, y % 16 * 4 + z / 64, z % 64] + rest) == [x, y, z] + Bytes(rest)
  {
    var a: Sextet, b: Sextet, c: Sextet, d: Sextet := x / 4, x % 4 * 16 + y / 16, y % 16 * 4 + z / 64, z % 64;
    assert Byte0(a, b) == x && Byte1(b, c) == y && Byte2(c, d) == z;
    BytesStep([a, b, c, d], rest);
    assert [a, b, c, d][4..] + rest == rest;
  }

  lemma TailSextets(x: Byte, y: Byte)
    ensures Bytes(Sextets([Letter(x / 4), Letter(x % 4 * 16), PAD, PAD])) == [x]
    ensures Bytes(Sextets([Letter(x / 4), Letter(x % 4 * 16 + y / 16), Letter(y % 16 * 4), PAD])) == [x, y]
  {
    hide Letter, Index, Sextets, Bytes, Byte0, Byte1;
    TailBytes(x, y);
    TwoSextets(x / 4, x % 4 * 16);
    TwoBytes([x / 4, x % 4 * 16]);
    ThreeSextets(x / 4, x % 4 * 16 + y / 16, y % 16 * 4);
    ThreeBytes([x / 4, x % 4 * 16 + y / 16, y % 16 * 4]);
  }

  lemma TailBytes(x: Byte, y: Byte)
    ensures Byte0(x / 4, x % 4 * 16) == x && Byte0(x / 4, x % 4 * 16 + y / 16) == x
    ensures Byte1(x % 4 * 16 + y / 16, y % 16 * 4) == y
  {
  }

  lemma TwoSextets(a: Sextet, b: Sextet)
    ensures Sextets([Letter(a), Letter(b), PAD, PAD]) == [a, b]
  {
    hide Letter, Index;
    assert [Letter(a), Letter(b), PAD, PAD] == [Letter(a)] + ([Letter(b)] + [PAD, PAD]);
    SextetsCons(a, [Letter(b)] + [PAD, PAD]);
    SextetsCons(b, [PAD, PAD]);
  }

  lemma ThreeSextets(a: Sextet, b: Sextet, c: Sextet)
    ensures Sextets([Letter(a), Letter(b), Letter(c), PAD]) == [a, b, c]
  {
    hide Letter, Index;
    assert [Letter(a), Letter(b), Letter(c), PAD] == [Letter(a)] + ([Letter(b)] + ([Letter(c)] + [PAD]));
    SextetsCons(a, [Letter(b)] + ([Letter(c)] + [PAD]));
    SextetsCons(b, [Letter(c)] + [PAD]);
    SextetsCons(c, [PAD]);
  }

  /** Reading the letters back gives the bytes, whatever their number. */
  lemma {:induction false} EncodedDecodes(b: seq<Byte>)
    ensures Bytes(Sextets(Encoded(b))) == b
  {
    hide Letter, Index, Sextets, Bytes;
    if |b| >= 3 {
      EncodedDecodes(b[3..]);
      QuadSextets(b[0], b[1], b[2], Encoded(b[3..]));
      QuadBytes(b[0], b[1], b[2], Sextets(Encoded(b[3..])));
      assert b == [b[0], b[1], b[2]] + b[3..];
    } else if |b| > 0 {
      TailSextets(b[0], if |b| == 2 then b[1] else 0);
    } else {
      Nothing();
    }
  }

  lemma Nothing()
    ensures Sextets("") == [] && Bytes([]) == []
  {
  }

  // ---------------------------------------------------------------- the streaming decoder

  lemma WholeTurns(x: int)
    ensures (x - ToInt32(x)) % 0x1_0000_0000 == 0
  {
  }

  /** `(val << 6) + idx`. */
  function Shifted(val: int, idx: nat): int { ToInt32(val * 64) + idx }

  /** `(val >> n) & 255`. */
  function Octet(val: int, n: nat): Byte {
    if n == 4 then val / 16 % 256 else if n == 2 then val / 4 % 256 else val % 256
  }

  lemma Mod256(q: int, r: nat)
    requires r < 256
    ensures (256 * q + r) % 256 == r
  {
  }

  lemma TopOctet(y: int, q: int, last: nat, idx: nat)
    requires last < 64 && idx < 64 && y == 4096 * q + 64 * last + idx
    ensures Octet(y, 4) == Byte0(last, idx)
  {
    var h, l := idx / 16, idx % 16;
    assert y == 16 * (256 * q + 4 * last + h) + l;
    assert y / 16 == 256 * q + (4 * last + h);
    Mod256(q, 4 * last + h);
  }

  lemma MiddleOctet(y: int, q: int, last: nat, idx: nat)
    requires last < 64 && idx < 64 && y == 4096 * q + 64 * last + idx
    ensures Octet(y, 2) == Byte1(last, idx)
  {
    var h, l := last / 16, last % 16;
    assert y / 4 == 256 * (4 * q + h) + (16 * l + idx / 4);
    Mod256(4 * q + h, 16 * l + idx / 4);
  }

  lemma BottomOctet(y: int, q: int, last: nat, idx: nat)
    requires last < 64 && idx < 64 && y == 4096 * q + 64 * last + idx
    ensures Octet(y, 0) == Byte2(last, idx) && y % 64 == idx
  {
    var h, l := last / 4, last % 4;
    assert last == 4 * h + l;
    LowBits(y, 16 * q + h, l, idx);
  }

  lemma LowBits(y: int, q: int, l: nat, idx: nat)
    requires l < 4 && idx < 64 && y == 256 * q + (64 * l + idx)
    ensures y % 256 == 64 * l + idx && y % 64 == idx
  {
    Mod256(q, 64 * l + idx);
    Mod64(4 * q + l, idx);
  }

  lemma Mod64(q: int, r: nat)
    requires r < 64
    ensures (64 * q + r) % 64 == r
  {
  }

  /** Only the last twelve bits of the accumulator are ever read, so it may wrap freely. */
  lemma ShiftedBits(val: int, last: nat, idx: nat)
    requires last < 64 && idx < 64 && val % 64 == last
    ensures Shifted(val, idx) % 64 == idx
    ensures Octet(Shifted(val, idx), 4) == Byte0(last, idx)
    ensures Octet(Shifted(val, idx), 2) == Byte1(last, idx)
    ensures Octet(Shifted(val, idx), 0) == Byte2(last, idx)
  {
    hide Octet, ToInt32, Byte0, Byte1, Byte2;
    var w := ToInt32(val * 64);
    WholeTurns(val * 64);
    var k := (val * 64 - w) / 0x1_0000_0000;
    var q := val / 64 - 0x10_0000 * k;
    assert val * 64 - w == 0x1_0000_0000 * k;
    assert w == 4096 * q + 64 * last;
    TopOctet(w + idx, q, last, idx);
    MiddleOctet(w + idx, q, last, idx);
    BottomOctet(w + idx, q, last, idx);
  }

  /** What one more sextet adds. */
  function Added(v: seq<Sextet>, x: Sextet): seq<Byte> {
    if |v| % 4 == 0 then []
    else if |v| % 4 == 1 then [Byte0(v[|v| - 1], x)]
    else if |v| % 4 == 2 then [Byte1(v[|v| - 1], x)]
    else [Byte2(v[|v| - 1], x)]
  }

  lemma {:induction false} BytesPush(v: seq<Sextet>, x: Sextet)
    ensures Bytes(v + [x]) == Bytes(v) + Added(v, x)
    decreases |v|
  {
    hide Byte0, Byte1, Byte2, Bytes, Added;
    if |v| >= 4 {
      BytesPush(v[4..], x);
      BytesStep(v, [x]);
      AddedAfterFour(v, x);
    } else {
      FewBytes(v, x);
    }
  }

  lemma AddedAfterFour(v: seq<Sextet>, x: Sextet)
    requires |v| >= 4
    ensures Added(v[4..], x) == Added(v, x)
  {
    hide Byte0, Byte1, Byte2;
    FourLess(|v|);
    assert |v| > 4 ==> v[4..][|v| - 5] == v[|v| - 1];
  }

  lemma FourLess(k: nat)
    requires k >= 4
    ensures (k - 4) % 4 == k % 4 && (k == 4 ==> k % 4 == 0)
  {
  }

  lemma BytesStep(v: seq<Sextet>, w: seq<Sextet>)
    requires |v| >= 4
    ensures Bytes(v) == [Byte0(v[0], v[1]), Byte1(v[1], v[2]), Byte2(v[2], v[3])] + Bytes(v[4..])
    ensures Bytes(v + w) == [Byte0(v[0], v[1]), Byte1(v[1], v[2]), Byte2(v[2], v[3])] + Bytes(v[4..] + w)
  {
    hide Byte0, Byte1, Byte2;
    assert (v + w)[4..] == v[4..] + w;
  }

  lemma FewBytes(v: seq<Sextet>, x: Sextet)
    requires |v| < 4
    ensures Bytes(v + [x]) == Bytes(v) + Added(v, x)
  {
    hide Byte0, Byte1, Byte2, Bytes, Added;
    AddedFew(v, x);
    var w := v + [x];
    if |v| == 3 {
      ThreeBytes(v);
      FourBytes(w);
    } else if |v| == 2 {
      ThreeBytes(w);
      TwoBytes(v);
    } else if |v| == 1 {
      TwoBytes(w);
      OneByte(v);
    } else {
      OneByte(w);
      OneByte(v);
    }
  }

  lemma AddedFew(v: seq<Sextet>, x: Sextet)
    requires |v| < 4
    ensures Added(v, x) == if |v| == 0 then [] else if |v| == 1 then [Byte0(v[0], x)]
                           else if |v| == 2 then [Byte1(v[1], x)] else [Byte2(v[2], x)]
  {
    hide Byte0, Byte1, Byte2;
    assert |v| % 4 == |v|;
  }

  lemma FourBytes(v: seq<Sextet>)
    requires |v| == 4
    ensures Bytes(v) == [Byte0(v[0], v[1]), Byte1(v[1], v[2]), Byte2(v[2], v[3])]
  {
    assert v[4..] == [];
  }

  lemma OneByte(v: seq<Sextet>)
    requires |v| < 2
    ensures Bytes(v) == []
  {
  }

  lemma TwoBytes(v: seq<Sextet>)
    requires |v| == 2
    ensures Bytes(v) == [Byte0(v[0], v[1])]
  {
  }

  lemma ThreeBytes(v: seq<Sextet>)
    requires |v| == 3
    ensures Bytes(v) == [Byte0(v[0], v[1]), Byte1(v[1], v[2])]
  {
  }

  lemma SextetsAt(s: string, j: nat)
    requires j < |s|
    ensures Sextets(s[j..]) == if s[j] == PAD then []
                               else if Index(s[j]) < 0 then Sextets(s[j + 1..])
                               else [Index(s[j])] + Sextets(s[j + 1..])
  {
    hide Index;
    assert s[j..][1..] == s[j + 1..];
  }

  /** How many bits beyond a byte the accumulator holds after k sextets, less eight. */
  function Surplus(k: nat): int {
    if k % 4 == 0 then -8 else if k % 4 == 1 then -2 else if k % 4 == 2 then -4 else -6
  }

  lemma SurplusStep(k: nat)
    ensures Surplus(k) + 6 == if k % 4 == 0 then -2 else if k % 4 == 1 then 4 else if k % 4 == 2 then 2 else 0
    ensures Surplus(k + 1) == if Surplus(k) + 6 >= 0 then Surplus(k) - 2 else Surplus(k) + 6
  {
  }

  /** One more sextet: either a byte comes out, or there are not yet eight bits. */
  lemma StreamStep(v: seq<Sextet>, val: int, x: Sextet)
    requires v != [] ==> val % 64 == v[|v| - 1]
    ensures var n := Surplus(|v|) + 6; var val' := Shifted(val, x);
            && val' % 64 == x
            && Surplus(|v| + 1) == (if n >= 0 then n - 8 else n)
            && Bytes(v + [x]) == Bytes(v) + (if n >= 0 then [Octet(val', n)] else [])
  {
    hide Bytes, Octet, Byte0, Byte1, Byte2, Shifted, Surplus, Added;
    BytesPush(v, x);
    ShiftedBits(val, val % 64, x);
    SurplusStep(|v|);
    AddedOctet(v, x, Shifted(val, x));
  }

  lemma AddedOctet(v: seq<Sextet>, x: Sextet, y: int)
    requires v != [] ==> var last := v[|v| - 1];
                         Octet(y, 4) == Byte0(last, x) && Octet(y, 2) == Byte1(last, x) && Octet(y, 0) == Byte2(last, x)
    ensures var n := Surplus(|v|) + 6;
            Added(v, x) == if n >= 0 then [Octet(y, n)] else []
  {
    hide Octet, Byte0, Byte1, Byte2, Surplus;
    SurplusStep(|v|);
  }

  /** `base64ToBytes` of crypto.js. */
  method StreamDecode(s: string) returns (out: seq<Byte>)
    ensures out == Bytes(Sextets(s))
  {
    hide Index, Letter, Sextets, Bytes, Shifted, Octet, Surplus;
    Nothing();
    out := [];
    var val, valb, j := 0, -8, 0;
    ghost var v: seq<Sextet> := [];
    assert s[0..] == s;
    assert Surplus(0) == -8 by { NoSurplus(); }
    while j < |s|
      invariant 0 <= j <= |s|
      invariant v + Sextets(s[j..]) == Sextets(s) && out == Bytes(v)
      invariant valb == Surplus(|v|)
      invariant v != [] ==> val % 64 == v[|v| - 1]
    {
      SextetsAt(s, j);
      var c := s[j];
      j := j + 1;
      if c == PAD {
        break;
      }
      var idx := Index(c);
      if idx < 0 {
        continue;
      }
      StreamStep(v, val, idx);
      assert v + ([idx] + Sextets(s[j..])) == (v + [idx]) + Sextets(s[j..]);
      val := Shifted(val, idx);
      valb := valb + 6;
      if valb >= 0 {
        out := out + [Octet(val, valb)];
        valb := valb - 8;
      }
      v := v + [idx];
    }
    assert j == |s| ==> s[j..] == "";
    assert v + [] == v;
  }

  lemma NoSurplus()
    ensures Surplus(0) == -8
  {
  }

  // ---------------------------------------------------------------- texts of letters

  predicate Letters(s: string) { forall j :: 0 <= j < |s| ==> Index(s[j]) >= 0 }

  function Places(s: string): (v: seq<Sextet>)
    requires Letters(s)
    ensures |v| == |s|
  {
    seq(|s|, j requires 0 <= j < |s| => Index(s[j]))
  }

  function Pads(n: nat): string { seq(n, _ => PAD) }

  lemma {:induction false} SextetsOfLetters(s: string, n: nat)
    requires Letters(s)
    ensures Sextets(s + Pads(n)) == Places(s)
  {
    hide Index;
    var t := s + Pads(n);
    if s == "" {
      assert t == Pads(n);
    } else {
      assert t[1..] == s[1..] + Pads(n);
      SextetsOfLetters(s[1..], n);
      assert Places(s) == [Index(s[0])] + Places(s[1..]);
    }
  }

  lemma {:induction false} EncodedLength(b: seq<Byte>)
    ensures Quarters(|Encoded(b)|)
  {
    hide Letter, Quad, Quarters;
    QuartersStep(0);
    if |b| >= 3 {
      EncodedLength(b[3..]);
      QuartersStep(|Encoded(b[3..])|);
    }
  }

  /** An encoding is letters, then zero, one or two pads that complete a group of four. */
  lemma {:induction false} EncodedShape(b: seq<Byte>) returns (l: string, n: nat)
    ensures Letters(l) && n <= 2 && Encoded(b) == l + Pads(n) && (|l| + n) % 4 == 0
    ensures Bytes(Places(l)) == b
  {
    hide Encoded, Letter, Index, Bytes, Sextets, Places;
    EncodedDecodes(b);
    EncodedLength(b);
    l, n := Shape(b);
    assert |l| + n == |Encoded(b)|;
    SextetsOfLetters(l, n);
  }

  lemma {:induction false} Shape(b: seq<Byte>) returns (l: string, n: nat)
    ensures Letters(l) && n <= 2 && Encoded(b) == l + Pads(n)
  {
    hide Letter, Index;
    if |b| >= 3 {
      var l', n' := Shape(b[3..]);
      l, n := Quad(b[0], b[1], b[2]) + l', n';
      assert Encoded(b) == l + Pads(n);
    } else if |b| > 0 {
      n := 3 - |b|;
      l := Encoded(b)[..4 - n];
    } else {
      l, n := "", 0;
    }
  }

  /** What an index means in a bit operation: -1 is all ones. */
  function Low6(c: int): Sextet
    requires -1 <= c < 64
  {
    if c < 0 then 63 else c
  }

  /** `(c1 << 18) | (c2 << 12) | ((c3 & 63) << 6) | (c4 & 63)`. */
  function Block(c1: int, c2: int, c3: int, c4: int): int
    requires -1 <= c1 < 64 && -1 <= c2 < 64 && -1 <= c3 < 64 && -1 <= c4 < 64
  {
    (if c2 < 0 then -4096 else c1 * 262144 + c2 * 4096) + Low6(c3) * 64 + Low6(c4)
  }

  function Byte16(n: int): Byte { n / 65536 % 256 }

  function Byte8(n: int): Byte { n / 256 % 256 }

  function ByteLow(n: int): Byte { n % 256 }

  /** What the shifts make of the four places: a missing second one fills the first with ones, too. */
  lemma BlockBytes(c1: int, c2: int, c3: int, c4: int)
    requires -1 <= c1 < 64 && -1 <= c2 < 64 && -1 <= c3 < 64 && -1 <= c4 < 64
    ensures var a := if c2 < 0 then 63 else Low6(c1); var n := Block(c1, c2, c3, c4);
            && Byte16(n) == Byte0(a, Low6(c2)) && Byte8(n) == Byte1(Low6(c2), Low6(c3))
            && ByteLow(n) == Byte2(Low6(c3), Low6(c4))
  {
    var a: Sextet, b: Sextet := if c2 < 0 then 63 else Low6(c1), Low6(c2);
    var q := if c2 < 0 || c1 < 0 then -1 else 0;
    assert Block(c1, c2, c3, c4) == 0x100_0000 * q + a * 262144 + b * 4096 + Low6(c3) * 64 + Low6(c4);
    WordBytes(q, a, b, Low6(c3), Low6(c4));
  }

  /** The three bytes of a word whose low 24 bits are four sextets. */
  lemma WordBytes(q: int, a: nat, b: nat, c: nat, d: nat)
    requires a < 64 && b < 64 && c < 64 && d < 64
    ensures var n := 0x100_0000 * q + a * 262144 + b * 4096 + c * 64 + d;
            Byte16(n) == Byte0(a, b) && Byte8(n) == Byte1(b, c) && ByteLow(n) == Byte2(c, d)
  {
    var n := 0x100_0000 * q + a * 262144 + b * 4096 + c * 64 + d;
    var b1, b0, c1, c0 := b / 16, b % 16, c / 4, c % 4;
    assert b == 16 * b1 + b0 && c == 4 * c1 + c0;
    WordDigits(n, 256 * q, a * 4 + b1, b0 * 16 + c1, c0 * 64 + d);
    Mod256(q, a * 4 + b1);
  }

  lemma WordDigits(n: int, q: int, x: nat, y: nat, z: nat)
    requires x < 256 && y < 256 && z < 256 && n == 65536 * (q + x) + 256 * y + z
    ensures n / 65536 == q + x && n / 256 % 256 == y && n % 256 == z
  {
    assert n / 256 == 256 * (q + x) + y;
    Mod256(q + x, y);
    Mod256(256 * (q + x) + y, z);
  }

  // ---------------------------------------------------------------- the block decoder

  /** Removing the trailing pads. */
  function Stripped(s: string): (r: string)
  {
    if s != "" && s[|s| - 1] == PAD then Stripped(s[..|s| - 1]) else s
  }

  predicate PadLast(s: string) { s != "" && s[|s| - 1] == PAD }

  lemma {:induction false} StrippedPads(s: string, n: nat)
    requires !PadLast(s)
    ensures Stripped(s + Pads(n)) == s
  {
    var t := s + Pads(n);
    if n > 0 {
      assert t[..|t| - 1] == s + Pads(n - 1);
      StrippedPads(s, n - 1);
    } else {
      assert t == s;
    }
  }

  lemma StrippedLetters(s: string, n: nat)
    requires Letters(s)
    ensures Stripped(s + Pads(n)) == s
  {
    hide Index, Stripped;
    if s != "" {
      assert Index(s[|s| - 1]) >= 0;
    }
    StrippedPads(s, n);
  }

  /** Only pads are removed, and all at the end. */
  lemma {:induction false} IsStripped(s: string) returns (n: nat)
    ensures s == Stripped(s) + Pads(n) && !PadLast(Stripped(s))
  {
    if PadLast(s) {
      n := IsStripped(s[..|s| - 1]);
      n := n + 1;
    } else {
      n := 0;
    }
  }

  /** chars.indexOf(str.charAt(i)): the empty text past the end is found at 0. */
  function PlaceAt(s: string, i: nat): (c: int)
    ensures -1 <= c < 64
  {
    if i < |s| then Index(s[i]) else 0
  }

  /** Letters in groups of four; one left over alone still makes a byte here. */
  function InBlocks(v: seq<Sextet>): seq<Byte> {
    if v == [] then []
    else if |v| == 1 then [Byte0(v[0], 0)]
    else if |v| == 2 then [Byte0(v[0], v[1])]
    else if |v| == 3 then [Byte0(v[0], v[1]), Byte1(v[1], v[2])]
    else [Byte0(v[0], v[1]), Byte1(v[1], v[2]), Byte2(v[2], v[3])] + InBlocks(v[4..])
  }

  /** The block decoder agrees with the streaming one on all texts of letters except those
      that leave one letter over. */
  lemma {:induction false} InBlocksIsBytes(v: seq<Sextet>)
    ensures InBlocks(v) == Bytes(v) <==> |v| % 4 != 1
    decreases |v|
  {
    hide Byte0, Byte1, Byte2, InBlocks, Bytes;
    if |v| >= 4 {
      InBlocksIsBytes(v[4..]);
      assert |v[4..]| % 4 == |v| % 4;
      FourLead(v);
      SameAfter([Byte0(v[0], v[1]), Byte1(v[1], v[2]), Byte2(v[2], v[3])], InBlocks(v[4..]), Bytes(v[4..]));
    } else {
      FewLead(v);
      assert |v| % 4 == |v|;
    }
  }

  lemma FourLead(v: seq<Sextet>)
    requires |v| >= 4
    ensures var three := [Byte0(v[0], v[1]), Byte1(v[1], v[2]), Byte2(v[2], v[3])];
            InBlocks(v) == three + InBlocks(v[4..]) && Bytes(v) == three + Bytes(v[4..])
  {
    hide Byte0, Byte1, Byte2;
  }

  lemma FewLead(v: seq<Sextet>)
    requires |v| < 4
    ensures InBlocks(v) == Bytes(v) <==> |v| != 1
  {
    hide Byte0, Byte1, Byte2;
  }

  lemma SameAfter(a: seq<Byte>, b: seq<Byte>, c: seq<Byte>)
    ensures a + b == a + c <==> b == c
  {
    assert (a + b)[|a|..] == b && (a + c)[|a|..] == c;
  }

  /** What a group of four places yields, the first of a text that is not empty: a character outside the alphabet
      counts as all ones, in the second place it also fills the first, and in the third or fourth place it yields
      no byte. */
  function Group(s: string): seq<Byte> {
    var c1, c2, c3, c4 := PlaceAt(s, 0), PlaceAt(s, 1), PlaceAt(s, 2), PlaceAt(s, 3);
    [Byte0(if c2 < 0 then 63 else Low6(c1), Low6(c2))]
    + (if c3 >= 0 && |s| > 2 then [Byte1(Low6(c2), Low6(c3))] else [])
    + (if c4 >= 0 && |s| > 3 then [Byte2(Low6(c3), Low6(c4))] else [])
  }

  /** The block decoder's reading of any text. */
  function Groups(s: string): seq<Byte>
    decreases |s|
  {
    if s == "" then [] else Group(s) + Groups(From(s, 4))
  }

  function From(s: string, i: nat): string { if i <= |s| then s[i..] else "" }

  /** On letters that is the reading by blocks. */
  lemma {:induction false} GroupsOfLetters(s: string)
    requires Letters(s)
    ensures Groups(s) == InBlocks(Places(s))
    decreases |s|
  {
    hide Index, Group, Byte0, Byte1, Byte2, InBlocks;
    InBlocksStep(Places(s));
    if s == "" {
      assert Places(s) == [];
    } else {
      var u, v := From(s, 4), Places(s);
      LaterLetters(s);
      GroupsOfLetters(u);
      GroupOfLetters(s);
      InBlocksStep([]);
    }
  }

  lemma InBlocksStep(v: seq<Sextet>)
    ensures InBlocks(v) ==
            if v == [] then [] else if |v| == 1 then [Byte0(v[0], 0)] else if |v| == 2 then [Byte0(v[0], v[1])]
            else if |v| == 3 then [Byte0(v[0], v[1]), Byte1(v[1], v[2])]
            else [Byte0(v[0], v[1]), Byte1(v[1], v[2]), Byte2(v[2], v[3])] + InBlocks(v[4..])
  {
    hide Byte0, Byte1, Byte2;
  }

  lemma LaterLetters(s: string)
    requires Letters(s)
    ensures Letters(From(s, 4)) && Places(From(s, 4)) == if |s| >= 4 then Places(s)[4..] else []
  {
    hide Index;
    assert forall j :: 0 <= j < |From(s, 4)| ==> From(s, 4)[j] == s[j + 4];
  }

  lemma GroupOfLetters(s: string)
    requires Letters(s) && s != ""
    ensures var v := Places(s);
            Group(s) == if |v| == 1 then [Byte0(v[0], 0)] else if |v| == 2 then [Byte0(v[0], v[1])]
                        else if |v| == 3 then [Byte0(v[0], v[1]), Byte1(v[1], v[2])]
                        else [Byte0(v[0], v[1]), Byte1(v[1], v[2]), Byte2(v[2], v[3])]
  {
    hide Index, Byte0, Byte1, Byte2;
  }

  /** `base64Decode` of fetch.js; the bytes are the character codes of the text it returns. */
  method BlockDecode(b64: string) returns (out: seq<Byte>)
    ensures out == Groups(Stripped(b64))
  {
    hide Index, Groups, Block, Byte16, Byte8, ByteLow, Stripped;
    var str := Stripped(b64);
    out := [];
    var i := 0;
    NoGroups();
    assert str[0..] == str;
    while i < |str|
      invariant 0 <= i && out + Groups(From(str, i)) == Groups(str)
      decreases |str| - i
    {
      GroupStep(str, i);
      var c1, c2, c3, c4 := PlaceAt(str, i), PlaceAt(str, i + 1), PlaceAt(str, i + 2), PlaceAt(str, i + 3);
      var n := Block(c1, c2, c3, c4);
      var got := [Byte16(n)];
      if c3 != -1 && i + 2 < |str| {
        got := got + [Byte8(n)];
      }
      if c4 != -1 && i + 3 < |str| {
        got := got + [ByteLow(n)];
      }
      ghost var before := out;
      out := out + got;
      i := i + 4;
      assert out + Groups(From(str, i)) == before + (got + Groups(From(str, i)));
    }
    assert From(str, i) == "" && out + [] == out;
  }

  lemma NoGroups()
    ensures Groups("") == []
  {
  }

  /** One turn of the loop. */
  lemma GroupStep(s: string, i: nat)
    requires i < |s|
    ensures var c3, c4 := PlaceAt(s, i + 2), PlaceAt(s, i + 3);
            var n := Block(PlaceAt(s, i), PlaceAt(s, i + 1), c3, c4);
            Groups(From(s, i)) ==
            [Byte16(n)] + (if c3 >= 0 && i + 2 < |s| then [Byte8(n)] else [])
            + (if c4 >= 0 && i + 3 < |s| then [ByteLow(n)] else []) + Groups(From(s, i + 4))
  {
    hide Index, Block, Byte16, Byte8, ByteLow, Byte0, Byte1, Byte2;
    var t := From(s, i);
    assert t != "" && Groups(t) == Group(t) + Groups(From(t, 4));
    assert forall j: nat :: j < 4 ==> PlaceAt(t, j) == PlaceAt(s, i + j);
    assert From(t, 4) == From(s, i + 4);
    BlockBytes(PlaceAt(s, i), PlaceAt(s, i + 1), PlaceAt(s, i + 2), PlaceAt(s, i + 3));
  }

  // ---------------------------------------------------------------- where the two agree

  /** How many letters a text starts with. */
  function Lead(s: string): (k: nat)
    ensures k <= |s| && (forall j :: 0 <= j < k ==> Index(s[j]) >= 0) && (k < |s| ==> Index(s[k]) < 0)
  {
    if s == "" || Index(s[0]) < 0 then 0 else 1 + Lead(s[1..])
  }

  predicate NoLetters(s: string) { forall j :: 0 <= j < |s| ==> Index(s[j]) < 0 }

  /** Characters outside the alphabet stand only in the third and fourth place of the last group, with no
      letter after them; and no letter is alone in the last group. */
  predicate OthersTrail(s: string) {
    var k := Lead(s);
    && NoLetters(s[k..])
    && if k == |s| then k % 4 != 1 else k % 4 >= 2 && k % 4 + |s| - k <= 4
  }

  /** The same text with other letters in the places of its letters. */
  ghost predicate Relettered(s: string, u: string) {
    |u| == |s| && forall j :: 0 <= j < |s| ==> if Index(s[j]) < 0 then u[j] == s[j] else Index(u[j]) >= 0
  }

  /** The block and the streaming decoder agree on a text whatever its letters are if and only if the other
      characters trail. */
  lemma DecodersAgree(s: string)
    ensures (forall u :: Relettered(s, u) ==> Groups(Stripped(u)) == Bytes(Sextets(u))) <==> OthersTrail(Stripped(s))
  {
    hide Index, Groups, Bytes, Sextets, Stripped, OthersTrail, Relettered;
    var n := IsStripped(s);
    var t := Stripped(s);
    if OthersTrail(t) {
      forall u | Relettered(s, u)
        ensures Groups(Stripped(u)) == Bytes(Sextets(u))
      {
        RelettersStripped(t, n, u);
        SameTrail(t, Stripped(u));
        TrailAgrees(Stripped(u));
        var m := IsStripped(u);
        SextetsPads(Stripped(u), m);
      }
    } else {
      var u := Differing(t);
      RelettersPadded(t, n, u);
      StrippedPads(u, n);
      SextetsPads(u, n);
    }
  }

  lemma {:induction false} SextetsPads(s: string, n: nat)
    ensures Sextets(s + Pads(n)) == Sextets(s)
  {
    hide Index;
    var t := s + Pads(n);
    if s == "" {
      assert t == Pads(n);
    } else {
      assert t[1..] == s[1..] + Pads(n);
      SextetsPads(s[1..], n);
    }
  }

  lemma RelettersPadded(t: string, n: nat, u: string)
    requires Relettered(t, u) && !PadLast(t)
    ensures Relettered(t + Pads(n), u + Pads(n)) && !PadLast(u)
  {
    hide Index;
    PadIsNone();
  }

  lemma PadIsNone()
    ensures Index(PAD) < 0
  {
  }

  lemma RelettersStripped(t: string, n: nat, u: string)
    requires Relettered(t + Pads(n), u) && !PadLast(t)
    ensures Relettered(t, Stripped(u))
  {
    hide Index, Stripped;
    PadIsNone();
    var s, r := t + Pads(n), u[..|t|];
    assert forall j :: 0 <= j < |t| ==> s[j] == t[j] && r[j] == u[j];
    assert forall j :: |t| <= j < |s| ==> s[j] == PAD;
    assert u == r + Pads(n);
    StrippedPads(r, n);
  }

  lemma {:induction false} LeadIs(s: string, k: nat)
    requires k <= |s| && (forall j :: 0 <= j < k ==> Index(s[j]) >= 0) && (k < |s| ==> Index(s[k]) < 0)
    ensures Lead(s) == k
  {
    hide Index;
    if k > 0 {
      LeadIs(s[1..], k - 1);
    }
  }

  /** Whether the others trail does not depend on the letters. */
  lemma SameTrail(s: string, u: string)
    requires Relettered(s, u) && OthersTrail(s)
    ensures OthersTrail(u)
  {
    hide Index, Lead;
    LeadIs(u, Lead(s));
    assert forall j :: 0 <= j < |s| - Lead(s) ==> s[Lead(s)..][j] == s[Lead(s) + j];
  }

  lemma FourLetters(s: string)
    requires Lead(s) >= 4
    ensures Lead(s) == 4 + Lead(s[4..]) && (OthersTrail(s) <==> OthersTrail(s[4..]))
    ensures forall j :: 0 <= j < 4 ==> Index(s[j]) >= 0
  {
    hide Index, Lead, NoLetters;
    var t, k := s[4..], Lead(s);
    LeadIs(t, k - 4);
    assert s[k..] == t[k - 4..];
    assert k % 4 == (k - 4) % 4;
  }

  lemma FourGroups(s: string)
    requires |s| >= 4 && forall j :: 0 <= j < 4 ==> Index(s[j]) >= 0
    ensures var a: Sextet, b: Sextet, c: Sextet, d: Sextet := Index(s[0]), Index(s[1]), Index(s[2]), Index(s[3]);
            Groups(s) == [Byte0(a, b), Byte1(b, c), Byte2(c, d)] + Groups(s[4..])
  {
    hide Index, Group, Byte0, Byte1, Byte2;
    FourGroup(s);
    assert From(s, 4) == s[4..];
  }

  lemma FourGroup(s: string)
    requires |s| >= 4 && forall j :: 0 <= j < 4 ==> Index(s[j]) >= 0
    ensures var a: Sextet, b: Sextet, c: Sextet, d: Sextet := Index(s[0]), Index(s[1]), Index(s[2]), Index(s[3]);
            Group(s) == [Byte0(a, b), Byte1(b, c), Byte2(c, d)]
  {
    hide Index, Byte0, Byte1, Byte2;
  }

  /** Four letters are read the same by both. */
  lemma FourSame(s: string)
    requires |s| >= 4 && forall j :: 0 <= j < 4 ==> Index(s[j]) >= 0
    ensures var a: Sextet, b: Sextet, c: Sextet, d: Sextet := Index(s[0]), Index(s[1]), Index(s[2]), Index(s[3]);
            var three := [Byte0(a, b), Byte1(b, c), Byte2(c, d)];
            && Groups(s) == three + Groups(s[4..])
            && Bytes(Sextets(s)) == three + Bytes(Sextets(s[4..]))
  {
    hide Index, Byte0, Byte1, Byte2, Bytes, Sextets, Groups;
    var v: seq<Sextet> := [Index(s[0]), Index(s[1]), Index(s[2]), Index(s[3])];
    FourGroups(s);
    FourPlaces(s);
    BytesStep(v, Sextets(s[4..]));
    assert v[4..] + Sextets(s[4..]) == Sextets(s[4..]);
  }

  lemma FourPlaces(s: string)
    requires |s| >= 4 && forall j :: 0 <= j < 4 ==> Index(s[j]) >= 0
    ensures Sextets(s) == [Index(s[0]), Index(s[1]), Index(s[2]), Index(s[3])] + Sextets(s[4..])
  {
    hide Index, Sextets;
    TwoPlaces(s);
    TwoPlaces(s[2..]);
    assert s[2..][2..] == s[4..] && s[2..][0] == s[2] && s[2..][1] == s[3];
    TwoPairs(Index(s[0]), Index(s[1]), Index(s[2]), Index(s[3]), Sextets(s[4..]));
  }

  lemma TwoPlaces(s: string)
    requires |s| >= 2 && Index(s[0]) >= 0 && Index(s[1]) >= 0
    ensures Sextets(s) == [Index(s[0]), Index(s[1])] + Sextets(s[2..])
  {
    hide Index, Sextets;
    FirstPlace(s);
    FirstPlace(s[1..]);
    assert s[1..][1..] == s[2..] && s[1..][0] == s[1];
  }

  lemma FirstPlace(s: string)
    requires s != "" && Index(s[0]) >= 0
    ensures Sextets(s) == [Index(s[0])] + Sextets(s[1..])
  {
    hide Index;
    PadIsNone();
  }

  lemma TwoPairs(a: Sextet, b: Sextet, c: Sextet, d: Sextet, r: seq<Sextet>)
    ensures [a, b] + ([c, d] + r) == [a, b, c, d] + r
  {
  }

  /** The letters a text starts with come first among its sextets. */
  lemma {:induction false} SextetsLead(s: string, k: nat)
    requires k <= |s| && Letters(s[..k])
    ensures Sextets(s) == Places(s[..k]) + Sextets(s[k..])
  {
    hide Index;
    if k > 0 {
      var t, l := s[1..], s[..k];
      assert l[1..] == t[..k - 1] && t[k - 1..] == s[k..] && l[0] == s[0];
      assert Letters(l[1..]);
      SextetsLead(t, k - 1);
      assert Places(l) == [Index(l[0])] + Places(l[1..]);
    } else {
      assert s[0..] == s;
    }
  }

  lemma {:induction false} NoSextets(s: string)
    requires NoLetters(s)
    ensures Sextets(s) == []
  {
    hide Index;
    if s != "" && s[0] != PAD {
      NoSextets(s[1..]);
    }
  }

  lemma {:induction false} TrailAgrees(s: string)
    requires OthersTrail(s)
    ensures Groups(s) == Bytes(Sextets(s))
    decreases |s|
  {
    hide Index, Groups, Bytes, Sextets, Lead, OthersTrail;
    if Lead(s) >= 4 {
      FourLetters(s);
      TrailAgrees(s[4..]);
      FourSame(s);
    } else {
      ShortTrail(s);
    }
  }

  lemma ShortTrail(s: string)
    requires OthersTrail(s) && Lead(s) < 4
    ensures Groups(s) == Bytes(Sextets(s))
  {
    hide Index, Group, Groups, Bytes, Sextets, Lead, Byte0, Byte1, OthersTrail;
    var k := Lead(s);
    var l := s[..k];
    TrailLengths(s);
    assert forall j :: 0 <= j < k ==> l[j] == s[j];
    SextetsLead(s, k);
    NoSextets(s[k..]);
    assert Places(l) + [] == Places(l);
    NoGroups();
    if k >= 2 {
      assert forall j :: k <= j < |s| ==> s[k..][j - k] == s[j];
      ShortGroup(s, k);
      LastGroup(s);
    }
    if k == 2 {
      TwoBytes(Places(l));
    } else if k == 3 {
      ThreeBytes(Places(l));
    } else {
      OneByte(Places(l));
    }
  }

  lemma TrailLengths(s: string)
    requires OthersTrail(s) && Lead(s) < 4
    ensures NoLetters(s[Lead(s)..]) && Lead(s) != 1 && (Lead(s) == 0 ==> s == "") && |s| <= 4
  {
    hide Lead, NoLetters;
    assert Lead(s) % 4 == Lead(s);
  }

  lemma LastGroup(s: string)
    requires 0 < |s| <= 4
    ensures Groups(s) == Group(s)
  {
    hide Group;
    assert From(s, 4) == "" && Group(s) + [] == Group(s);
  }

  lemma ShortGroup(s: string, k: nat)
    requires 2 <= k <= 3 && k <= |s| <= 4 && forall j :: 0 <= j < |s| ==> (Index(s[j]) >= 0 <==> j < k)
    ensures k == 2 ==> Group(s) == [Byte0(Index(s[0]), Index(s[1]))]
    ensures k == 3 ==> Group(s) == [Byte0(Index(s[0]), Index(s[1])), Byte1(Index(s[1]), Index(s[2]))]
  {
    hide Index, Byte0, Byte1, Byte2;
  }

  /** The letter A in every place of a letter, but B in the fifth. */
  function Plainest(s: string): string {
    seq(|s|, j requires 0 <= j < |s| => if Index(s[j]) < 0 then s[j] else if j == 4 then 'B' else 'A')
  }

  lemma FirstLetters()
    ensures Index('A') == 0 && Index('B') == 1
  {
  }

  /** Where the others do not trail, letters on which the two decoders differ. */
  lemma {:induction false} Differing(s: string) returns (u: string)
    requires !OthersTrail(s) && !PadLast(s)
    ensures Relettered(s, u) && Groups(u) != Bytes(Sextets(u))
    decreases |s|
  {
    hide Index, Groups, Bytes, Sextets, Lead, OthersTrail;
    if Lead(s) >= 4 {
      FourLetters(s);
      var t := Differing(s[4..]);
      u := s[..4] + t;
      assert u[4..] == t;
      FourSame(u);
      SameAfter([Byte0(Index(u[0]), Index(u[1])), Byte1(Index(u[1]), Index(u[2])), Byte2(Index(u[2]), Index(u[3]))],
        Groups(t), Bytes(Sextets(t)));
    } else {
      u := Plainest(s);
      FirstLetters();
      PlainestDiffers(s);
    }
  }

  /** A byte of one decoder is at least four, and the other's in its place is smaller or missing. */
  lemma PlainestDiffers(s: string)
    requires !OthersTrail(s) && Lead(s) < 4
    ensures Groups(Plainest(s)) != Bytes(Sextets(Plainest(s)))
  {
    hide Index, Groups, Bytes, Sextets, Lead, Plainest, OthersTrail;
    var u, k := Plainest(s), Lead(s);
    NotTrailing(s);
    PlainestIs(s);
    SmallSextets(u);
    SextetsLead(u, k);
    SmallBytes(Sextets(u));
    if k < 2 {
      Nothing();
      GroupHead(u);
      assert |u| == k ==> u[k..] == "";
    } else {
      GroupsSkip(u, k);
    }
  }

  lemma NotTrailing(s: string)
    requires !OthersTrail(s) && Lead(s) < 4
    ensures s != ""
    ensures Lead(s) >= 2 ==> |s| > Lead(s) && (|s| > 4 || (Lead(s) == 2 && |s| == 4 && Index(s[3]) >= 0))
  {
    hide Index, Lead;
    var k := Lead(s);
    assert k % 4 == k;
  }

  lemma PlainestIs(s: string)
    requires Lead(s) < 4
    ensures var u, k := Plainest(s), Lead(s);
            && |u| == |s| && Letters(u[..k]) && Places(u[..k]) == seq(k, _ => 0)
            && (k < |s| ==> Index(u[k]) < 0)
            && (|s| > 4 ==> Index(u[4]) < 0 || Index(u[4]) == 1)
            && forall j :: 0 <= j < |u| ==> Index(u[j]) <= 1 && (Index(s[j]) >= 0 ==> Index(u[j]) >= 0)
  {
    hide Index, Lead;
    FirstLetters();
    var k := Lead(s);
    assert forall j :: 0 <= j < k ==> s[..k][j] == s[j];
  }

  lemma {:induction false} SmallSextets(u: string)
    requires forall j :: 0 <= j < |u| ==> Index(u[j]) <= 1
    ensures forall j :: 0 <= j < |Sextets(u)| ==> Sextets(u)[j] <= 1
  {
    hide Index;
    if u != "" {
      SmallSextets(u[1..]);
    }
  }

  lemma SmallBytes(v: seq<Sextet>)
    requires forall j :: 0 <= j < |v| ==> v[j] <= 1
    ensures var b := Bytes(v);
            && (|v| < 2 ==> b == [])
            && (|b| > 0 ==> b[0] <= 4)
            && (|b| > 1 && v[1] == 0 ==> b[1] == 0)
            && (|b| > 2 && v[2] == 0 ==> b[2] <= 1)
  {
    hide Bytes, Byte0, Byte1, Byte2;
    if |v| < 2 {
      OneByte(v);
    } else {
      HighByte(v[0], v[1]);
      if |v| == 2 {
        TwoBytes(v);
      } else {
        MiddleByte(v[1], v[2]);
        if |v| == 3 {
          ThreeBytes(v);
        } else {
          BytesStep(v, []);
          LowByte(v[2], v[3]);
        }
      }
    }
  }

  lemma HighByte(a: nat, b: nat)
    requires a <= 1 && b <= 1
    ensures Byte0(a, b) <= 4
  {
  }

  lemma MiddleByte(a: nat, b: nat)
    requires a <= 1 && b <= 1
    ensures a == 0 ==> Byte1(a, b) == 0
  {
  }

  lemma LowByte(a: nat, b: nat)
    requires a <= 1 && b <= 1
    ensures a == 0 ==> Byte2(a, b) <= 1
  {
  }

  lemma GroupHead(u: string)
    requires u != ""
    ensures Groups(u) != []
    ensures Index(u[0]) < 0 || Index(u[0]) == 1 ==> Groups(u)[0] >= 4
    ensures Index(u[0]) < 0 || (|u| > 1 && Index(u[1]) < 0) ==> Groups(u)[0] >= 252
  {
    hide Index;
  }

  /** The third character, or the fourth, is outside the alphabet. */
  lemma GroupsSkip(u: string, k: nat)
    requires 2 <= k <= 3 && k < |u| && Letters(u[..k]) && Index(u[k]) < 0
    requires if |u| > 4 then Index(u[4]) < 0 || Index(u[4]) == 1 else k == 2 && |u| == 4 && Index(u[3]) >= 0
    ensures |Groups(u)| >= k && Groups(u)[k - 1] >= 4
  {
    hide Index, Byte0, Byte1;
    assert forall j :: 0 <= j < k ==> u[j] == u[..k][j];
    if |u| > 4 {
      GroupHead(From(u, 4));
    }
  }

  /** Five letters: the fourth byte is made of the fifth letter alone. */
  lemma OneLetterOver()
    ensures Groups(Stripped("AAAAA")) == [0, 0, 0, 0]
    ensures Bytes(Sextets("AAAAA")) == [0, 0, 0]
  {
    hide Bytes, InBlocks, Groups, Sextets, Byte0, Byte1, Byte2;
    var s := "AAAAA";
    var four: seq<Sextet>, one: seq<Sextet> := [0, 0, 0, 0], [0];
    ZeroBytes();
    assert four[4..] + one == one;
    assert forall j :: 0 <= j < |s| ==> s[j] == 'A';
    assert Places(s) == four + one;
    SextetsOfLetters(s, 0);
    assert s + Pads(0) == s;
    GroupsOfLetters(s);
    BytesStep(four, one);
    OneByte(one);
    FourBytes(four);
    OneInBlocks(four, one);
  }

  lemma ZeroBytes()
    ensures Byte0(0, 0) == 0 && Byte1(0, 0) == 0 && Byte2(0, 0) == 0
  {
    hide Byte0, Byte1, Byte2;
    ZeroHigh(0);
    ZeroMiddle(0);
    ZeroLow(0);
  }

  lemma ZeroHigh(z: nat)
    requires z == 0
    ensures Byte0(z, z) == 0
  {
  }

  lemma ZeroMiddle(z: nat)
    requires z == 0
    ensures Byte1(z, z) == 0
  {
  }

  lemma ZeroLow(z: nat)
    requires z == 0
    ensures Byte2(z, z) == 0
  {
  }

  lemma OneInBlocks(v: seq<Sextet>, w: seq<Sextet>)
    requires |v| == 4 && |w| == 1
    ensures InBlocks(v + w) == [Byte0(v[0], v[1]), Byte1(v[1], v[2]), Byte2(v[2], v[3]), Byte0(w[0], 0)]
  {
    hide Byte0, Byte1, Byte2;
    assert (v + w)[4..] == w;
  }

  // ---------------------------------------------------------------- the array decoder

  /** The bundle's code table: both alphabets, and zero for anything else. */
  function Code(c: char): (v: nat)
    ensures v < 64 && (Index(c) >= 0 ==> v == Index(c))
  {
    if c == '-' then 62 else if c == '_' then 63 else if Index(c) >= 0 then Index(c) else 0
  }

  /** The table in full: the two letters of the alphabet of section 5 of RFC 4648 stand for those of section 4
      in their places, and a character of neither alphabet reads as the first letter. */
  lemma BothAlphabets(c: char)
    ensures Code('-') == Code('+') && Code('_') == Code('/')
    ensures Index(c) < 0 && c != '-' && c != '_' ==> Code(c) == Code('A')
  {
  }

  function FirstPad(s: string): (t: nat)
    ensures t <= |s|
  {
    if s == "" || s[0] == PAD then 0 else 1 + FirstPad(s[1..])
  }

  lemma {:induction false} FirstPadOfRegular(l: string, n: nat)
    requires Letters(l)
    ensures FirstPad(l + Pads(n)) == |l|
  {
    hide Index;
    var s := l + Pads(n);
    if l != "" {
      assert s[1..] == l[1..] + Pads(n);
      assert Index(l[0]) >= 0;
      FirstPadOfRegular(l[1..], n);
    } else {
      assert s == Pads(n);
    }
  }

  /** The code of every character. */
  function Codes(s: string): (v: seq<Sextet>)
    ensures |v| == |s|
  {
    seq(|s|, j requires 0 <= j < |s| => Code(s[j]))
  }

  /** The letters that the array decoder reads in whole groups or in a padded one: those before the first
      pad, less a whole group when that pad starts a group itself. */
  function ReadLength(s: string): int {
    if PadCount(s) == 4 then FirstPad(s) - 4 else FirstPad(s)
  }

  /** The array decoder's reading of any text: an error unless the length is a multiple of four and the text
      does not start with a pad; two zero bytes at the end when the first pad starts a group. */
  function ArrayMeaning(s: string): Option<seq<Byte>> {
    if |s| % 4 > 0 || ReadLength(s) < 0 then None
    else Some(Bytes(Codes(s[..ReadLength(s)])) + (if PadCount(s) == 4 then [0, 0] else []))
  }

  /** On letters followed by at most two pads it is the plain reading. */
  lemma {:induction false} ArrayMeaningOfLetters(l: string, n: nat)
    requires Letters(l) && n <= 2 && (|l| + n) % 4 == 0
    ensures ArrayMeaning(l + Pads(n)) == Some(Bytes(Places(l)))
  {
    hide Index, Bytes, FirstPad;
    var s := l + Pads(n);
    FirstPadOfRegular(l, n);
    assert n > 0 ==> 4 - |l| % 4 == n;
    assert s[..|l|] == l && Codes(l) == Places(l);
    assert Bytes(Places(l)) + [] == Bytes(Places(l));
  }

  /** How many bytes so many sextets are. */
  lemma {:induction false} BytesLength(v: seq<Sextet>, n: nat)
    requires n <= 3 && Quarters(|v| + n)
    ensures |Bytes(v)| == (|v| + n) * 3 / 4 - n
    decreases |v|
  {
    hide Byte0, Byte1, Byte2;
    if |v| >= 4 {
      BytesLength(v[4..], n);
      assert (|v| + n) * 3 / 4 == (|v| - 4 + n) * 3 / 4 + 3;
    }
  }

  predicate Quarters(k: int) { k % 4 == 0 }

  /** How many pads the decoder takes a text to end in, from where the first one is. */
  function PadCount(s: string): nat {
    if FirstPad(s) == |s| then 0 else 4 - FirstPad(s) % 4
  }

  function ArraySize(s: string): int { (FirstPad(s) + PadCount(s)) * 3 / 4 - PadCount(s) }

  lemma PadsComplete(s: string)
    requires |s| % 4 == 0
    ensures PadCount(s) <= 4 && Quarters(FirstPad(s) + PadCount(s))
    ensures PadCount(s) == 4 ==> Quarters(FirstPad(s)) && Quarters(ReadLength(s)) && (ReadLength(s) < 0 <==>
        FirstPad(s) == 0)
    ensures PadCount(s) < 4 ==> ArraySize(s) >= 0
  {
    hide FirstPad;
  }

  /** The array is as long as what is read, and two bytes longer when the first pad starts a group. */
  lemma Layout(s: string)
    requires |s| % 4 == 0
    ensures PadCount(s) <= 4 && Quarters(FirstPad(s) + PadCount(s))
    ensures ReadLength(s) == if PadCount(s) == 4 then FirstPad(s) - 4 else FirstPad(s)
    ensures ArraySize(s) < 0 <==> ReadLength(s) < 0
    ensures ReadLength(s) >= 0 ==>
              && ReadLength(s) <= |s|
              && ArraySize(s) == |Bytes(Codes(s[..ReadLength(s)]))| + (if PadCount(s) == 4 then 2 else 0)
  {
    hide FirstPad, Bytes, Code;
    hide Codes, Quarters;
    var t, p := FirstPad(s), PadCount(s);
    PadsComplete(s);
    if ReadLength(s) >= 0 {
      BytesLength(Codes(s[..ReadLength(s)]), if p == 4 then 0 else p);
    }
  }

  /** Stores bytes one after another; a store past the end does nothing. */
  method Store(o: array<Byte>, u: nat, bytes: seq<Byte>) returns (u': nat)
    modifies o
    ensures u' == u + |bytes|
    ensures u' <= o.Length ==> o[..u'] == old(o[..u]) + bytes
    ensures forall k :: u' <= k < o.Length ==> o[k] == old(o[k])
  {
    u' := u;
    var k := 0;
    while k < |bytes|
      invariant 0 <= k <= |bytes| && u' == u + k
      invariant u' <= o.Length ==> o[..u'] == old(o[..u]) + bytes[..k]
      invariant forall j :: u' <= j < o.Length ==> o[j] == old(o[j])
    {
      if u' < o.Length {
        o[u'] := bytes[k];
      }
      u', k := u' + 1, k + 1;
    }
  }

  function CodeAt(s: string, j: nat): (v: nat)
    ensures v < 64
  {
    if j < |s| then Code(s[j]) else 0
  }

  /** `toByteArray`: an error unless the length is a multiple of four (or when the size comes
      out negative); writes past the end of the array are lost, as in JavaScript. */
  method ToByteArray(i: string) returns (r: Option<seq<Byte>>)
    ensures r == ArrayMeaning(i)
  {
    hide Bytes, Codes, FirstPad, PadCount, ArraySize, ReadLength;
    if |i| % 4 > 0 {
      return None;
    }
    Layout(i);
    var size := ArraySize(i);
    if size < 0 {
      return None;
    }
    var o := new Byte[size](_ => 0);
    FillArray(o, i, FirstPad(i), PadCount(i));
    return Some(o[..]);
  }

  /** The decoding loop and the padded group after it. */
  method FillArray(o: array<Byte>, i: string, t: nat, e: nat)
    requires |i| % 4 == 0 && t == FirstPad(i) && e == PadCount(i) && ReadLength(i) >= 0 && o.Length == ArraySize(i)
    requires forall k :: 0 <= k < o.Length ==> o[k] == 0
    modifies o
    ensures Some(o[..]) == ArrayMeaning(i)
  {
    hide ArrayMeaning, ReadLength, Bytes, Code, Codes, FirstPad, PadCount, ArraySize, Quarters;
    Layout(i);
    ghost var v := Codes(i[..ReadLength(i)]);
    ghost var whole := Bytes(v);
    var u: nat, c: nat := 0, 0;
    var f: int := if e > 0 then t as int - 4 else t;
    assert v[0..] == v && o[..0] == [];
    QuartersStep(0);
    while c < f
      invariant c <= |v| && Quarters(c)
      invariant u + |Bytes(v[c..])| == |whole|
      invariant o[..u] + Bytes(v[c..]) == whole
      invariant forall k :: u <= k < o.Length ==> o[k] == 0
    {
      QuartersStep(c);
      GroupFits(c, t, e);
      u := FillGroup(o, u, i, ReadLength(i), c);
      c := c + 4;
    }
    Remaining(c, t, e);
    u := FillTail(o, u, i, ReadLength(i), c, e);
    assert o[..u] == whole;
    Filled(i, o[..], u);
  }

  /** One turn of the loop, on a whole group. */
  method FillGroup(o: array<Byte>, u: nat, i: string, ghost n: nat, c: nat) returns (u': nat)
    requires c + 4 <= n <= |i| && u + |Bytes(Codes(i[..n])[c..])| <= o.Length
    modifies o
    ensures u' == u + 3 && u' + |Bytes(Codes(i[..n])[c + 4..])| == u + |Bytes(Codes(i[..n])[c..])|
    ensures o[..u'] + Bytes(Codes(i[..n])[c + 4..]) == old(o[..u]) + Bytes(Codes(i[..n])[c..])
    ensures forall k :: u' <= k < o.Length ==> o[k] == old(o[k])
  {
    hide Bytes, Codes, CodeAt, Block, Byte16, Byte8, ByteLow;
    ghost var rest := Bytes(Codes(i[..n])[c + 4..]);
    GroupAt(i, n, c);
    var w := Block(CodeAt(i, c), CodeAt(i, c + 1), CodeAt(i, c + 2), CodeAt(i, c + 3));
    var bytes := [Byte16(w), Byte8(w), ByteLow(w)];
    u' := Store(o, u, bytes);
    assert old(o[..u]) + bytes + rest == old(o[..u]) + (bytes + rest);
  }

  lemma GroupAt(i: string, n: nat, c: nat)
    requires c + 4 <= n <= |i|
    ensures var v, w := Codes(i[..n]), Block(CodeAt(i, c), CodeAt(i, c + 1), CodeAt(i, c + 2), CodeAt(i, c + 3));
            Bytes(v[c..]) == [Byte16(w), Byte8(w), ByteLow(w)] + Bytes(v[c + 4..])
  {
    hide Bytes, Codes, CodeAt, Block, Byte16, Byte8, ByteLow, Byte0, Byte1, Byte2;
    FourAt(Codes(i[..n]), c);
    CodesAt(i, n, c);
    BlockBytes(CodeAt(i, c), CodeAt(i, c + 1), CodeAt(i, c + 2), CodeAt(i, c + 3));
  }

  /** The padded group, when there is one: what is left of the n characters that are read. */
  method FillTail(o: array<Byte>, u: nat, i: string, ghost n: nat, c: nat, e: nat) returns (u': nat)
    requires c <= n <= |i| && e <= 4 && n - c == (if e == 0 || e == 4 then 0 else 4 - e)
    requires u + |Bytes(Codes(i[..n])[c..])| <= o.Length
    modifies o
    ensures u' == u + |Bytes(Codes(i[..n])[c..])| && o[..u'] == old(o[..u]) + Bytes(Codes(i[..n])[c..])
    ensures forall k :: u' <= k < o.Length ==> o[k] == old(o[k])
  {
    hide Bytes, Codes, CodeAt, Byte8, ByteLow, TwoCodes, ThreeCodes;
    TailBits(Codes(i[..n]), c, e);
    CodesAt(i, n, c);
    u' := u;
    if e == 2 {
      u' := Store(o, u, [ByteLow(TwoCodes(CodeAt(i, c), CodeAt(i, c + 1)))]);
    }
    if e == 1 {
      var w := ThreeCodes(CodeAt(i, c), CodeAt(i, c + 1), CodeAt(i, c + 2));
      u' := Store(o, u, [Byte8(w), ByteLow(w)]);
    }
  }

  /** What was read, and zeros to the end of the array, is the meaning. */
  lemma Filled(i: string, o: seq<Byte>, u: nat)
    requires |i| % 4 == 0 && ReadLength(i) >= 0 && |o| == ArraySize(i) && u <= |o|
    requires o[..u] == Bytes(Codes(i[..ReadLength(i)])) && forall k :: u <= k < |o| ==> o[k] == 0
    ensures Some(o) == ArrayMeaning(i)
  {
    hide Bytes, Codes, ReadLength, ArraySize, PadCount;
    Layout(i);
    assert o == o[..u] + o[u..];
    assert o[u..] == if PadCount(i) == 4 then [0, 0] else [];
  }

  lemma QuartersStep(k: int)
    ensures Quarters(0) && (Quarters(k) ==> Quarters(k + 4))
  {
  }

  /** A turn of the loop stays before what is read in the end. */
  lemma GroupFits(c: nat, t: nat, e: nat)
    requires Quarters(c) && Quarters(t + e) && e <= 4 && c < (if e > 0 then t as int - 4 else t)
    ensures c + 4 <= if e == 4 then t as int - 4 else t
  {
    var a, b := c / 4, (t + e) / 4;
    assert c == 4 * a && t + e == 4 * b;
  }

  /** What the loop leaves over is the padded group. */
  lemma Remaining(c: nat, t: nat, e: nat)
    requires Quarters(c) && Quarters(t + e) && e <= 4
    requires (if e > 0 then t as int - 4 else t) <= c <= (if e == 4 then t as int - 4 else t)
    ensures (if e == 4 then t - 4 else t) - c == if e == 0 || e == 4 then 0 else 4 - e
  {
    var a, b := c / 4, (t + e) / 4;
    assert c == 4 * a && t + e == 4 * b;
  }

  /** The codes looked up are those that are read. */
  lemma CodesAt(s: string, n: nat, c: nat)
    requires n <= |s|
    ensures forall j: nat :: c <= j < n ==> CodeAt(s, j) == Codes(s[..n])[j]
  {
    hide Code;
  }

  /** `(a << 2) | (b >> 4)` and `(a << 10) | (b << 4) | (d >> 2)`. */
  function TwoCodes(a: nat, b: nat): nat { a * 4 + b / 16 }

  function ThreeCodes(a: nat, b: nat, d: nat): nat { a * 1024 + b * 16 + d / 4 }

  /** The last group, when it is padded. */
  lemma TailBits(v: seq<Sextet>, c: nat, e: nat)
    requires c <= |v| && e <= 4 && |v| - c == (if e == 0 || e == 4 then 0 else 4 - e)
    ensures e == 0 || e >= 3 ==> Bytes(v[c..]) == []
    ensures e == 2 ==> Bytes(v[c..]) == [ByteLow(TwoCodes(v[c], v[c + 1]))]
    ensures e == 1 ==> var w := ThreeCodes(v[c], v[c + 1], v[c + 2]); Bytes(v[c..]) == [Byte8(w), ByteLow(w)]
  {
    hide Bytes, ByteLow, Byte8, TwoCodes, ThreeCodes, Byte0, Byte1;
    var w := v[c..];
    if e == 1 {
      ThreeBytes(w);
      PaddedBits(w[0], w[1], w[2]);
    } else if e == 2 {
      TwoBytes(w);
      PairBits(w[0], w[1]);
    } else {
      OneByte(w);
    }
  }

  lemma PairBits(a: nat, b: nat)
    requires a < 64 && b < 64
    ensures ByteLow(TwoCodes(a, b)) == Byte0(a, b)
  {
  }

  lemma PaddedBits(a: nat, b: nat, d: nat)
    requires a < 64 && b < 64 && d < 64
    ensures var w := ThreeCodes(a, b, d); Byte8(w) == Byte0(a, b) && ByteLow(w) == Byte1(b, d)
  {
    var w := a * 1024 + b * 16 + d / 4;
    assert w / 256 == a * 4 + b / 16;
    assert w == 256 * (a * 4 + b / 16) + (b % 16 * 16 + d / 4);
    Mod256(a * 4 + b / 16, b % 16 * 16 + d / 4);
  }

  lemma FourAt(v: seq<Sextet>, c: nat)
    requires c + 4 <= |v|
    ensures Bytes(v[c..]) ==
            [Byte0(v[c], v[c + 1]), Byte1(v[c + 1], v[c + 2]), Byte2(v[c + 2], v[c + 3])] + Bytes(v[c + 4..])
  {
    hide Byte0, Byte1, Byte2;
    assert v[c..][4..] == v[c + 4..];
  }

  // ---------------------------------------------------------------- the chunked encoder

  /** Bytes handled at a time. */
  const CHUNK := 16383

  predicate Threes(k: int) { k % 3 == 0 }

  lemma ThreesSteps(k: int, c: nat)
    ensures Threes(k) ==> Threes(k - 3) && Threes(k - CHUNK) && (0 <= k ==> k == 0 || k >= 3)
    ensures Threes(CHUNK) && Threes(0) && Threes(c - c % 3)
  {
  }

  /** `Ur` on the 24 bits of three bytes. */
  function Letters4(n: nat): string {
    Four(n / 262144 % 64, n / 4096 % 64, n / 64 % 64, n % 64)
  }

  lemma Letters4IsQuad(x: Byte, y: Byte, z: Byte)
    ensures Letters4(x * 65536 + y * 256 + z) == Quad(x, y, z)
  {
    hide Four;
    WordSextets(x, y, z);
  }

  lemma WordSextets(x: Byte, y: Byte, z: Byte)
    ensures var n: nat := x * 65536 + y * 256 + z;
            && n / 262144 % 64 == x / 4 && n / 4096 % 64 == x % 4 * 16 + y / 16
            && n / 64 % 64 == y % 16 * 4 + z / 64 && n % 64 == z % 64
  {
    var n: nat := x * 65536 + y * 256 + z;
    var xq: nat, xr: nat, yq: nat, yr: nat, zq: nat, zr: nat := x / 4, x % 4, y / 16, y % 16, z / 64, z % 64;
    NineDigits(n, x, y, z, xq, xr, yq, yr, zq, zr);
    Digits64(n, xq, 16 * xr + yq, 4 * yr + zq, zr);
  }

  lemma NineDigits(n: nat, x: nat, y: nat, z: nat, xq: nat, xr: nat, yq: nat, yr: nat, zq: nat, zr: nat)
    requires n == x * 65536 + y * 256 + z && x == 4 * xq + xr && y == 16 * yq + yr && z == 64 * zq + zr
    ensures n == 262144 * xq + 4096 * (16 * xr + yq) + 64 * (4 * yr + zq) + zr
  {
  }

  lemma Digits64(n: nat, a: nat, b: nat, c: nat, d: nat)
    requires a < 64 && b < 64 && c < 64 && d < 64 && n == 262144 * a + 4096 * b + 64 * c + d
    ensures n / 262144 % 64 == a && n / 4096 % 64 == b && n / 64 % 64 == c && n % 64 == d
  {
    assert n / 64 == 4096 * a + 64 * b + c;
    assert n / 4096 == 64 * a + b;
    assert n / 262144 == a;
  }

  lemma {:induction false} EncodedConcat(a: seq<Byte>, b: seq<Byte>)
    requires Threes(|a|)
    ensures Encoded(a + b) == Encoded(a) + Encoded(b)
    decreases |a|
  {
    hide Letter, Quad;
    if a == [] {
      assert a + b == b;
    } else {
      ThreesSteps(|a|, 0);
      var t := a[3..];
      assert (a + b)[3..] == t + b;
      EncodedConcat(t, b);
    }
  }

  /** `Tr`: the bytes from `r` to `t`. */
  method EncodeChunk(i: seq<Byte>, r: nat, t: nat) returns (e: string)
    requires r <= t <= |i| && Threes(t - r)
    ensures e == Encoded(i[r..t])
  {
    hide Letters4, Quad, Encoded, Threes;
    e := "";
    var o := r;
    ThreesSteps(0, 0);
    assert i[r..r] == [] && Encoded([]) == "" by { EncodedNothing(); }
    while o < t
      invariant r <= o <= t && Threes(t - o) && Threes(o - r) && e == Encoded(i[r..o])
    {
      ThreesSteps(t - o, 0);
      ThreesNext(o - r);
      Letters4IsQuad(i[o], i[o + 1], i[o + 2]);
      EncodedThree(i[o], i[o + 1], i[o + 2]);
      assert i[r..o + 3] == i[r..o] + [i[o], i[o + 1], i[o + 2]];
      EncodedConcat(i[r..o], [i[o], i[o + 1], i[o + 2]]);
      var n: nat := (i[o] as int * 65536) % 16777216 + (i[o + 1] as int * 256) % 65536 + i[o + 2];
      e := e + Letters4(n);
      o := o + 3;
    }
  }

  lemma EncodedNothing()
    ensures Encoded([]) == ""
  {
  }

  lemma EncodedThree(x: Byte, y: Byte, z: Byte)
    ensures Encoded([x, y, z]) == Quad(x, y, z)
  {
    hide Quad;
    assert [x, y, z][3..] == [];
  }

  lemma ThreesNext(k: int)
    ensures Threes(k) ==> Threes(k + 3)
  {
  }

  /** `fromByteArray`: chunks of CHUNK bytes, then what is left over, padded.  Where the chunks
      end makes no difference. */
  method Encode(i: seq<Byte>) returns (e: string)
    ensures e == Encoded(i)
  {
    hide Encoded, Letter, Threes;
    var t := |i|;
    var n := t % 3;
    e := "";
    EncodedNothing();
    var u: nat, f: nat := 0, t - n;
    ThreesSteps(0, t);
    while u < f
      invariant u <= f && Threes(f - u) && Threes(u) && e == Encoded(i[..u])
    {
      var to := if u + CHUNK > f then f else u + CHUNK;
      ThreesSteps(f - u, 0);
      ThreesSum(u, f, to);
      var part := EncodeChunk(i, u, to);
      assert i[..to] == i[..u] + i[u..to];
      EncodedConcat(i[..u], i[u..to]);
      e := e + part;
      u := to;
    }
    assert i == i[..f] + i[f..];
    EncodedConcat(i[..f], i[f..]);
    if n == 1 {
      var r: nat := i[t - 1];
      e := e + [Letter(r / 4), Letter(r * 16 % 64), PAD, PAD];
      LeftOver(i[f..]);
    } else if n == 2 {
      var r: nat := i[t - 2] as int * 256 + i[t - 1];
      e := e + [Letter(r / 1024), Letter(r / 16 % 64), Letter(r * 4 % 64), PAD];
      LeftOver(i[f..]);
    }
  }

  lemma ThreesSum(u: nat, f: nat, to: nat)
    requires u <= f && Threes(u) && Threes(f - u) && (to == f || to == u + CHUNK)
    ensures Threes(to - u) && Threes(to) && Threes(f - to)
  {
  }

  lemma LeftOver(b: seq<Byte>)
    requires 0 < |b| <= 2
    ensures |b| == 1 ==> var r: nat := b[0]; Encoded(b) == [Letter(r / 4), Letter(r * 16 % 64), PAD, PAD]
    ensures |b| == 2 ==> var r: nat := b[0] as int * 256 + b[1];
                         Encoded(b) == [Letter(r / 1024), Letter(r / 16 % 64), Letter(r * 4 % 64), PAD]
  {
    hide Letter;
    if |b| == 1 {
      OneLeft(b[0]);
    } else {
      TwoLeft(b[0], b[1]);
    }
  }

  lemma OneLeft(x: nat)
    requires x < 256
    ensures x * 16 % 64 == x % 4 * 16
  {
    var q, r := x / 4, x % 4;
    assert x * 16 == 64 * q + 16 * r;
  }

  lemma TwoLeft(x: nat, y: nat)
    requires x < 256 && y < 256
    ensures (x * 256 + y) / 1024 == x / 4
    ensures (x * 256 + y) / 16 % 64 == x % 4 * 16 + y / 16
    ensures (x * 256 + y) * 4 % 64 == y % 16 * 4
  {
    var r := x * 256 + y;
    var xq, xr, yq, yr := x / 4, x % 4, y / 16, y % 16;
    assert r == 1024 * xq + (256 * xr + y);
    assert r / 16 == 64 * xq + (16 * xr + yq) by {
      assert r == 16 * (64 * xq + (16 * xr + yq)) + yr;
    }
    Mod64(xq, 16 * xr + yq);
    assert r * 4 == 64 * (16 * x + yq) + 4 * yr;
    Mod64(16 * x + yq, 4 * yr);
  }

  /** What the encoder writes, each of the three decoders reads back: by their contracts they
      return these three results on it. */
  lemma {:induction false} AllDecodersInvert(b: seq<Byte>)
    ensures Bytes(Sextets(Encoded(b))) == b
    ensures Groups(Stripped(Encoded(b))) == b
    ensures ArrayMeaning(Encoded(b)) == Some(b)
  {
    hide Encoded, Sextets, Bytes, InBlocks, Groups, Stripped, Letters, Places, Index, ArrayMeaning;
    EncodedDecodes(b);
    var l, n := EncodedShape(b);
    StrippedLetters(l, n);
    GroupsOfLetters(l);
    InBlocksIsBytes(Places(l));
    ArrayMeaningOfLetters(l, n);
  }
}
