/** Numbers in hexadecimal, as JavaScript's toString(16) and C's %zx print them. */
module Hexadecimal {
  predicate IsDigit(c: char) { '0' <= c <= '9' }

  predicate IsHex(c: char) { '0' <= c <= '9' || 'a' <= c <= 'f' || 'A' <= c <= 'F' }

  function DigitValue(c: char): (d: nat)
    requires IsHex(c)
    ensures d < 16 && (IsDigit(c) ==> d < 10)
  {
    if '0' <= c <= '9' then (c - '0') as int
    else if 'a' <= c <= 'f' then (c - 'a') as int + 10
    else (c - 'A') as int + 10
  }

  function HexDigit(d: nat): (c: char)
    requires d < 16
    ensures IsHex(c) && DigitValue(c) == d
  {
    if d < 10 then '0' + d as char else 'a' + (d - 10) as char
  }

  const DIGITS := "0123456789"
  const LOWER := "0123456789abcdef"
  const UPPER := "0123456789ABCDEF"

  /** The digits, letter by letter: both cases are read, and the small letters are printed. */
  lemma DigitTable(d: nat)
    requires d < 16
    ensures IsHex(LOWER[d]) && DigitValue(LOWER[d]) == d && HexDigit(d) == LOWER[d]
    ensures IsHex(UPPER[d]) && DigitValue(UPPER[d]) == d
    ensures d < 10 ==> IsDigit(DIGITS[d])
  {
  }

  /** And no other character is one. */
  lemma OnlyDigits(c: char)
    ensures IsDigit(c) ==> c in DIGITS
    ensures IsHex(c) ==> c in LOWER || c in UPPER
  {
    if IsDigit(c) {
      assert DIGITS[c as int - '0' as int] == c && LOWER[c as int - '0' as int] == c;
    } else if 'a' <= c <= 'f' {
      assert LOWER[c as int - 'a' as int + 10] == c;
    } else if 'A' <= c <= 'F' {
      assert UPPER[c as int - 'A' as int + 10] == c;
    }
  }

  predicate AllHex(s: string) { forall j :: 0 <= j < |s| ==> IsHex(s[j]) }

  /** The number a string of hexadecimal digits stands for. */
  function HexValue(s: string): nat
    requires AllHex(s)
  {
    if s == "" then 0 else HexValue(s[..|s| - 1]) * 16 + DigitValue(s[|s| - 1])
  }

  /** One digit more. */
  lemma HexValuePush(r: string, n: nat, m: nat)
    requires n <= m < |r| && AllHex(r[n..m]) && IsHex(r[m])
    ensures AllHex(r[n..m + 1])
    ensures HexValue(r[n..m + 1]) == HexValue(r[n..m]) * 16 + DigitValue(r[m])
  {
    var s := r[n..m + 1];
    assert s[..|s| - 1] == r[n..m] && s[|s| - 1] == r[m];
  }

  /** Number.prototype.toString with radix 16. */
  function HexText(v: nat): (s: string)
    ensures s != "" && AllHex(s)
  {
    if v < 16 then [HexDigit(v)] else HexText(v / 16) + [HexDigit(v % 16)]
  }

  lemma {:induction false} HexOfText(v: nat)
    ensures HexValue(HexText(v)) == v
  {
    if v >= 16 {
      HexOfText(v / 16);
      assert HexText(v)[..|HexText(v)| - 1] == HexText(v / 16);
    }
  }

  function Power16(n: nat): nat { if n == 0 then 1 else 16 * Power16(n - 1) }

  lemma {:induction false} HexTextLength(v: nat, n: nat)
    requires n > 0 && v < Power16(n)
    ensures |HexText(v)| <= n
  {
    if v >= 16 {
      HexTextLength(v / 16, n - 1);
    }
  }

  /** How many hexadecimal digits, at most `most`, a string starts with. */
  function HexPrefix(s: string, most: nat): (k: nat)
    ensures k <= |s| && k <= most && AllHex(s[..k])
    ensures k < |s| && k < most ==> !IsHex(s[k])
  {
    if most == 0 || s == "" || !IsHex(s[0]) then 0
    else
      var k := 1 + HexPrefix(s[1..], most - 1);
      assert forall j :: 1 <= j < k ==> s[..k][j] == s[1..][..k - 1][j - 1];
      k
  }

  lemma {:induction false} PrefixIs(s: string, k: nat, most: nat)
    requires k <= |s| && k <= most && AllHex(s[..k])
    requires k == most || k == |s| || !IsHex(s[k])
    ensures HexPrefix(s, most) == k
  {
    if k > 0 {
      assert s[..k][0] == s[0];
      assert s[1..][..k - 1] == s[..k][1..];
      PrefixIs(s[1..], k - 1, most - 1);
    }
  }
}
