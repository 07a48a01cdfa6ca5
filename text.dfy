/**
 * The few JavaScript string primitives the components rely on:
 * `toLowerCase`, `includes`, `trim`, `Number.prototype.toString` on
 * integers, `padStart(2, '0')`, and a small parser for `m:ss` clocks that
 * the formatting lemmas use as the inverse of the formatters.
 */
module Text {
  import opened Wrappers

  // ---------------------------------------------------------------------
  // Case mapping

  /**
   * `toLowerCase` on one character, for the characters whose lower-case
   * form is ASCII: 'A'..'Z' and the Kelvin sign U+212A. Every keyword the
   * components look for is ASCII, so no other character can take part in
   * a match either way.
   */
  function Lower(c: char): char {
    if 'A' <= c <= 'Z' then (c as int + 32) as char
    else if c == '\U{212A}' then 'k'
    else c
  }

  /** `toUpperCase` on ASCII letters, used to state case-insensitivity. */
  function Upper(c: char): char {
    if 'a' <= c <= 'z' then (c as int - 32) as char else c
  }

  function LowerStr(s: string): (r: string)
    ensures |r| == |s|
    ensures forall i :: 0 <= i < |s| ==> r[i] == Lower(s[i])
  {
    seq(|s|, i requires 0 <= i < |s| => Lower(s[i]))
  }

  function UpperStr(s: string): (r: string)
    ensures |r| == |s|
    ensures forall i :: 0 <= i < |s| ==> r[i] == Upper(s[i])
  {
    seq(|s|, i requires 0 <= i < |s| => Upper(s[i]))
  }

  /** Lower-casing twice is lower-casing once. */
  lemma LowerIdempotent(s: string)
    ensures LowerStr(LowerStr(s)) == LowerStr(s)
  {
  }

  /** Upper-casing the input first does not change its lower-case form. */
  lemma LowerOfUpper(s: string)
    ensures LowerStr(UpperStr(s)) == LowerStr(s)
  {
  }

  // ---------------------------------------------------------------------
  // Substring containment

  /** `t` occurs in `s` starting at index `i`. */
  predicate ContainsAt(s: string, t: string, i: int) {
    0 <= i && i + |t| <= |s| && s[i..i + |t|] == t
  }

  /** `s.includes(t)`: `t` occurs somewhere in `s` (the empty string occurs everywhere). */
  predicate Contains(s: string, t: string) {
    exists i | 0 <= i <= |s| - |t| :: ContainsAt(s, t, i)
  }

  /** Containment is transitive: a string that contains "stressed" contains "stress". */
  lemma ContainsTransitive(s: string, t: string, u: string)
    requires Contains(s, t) && Contains(t, u)
    ensures Contains(s, u)
  {
    var i :| 0 <= i <= |s| - |t| && ContainsAt(s, t, i);
    var j :| 0 <= j <= |t| - |u| && ContainsAt(t, u, j);
    assert forall k :: 0 <= k < |t| ==> t[k] == s[i + k];
    assert s[i + j..i + j + |u|] == t[j..j + |u|];
    assert ContainsAt(s, u, i + j);
  }

  /** A character of `t` that never occurs in `s` rules out every occurrence of `t`. */
  lemma NotContainsByChar(s: string, t: string, k: nat)
    requires k < |t| && t[k] !in s
    ensures !Contains(s, t)
  {
    forall i | 0 <= i <= |s| - |t|
      ensures !ContainsAt(s, t, i)
    {
      assert s[i..i + |t|][k] == s[i + k];
      assert s[i + k] in s;
    }
  }

  /** The occurrences in a prefix of `s` are occurrences in `s`. */
  lemma ContainsOfPrefix(s: string, p: string, t: string)
    requires Contains(p, t)
    ensures Contains(p + s, t)
  {
    var i :| 0 <= i <= |p| - |t| && ContainsAt(p, t, i);
    assert (p + s)[i..i + |t|] == p[i..i + |t|];
    assert ContainsAt(p + s, t, i);
  }

  // ---------------------------------------------------------------------
  // trim

  /** The characters JavaScript's `trim` removes: WhiteSpace and LineTerminator. */
  predicate IsJsSpace(c: char) {
    c == '\t' || c == '\n' || c == '\U{000B}' || c == '\U{000C}' || c == '\r' || c == ' '
    || c == '\U{00A0}' || c == '\U{1680}' || ('\U{2000}' <= c <= '\U{200A}')
    || c == '\U{2028}' || c == '\U{2029}' || c == '\U{202F}' || c == '\U{205F}'
    || c == '\U{3000}' || c == '\U{FEFF}'
  }

  predicate AllSpace(s: string) {
    forall i :: 0 <= i < |s| ==> IsJsSpace(s[i])
  }

  function TrimStart(s: string): (r: string)
    ensures |r| <= |s| && r == s[|s| - |r|..]
    ensures AllSpace(s[..|s| - |r|])
    ensures |r| > 0 ==> !IsJsSpace(r[0])
    decreases |s|
  {
    if |s| > 0 && IsJsSpace(s[0]) then TrimStart(s[1..]) else s
  }

  function TrimEnd(s: string): (r: string)
    ensures |r| <= |s| && r == s[..|r|]
    ensures AllSpace(s[|r|..])
    ensures |r| > 0 ==> !IsJsSpace(r[|r| - 1])
    decreases |s|
  {
    if |s| > 0 && IsJsSpace(s[|s| - 1]) then TrimEnd(s[..|s| - 1]) else s
  }

  /** `s.trim()`. */
  function Trim(s: string): (r: string) {
    TrimEnd(TrimStart(s))
  }

  /** `trim` yields the empty string exactly for blank and whitespace-only input. */
  lemma TrimEmptyIff(s: string)
    ensures Trim(s) == [] <==> AllSpace(s)
  {
    var a := TrimStart(s);
    var b := TrimEnd(a);
    var off := |s| - |a|;
    assert Trim(s) == b;
    if AllSpace(s) {
      assert a == [];
    } else {
      var i :| 0 <= i < |s| && !IsJsSpace(s[i]);
      assert forall j :: 0 <= j < off ==> IsJsSpace(s[..off][j]);
      assert off <= i;
      assert a[i - off] == s[i];
      SpaceBeyond(a, |b|, i - off);
      assert b != [];
    }
  }

  /** In a string whose suffix from `k` is all space, a non-space character lies before `k`. */
  lemma SpaceBeyond(x: string, k: nat, j: nat)
    requires k <= |x| && AllSpace(x[k..]) && j < |x|
    ensures j < k || IsJsSpace(x[j])
  {
    if k <= j {
      assert x[k..][j - k] == x[j];
    }
  }

  // ---------------------------------------------------------------------
  // Decimal numerals

  predicate IsDigit(c: char) {
    '0' <= c <= '9'
  }

  predicate AllDigits(s: string) {
    forall i :: 0 <= i < |s| ==> IsDigit(s[i])
  }

  function DigitChar(d: nat): (c: char)
    requires d < 10
    ensures IsDigit(c)
  {
    ('0' as int + d) as char
  }

  function DigitValue(c: char): (d: nat)
    requires IsDigit(c)
    ensures d < 10
  {
    c as int - '0' as int
  }

  /** `n.toString()` for a non-negative integer: decimal, no leading zero. */
  function NatToString(n: nat): (r: string)
    ensures 1 <= |r| && AllDigits(r)
    ensures |r| == 1 <==> n < 10
    ensures |r| > 1 ==> r[0] != '0'
    decreases n
  {
    if n < 10 then [DigitChar(n)] else NatToString(n / 10) + [DigitChar(n % 10)]
  }

  /** `n.toString()` for any integer. */
  function IntToString(n: int): (r: string) {
    if n < 0 then "-" + NatToString(-n) else NatToString(n)
  }

  /** The value of a string of decimal digits (the empty string reads as 0). */
  function ParseDigits(s: string): nat
    requires AllDigits(s)
    decreases |s|
  {
    if s == [] then 0 else ParseDigits(s[..|s| - 1]) * 10 + DigitValue(s[|s| - 1])
  }

  /** Reading back a formatted number gives the number. */
  lemma {:induction false} ParseNatToString(n: nat)
    ensures ParseDigits(NatToString(n)) == n
  {
    if n >= 10 {
      var s := NatToString(n / 10);
      var r := s + [DigitChar(n % 10)];
      assert r[..|r| - 1] == s;
      ParseNatToString(n / 10);
    }
  }

  /** Leading zeros do not change the value of a numeral. */
  lemma {:induction false} ParseLeadingZero(s: string)
    requires AllDigits(s)
    ensures AllDigits("0" + s) && ParseDigits("0" + s) == ParseDigits(s)
  {
    if s != [] {
      var z := "0" + s;
      assert z[..|z| - 1] == "0" + s[..|s| - 1];
      ParseLeadingZero(s[..|s| - 1]);
    }
  }

  /** The decimal length of `n` is 1, 2, or more, by the size of `n`. */
  lemma NatToStringLength(n: nat)
    ensures n < 100 ==> |NatToString(n)| <= 2
    ensures 10 <= n < 100 ==> |NatToString(n)| == 2
    ensures n >= 100 ==> |NatToString(n)| >= 3
  {
    if n >= 10 {
      assert |NatToString(n / 10)| == 1 <==> n / 10 < 10;
    }
  }

  /** `s.padStart(2, '0')`. */
  function PadStart2(s: string): (r: string)
    ensures |s| >= 2 ==> r == s
    ensures |s| < 2 ==> |r| == 2 && r[2 - |s|..] == s && forall i :: 0 <= i < 2 - |s| ==> r[i] == '0'
  {
    if |s| >= 2 then s else if |s| == 1 then "0" + s else "00"
  }

  /** Zero-padding a numeral keeps it a numeral of the same value. */
  lemma PadNumeral(s: string)
    requires 1 <= |s| && AllDigits(s)
    ensures AllDigits(PadStart2(s)) && ParseDigits(PadStart2(s)) == ParseDigits(s)
  {
    if |s| == 1 {
      ParseLeadingZero(s);
    }
  }

  // ---------------------------------------------------------------------
  // Reading a clock back

  /** The index of the first `c` in `s`, if any. */
  function IndexOf(s: string, c: char): (r: Option<nat>)
    ensures r.Some? ==> r.value < |s| && s[r.value] == c && c !in s[..r.value]
    ensures r.None? ==> c !in s
    decreases |s|
  {
    if s == [] then None
    else if s[0] == c then Some(0)
    else match IndexOf(s[1..], c)
      case None => None
      case Some(k) => Some(k + 1)
  }

  /**
   * Reads "<digits>:<digits>" as a pair of numbers; anything else is None.
   * This is the inverse the clock lemmas use; the components only format.
   */
  function ParseClock(t: string): Option<(nat, nat)> {
    match IndexOf(t, ':')
    case None => None
    case Some(k) =>
      var a, b := t[..k], t[k + 1..];
      if |a| > 0 && |b| > 0 && AllDigits(a) && AllDigits(b)
      then Some((ParseDigits(a), ParseDigits(b)))
      else None
  }

  /** A clock assembled from two numerals splits back into them. */
  lemma ParseClockOf(a: string, b: string)
    requires |a| > 0 && |b| > 0 && AllDigits(a) && AllDigits(b)
    ensures ParseClock(a + ":" + b) == Some((ParseDigits(a), ParseDigits(b)))
  {
    var t := a + ":" + b;
    assert ':' !in a by {
      assert forall i :: 0 <= i < |a| ==> IsDigit(a[i]);
    }
    assert t[..|a|] == a;
    assert t[|a|] == ':';
    IndexOfFirst(t, ':', |a|);
    assert t[|a| + 1..] == b;
  }

  lemma IndexOfFirst(s: string, c: char, k: nat)
    requires k < |s| && s[k] == c && c !in s[..k]
    ensures IndexOf(s, c) == Some(k)
    decreases k
  {
    if k > 0 {
      assert s[1..][..k - 1] == s[..k][1..];
      IndexOfFirst(s[1..], c, k - 1);
    }
  }
}
