/**
 * The pieces of Python's string semantics the services depend on:
 * `str.strip()`, `str.split(sep, 2)`, `str(int)`, `int(str)` and `a in b`.
 */
module Text {
  import opened Wrappers

  /** Python's `str.isspace()` for one character (the Unicode whitespace set CPython uses). */
  predicate IsSpace(c: char)
  {
    c == ' ' || ('\t' <= c <= '\r') || ('\U{1c}' <= c <= '\U{1f}') || c == '\U{85}' || c == '\U{a0}'
    || c == '\U{1680}' || ('\U{2000}' <= c <= '\U{200a}') || c == '\U{2028}' || c == '\U{2029}'
    || c == '\U{202f}' || c == '\U{205f}' || c == '\U{3000}'
  }

  /** No whitespace at either end. */
  predicate IsStripped(s: string)
  {
    |s| == 0 || (!IsSpace(s[0]) && !IsSpace(s[|s| - 1]))
  }

  function StripLeft(s: string): (r: string)
    ensures |r| <= |s| && r == s[|s| - |r|..]
    ensures |r| == 0 || !IsSpace(r[0])
    ensures forall i :: 0 <= i < |s| - |r| ==> IsSpace(s[i])
  {
    if |s| > 0 && IsSpace(s[0]) then StripLeft(s[1..]) else s
  }

  function StripRight(s: string): (r: string)
    ensures |r| <= |s| && r == s[..|r|]
    ensures |r| == 0 || !IsSpace(r[|r| - 1])
    ensures forall i :: |r| <= i < |s| ==> IsSpace(s[i])
  {
    if |s| > 0 && IsSpace(s[|s| - 1]) then StripRight(s[..|s| - 1]) else s
  }

  /** Python's `s.strip()`: the longest infix with no whitespace at either end. */
  function Strip(s: string): (r: string)
    ensures IsStripped(r)
    ensures |r| <= |s|
  {
    StripRight(StripLeft(s))
  }

  /** Stripping a string that has no whitespace at either end changes nothing. */
  lemma StripIdentity(s: string)
    requires IsStripped(s)
    ensures Strip(s) == s
  {
  }

  /** Stripping is idempotent. */
  lemma StripIdempotent(s: string)
    ensures Strip(Strip(s)) == Strip(s)
  {
    StripIdentity(Strip(s));
  }

  /** Index of the first occurrence of `c` in `s`, if any. */
  function IndexOf(s: string, c: char): (r: Option<nat>)
    ensures r.None? <==> c !in s
    ensures r.Some? ==> r.value < |s| && s[r.value] == c && c !in s[..r.value]
  {
    if |s| == 0 then None
    else if s[0] == c then Some(0)
    else match IndexOf(s[1..], c)
      case None => None
      case Some(i) => assert s[1..][..i] == s[1..i + 1]; Some(i + 1)
  }

  /** Python's `s.split(sep, 2)`: at most three parts, the last keeps any further separators. */
  function SplitAtMostTwice(s: string, sep: char): (parts: seq<string>)
    ensures 1 <= |parts| <= 3
    ensures |parts| == 1 <==> sep !in s
    ensures forall i :: 0 <= i < |parts| - 1 ==> sep !in parts[i]
  {
    match IndexOf(s, sep)
    case None => [s]
    case Some(i) =>
      var rest := s[i + 1..];
      match IndexOf(rest, sep)
      case None => [s[..i], rest]
      case Some(j) => [s[..i], rest[..j], rest[j + 1..]]
  }

  /** Splitting the three fields joined by commas gives them back when the first two hold no comma. */
  lemma SplitJoined(a: string, b: string, c: string, sep: char)
    requires sep !in a && sep !in b
    ensures SplitAtMostTwice(a + [sep] + b + [sep] + c, sep) == [a, b, c]
  {
    var rest := b + [sep] + c;
    var s := a + [sep] + rest;
    assert s == a + [sep] + b + [sep] + c;
    IndexOfAfter(a, rest, sep);
    assert s[..|a|] == a;
    assert s[|a| + 1..] == rest;
    IndexOfAfter(b, c, sep);
    assert rest[..|b|] == b;
    assert rest[|b| + 1..] == c;
  }

  /** The first separator of `a + [sep] + rest` is the one after `a` when `a` holds none. */
  lemma IndexOfAfter(a: string, rest: string, sep: char)
    requires sep !in a
    ensures IndexOf(a + [sep] + rest, sep) == Some(|a|)
  {
    var s := a + [sep] + rest;
    assert s[|a|] == sep;
    assert s[..|a|] == a;
    assert forall i :: 0 <= i < |a| ==> s[i] == a[i];
  }

  /** `a in b` for strings: `a` occurs as a contiguous infix of `b`. */
  predicate IsInfix(a: string, b: string)
    decreases |b|
  {
    |a| <= |b| && (b[..|a|] == a || (|b| > 0 && IsInfix(a, b[1..])))
  }

  function Digit(d: nat): (c: char)
    requires d < 10
    ensures '0' <= c <= '9'
  {
    "0123456789"[d]
  }

  /** Python's `str(n)` for a non-negative integer. */
  function NatToString(n: nat): (r: string)
    ensures |r| >= 1
    ensures AllDigits(r)
    ensures n == 0 <==> r == "0"
    decreases n
  {
    if n < 10 then [Digit(n)] else NatToString(n / 10) + [Digit(n % 10)]
  }

  /** Python's `str(n)` for any integer. */
  function IntToString(n: int): (r: string)
    ensures n >= 0 ==> r == NatToString(n)
    ensures n < 0 ==> r == "-" + NatToString(-n)
  {
    if n >= 0 then NatToString(n) else "-" + NatToString(-n)
  }

  /** The value of a string of decimal digits. */
  function DigitsValue(s: string): (n: nat)
    requires AllDigits(s)
  {
    if |s| == 0 then 0 else 10 * DigitsValue(s[..|s| - 1]) + (s[|s| - 1] - '0') as nat
  }

  /** Reading back a printed natural number gives it again. */
  lemma {:induction false} DigitsValueOfNatToString(n: nat)
    ensures DigitsValue(NatToString(n)) == n
    decreases n
  {
    if n >= 10 {
      var s := NatToString(n);
      assert s[..|s| - 1] == NatToString(n / 10);
      DigitsValueOfNatToString(n / 10);
    }
  }

  /**
   * Python's `int(s)` for an optionally signed run of ASCII digits with optional
   * surrounding whitespace; anything else raises `ValueError`, which is `None` here.
   */
  function ParseInt(s: string): (r: Option<int>)
  {
    ParseSigned(Strip(s))
  }

  /** `int` of a string with no surrounding whitespace: an optional sign, then digits. */
  function ParseSigned(t: string): (r: Option<int>)
  {
    if |t| > 0 && t[0] == '-' then
      match ParseDigits(t[1..])
      case None => None
      case Some(v) => Some(-(v as int))
    else if |t| > 0 && t[0] == '+' then
      match ParseDigits(t[1..])
      case None => None
      case Some(v) => Some(v)
    else
      match ParseDigits(t)
      case None => None
      case Some(v) => Some(v)
  }

  /** A nonempty run of ASCII digits and its value. */
  function ParseDigits(t: string): (r: Option<nat>)
    ensures r.Some? <==> |t| > 0 && AllDigits(t)
  {
    if |t| > 0 && AllDigits(t) then Some(DigitsValue(t)) else None
  }

  predicate AllDigits(s: string)
  {
    forall i :: 0 <= i < |s| ==> '0' <= s[i] <= '9'
  }

  /** A string with no surrounding whitespace is read without stripping. */
  lemma ParseIntOfStripped(s: string)
    requires IsStripped(s)
    ensures ParseInt(s) == ParseSigned(s)
  {
    StripIdentity(s);
  }

  /** A run of digits has no whitespace at either end. */
  lemma DigitsStripped(d: string)
    requires AllDigits(d)
    ensures IsStripped(d)
  {
    if |d| > 0 {
      assert '0' <= d[0] <= '9' && '0' <= d[|d| - 1] <= '9';
    }
  }

  /** A nonempty run of digits without a sign reads as its value. */
  lemma ParseSignedOfDigits(d: string)
    requires |d| > 0 && AllDigits(d)
    ensures ParseSigned(d) == Some(DigitsValue(d) as int)
  {
    assert '0' <= d[0] <= '9';
  }

  /** A minus sign before digits leaves nothing to strip. */
  lemma NegatedDigitsStripped(d: string)
    requires |d| > 0 && AllDigits(d)
    ensures IsStripped("-" + d)
  {
    var s := "-" + d;
    assert '0' <= d[|d| - 1] <= '9';
    assert s[0] == '-' && s[|s| - 1] == d[|d| - 1];
  }

  /** A minus sign and a nonempty run of digits read as the negated value. */
  lemma ParseSignedOfNegatedDigits(d: string)
    requires |d| > 0 && AllDigits(d)
    ensures ParseSigned("-" + d) == Some(-(DigitsValue(d) as int))
  {
    var s := "-" + d;
    assert s[0] == '-' && s[1..] == d;
  }

  /** A run of digits, with a minus sign for a negative number, is stripped and reads as the number whose magnitude it spells. */
  lemma ParseSignedOfSignedDigits(n: int, d: string, s: string)
    requires |d| > 0 && AllDigits(d) && DigitsValue(d) as int == (if n >= 0 then n else -n)
    requires s == if n >= 0 then d else "-" + d
    ensures IsStripped(s) && ParseSigned(s) == Some(n)
  {
    if n >= 0 {
      DigitsStripped(d);
      ParseSignedOfDigits(d);
    } else {
      NegatedDigitsStripped(d);
      ParseSignedOfNegatedDigits(d);
    }
  }

  /** `int(str(n)) == n`. */
  lemma ParseIntOfIntToString(n: int)
    ensures ParseInt(IntToString(n)) == Some(n)
  {
    var m: nat := if n >= 0 then n else -n;
    DigitsValueOfNatToString(m);
    ParseSignedOfSignedDigits(n, NatToString(m), IntToString(n));
    ParseIntOfStripped(IntToString(n));
  }
}
