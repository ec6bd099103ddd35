/**
 * Character classes and string operations that the scrapers use through
 * Python built-ins: `str.lower`, `str.strip`, the `in` substring test,
 * `int(...)` of a digit string and the decimal rendering of a number.
 * Letters, digits and word characters are the ASCII ones; whitespace is
 * the full set that Python's `str.isspace` accepts.
 */
module Strings {
  import opened Wrappers

  predicate IsDigit(c: char) { '0' <= c <= '9' }

  predicate IsAsciiLetter(c: char) { 'a' <= c <= 'z' || 'A' <= c <= 'Z' }

  /** The regular-expression class `\w` (ASCII part). */
  predicate IsWordChar(c: char) { IsAsciiLetter(c) || IsDigit(c) || c == '_' }

  /** The characters for which Python's `str.isspace` holds (also `\s` in a regular expression). */
  predicate IsSpace(c: char) {
    || '\t' <= c <= '\r'
    || '\U{1c}' <= c <= ' '
    || c == '\U{85}' || c == '\U{a0}' || c == '\U{1680}'
    || '\U{2000}' <= c <= '\U{200a}'
    || c == '\U{2028}' || c == '\U{2029}' || c == '\U{202f}' || c == '\U{205f}' || c == '\U{3000}'
  }

  predicate AllDigits(s: string) { forall i :: 0 <= i < |s| ==> IsDigit(s[i]) }

  predicate AllWordChars(s: string) { forall i :: 0 <= i < |s| ==> IsWordChar(s[i]) }

  function LowerChar(c: char): (r: char)
    ensures IsAsciiLetter(c) ==> 'a' <= r <= 'z'
    ensures !('A' <= c <= 'Z') ==> r == c
  {
    if 'A' <= c <= 'Z' then (c as int + 32) as char else c
  }

  /** `str.lower` on the ASCII letters; every other character is kept. */
  function Lower(s: string): (r: string)
    ensures |r| == |s|
    ensures forall i :: 0 <= i < |s| ==> r[i] == LowerChar(s[i])
  {
    if s == [] then [] else [LowerChar(s[0])] + Lower(s[1..])
  }

  /** Python's `t in s` for two strings: `t` occurs somewhere in `s`. */
  predicate Contains(s: string, t: string)
    decreases |s|
  {
    t <= s || (|s| > 0 && Contains(s[1..], t))
  }

  function StripLeft(s: string): (r: string)
    ensures |r| <= |s| && r == s[|s| - |r|..]
    ensures r == [] || !IsSpace(r[0])
    ensures forall i :: 0 <= i < |s| - |r| ==> IsSpace(s[i])
  {
    if |s| > 0 && IsSpace(s[0]) then StripLeft(s[1..]) else s
  }

  function StripRight(s: string): (r: string)
    ensures |r| <= |s| && r == s[..|r|]
    ensures r == [] || !IsSpace(r[|r| - 1])
    ensures forall i :: |r| <= i < |s| ==> IsSpace(s[i])
  {
    if |s| > 0 && IsSpace(s[|s| - 1]) then StripRight(s[..|s| - 1]) else s
  }

  /** `str.strip()`: leading and trailing whitespace removed. */
  function Strip(s: string): string {
    StripRight(StripLeft(s))
  }

  function DigitChar(d: nat): (c: char)
    requires d < 10
    ensures IsDigit(c)
  {
    ('0' as int + d) as char
  }

  function DigitValue(c: char): (d: nat)
    requires IsDigit(c)
    ensures d < 10
  {
    c as int - '0' as int
  }

  /** `int(s)` for a string of decimal digits. */
  function DigitsValue(s: string): nat
    requires AllDigits(s)
  {
    if s == [] then 0 else DigitsValue(s[..|s| - 1]) * 10 + DigitValue(s[|s| - 1])
  }

  lemma DigitsValueTwo(s: string)
    requires |s| == 2 && AllDigits(s)
    ensures DigitsValue(s) == DigitValue(s[0]) * 10 + DigitValue(s[1])
  {
    var p := s[..1];
    assert p[..0] == [] && p[0] == s[0];
    assert DigitsValue(p) == DigitValue(s[0]);
  }

  lemma DigitsValueFour(s: string)
    requires |s| == 4 && AllDigits(s)
    ensures DigitsValue(s) == DigitValue(s[0]) * 1000 + DigitValue(s[1]) * 100 + DigitValue(s[2]) * 10 + DigitValue(s[3])
  {
    assert s[..3][..2] == s[..2];
    DigitsValueTwo(s[..2]);
  }

  /** `str(n)`: the decimal rendering without leading zeros. */
  function NatToString(n: nat): (r: string)
    ensures |r| > 0 && AllDigits(r)
  {
    if n < 10 then [DigitChar(n)] else NatToString(n / 10) + [DigitChar(n % 10)]
  }

  lemma {:induction false} NatToStringValue(n: nat)
    ensures DigitsValue(NatToString(n)) == n
  {
    if n >= 10 {
      NatToStringValue(n / 10);
      var s := NatToString(n);
      assert s[..|s| - 1] == NatToString(n / 10);
    }
  }

  lemma {:induction false} ContainsSuffix(s: string, t: string, k: nat)
    requires k <= |s| && t <= s[k..]
    ensures Contains(s, t)
    decreases k
  {
    if k > 0 {
      assert s[1..][k - 1..] == s[k..];
      ContainsSuffix(s[1..], t, k - 1);
    }
  }

  /** A string contains every infix of it. */
  lemma ContainsInfix(a: string, t: string, b: string)
    ensures Contains(a + t + b, t)
  {
    var s := a + t + b;
    assert s[|a|..][..|t|] == t;
    ContainsSuffix(s, t, |a|);
  }

  /** If `t` occurs in `s`, it occurs at some position. */
  lemma {:induction false} ContainsPosition(s: string, t: string) returns (k: nat)
    requires Contains(s, t)
    ensures k + |t| <= |s| && s[k..k + |t|] == t
    decreases |s|
  {
    if t <= s {
      k := 0;
    } else {
      var k' := ContainsPosition(s[1..], t);
      k := k' + 1;
      assert s[k..k + |t|] == s[1..][k'..k' + |t|];
    }
  }

  /** `t` occurs in `s` at position `i`. */
  predicate OccursAt(s: string, t: string, i: nat) {
    i + |t| <= |s| && s[i..i + |t|] == t
  }

  /** An occurrence at some position makes `t` occur in `s`. */
  lemma {:induction false} OccursContains(s: string, t: string, i: nat)
    requires OccursAt(s, t, i)
    ensures Contains(s, t)
    decreases i
  {
    if i == 0 {
      assert s[..|t|] == t;
    } else {
      assert s[1..][i - 1..i - 1 + |t|] == s[i..i + |t|];
      OccursContains(s[1..], t, i - 1);
    }
  }

  /** `t in s` holds exactly when `t` occurs in `s` at some position. */
  lemma ContainsIff(s: string, t: string)
    ensures Contains(s, t) <==> exists i :: OccursAt(s, t, i)
  {
    if Contains(s, t) {
      var k := ContainsPosition(s, t);
      assert OccursAt(s, t, k);
    }
    if exists i :: OccursAt(s, t, i) {
      var i :| OccursAt(s, t, i);
      OccursContains(s, t, i);
    }
  }

  /** Every character of an occurring string is a character of the string it occurs in. */
  lemma ContainsChar(s: string, t: string, j: nat)
    requires Contains(s, t) && j < |t|
    ensures exists i :: 0 <= i < |s| && s[i] == t[j]
  {
    var k := ContainsPosition(s, t);
    assert s[k + j] == t[j];
  }

  /** A word of lower-case letters is made of word characters and lower-casing leaves it alone. */
  lemma LowerLetters(w: string)
    requires forall i :: 0 <= i < |w| ==> 'a' <= w[i] <= 'z'
    ensures AllWordChars(w) && Lower(w) == w
  {
  }

  /** A string in which the first character of `t` does not occur does not contain `t`. */
  lemma MissingChar(s: string, t: string)
    requires |t| > 0 && forall i :: 0 <= i < |s| ==> s[i] != t[0]
    ensures !Contains(s, t)
  {
    if Contains(s, t) {
      ContainsChar(s, t, 0);
    }
  }

  /** `str.lower` distributes over concatenation. */
  lemma LowerAppend(a: string, b: string)
    ensures Lower(a + b) == Lower(a) + Lower(b)
  {
  }

  /** A string containing `w` keeps containing it inside a longer one. */
  lemma ContainsWithin(a: string, t: string, b: string, w: string)
    requires Contains(t, w)
    ensures Contains(a + t + b, w)
  {
    var k := ContainsPosition(t, w);
    assert a + t + b == (a + t[..k]) + w + (t[k + |w|..] + b);
    ContainsInfix(a + t[..k], w, t[k + |w|..] + b);
  }

  /** Containment is transitive. */
  lemma ContainsTrans(s: string, t: string, w: string)
    requires Contains(s, t) && Contains(t, w)
    ensures Contains(s, w)
  {
    var k := ContainsPosition(s, t);
    assert s == s[..k] + t + s[k + |t|..];
    ContainsWithin(s[..k], t, s[k + |t|..], w);
  }

  /** Lower-casing a string without letters gives no letter, so no lower-case word occurs in it. */
  lemma NoLetterNoWord(s: string, w: string)
    requires forall i :: 0 <= i < |s| ==> !IsAsciiLetter(s[i])
    requires |w| > 0 && 'a' <= w[0] <= 'z'
    ensures !Contains(Lower(s), w)
  {
    if Contains(Lower(s), w) {
      ContainsChar(Lower(s), w, 0);
      assert false;
    }
  }

  /** Every character of the stripped string comes from the original. */
  lemma StripChars(s: string)
    ensures forall k :: 0 <= k < |Strip(s)| ==> Strip(s)[k] in s
  {
    var l := StripLeft(s);
    forall k | 0 <= k < |Strip(s)|
      ensures Strip(s)[k] in s
    {
      assert Strip(s)[k] == l[k] == s[|s| - |l| + k];
    }
  }

  /** Stripping a string that starts and ends with a non-blank leaves it alone. */
  lemma StripNoBlankEnds(s: string)
    requires |s| > 0 && !IsSpace(s[0]) && !IsSpace(s[|s| - 1])
    ensures Strip(s) == s
  {
  }

  /** `s.replace(a, b)` for single characters. */
  function ReplaceChar(s: string, a: char, b: char): (r: string)
    ensures |r| == |s|
    ensures forall i :: 0 <= i < |s| ==> r[i] == if s[i] == a then b else s[i]
  {
    if s == [] then [] else [if s[0] == a then b else s[0]] + ReplaceChar(s[1..], a, b)
  }

  /** The position of the first string of `ss` in which `w` occurs, or `|ss|` when there is none. */
  function FirstContainingAt(ss: seq<string>, w: string): (k: nat)
    ensures k <= |ss| && (k < |ss| ==> Contains(ss[k], w))
    ensures forall i :: 0 <= i < k ==> !Contains(ss[i], w)
  {
    if ss == [] then 0
    else if Contains(ss[0], w) then 0
    else 1 + FirstContainingAt(ss[1..], w)
  }

  /** The first string of `ss` in which `w` occurs, as `find_all(href=re.compile(w))[0]` picks a link. */
  function FirstContaining(ss: seq<string>, w: string): (r: Option<string>)
    ensures r.None? <==> forall i :: 0 <= i < |ss| ==> !Contains(ss[i], w)
    ensures r.Some? ==> var k := FirstContainingAt(ss, w); k < |ss| && r.value == ss[k] && Contains(r.value, w)
  {
    var k := FirstContainingAt(ss, w);
    if k < |ss| then Some(ss[k]) else None
  }
}
