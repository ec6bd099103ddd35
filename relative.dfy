/**
 * The pieces of the "N units ago" handling shared by the three date
 * normalisers: the search `re.search(r'(\d+)\s*(\w+)\s*ago', s, re.IGNORECASE)`,
 * `re.findall(r'\d+', s)[0]`, and the date of `now` minus a `timedelta`
 * or a `relativedelta`.
 */
module Relative {
  import opened Wrappers
  import opened Strings
  import opened Civil

  datatype CharClass = DigitClass | BlankClass | WordClass

  predicate InClass(c: char, k: CharClass) {
    match k
    case DigitClass => IsDigit(c)
    case BlankClass => IsSpace(c)
    case WordClass => IsWordChar(c)
  }

  /** The length of the longest run of characters of class `k` starting at `i`. */
  function Run(s: string, i: nat, k: CharClass): (n: nat)
    requires i <= |s|
    ensures i + n <= |s|
    decreases |s| - i
  {
    if i < |s| && InClass(s[i], k) then 1 + Run(s, i + 1, k) else 0
  }

  /** The run consists of characters of the class and ends before one that is not. */
  lemma {:induction false} RunFacts(s: string, i: nat, k: CharClass)
    requires i <= |s|
    ensures forall j :: i <= j < i + Run(s, i, k) ==> InClass(s[j], k)
    ensures i + Run(s, i, k) == |s| || !InClass(s[i + Run(s, i, k)], k)
    decreases |s| - i
  {
    if i < |s| && InClass(s[i], k) {
      RunFacts(s, i + 1, k);
    }
  }

  /** "ago" in any case at position `i`. */
  predicate AgoAt(s: string, i: nat) {
    i + 3 <= |s| && Lower(s[i..i + 3]) == "ago"
  }

  /** A match: `int(group(1))`, the number, and `group(2)`, the unit word. */
  datatype AgoMatch = AgoMatch(amount: nat, unit: string)

  /**
   * `(\w+)\s*ago` with the word at `q`, whose longest run is `m`
   * characters, tried from `j` characters down to one: the length that matches.
   */
  function TryWord(s: string, q: nat, m: nat, j: nat): (r: Option<nat>)
    requires q + m <= |s| && j <= m
    ensures r.Some? ==> 1 <= r.value <= j
    decreases j
  {
    if j == 0 then None
    else
      var after := if j == m then q + m + Run(s, q + m, BlankClass) else q + j;
      if AgoAt(s, after) then Some(j) else TryWord(s, q, m, j - 1)
  }

  /**
   * One attempt of the pattern with `(\d+)` taking the `k` digits at `p`
   * and `(\w+)` starting at `q`.
   */
  function TryTaking(s: string, p: nat, k: nat, q: nat): Option<AgoMatch>
    requires p + k <= |s| && AllDigits(s[p..p + k]) && q <= |s|
  {
    var m := Run(s, q, WordClass);
    match TryWord(s, q, m, m)
    case Some(j) => Some(AgoMatch(DigitsValue(s[p..p + k]), s[q..q + j]))
    case None => None
  }

  /** The pattern at `p`, where a run of `l` digits starts, with `(\d+)` taking `k` digits and backtracking towards one. */
  function TryDigits(s: string, p: nat, l: nat, k: nat): Option<AgoMatch>
    requires p + l <= |s| && k <= l && l == Run(s, p, DigitClass)
    decreases k
  {
    if k == 0 then None
    else
      // `\s*` can only consume blanks after the whole digit run; inside it the next character is a digit.
      var q := if k == l then p + l + Run(s, p + l, BlankClass) else p + k;
      RunFacts(s, p, DigitClass);
      assert AllDigits(s[p..p + k]);
      match TryTaking(s, p, k, q)
      case Some(mt) => Some(mt)
      case None => TryDigits(s, p, l, k - 1)
  }

  /** The leftmost match starting at `p` or later. */
  function SearchFrom(s: string, p: nat): Option<AgoMatch>
    decreases |s| - p
  {
    if p >= |s| then None
    else
      var l := Run(s, p, DigitClass);
      match TryDigits(s, p, l, l)
      case Some(mt) => Some(mt)
      case None => SearchFrom(s, p + 1)
  }

  /** `re.search(r'(\d+)\s*(\w+)\s*ago', s, re.IGNORECASE)`. */
  function SearchAgo(s: string): Option<AgoMatch> {
    SearchFrom(s, 0)
  }

  /** `re.findall(r'\d+', s)[0]`, searched from `p`: None is the IndexError. */
  function FirstNumberFrom(s: string, p: nat): Option<nat>
    decreases |s| - p
  {
    if p >= |s| then None
    else if IsDigit(s[p]) then
      var l := Run(s, p, DigitClass);
      RunFacts(s, p, DigitClass);
      Some(DigitsValue(s[p..p + l]))
    else FirstNumberFrom(s, p + 1)
  }

  function FirstNumber(s: string): Option<nat> {
    FirstNumberFrom(s, 0)
  }

  /**
   * `float(re.findall(r'\d+', text)[0])` on the rating text when there is one:
   * the first run of digits; None for a missing element or a text without digits.
   */
  function NumberRating(text: Option<string>): (r: Option<real>)
    ensures r.Some? <==> text.Some? && FirstNumber(text.value).Some?
    ensures r.Some? ==> r.value == FirstNumber(text.value).value as real
  {
    match text
    case None => None
    case Some(t) =>
      match FirstNumber(t)
      case None => None
      case Some(n) => Some(n as real)
  }

  lemma {:induction false} RunExact(s: string, i: nat, k: CharClass, n: nat)
    requires i + n <= |s|
    requires forall j :: i <= j < i + n ==> InClass(s[j], k)
    requires i + n == |s| || !InClass(s[i + n], k)
    ensures Run(s, i, k) == n
    decreases n
  {
    if n > 0 {
      RunExact(s, i + 1, k, n - 1);
    }
  }

  /** The phrase "N unit ago" as a site writes it. */
  function Phrase(n: nat, unit: string): string {
    NatToString(n) + " " + unit + " ago"
  }

  /**
   * `s` is laid out as a run of `l` digits, one blank, a run of `m` word
   * characters, one blank and "ago".
   */
  predicate AgoLayout(s: string, l: nat, m: nat) {
    && l > 0 && m > 0 && |s| == l + m + 5
    && Run(s, 0, DigitClass) == l && Run(s, l, BlankClass) == 1
    && Run(s, l + 1, WordClass) == m && Run(s, l + 1 + m, BlankClass) == 1
    && AgoAt(s, l + m + 2)
  }

  /** Where the runs of "N unit ago" end. */
  lemma PhraseRuns(n: nat, unit: string)
    requires |unit| > 0 && AllWordChars(unit)
    ensures AgoLayout(Phrase(n, unit), |NatToString(n)|, |unit|)
  {
    PhraseLayout(n, unit);
    LayoutRuns(Phrase(n, unit), NatToString(n), unit);
  }

  /** The runs of a text laid out as digits, a blank, a word, a blank and "ago". */
  lemma LayoutRuns(s: string, digits: string, unit: string)
    requires |digits| > 0 && AllDigits(digits) && |unit| > 0 && AllWordChars(unit)
    requires var l, m := |digits|, |unit|;
      && |s| == l + m + 5
      && s[0..l] == digits && s[l..l + 1] == " "
      && s[l + 1..l + 1 + m] == unit && s[l + 1 + m..l + 2 + m] == " "
      && s[l + m + 2..l + m + 5] == "ago"
      && s[l] == ' ' && s[l + 1 + m] == ' ' && s[l + 1] == unit[0] && s[l + m + 2] == 'a'
    ensures AgoLayout(s, |digits|, |unit|)
  {
    var l, m := |digits|, |unit|;
    RunOfPart(s, 0, digits, DigitClass);
    RunOfPart(s, l, " ", BlankClass);
    RunOfPart(s, l + 1, unit, WordClass);
    RunOfPart(s, l + 1 + m, " ", BlankClass);
    AgoHere(s, l + m + 2);
  }

  /** A lower-case "ago" is one the pattern accepts. */
  lemma AgoHere(s: string, i: nat)
    requires i + 3 <= |s| && s[i..i + 3] == "ago"
    ensures AgoAt(s, i)
  {
    LowerNoCapitals("ago");
  }

  /** Where the pieces of "N unit ago" lie. */
  lemma PhraseLayout(n: nat, unit: string)
    ensures var s, l, m := Phrase(n, unit), |NatToString(n)|, |unit|;
      && |s| == l + m + 5
      && s[0..l] == NatToString(n) && s[l..l + 1] == " "
      && s[l + 1..l + 1 + m] == unit && s[l + 1 + m..l + 2 + m] == " "
      && s[l + m + 2..l + m + 5] == "ago"
      && s[l] == ' ' && s[l + 1 + m] == ' ' && (m > 0 ==> s[l + 1] == unit[0]) && s[l + m + 2] == 'a'
  {
    var digits := NatToString(n);
    var s := Phrase(n, unit);
    var l, m := |digits|, |unit|;
    assert s == digits + " " + unit + " ago";
    assert s[0..l] == digits;
    assert s[l + 1..l + 1 + m] == unit;
    assert s[l + m + 2..l + m + 5] == "ago";
  }

  /** A piece of `s` whose characters are all of class `k`, followed by one that is not, is the run there. */
  lemma RunOfPart(s: string, i: nat, part: string, k: CharClass)
    requires i + |part| <= |s| && s[i..i + |part|] == part
    requires forall j :: 0 <= j < |part| ==> InClass(part[j], k)
    requires i + |part| == |s| || !InClass(s[i + |part|], k)
    ensures Run(s, i, k) == |part|
  {
    assert forall j :: i <= j < i + |part| ==> s[j] == part[j - i];
    RunExact(s, i, k, |part|);
  }

  /** A word of `m` characters followed by one blank and "ago" is taken whole. */
  lemma WordThenAgo(s: string, q: nat, m: nat)
    requires m > 0 && q + m + 4 <= |s|
    requires Run(s, q + m, BlankClass) == 1 && AgoAt(s, q + m + 1)
    ensures TryWord(s, q, m, m) == Some(m)
  {
  }

  /** A string laid out as digits, one blank, a word, one blank and "ago" matches at its start. */
  lemma LayoutMatches(s: string, l: nat, m: nat)
    requires AgoLayout(s, l, m)
    ensures AllDigits(s[0..l])
    ensures SearchAgo(s) == Some(AgoMatch(DigitsValue(s[0..l]), s[l + 1..l + 1 + m]))
  {
    WordThenAgo(s, l + 1, m);
    DigitsTakenWhole(s, 0, l, l + 1, m, m);
    MatchAtStart(s);
  }

  /** A match found at the first position is the leftmost one. */
  lemma MatchAtStart(s: string)
    requires |s| > 0 && TryDigits(s, 0, Run(s, 0, DigitClass), Run(s, 0, DigitClass)).Some?
    ensures SearchAgo(s) == TryDigits(s, 0, Run(s, 0, DigitClass), Run(s, 0, DigitClass))
  {
  }

  /** When the pattern succeeds with all `l` digits, backtracking is not tried. */
  lemma DigitsTakenWhole(s: string, p: nat, l: nat, q: nat, m: nat, j: nat)
    requires l > 0 && p + l <= |s| && l == Run(s, p, DigitClass)
    requires q == p + l + Run(s, p + l, BlankClass) && m == Run(s, q, WordClass)
    requires TryWord(s, q, m, m) == Some(j)
    ensures AllDigits(s[p..p + l])
    ensures TryDigits(s, p, l, l) == Some(AgoMatch(DigitsValue(s[p..p + l]), s[q..q + j]))
  {
    RunDigits(s, p, l);
    WordTaken(s, p, l, q, j);
    FirstAttempt(s, p, l, q);
  }

  /** The attempt with all the digits and the word at `q` takes `j` word characters. */
  lemma WordTaken(s: string, p: nat, k: nat, q: nat, j: nat)
    requires p + k <= |s| && AllDigits(s[p..p + k]) && q <= |s|
    requires TryWord(s, q, Run(s, q, WordClass), Run(s, q, WordClass)) == Some(j)
    ensures TryTaking(s, p, k, q) == Some(AgoMatch(DigitsValue(s[p..p + k]), s[q..q + j]))
  {
  }

  /** `(\d+)` first tries the whole digit run; when that attempt matches, it is the result. */
  lemma FirstAttempt(s: string, p: nat, l: nat, q: nat)
    requires l > 0 && p + l <= |s| && l == Run(s, p, DigitClass)
    requires q == p + l + Run(s, p + l, BlankClass)
    requires AllDigits(s[p..p + l]) && TryTaking(s, p, l, q).Some?
    ensures TryDigits(s, p, l, l) == TryTaking(s, p, l, q)
  {
  }

  /** A run of `l` digits at `p` is all digits. */
  lemma RunDigits(s: string, p: nat, l: nat)
    requires p + l <= |s| && l == Run(s, p, DigitClass)
    ensures AllDigits(s[p..p + l])
  {
    RunFacts(s, p, DigitClass);
  }

  /** In "N unit ago" the pattern captures exactly the number and the unit word. */
  lemma PhraseMatches(n: nat, unit: string)
    requires |unit| > 0 && AllWordChars(unit)
    ensures SearchAgo(Phrase(n, unit)) == Some(AgoMatch(n, unit))
  {
    PhraseRuns(n, unit);
    PhraseLayout(n, unit);
    LayoutMatches(Phrase(n, unit), |NatToString(n)|, |unit|);
    NatToStringValue(n);
  }

  /** The first number of a string that starts with one is that number. */
  lemma LeadingNumber(n: nat, rest: string)
    requires rest == [] || !IsDigit(rest[0])
    ensures FirstNumber(NatToString(n) + rest) == Some(n)
  {
    var digits := NatToString(n);
    var s := digits + rest;
    assert s[..|digits|] == digits;
    RunExact(s, 0, DigitClass, |digits|);
    assert s[0..|digits|] == digits;
    NatToStringValue(n);
  }

  /** The first number of "N unit ago" is N. */
  lemma PhraseFirstNumber(n: nat, unit: string)
    ensures FirstNumber(Phrase(n, unit)) == Some(n)
  {
    PhraseLeading(n, unit);
    LeadingNumber(n, " " + unit + " ago");
  }

  /** "N unit ago" is N followed by " unit ago". */
  lemma PhraseLeading(n: nat, unit: string)
    ensures Phrase(n, unit) == NatToString(n) + (" " + unit + " ago")
  {
  }

  /** A rating text that starts with a number is rated that number. */
  lemma LeadingRating(n: nat, rest: string)
    requires rest == [] || !IsDigit(rest[0])
    ensures NumberRating(Some(NatToString(n) + rest)) == Some(n as real)
  {
    LeadingNumber(n, rest);
  }

  /** `now - timedelta(days=k)`: None for the OverflowError below 0001-01-01. */
  function DaysBefore(now: Moment, k: nat): (r: Option<Date>)
    ensures r.Some? <==> k <= DayNumber(now.date)
    ensures r.Some? ==> DayNumber(r.value) == DayNumber(now.date) - k
  {
    var n := DayNumber(now.date);
    if k <= n then
      DayNumberBound(now.date);
      FromDayNumberInverse(n - k);
      Some(FromDayNumber(n - k))
    else None
  }

  /** `now - timedelta(hours=h)`, as a date: the day that holds the instant `h` hours before `now`. */
  function HoursBefore(now: Moment, h: nat): (r: Option<Date>)
    ensures r.Some? <==> 24 * DayNumber(now.date) + now.hour >= h
    ensures r.Some? ==>
      24 * DayNumber(r.value) <= 24 * DayNumber(now.date) + now.hour - h < 24 * DayNumber(r.value) + 24
  {
    var n := DayNumber(now.date) + (now.hour - h) / 24;
    if n >= 0 then
      DayNumberBound(now.date);
      FromDayNumberInverse(n);
      Some(FromDayNumber(n))
    else None
  }

  function Min(a: int, b: int): int {
    if a <= b then a else b
  }

  /**
   * `now - relativedelta(months=k)`: the same day `k` calendar months
   * earlier, moved back to the month's last day where it does not exist;
   * None for the ValueError of a year before 1.
   */
  function MonthsBefore(now: Moment, k: nat): (r: Option<Date>)
    ensures r.Some? <==> 12 * now.date.year + now.date.month - k > 12
    ensures r.Some? ==> 12 * r.value.year + r.value.month == 12 * now.date.year + now.date.month - k
    ensures r.Some? ==> r.value.day == Min(now.date.day, DaysInMonth(r.value.year, r.value.month))
  {
    var t := 12 * now.date.year + (now.date.month - 1) - k;
    var y := t / 12;
    var m := t % 12 + 1;
    if y >= 1 then Some(CivilDate(y, m, Min(now.date.day, DaysInMonth(y, m)))) else None
  }

  /** A string with a blank in it contains a blank-free word only inside one of its sides. */
  lemma ContainsSplit(a: string, b: string, w: string)
    requires ' ' !in w && Contains(a + " " + b, w)
    ensures Contains(a, w) || Contains(b, w)
  {
    var s := a + " " + b;
    var k := ContainsPosition(s, w);
    assert s[|a|] == ' ';
    if k + |w| <= |a| {
      assert s[k..k + |w|] == a[k..k + |w|];
      assert a == a[..k] + w + a[k + |w|..];
      ContainsInfix(a[..k], w, a[k + |w|..]);
    } else {
      var k' := k - |a| - 1;
      assert s[k..k + |w|] == b[k'..k' + |w|];
      assert b == b[..k'] + w + b[k' + |w|..];
      ContainsInfix(b[..k'], w, b[k' + |w|..]);
    }
  }

  /** Lower-casing leaves text without capital letters alone. */
  lemma LowerNoCapitals(s: string)
    requires forall i :: 0 <= i < |s| ==> !('A' <= s[i] <= 'Z')
    ensures Lower(s) == s
  {
  }

  /** Lower-casing "N unit ago" lower-cases the unit only. */
  lemma LowerPhrase(n: nat, unit: string)
    ensures Lower(Phrase(n, unit)) == NatToString(n) + " " + (Lower(unit) + " " + "ago")
  {
    LowerPhraseSides(n, unit);
    LowerDigitsBlank(NatToString(n));
    LowerUnitAgo(unit);
  }

  /** Lower-casing "N unit ago" lower-cases "N " and "unit ago" apart. */
  lemma LowerPhraseSides(n: nat, unit: string)
    ensures Lower(Phrase(n, unit)) == Lower(NatToString(n) + " ") + Lower(unit + " ago")
  {
    PhraseShape(n, unit);
    LowerAppend(NatToString(n) + " ", unit + " ago");
  }

  /** "N unit ago" is "N " followed by "unit ago". */
  lemma PhraseShape(n: nat, unit: string)
    ensures Phrase(n, unit) == (NatToString(n) + " ") + (unit + " ago")
  {
  }

  /** Lower-casing "unit ago" lower-cases the unit only. */
  lemma LowerUnitAgo(unit: string)
    ensures Lower(unit + " ago") == Lower(unit) + " " + "ago"
  {
    LowerAppend(unit, " ago");
    LowerNoCapitals(" ago");
    assert Lower(unit) + " ago" == Lower(unit) + " " + "ago";
  }

  /** Lower-casing digits followed by a blank changes nothing. */
  lemma LowerDigitsBlank(digits: string)
    requires AllDigits(digits)
    ensures Lower(digits + " ") == digits + " "
  {
    LowerNoCapitals(digits + " ");
  }

  /** A lower-case word in the lower-cased "N unit ago" lies in the unit or in "ago". */
  lemma PhraseContainsOnly(n: nat, unit: string, w: string)
    requires |w| > 0 && 'a' <= w[0] <= 'z' && ' ' !in w
    requires Contains(Lower(Phrase(n, unit)), w)
    ensures Contains(Lower(unit), w) || Contains("ago", w)
  {
    var digits := NatToString(n);
    var lu := Lower(unit);
    LowerPhrase(n, unit);
    ContainsSplit(digits, lu + " " + "ago", w);
    if Contains(digits, w) {
      LowerNoCapitals(digits);
      NoLetterNoWord(digits, w);
    } else {
      ContainsSplit(lu, "ago", w);
    }
  }

  /** A word in the lower-cased unit occurs in the lower-cased "N unit ago". */
  lemma PhraseContainsUnit(n: nat, unit: string, w: string)
    requires Contains(Lower(unit), w)
    ensures Contains(Lower(Phrase(n, unit)), w)
  {
    var digits := NatToString(n);
    var lu := Lower(unit);
    LowerPhrase(n, unit);
    ContainsWithin(digits + " ", lu, " " + "ago", w);
    Regroup(digits + " ", lu, " " + "ago");
    Regroup(lu, " ", "ago");
  }

  /** Concatenation is associative. */
  lemma Regroup(x: string, y: string, z: string)
    ensures x + y + z == x + (y + z)
  {
  }

  /** A word in "ago" occurs in the lower-cased "N unit ago". */
  lemma PhraseContainsAgo(n: nat, unit: string, w: string)
    requires Contains("ago", w)
    ensures Contains(Lower(Phrase(n, unit)), w)
  {
    var low := Lower(Phrase(n, unit));
    LowerPhrase(n, unit);
    assert low[|low| - 3..] == "ago";
    ContainsSuffix(low, "ago", |low| - 3);
    ContainsTrans(low, "ago", w);
  }

  /**
   * A lower-case word occurs in the lower-cased "N unit ago" exactly when it
   * occurs in the lower-cased unit or in "ago".
   */
  lemma PhraseContains(n: nat, unit: string, w: string)
    requires |w| > 0 && 'a' <= w[0] <= 'z' && ' ' !in w
    ensures Contains(Lower(Phrase(n, unit)), w) <==> Contains(Lower(unit), w) || Contains("ago", w)
  {
    if Contains(Lower(Phrase(n, unit)), w) {
      PhraseContainsOnly(n, unit, w);
    }
    if Contains(Lower(unit), w) {
      PhraseContainsUnit(n, unit, w);
    } else if Contains("ago", w) {
      PhraseContainsAgo(n, unit, w);
    }
  }

  /** What the shared relative step sees in "N unit ago": an "ago", the number N and the unit. */
  lemma PhraseParts(n: nat, unit: string)
    requires |unit| > 0 && AllWordChars(unit)
    ensures Contains(Lower(Phrase(n, unit)), "ago")
    ensures SearchAgo(Phrase(n, unit)) == Some(AgoMatch(n, unit))
  {
    PhraseContains(n, unit, "ago");
    assert "ago" <= "ago";
    PhraseMatches(n, unit);
  }

  /** "N unit ago" has no ',', '/' or '-', so no absolute format can read it. */
  lemma PhraseNoSeparators(n: nat, unit: string)
    requires AllWordChars(unit)
    ensures ',' !in Phrase(n, unit) && '/' !in Phrase(n, unit) && '-' !in Phrase(n, unit)
  {
    var s := Phrase(n, unit);
    var l := |NatToString(n)|;
    assert forall i :: 0 <= i < l ==> s[i] == NatToString(n)[i];
    assert forall i :: l + 1 <= i < l + 1 + |unit| ==> s[i] == unit[i - l - 1];
    assert s[l + 1 + |unit|..] == " ago";
    assert forall i :: 0 <= i < |s| ==> IsWordChar(s[i]) || s[i] == ' ';
  }

  /** Without a digit there is no "N unit ago" match and no first number. */
  lemma {:induction false} NoDigitNoMatchFrom(s: string, p: nat)
    requires forall k :: 0 <= k < |s| ==> !IsDigit(s[k])
    ensures SearchFrom(s, p).None? && FirstNumberFrom(s, p).None?
    decreases |s| - p
  {
    if p < |s| {
      NoDigitNoMatchFrom(s, p + 1);
    }
  }

  lemma NoDigitNoAgoMatch(s: string)
    requires forall k :: 0 <= k < |s| ==> !IsDigit(s[k])
    ensures SearchAgo(s).None? && FirstNumber(s).None?
  {
    NoDigitNoMatchFrom(s, 0);
  }
}
