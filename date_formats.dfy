/**
 * `datetime.strptime(s, fmt)` for the five formats the scrapers use.
 *
 * CPython's `_strptime` turns a format into a regular expression (`%Y` is
 * four digits, `%m` is `1[0-2]|0[1-9]|[1-9]`, `%d` is
 * `3[01]|[12]\d|0[1-9]|[1-9]| [1-9]`, `%B`/`%b` are the month names,
 * matched ignoring case, and a blank in the format is `\s+`), matches it
 * at the start of the string, fails when unconverted text remains, and
 * then builds a `datetime`, which fails for a day that does not exist.
 * `Match` follows the order in which the regular expression tries its
 * alternatives, so the fields it reports are the ones Python would see.
 */
module DateFormats {
  import opened Wrappers
  import opened Strings
  import opened Civil

  datatype Token =
    | Year        // %Y
    | Month       // %m
    | Day         // %d
    | MonthName   // %B
    | MonthAbbr   // %b
    | Lit(c: char)
    | Spaces      // a blank in the format

  type Format = seq<Token>

  /** '%B %d, %Y' */
  const LongDate: Format := [MonthName, Spaces, Day, Lit(','), Spaces, Year]
  /** '%b %d, %Y' */
  const ShortDate: Format := [MonthAbbr, Spaces, Day, Lit(','), Spaces, Year]
  /** '%Y-%m-%d' */
  const IsoDate: Format := [Year, Lit('-'), Month, Lit('-'), Day]
  /** '%m/%d/%Y' */
  const MonthFirst: Format := [Month, Lit('/'), Day, Lit('/'), Year]
  /** '%d/%m/%Y' */
  const DayFirst: Format := [Day, Lit('/'), Month, Lit('/'), Year]

  const MonthNames: seq<string> := [
    "january", "february", "march", "april", "may", "june", "july",
    "august", "september", "october", "november", "december"]

  const MonthAbbrs: seq<string> := [
    "jan", "feb", "mar", "apr", "may", "jun", "jul", "aug", "sep", "oct", "nov", "dec"]

  /** The groups of the match; `strptime` starts from 1900-01-01. */
  datatype Fields = Fields(year: int, month: int, day: int)

  const Defaults := Fields(1900, 1, 1)

  /** Two digits at `i` whose value lies in [lo, hi]. */
  predicate TwoDigitsIn(s: string, i: nat, lo: nat, hi: nat) {
    i + 2 <= |s| && AllDigits(s[i..i + 2]) && lo <= DigitsValue(s[i..i + 2]) <= hi
  }

  /** One digit 1-9 at `i`. */
  predicate NonZeroDigit(s: string, i: nat) {
    i < |s| && '1' <= s[i] <= '9'
  }

  function SpaceRun(s: string, i: nat): (n: nat)
    requires i <= |s|
    ensures i + n <= |s|
    ensures forall j :: i <= j < i + n ==> IsSpace(s[j])
    ensures i + n == |s| || !IsSpace(s[i + n])
    decreases |s| - i
  {
    if i < |s| && IsSpace(s[i]) then 1 + SpaceRun(s, i + 1) else 0
  }

  /**
   * The first match of the format's regular expression at position `i`:
   * the groups and the position where the match ends.
   */
  function Match(f: Format, s: string, i: nat, acc: Fields): (r: Option<(Fields, nat)>)
    requires i <= |s|
    ensures r.Some? ==> i <= r.value.1 <= |s|
    decreases |f|, 1, 0
  {
    if f == [] then Some((acc, i))
    else
      var rest := f[1..];
      match f[0]
      case Year =>
        if i + 4 <= |s| && AllDigits(s[i..i + 4])
        then Match(rest, s, i + 4, acc.(year := DigitsValue(s[i..i + 4])))
        else None
      case Month =>
        var two :=
          if TwoDigitsIn(s, i, 1, 12) then Match(rest, s, i + 2, acc.(month := DigitsValue(s[i..i + 2])))
          else None;
        if two.Some? then two
        else if NonZeroDigit(s, i) then Match(rest, s, i + 1, acc.(month := DigitValue(s[i])))
        else None
      case Day =>
        var two :=
          if TwoDigitsIn(s, i, 1, 31) then Match(rest, s, i + 2, acc.(day := DigitsValue(s[i..i + 2])))
          else None;
        var one :=
          if two.None? && NonZeroDigit(s, i) then Match(rest, s, i + 1, acc.(day := DigitValue(s[i])))
          else None;
        if two.Some? then two
        else if one.Some? then one
        else if i < |s| && s[i] == ' ' && NonZeroDigit(s, i + 1)
        then Match(rest, s, i + 2, acc.(day := DigitValue(s[i + 1])))
        else None
      case MonthName => MatchName(MonthNames, 0, rest, s, i, acc)
      case MonthAbbr => MatchName(MonthAbbrs, 0, rest, s, i, acc)
      case Lit(c) =>
        if i < |s| && s[i] == c then Match(rest, s, i + 1, acc) else None
      case Spaces =>
        var n := SpaceRun(s, i);
        if n == 0 then None else MatchSpaces(rest, s, i, n, acc)
  }

  /** The alternation of month names, tried from `names[k]` on. */
  function MatchName(names: seq<string>, k: nat, rest: Format, s: string, i: nat, acc: Fields): (r: Option<(Fields, nat)>)
    requires i <= |s| && k <= |names|
    ensures r.Some? ==> i <= r.value.1 <= |s|
    decreases |rest| + 1, 0, |names| - k
  {
    if k == |names| then None
    else
      var name := names[k];
      var here :=
        if i + |name| <= |s| && Lower(s[i..i + |name|]) == name
        then Match(rest, s, i + |name|, acc.(month := k + 1))
        else None;
      if here.Some? then here else MatchName(names, k + 1, rest, s, i, acc)
  }

  /** `\s+` backtracking from the longest run of `n` blanks to a single one. */
  function MatchSpaces(rest: Format, s: string, i: nat, n: nat, acc: Fields): (r: Option<(Fields, nat)>)
    requires i + n <= |s|
    ensures r.Some? ==> i <= r.value.1 <= |s|
    decreases |rest| + 1, 0, n
  {
    if n == 0 then None
    else
      var here := Match(rest, s, i + n, acc);
      if here.Some? then here else MatchSpaces(rest, s, i, n - 1, acc)
  }

  /** `datetime.strptime(s, f)`: the date, or None for the ValueError. */
  function Parse(f: Format, s: string): Option<Date> {
    match Match(f, s, 0, Defaults)
    case None => None
    case Some(m) =>
      var fl := m.0;
      var d := CivilDate(fl.year, fl.month, fl.day);
      if m.1 == |s| && IsValid(d) then Some(d) else None
  }

  /** Strict parsing with '%Y-%m-%d'. */
  function ParseIso(s: string): Option<Date> {
    Parse(IsoDate, s)
  }

  /** The first format of the list that parses `s`, with its date. */
  function FirstMatch(formats: seq<Format>, s: string): Option<Date>
    decreases |formats|
  {
    if formats == [] then None
    else if Parse(formats[0], s).Some? then Parse(formats[0], s)
    else FirstMatch(formats[1..], s)
  }

  /**
   * The loop `for fmt in date_formats: try: return strptime(s, fmt) except ValueError: continue`.
   */
  method ParseFirst(formats: seq<Format>, s: string) returns (r: Option<Date>)
    ensures r == FirstMatch(formats, s)
  {
    for i := 0 to |formats|
      invariant FirstMatch(formats, s) == FirstMatch(formats[i..], s)
    {
      assert formats[i..][1..] == formats[i + 1..];
      var p := Parse(formats[i], s);
      if p.Some? {
        return p;
      }
    }
    return None;
  }

  /** The first format that parses wins: every earlier one fails, and None means all fail. */
  lemma {:induction false} FirstMatchWins(formats: seq<Format>, s: string)
    ensures FirstMatch(formats, s).None? <==> forall j :: 0 <= j < |formats| ==> Parse(formats[j], s).None?
    ensures FirstMatch(formats, s).Some? ==>
      exists k :: 0 <= k < |formats| && Parse(formats[k], s) == FirstMatch(formats, s)
        && forall j :: 0 <= j < k ==> Parse(formats[j], s).None?
    decreases |formats|
  {
    if formats != [] && Parse(formats[0], s).None? {
      FirstMatchWins(formats[1..], s);
      assert forall j :: 1 <= j < |formats| ==> formats[j] == formats[1..][j - 1];
      if FirstMatch(formats, s).Some? {
        var k :| 0 <= k < |formats| - 1 && Parse(formats[1..][k], s) == FirstMatch(formats, s)
          && forall j :: 0 <= j < k ==> Parse(formats[1..][j], s).None?;
        assert Parse(formats[k + 1], s) == FirstMatch(formats, s);
      }
    }
  }

  /** Parsing the canonical rendering gives the date back. */
  lemma IsoRoundTrip(d: Date)
    ensures ParseIso(Iso(d)) == Some(d)
  {
    var s := Iso(d);
    var y := Digits4(d.year);
    var mo := Digits2(d.month);
    var da := Digits2(d.day);
    assert s[0..4] == y && s[4] == '-' && s[5..7] == mo && s[7] == '-' && s[8..10] == da;
    assert DigitsValue(y) == d.year by { Digits4Value(d.year); }
    assert DigitsValue(mo) == d.month by { Digits2Value(d.month); }
    assert DigitsValue(da) == d.day by { Digits2Value(d.day); }
    var f1 := Defaults.(year := d.year);
    var f2 := f1.(month := d.month);
    var f3 := f2.(day := d.day);
    assert Match([], s, 10, f3) == Some((f3, 10));
    assert Match([Day], s, 8, f2) == Some((f3, 10));
    assert Match([Lit('-'), Day], s, 7, f2) == Some((f3, 10));
    assert Match([Month, Lit('-'), Day], s, 5, f1) == Some((f3, 10));
    assert Match([Lit('-'), Month, Lit('-'), Day], s, 4, f1) == Some((f3, 10));
    assert Match(IsoDate, s, 0, Defaults) == Some((f3, 10));
  }

  lemma Digits2Value(n: nat)
    requires n < 100
    ensures DigitsValue(Digits2(n)) == n
  {
    var s := Digits2(n);
    assert s[..1] == [DigitChar(n / 10)];
    assert s[..1][..0] == [];
    assert DigitValue(s[0]) == n / 10 && DigitValue(s[1]) == n % 10;
    assert DigitsValue(s[..1]) == n / 10;
  }

  lemma Digits4Value(n: nat)
    requires n < 10000
    ensures DigitsValue(Digits4(n)) == n
  {
    var hi := Digits2(n / 100);
    var lo := Digits2(n % 100);
    var s := hi + lo;
    Digits2Value(n / 100);
    assert s[..3] == hi + [lo[0]];
    assert (hi + [lo[0]])[..2] == hi;
    assert DigitsValue(s[..3]) == (n / 100) * 10 + DigitValue(lo[0]);
    assert DigitsValue(s) == ((n / 100) * 10 + (n % 100) / 10) * 10 + (n % 100) % 10;
  }

  /** The fields that read digits. */
  predicate NeedsDigit(t: Token) {
    t.Year? || t.Month? || t.Day?
  }

  /**
   * What a successful match needs from the text from `i` on: every literal
   * of the format occurs in it, and so does a digit when the format reads one.
   */
  lemma {:induction false} MatchFootprint(f: Format, s: string, i: nat, acc: Fields)
    requires i <= |s| && Match(f, s, i, acc).Some?
    ensures forall j :: 0 <= j < |f| && f[j].Lit? ==> exists k :: i <= k < |s| && s[k] == f[j].c
    ensures (exists j :: 0 <= j < |f| && NeedsDigit(f[j])) ==> exists k :: i <= k < |s| && IsDigit(s[k])
    decreases |f|, 1, 0
  {
    if f != [] {
      var rest := f[1..];
      assert forall j :: 1 <= j < |f| ==> f[j] == rest[j - 1];
      match f[0]
      case Year =>
        assert s[i..i + 4][0] == s[i];
        MatchFootprint(rest, s, i + 4, acc.(year := DigitsValue(s[i..i + 4])));
      case Month =>
        if TwoDigitsIn(s, i, 1, 12) && Match(rest, s, i + 2, acc.(month := DigitsValue(s[i..i + 2]))).Some? {
          assert s[i..i + 2][0] == s[i];
          MatchFootprint(rest, s, i + 2, acc.(month := DigitsValue(s[i..i + 2])));
        } else {
          MatchFootprint(rest, s, i + 1, acc.(month := DigitValue(s[i])));
        }
      case Day =>
        if TwoDigitsIn(s, i, 1, 31) && Match(rest, s, i + 2, acc.(day := DigitsValue(s[i..i + 2]))).Some? {
          assert s[i..i + 2][0] == s[i];
          MatchFootprint(rest, s, i + 2, acc.(day := DigitsValue(s[i..i + 2])));
        } else if NonZeroDigit(s, i) && Match(rest, s, i + 1, acc.(day := DigitValue(s[i]))).Some? {
          MatchFootprint(rest, s, i + 1, acc.(day := DigitValue(s[i])));
        } else {
          MatchFootprint(rest, s, i + 2, acc.(day := DigitValue(s[i + 1])));
        }
      case MonthName =>
        MatchNameFootprint(MonthNames, 0, rest, s, i, acc);
      case MonthAbbr =>
        MatchNameFootprint(MonthAbbrs, 0, rest, s, i, acc);
      case Lit(c) =>
        MatchFootprint(rest, s, i + 1, acc);
      case Spaces =>
        MatchSpacesFootprint(rest, s, i, SpaceRun(s, i), acc);
    }
  }

  lemma {:induction false} MatchNameFootprint(names: seq<string>, k: nat, rest: Format, s: string, i: nat, acc: Fields)
    requires i <= |s| && k <= |names| && MatchName(names, k, rest, s, i, acc).Some?
    ensures forall j :: 0 <= j < |rest| && rest[j].Lit? ==> exists k :: i <= k < |s| && s[k] == rest[j].c
    ensures (exists j :: 0 <= j < |rest| && NeedsDigit(rest[j])) ==> exists k :: i <= k < |s| && IsDigit(s[k])
    decreases |rest| + 1, 0, |names| - k
  {
    var name := names[k];
    if i + |name| <= |s| && Lower(s[i..i + |name|]) == name && Match(rest, s, i + |name|, acc.(month := k + 1)).Some? {
      MatchFootprint(rest, s, i + |name|, acc.(month := k + 1));
    } else {
      MatchNameFootprint(names, k + 1, rest, s, i, acc);
    }
  }

  lemma {:induction false} MatchSpacesFootprint(rest: Format, s: string, i: nat, n: nat, acc: Fields)
    requires i + n <= |s| && MatchSpaces(rest, s, i, n, acc).Some?
    ensures forall j :: 0 <= j < |rest| && rest[j].Lit? ==> exists k :: i <= k < |s| && s[k] == rest[j].c
    ensures (exists j :: 0 <= j < |rest| && NeedsDigit(rest[j])) ==> exists k :: i <= k < |s| && IsDigit(s[k])
    decreases |rest| + 1, 0, n
  {
    if Match(rest, s, i + n, acc).Some? {
      MatchFootprint(rest, s, i + n, acc);
    } else {
      MatchSpacesFootprint(rest, s, i, n - 1, acc);
    }
  }

  /** `s` lacks one of the format's literals, or has no digit while the format reads one. */
  predicate RuledOut(f: Format, s: string) {
    exists j :: 0 <= j < |f| &&
      (|| (f[j].Lit? && f[j].c !in s)
       || (NeedsDigit(f[j]) && forall k :: 0 <= k < |s| ==> !IsDigit(s[k])))
  }

  /** A format ruled out for a string does not parse it. */
  lemma RuledOutFails(f: Format, s: string)
    requires RuledOut(f, s)
    ensures Parse(f, s).None?
  {
    if Match(f, s, 0, Defaults).Some? {
      MatchFootprint(f, s, 0, Defaults);
    }
  }

  /** When every format is ruled out, none of them parses. */
  lemma {:induction false} AllRuledOut(formats: seq<Format>, s: string)
    requires forall j :: 0 <= j < |formats| ==> RuledOut(formats[j], s)
    ensures FirstMatch(formats, s).None?
    decreases |formats|
  {
    if formats != [] {
      RuledOutFails(formats[0], s);
      assert forall j :: 1 <= j < |formats| ==> formats[1..][j - 1] == formats[j];
      AllRuledOut(formats[1..], s);
    }
  }

  /** The five formats the scrapers know between them. */
  predicate KnownFormat(f: Format) {
    f == LongDate || f == ShortDate || f == IsoDate || f == MonthFirst || f == DayFirst
  }

  /** A string without digits parses with none of the known formats. */
  lemma NoDigitRulesOut(f: Format, s: string)
    requires KnownFormat(f) && forall k :: 0 <= k < |s| ==> !IsDigit(s[k])
    ensures RuledOut(f, s)
  {
    if f == LongDate || f == ShortDate {
      assert NeedsDigit(f[2]);
    } else {
      assert NeedsDigit(f[0]);
    }
  }

  /** A string without ',', '/' and '-' parses with none of the known formats. */
  lemma NoSeparatorRulesOut(f: Format, s: string)
    requires KnownFormat(f) && ',' !in s && '/' !in s && '-' !in s
    ensures RuledOut(f, s)
  {
    if f == LongDate || f == ShortDate {
      assert f[3] == Lit(',');
    } else {
      assert f[1].Lit?;
    }
  }

  /** A string in the canonical form `strftime('%Y-%m-%d')` produces. */
  predicate IsCanonical(s: string) {
    ParseIso(s).Some? && Iso(ParseIso(s).value) == s
  }

  lemma IsoCanonical(d: Date)
    ensures IsCanonical(Iso(d))
  {
    IsoRoundTrip(d);
  }

  /**
   * Among the formats, a canonical date is first parsed by '%Y-%m-%d':
   * the two month-name formats need a ',' it does not have.
   */
  lemma IsoFirstMatch(formats: seq<Format>, d: Date)
    requires |formats| >= 3 && formats[0] == LongDate && formats[1] == ShortDate && formats[2] == IsoDate
    ensures FirstMatch(formats, Iso(d)) == Some(d)
  {
    var s := Iso(d);
    assert ',' !in s by {
      assert forall i :: 0 <= i < |s| ==> s[i] != ',';
    }
    assert RuledOut(LongDate, s) by { assert LongDate[3] == Lit(','); }
    assert RuledOut(ShortDate, s) by { assert ShortDate[3] == Lit(','); }
    RuledOutFails(LongDate, s);
    RuledOutFails(ShortDate, s);
    IsoRoundTrip(d);
    var rest := formats[1..];
    assert FirstMatch(formats, s) == FirstMatch(rest, s);
    assert FirstMatch(rest, s) == FirstMatch(rest[1..], s);
    assert rest[1..][0] == IsoDate;
  }

  /** '%m/%d/%Y' reads "03/04/2023" as the 4th of March 2023. */
  lemma MonthFirstExample() returns (d: Date)
    ensures d == CivilDate(2023, 3, 4) && Parse(MonthFirst, "03/04/2023") == Some(d)
  {
    var s := "03/04/2023";
    assert s[0..2] == "03";
    DigitsValueTwo(s[0..2]);
    MonthFirstAfterMonth();
    d := CivilDate(2023, 3, 4);
  }

  /** After the month of "03/04/2023": "/04/2023" gives the 4th of 2023. */
  lemma MonthFirstAfterMonth()
    ensures Match(MonthFirst[1..], "03/04/2023", 2, Defaults.(month := 3))
      == Some((Defaults.(month := 3).(day := 4).(year := 2023), 10))
  {
    var s := "03/04/2023";
    assert s[3..5] == "04";
    DigitsValueTwo(s[3..5]);
    MonthFirstAfterDay();
    assert Match([Day, Lit('/'), Year], s, 3, Defaults.(month := 3))
      == Some((Defaults.(month := 3).(day := 4).(year := 2023), 10));
  }

  /** After the day of "03/04/2023": "/2023" gives the year. */
  lemma MonthFirstAfterDay()
    ensures Match([Lit('/'), Year], "03/04/2023", 5, Defaults.(month := 3).(day := 4))
      == Some((Defaults.(month := 3).(day := 4).(year := 2023), 10))
  {
    var s := "03/04/2023";
    assert s[6..10] == "2023";
    DigitsValueFour(s[6..10]);
    assert Match([Year], s, 6, Defaults.(month := 3).(day := 4))
      == Some((Defaults.(month := 3).(day := 4).(year := 2023), 10));
  }
}
