/**
 * The steps the three `_parse_review_date` variants share: rendering a
 * computed date with `strftime('%Y-%m-%d')`, and the loop over absolute
 * formats that ends by returning the input unchanged.
 */
module Normalise {
  import opened Wrappers
  import opened Strings
  import opened Civil
  import opened DateFormats

  /** What a relative branch returns: the canonical date, or the input when the arithmetic overflowed. */
  function Render(d: Option<Date>, raw: string): (r: string)
    ensures d.Some? ==> IsCanonical(r) && ParseIso(r) == d
    ensures d.None? ==> r == raw
  {
    match d
    case Some(date) => IsoRoundTrip(date); Iso(date)
    case None => raw
  }

  /**
   * The absolute-format step: the first format that parses the stripped
   * text gives the canonical date; when none does, the text comes back as it was.
   */
  function Absolute(formats: seq<Format>, s: string): (r: string)
    ensures r == s || IsCanonical(r)
  {
    Render(FirstMatch(formats, Strip(s)), s)
  }

  /** Text without digits matches none of the known formats and comes back unchanged. */
  lemma AbsoluteNoDigits(formats: seq<Format>, s: string)
    requires forall j :: 0 <= j < |formats| ==> KnownFormat(formats[j])
    requires forall k :: 0 <= k < |s| ==> !IsDigit(s[k])
    ensures Absolute(formats, s) == s
  {
    var t := Strip(s);
    StripChars(s);
    forall j | 0 <= j < |formats|
      ensures RuledOut(formats[j], t)
    {
      NoDigitRulesOut(formats[j], t);
    }
    AllRuledOut(formats, t);
  }

  /** Text without ',', '/' and '-' matches none of the known formats and comes back unchanged. */
  lemma AbsoluteNoSeparators(formats: seq<Format>, s: string)
    requires forall j :: 0 <= j < |formats| ==> KnownFormat(formats[j])
    requires ',' !in s && '/' !in s && '-' !in s
    ensures Absolute(formats, s) == s
  {
    var t := Strip(s);
    StripChars(s);
    forall j | 0 <= j < |formats|
      ensures RuledOut(formats[j], t)
    {
      NoSeparatorRulesOut(formats[j], t);
    }
    AllRuledOut(formats, t);
  }

  /** A canonical date is found by the formats when they start with the month-name ones and '%Y-%m-%d'. */
  lemma AbsoluteCanonical(formats: seq<Format>, d: Date)
    requires |formats| >= 3 && formats[0] == LongDate && formats[1] == ShortDate && formats[2] == IsoDate
    ensures Absolute(formats, Iso(d)) == Iso(d)
  {
    StripNoBlankEnds(Iso(d));
    IsoFirstMatch(formats, d);
  }

  /** A canonical date contains no "ago" and no other lower-case word. */
  lemma CanonicalHasNoWord(d: Date, w: string)
    requires |w| > 0 && 'a' <= w[0] <= 'z'
    ensures !Contains(Lower(Iso(d)), w)
  {
    NoLetterNoWord(Iso(d), w);
  }

}
