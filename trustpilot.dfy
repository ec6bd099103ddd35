/**
 * `TrustpilotScraper`: date normalisation with five relative units and
 * five absolute formats, the company slug, and the pagination loop that
 * skips reviews it has already collected.
 */
module Trustpilot {
  import opened Wrappers
  import opened Strings
  import opened Civil
  import opened DateFormats
  import opened Relative
  import opened Normalise
  import opened Reviews
  import opened BaseScraper

  const BaseUrl := "https://www.trustpilot.com"
  const SourceName := "Trustpilot"

  const DateFormatList: seq<Format> := [LongDate, ShortDate, IsoDate, MonthFirst, DayFirst]

  /**
   * The unit dispatch of the relative branch, for the lower-cased unit
   * word `unit` and the number `n` of "N unit ago" in `s`: units are tested
   * by substring, in this order; None falls through to the absolute formats.
   */
  function UnitDate(unit: string, n: nat, now: Moment, s: string): Option<string> {
    if Contains(unit, "month") then Some(Render(DaysBefore(now, 30 * n), s))
    else if Contains(unit, "day") then Some(Render(DaysBefore(now, n), s))
    else if Contains(unit, "week") then Some(Render(DaysBefore(now, 7 * n), s))
    else if Contains(unit, "year") then Some(Render(DaysBefore(now, 365 * n), s))
    else if Contains(unit, "hour") then Some(Render(HoursBefore(now, n), s))
    else None
  }

  /** The relative-date branch: None without an "ago" or a match. */
  function RelativeDate(s: string, now: Moment): Option<string> {
    if !Contains(Lower(s), "ago") then None
    else
      match SearchAgo(s)
      case None => None
      case Some(m) => UnitDate(Lower(m.unit), m.amount, now, s)
  }

  /** `_parse_review_date`, with `now` standing for `datetime.now()`. */
  function NormalizeDate(s: string, now: Moment): (r: string)
    ensures r == s || IsCanonical(r)
  {
    match RelativeDate(s, now)
    case Some(r) => r
    case None => Absolute(DateFormatList, s)
  }

  /** The method form: the relative branch, then the loop over the formats. */
  method ParseReviewDate(s: string, now: Moment) returns (r: string)
    ensures r == NormalizeDate(s, now)
  {
    var relative := RelativeDate(s, now);
    if relative.Some? {
      return relative.value;
    }
    var parsed := ParseFirst(DateFormatList, Strip(s));
    r := Render(parsed, s);
  }

  lemma KnownFormats()
    ensures forall j :: 0 <= j < |DateFormatList| ==> KnownFormat(DateFormatList[j])
  {
  }

  /** On "N unit ago" the relative branch dispatches on the lower-cased unit and N. */
  lemma PhraseRelative(n: nat, unit: string, now: Moment)
    requires |unit| > 0 && AllWordChars(unit)
    ensures RelativeDate(Phrase(n, unit), now) == UnitDate(Lower(unit), n, now, Phrase(n, unit))
  {
    PhraseParts(n, unit);
  }

  /** "N months ago" is `now` minus 30·N days. */
  lemma MonthsAgo(n: nat, unit: string, now: Moment)
    requires |unit| > 0 && AllWordChars(unit)
    requires Contains(Lower(unit), "month")
    ensures NormalizeDate(Phrase(n, unit), now) == Render(DaysBefore(now, 30 * n), Phrase(n, unit))
  {
    PhraseRelative(n, unit, now);
  }

  /** "N days ago" is `now` minus N days. */
  lemma DaysAgo(n: nat, unit: string, now: Moment)
    requires |unit| > 0 && AllWordChars(unit)
    requires Contains(Lower(unit), "day") && !Contains(Lower(unit), "month")
    ensures NormalizeDate(Phrase(n, unit), now) == Render(DaysBefore(now, n), Phrase(n, unit))
  {
    PhraseRelative(n, unit, now);
  }

  /** "N weeks ago" is `now` minus 7·N days. */
  lemma WeeksAgo(n: nat, unit: string, now: Moment)
    requires |unit| > 0 && AllWordChars(unit)
    requires Contains(Lower(unit), "week")
    requires !Contains(Lower(unit), "month") && !Contains(Lower(unit), "day")
    ensures NormalizeDate(Phrase(n, unit), now) == Render(DaysBefore(now, 7 * n), Phrase(n, unit))
  {
    PhraseRelative(n, unit, now);
  }

  /** "N years ago" is `now` minus 365·N days. */
  lemma YearsAgo(n: nat, unit: string, now: Moment)
    requires |unit| > 0 && AllWordChars(unit)
    requires Contains(Lower(unit), "year")
    requires !Contains(Lower(unit), "month") && !Contains(Lower(unit), "day") && !Contains(Lower(unit), "week")
    ensures NormalizeDate(Phrase(n, unit), now) == Render(DaysBefore(now, 365 * n), Phrase(n, unit))
  {
    PhraseRelative(n, unit, now);
  }

  /** "N hours ago" is the day of the instant N hours before `now`. */
  lemma HoursAgo(n: nat, unit: string, now: Moment)
    requires |unit| > 0 && AllWordChars(unit)
    requires Contains(Lower(unit), "hour")
    requires !Contains(Lower(unit), "month") && !Contains(Lower(unit), "day")
    requires !Contains(Lower(unit), "week") && !Contains(Lower(unit), "year")
    ensures NormalizeDate(Phrase(n, unit), now) == Render(HoursBefore(now, n), Phrase(n, unit))
  {
    PhraseRelative(n, unit, now);
  }

  /** "N unit ago" with a unit none of the five names occurs in comes back unchanged. */
  lemma UnknownUnitUnchanged(n: nat, unit: string, now: Moment)
    requires |unit| > 0 && AllWordChars(unit)
    requires !Contains(Lower(unit), "month") && !Contains(Lower(unit), "day")
    requires !Contains(Lower(unit), "week") && !Contains(Lower(unit), "year") && !Contains(Lower(unit), "hour")
    ensures NormalizeDate(Phrase(n, unit), now) == Phrase(n, unit)
  {
    PhraseRelative(n, unit, now);
    PhraseNoSeparators(n, unit);
    KnownFormats();
    AbsoluteNoSeparators(DateFormatList, Phrase(n, unit));
  }

  /** A canonical date is already normal: it comes back unchanged. */
  lemma CanonicalUnchanged(d: Date, now: Moment)
    ensures NormalizeDate(Iso(d), now) == Iso(d)
  {
    CanonicalHasNoWord(d, "ago");
    AbsoluteCanonical(DateFormatList, d);
  }

  /** Normalising twice is normalising once. */
  lemma Idempotent(s: string, now: Moment)
    ensures NormalizeDate(NormalizeDate(s, now), now) == NormalizeDate(s, now)
  {
    var r := NormalizeDate(s, now);
    if r != s {
      CanonicalUnchanged(ParseIso(r).value, now);
    }
  }

  /** Text without digits is not a date: it comes back unchanged. */
  lemma NoDigitsUnchanged(s: string, now: Moment)
    requires forall k :: 0 <= k < |s| ==> !IsDigit(s[k])
    ensures NormalizeDate(s, now) == s
  {
    NoDigitNoAgoMatch(s);
    KnownFormats();
    AbsoluteNoDigits(DateFormatList, s);
  }

  /** Text without letters has no "ago" and goes straight to the absolute formats. */
  lemma NoLetterAbsolute(s: string, now: Moment)
    requires forall i :: 0 <= i < |s| ==> !IsAsciiLetter(s[i])
    ensures NormalizeDate(s, now) == Absolute(DateFormatList, s)
  {
    NoLetterNoWord(s, "ago");
  }

  /** Among the formats, "03/04/2023" is first read by '%m/%d/%Y'. */
  lemma MonthFirstWins()
    ensures FirstMatch(DateFormatList, "03/04/2023") == Some(CivilDate(2023, 3, 4))
  {
    var s := "03/04/2023";
    var d := MonthFirstExample();
    assert ',' !in s && '-' !in s;
    assert RuledOut(LongDate, s) by { assert LongDate[3] == Lit(','); }
    assert RuledOut(ShortDate, s) by { assert ShortDate[3] == Lit(','); }
    assert RuledOut(IsoDate, s) by { assert IsoDate[1] == Lit('-'); }
    RuledOutFails(LongDate, s);
    RuledOutFails(ShortDate, s);
    RuledOutFails(IsoDate, s);
    var rest := DateFormatList[1..];
    assert FirstMatch(DateFormatList, s) == FirstMatch(rest, s);
    assert FirstMatch(rest, s) == FirstMatch(rest[1..], s);
    assert FirstMatch(rest[1..], s) == FirstMatch(rest[2..], s);
    assert rest[2..][0] == MonthFirst;
  }

  /** Letter-free text, already stripped, that a format reads becomes that date. */
  lemma AbsoluteDate(s: string, now: Moment, d: Date)
    requires forall i :: 0 <= i < |s| ==> !IsAsciiLetter(s[i])
    requires Strip(s) == s && FirstMatch(DateFormatList, s) == Some(d)
    ensures NormalizeDate(s, now) == Iso(d)
  {
    NoLetterAbsolute(s, now);
  }

  /** '%m/%d/%Y' is tried before '%d/%m/%Y': "03/04/2023" is the 4th of March. */
  lemma MonthBeforeDay(s: string, now: Moment)
    requires s == "03/04/2023"
    ensures NormalizeDate(s, now) == "2023-03-04"
  {
    ExampleShape(s);
    MonthFirstWins();
    AbsoluteDate(s, now, CivilDate(2023, 3, 4));
    IsoExample();
  }

  lemma ExampleShape(s: string)
    requires s == "03/04/2023"
    ensures forall i :: 0 <= i < |s| ==> !IsAsciiLetter(s[i])
    ensures Strip(s) == s
  {
    StripNoBlankEnds(s);
  }

  lemma IsoExample()
    ensures Iso(CivilDate(2023, 3, 4)) == "2023-03-04"
  {
    assert Digits2(20) == "20" && Digits2(23) == "23";
    assert Digits4(2023) == "2023";
    assert Digits2(3) == "03" && Digits2(4) == "04";
  }

  // ---------------------------------------------------------------------
  // Finding the company page

  /** The company part of the review address: the name lower-cased, every space a '-'. */
  function Slug(name: string): (r: string)
    ensures |r| == |name|
    ensures forall i :: 0 <= i < |name| ==> r[i] == if name[i] == ' ' then '-' else LowerChar(name[i])
  {
    ReplaceChar(Lower(name), ' ', '-')
  }

  /** The address probed first. */
  function ProbeUrl(name: string): string {
    BaseUrl + "/review/" + Slug(name)
  }

  /** The search page tried when the probe does not answer 200; the name is not URL-encoded. */
  function SearchUrl(name: string): string {
    BaseUrl + "/search?query=" + name
  }

  /** A slug has no blank and no capital letter. */
  lemma SlugShape(name: string)
    ensures forall i :: 0 <= i < |Slug(name)| ==> Slug(name)[i] != ' ' && !('A' <= Slug(name)[i] <= 'Z')
  {
  }

  /** The answer to `requests.head(..., allow_redirects=True)`: the final status and address. */
  datatype Response = Response(status: int, url: string)

  /**
   * One review container: the stripped text of each element the scraper
   * looks up in it, or None when the lookup finds nothing.
   */
  datatype Element = Element(
    title: Option<string>,      // <h2> with a reviewTitle class
    body: Option<string>,       // <p> with a reviewBody class
    paragraph: Option<string>,  // the first <p>
    dateSpan: Option<string>,   // <span> with a reviewDate class
    time: Option<string>,       // the first <time>
    rating: Option<string>,     // <span> with a rating class
    reviewer: Option<string>)   // <span> with a reviewer class

  /** A review page: its `article[data-review-id]` containers and its `div`s with a "review" class. */
  datatype Page = Page(articles: seq<Element>, divs: seq<Element>)

  /**
   * The site as the scraper sees it. `head` answers the probe (None when
   * the request raises); `searchLinks` gives the `href` of every link of a
   * search page in document order (None when the request raises or the
   * status is an error); `page` gives a review page (None for a
   * `RequestException`, including an error status).
   */
  datatype Site = Site(
    head: string -> Option<Response>,
    searchLinks: string -> Option<seq<string>>,
    page: string -> Option<Page>)

  /**
   * `_find_company_url`: the final address of a probe answered with 200,
   * else the base address joined to the first search link with "/review/"
   * in it; None when a request fails or no link qualifies.
   */
  function FindCompanyUrl(site: Site, name: string): (r: Option<string>)
    ensures site.head(ProbeUrl(name)).None? ==> r.None?
    ensures r.Some? ==>
      || (site.head(ProbeUrl(name)) == Some(Response(200, r.value)))
      || (BaseUrl <= r.value && Contains(r.value[|BaseUrl|..], "/review/"))
    ensures site.head(ProbeUrl(name)).Some? && site.head(ProbeUrl(name)).value.status == 200 ==>
      r == Some(site.head(ProbeUrl(name)).value.url)
    ensures site.head(ProbeUrl(name)).Some? && site.head(ProbeUrl(name)).value.status != 200 && r.Some? ==>
      && site.searchLinks(SearchUrl(name)).Some?
      && var links := site.searchLinks(SearchUrl(name)).value;
      && BaseUrl <= r.value
      && FirstContainingAt(links, "/review/") < |links|
      && r.value[|BaseUrl|..] == links[FirstContainingAt(links, "/review/")]
    ensures r.None? <==>
      || site.head(ProbeUrl(name)).None?
      || (site.head(ProbeUrl(name)).value.status != 200
          && (|| site.searchLinks(SearchUrl(name)).None?
              || forall i :: 0 <= i < |site.searchLinks(SearchUrl(name)).value| ==>
                   !Contains(site.searchLinks(SearchUrl(name)).value[i], "/review/")))
  {
    match site.head(ProbeUrl(name))
    case None => None
    case Some(response) =>
      if response.status == 200 then Some(response.url)
      else
        match site.searchLinks(SearchUrl(name))
        case None => None
        case Some(links) =>
          match FirstContaining(links, "/review/")
          case None => None
          case Some(href) =>
            assert (BaseUrl + href)[|BaseUrl|..] == href;
            Some(BaseUrl + href)
  }

  // ---------------------------------------------------------------------
  // Extracting and collecting reviews

  /** The containers used: the articles, or the review `div`s when there are no articles. */
  function Containers(p: Page): seq<Element> {
    if p.articles != [] then p.articles else p.divs
  }

  /** The date text: the reviewDate span, else the `<time>`, else today's date. */
  function DateText(e: Element, now: Moment): string {
    match e.dateSpan
    case Some(t) => t
    case None =>
      match e.time
      case Some(t) => t
      case None => Iso(now.date)
  }

  /** `_parse_review_date` at `now`, as a function value. */
  function DateNormaliser(now: Moment): string -> string {
    s => NormalizeDate(s, now)
  }

  /**
   * The review the loop body builds from a container, with `norm` for the
   * date normaliser (the collection does not depend on how dates are normalised).
   */
  function Extract(e: Element, now: Moment, url: string, norm: string -> string): Review {
    Review(
      e.title.GetOr("No Title"),
      match e.body case Some(b) => b case None => e.paragraph.GetOr("No Description"),
      norm(DateText(e, now)),
      NumberRating(e.rating),
      Some(e.reviewer.GetOr("Anonymous")),
      Some(SourceName),
      Some(url))
  }

  /** `any(r.title == title and r.date == date for r in self.reviews)`. */
  predicate Existing(rs: seq<Review>, title: string, date: string) {
    exists i :: 0 <= i < |rs| && rs[i].title == title && rs[i].date == date
  }

  /** Whether the loop appends `r` to the reviews `rs` it holds. */
  predicate Admits(rs: seq<Review>, r: Review) {
    !Existing(rs, r.title, r.date) && r.title != "No Title"
  }

  /** The reviews of the containers `es`, in order. */
  function ExtractAll(es: seq<Element>, now: Moment, url: string, norm: string -> string): (rs: seq<Review>)
    ensures |rs| == |es|
    ensures forall k :: 0 <= k < |es| ==> rs[k] == Extract(es[k], now, url, norm)
  {
    if es == [] then [] else ExtractAll(es[..|es| - 1], now, url, norm) + [Extract(es[|es| - 1], now, url, norm)]
  }

  /** The reviews held after offering `items`, one by one, to the reviews `acc`. */
  function Admit(acc: seq<Review>, items: seq<Review>): (r: seq<Review>)
    ensures acc <= r && |r| <= |acc| + |items|
  {
    if items == [] then acc
    else
      var held := Admit(acc, items[..|items| - 1]);
      var x := items[|items| - 1];
      if Admits(held, x) then held + [x] else held
  }

  /** The reviews held after the loop over the containers `es` of one page. */
  function AddPage(acc: seq<Review>, es: seq<Element>, now: Moment, url: string, norm: string -> string): seq<Review> {
    Admit(acc, ExtractAll(es, now, url, norm))
  }

  /** The address of review page `p`. */
  function PageUrl(url: string, p: nat): string {
    if p == 1 then url else url + "?page=" + NatToString(p)
  }

  /** The `while len(self.reviews) < 100` loop from page `page` on, holding `acc`. */
  function Collect(site: Site, url: string, now: Moment, norm: string -> string, page: nat, acc: seq<Review>): Crawl
    decreases ReviewCap - |acc|
  {
    if |acc| >= ReviewCap then Crawl(acc, [], CapReached)
    else
      var fetch := Fetch(PageUrl(url, page), |acc|);
      match site.page(fetch.url)
      case None => Crawl(acc, [fetch], FetchFailed)
      case Some(p) =>
        var es := Containers(p);
        if es == [] then Crawl(acc, [fetch], NoContainers)
        else
          var next := AddPage(acc, es, now, url, norm);
          if |next| == |acc| then Crawl(next, [fetch], NothingNew)
          else
            var rest := Collect(site, url, now, norm, page + 1, next);
            Crawl(rest.reviews, [fetch] + rest.fetches, rest.stop)
  }

  /** What `scrape` returns, for a scraper that already holds `initial`. */
  function Scraped(site: Site, name: string, now: Moment, start: Date, end: Date, initial: seq<Review>): seq<Review> {
    match FindCompanyUrl(site, name)
    case None => []
    case Some(url) =>
      if url == [] then [] else Filter(Collect(site, url, now, DateNormaliser(now), 1, initial).reviews, start, end)
  }

  /** One pass of the loop body: the fields of a container, with their defaults. */
  method ExtractReview(e: Element, now: Moment, url: string) returns (review: Review)
    ensures review == Extract(e, now, url, DateNormaliser(now))
  {
    var title := e.title.GetOr("No Title");
    var description := if e.body.Some? then e.body.value else e.paragraph.GetOr("No Description");
    var date := ParseReviewDate(DateText(e, now), now);
    var rating := NumberRating(e.rating);
    var reviewerName := e.reviewer.GetOr("Anonymous");
    review := Review(title, description, date, rating, Some(reviewerName), Some(SourceName), Some(url));
  }

  /** Offering one container more: the held reviews grow by its review when that is admitted. */
  lemma AddOneMore(acc: seq<Review>, es: seq<Element>, i: nat, now: Moment, url: string, norm: string -> string)
    requires i < |es|
    ensures var held := Admit(acc, ExtractAll(es[..i], now, url, norm));
      var x := Extract(es[i], now, url, norm);
      Admit(acc, ExtractAll(es[..i + 1], now, url, norm)) == if Admits(held, x) then held + [x] else held
  {
    assert es[..i + 1][..i] == es[..i];
    assert ExtractAll(es[..i + 1], now, url, norm)[..i] == ExtractAll(es[..i], now, url, norm);
  }

  /** The loop over the containers of one page, appending the reviews it admits. */
  method AddElements(sc: Scraper, elements: seq<Element>, now: Moment, url: string) returns (foundNew: bool)
    modifies sc
    ensures sc.reviews == AddPage(old(sc.reviews), elements, now, url, DateNormaliser(now))
    ensures foundNew <==> |sc.reviews| > |old(sc.reviews)|
  {
    foundNew := false;
    for i := 0 to |elements|
      invariant sc.reviews == Admit(old(sc.reviews), ExtractAll(elements[..i], now, url, DateNormaliser(now)))
      invariant foundNew <==> |sc.reviews| > |old(sc.reviews)|
    {
      AddOneMore(old(sc.reviews), elements, i, now, url, DateNormaliser(now));
      var review := ExtractReview(elements[i], now, url);
      var existing := Existing(sc.reviews, review.title, review.date);
      if !existing && review.title != "No Title" {
        sc.reviews := sc.reviews + [review];
        foundNew := true;
      }
    }
    assert elements[..|elements|] == elements;
  }

  /** The pagination loop of `scrape`, for the resolved company address `url`. */
  method Paginate(sc: Scraper, site: Site, now: Moment, url: string)
    modifies sc
    ensures sc.reviews == Collect(site, url, now, DateNormaliser(now), 1, old(sc.reviews)).reviews
  {
    var page := 1;
    while |sc.reviews| < ReviewCap
      invariant page >= 1
      invariant Collect(site, url, now, DateNormaliser(now), 1, old(sc.reviews)).reviews
        == Collect(site, url, now, DateNormaliser(now), page, sc.reviews).reviews
      decreases ReviewCap - |sc.reviews|
    {
      var response := site.page(PageUrl(url, page));
      if response.None? {
        break;
      }
      var elements := response.value.articles;
      if elements == [] {
        elements := response.value.divs;
      }
      if elements == [] {
        break;
      }
      assert elements == Containers(response.value);
      ghost var before := sc.reviews;
      var foundNew := AddElements(sc, elements, now, url);
      if !foundNew {
        break;
      }
      CollectNext(site, url, now, DateNormaliser(now), page, before, response.value);
      page := page + 1;
    }
  }

  /** `scrape`: resolve the company, collect pages, keep the reviews in the date range. */
  method Scrape(sc: Scraper, site: Site, now: Moment) returns (rs: seq<Review>)
    modifies sc
    ensures rs == Scraped(site, sc.companyName, now, sc.startDate, sc.endDate, old(sc.reviews))
    ensures var u := FindCompanyUrl(site, sc.companyName);
      if u.None? || u.value == [] then sc.reviews == old(sc.reviews) else sc.reviews == rs
  {
    var found := FindCompanyUrl(site, sc.companyName);
    if found.None? || found.value == [] {
      return [];
    }
    Paginate(sc, site, now, found.value);
    sc.reviews := sc.FilterByDate(sc.reviews);
    rs := sc.reviews;
  }

  // ---------------------------------------------------------------------
  // Properties of the collection

  /** The reviews held have pairwise different (title, date) pairs and none is titled "No Title". */
  predicate UniqueKeys(rs: seq<Review>) {
    && (forall i, j :: 0 <= i < j < |rs| ==> !(rs[i].title == rs[j].title && rs[i].date == rs[j].date))
    && (forall i :: 0 <= i < |rs| ==> rs[i].title != "No Title")
  }

  /** Appending an admitted review keeps the keys unique. */
  lemma AdmitKeepsUnique(rs: seq<Review>, r: Review)
    requires UniqueKeys(rs) && Admits(rs, r)
    ensures UniqueKeys(rs + [r])
  {
    var out := rs + [r];
    forall i, j | 0 <= i < j < |out|
      ensures !(out[i].title == out[j].title && out[i].date == out[j].date)
    {
      if j == |rs| {
        assert out[i] == rs[i];
      }
    }
  }

  /** De-duplication: offering reviews keeps the keys of the held ones unique. */
  lemma {:induction false} AdmitUnique(acc: seq<Review>, items: seq<Review>)
    requires UniqueKeys(acc)
    ensures UniqueKeys(Admit(acc, items))
    decreases |items|
  {
    if items != [] {
      var held := Admit(acc, items[..|items| - 1]);
      AdmitUnique(acc, items[..|items| - 1]);
      if Admits(held, items[|items| - 1]) {
        AdmitKeepsUnique(held, items[|items| - 1]);
      }
    }
  }

  /**
   * Nothing is lost but duplicates: every offered review with a title
   * has a held review with its (title, date) afterwards.
   */
  lemma {:induction false} AdmitCovers(acc: seq<Review>, items: seq<Review>, k: nat)
    requires k < |items| && items[k].title != "No Title"
    ensures Existing(Admit(acc, items), items[k].title, items[k].date)
    decreases |items|
  {
    var init := items[..|items| - 1];
    var held := Admit(acc, init);
    var r := Admit(acc, items);
    var x := items[k];
    if k < |items| - 1 {
      assert init[k] == x;
      AdmitCovers(acc, init, k);
      var i :| 0 <= i < |held| && held[i].title == x.title && held[i].date == x.date;
      assert r[i] == held[i];
    } else if Admits(held, x) {
      assert r[|held|] == x;
    } else {
      var i :| 0 <= i < |held| && held[i].title == x.title && held[i].date == x.date;
      assert r[i] == held[i];
    }
  }

  /** Every review appended is one of those offered. */
  lemma {:induction false} AdmitOrigin(acc: seq<Review>, items: seq<Review>)
    ensures forall i :: |acc| <= i < |Admit(acc, items)| ==> Admit(acc, items)[i] in items
    decreases |items|
  {
    if items != [] {
      var init := items[..|items| - 1];
      AdmitOrigin(acc, init);
      var held := Admit(acc, init);
      var r := Admit(acc, items);
      forall i | |acc| <= i < |r|
        ensures r[i] in items
      {
        if i < |held| {
          assert r[i] == held[i];
          assert held[i] in init;
          var k :| 0 <= k < |init| && init[k] == held[i];
          assert items[k] == init[k];
        } else {
          assert r[i] == items[|items| - 1];
        }
      }
    }
  }

  /** The reviews extracted from a page carry the site's name and the company address. */
  lemma ExtractLabels(es: seq<Element>, now: Moment, url: string, norm: string -> string)
    ensures forall r :: r in ExtractAll(es, now, url, norm) ==> r.source == Some(SourceName) && r.url == Some(url)
  {
  }

  /** Every review a page appends is the extraction of one of its containers, with the site's name and the company address. */
  lemma AddPageOrigin(acc: seq<Review>, es: seq<Element>, now: Moment, url: string, norm: string -> string)
    ensures var r := AddPage(acc, es, now, url, norm);
      forall i :: |acc| <= i < |r| ==>
        && r[i].source == Some(SourceName) && r[i].url == Some(url)
        && exists k :: 0 <= k < |es| && r[i] == Extract(es[k], now, url, norm)
  {
    AdmitOrigin(acc, ExtractAll(es, now, url, norm));
    ExtractLabels(es, now, url, norm);
  }

  /** A page that adds reviews is followed by the loop from the next page on. */
  lemma CollectNext(site: Site, url: string, now: Moment, norm: string -> string, page: nat, acc: seq<Review>, p: Page)
    requires |acc| < ReviewCap && site.page(PageUrl(url, page)) == Some(p) && Containers(p) != []
    requires |AddPage(acc, Containers(p), now, url, norm)| != |acc|
    ensures var rest := Collect(site, url, now, norm, page + 1, AddPage(acc, Containers(p), now, url, norm));
      Collect(site, url, now, norm, page, acc) == Crawl(rest.reviews, [Fetch(PageUrl(url, page), |acc|)] + rest.fetches, rest.stop)
  {
  }

  /** The loop only appends: what was held before it is a prefix of what it ends with. */
  lemma {:induction false} CollectExtends(site: Site, url: string, now: Moment, norm: string -> string, page: nat, acc: seq<Review>)
    ensures acc <= Collect(site, url, now, norm, page, acc).reviews
    decreases ReviewCap - |acc|
  {
    if |acc| < ReviewCap && site.page(PageUrl(url, page)).Some? {
      var es := Containers(site.page(PageUrl(url, page)).value);
      var next := AddPage(acc, es, now, url, norm);
      if es != [] && |next| != |acc| {
        CollectExtends(site, url, now, norm, page + 1, next);
      }
    }
  }

  /** There is a request exactly when fewer than 100 reviews are held at the start. */
  lemma CollectFetchesAny(site: Site, url: string, now: Moment, norm: string -> string, page: nat, acc: seq<Review>)
    ensures Collect(site, url, now, norm, page, acc).fetches == [] <==> |acc| >= ReviewCap
  {
  }

  /** The i-th request asks for page `page + i`. */
  lemma CollectFetchUrls(site: Site, url: string, now: Moment, norm: string -> string, page: nat, acc: seq<Review>)
    ensures var c := Collect(site, url, now, norm, page, acc);
      forall i :: 0 <= i < |c.fetches| ==> c.fetches[i].url == PageUrl(url, page + i)
  {
    var fs := Collect(site, url, now, norm, page, acc).fetches;
    CollectUrls(site, url, now, norm, page, acc);
    forall i | 0 <= i < |fs|
      ensures fs[i].url == PageUrl(url, page + i)
    {
      PageUrlsAt(url, page, |fs|, i);
    }
  }

  /** The addresses of pages `page`, `page + 1`, … (`n` of them). */
  function PageUrls(url: string, page: nat, n: nat): seq<string>
    decreases n
  {
    if n == 0 then [] else [PageUrl(url, page)] + PageUrls(url, page + 1, n - 1)
  }

  lemma {:induction false} PageUrlsAt(url: string, page: nat, n: nat, i: nat)
    requires i < n
    ensures |PageUrls(url, page, n)| == n && PageUrls(url, page, n)[i] == PageUrl(url, page + i)
    decreases n
  {
    if i > 0 {
      PageUrlsAt(url, page + 1, n - 1, i - 1);
    } else if n > 1 {
      PageUrlsAt(url, page + 1, n - 1, 0);
    }
  }

  /** The crawl from `page` requests pages `page`, `page + 1`, … in order. */
  lemma {:induction false} CollectUrls(site: Site, url: string, now: Moment, norm: string -> string, page: nat, acc: seq<Review>)
    ensures var fs := Collect(site, url, now, norm, page, acc).fetches;
      Urls(fs) == PageUrls(url, page, |fs|)
    decreases ReviewCap - |acc|
  {
    var fs := Collect(site, url, now, norm, page, acc).fetches;
    if |fs| == 1 {
      CollectFirst(site, url, now, norm, page, acc);
      assert fs == [fs[0]];
      UrlsCons(fs[0], []);
    } else if |fs| > 1 {
      var next := CollectStep(site, url, now, norm, page, acc);
      var rest := Collect(site, url, now, norm, page + 1, next).fetches;
      CollectUrls(site, url, now, norm, page + 1, next);
      UrlsCons(Fetch(PageUrl(url, page), |acc|), rest);
    }
  }

  /** A crawl that makes more than one request is its first request followed by the crawl from the next page. */
  lemma CollectStep(site: Site, url: string, now: Moment, norm: string -> string, page: nat, acc: seq<Review>) returns (next: seq<Review>)
    requires |Collect(site, url, now, norm, page, acc).fetches| > 1
    ensures |acc| < ReviewCap && |next| > |acc|
    ensures Collect(site, url, now, norm, page, acc).fetches
      == [Fetch(PageUrl(url, page), |acc|)] + Collect(site, url, now, norm, page + 1, next).fetches
  {
    CollectGoesOn(site, url, now, norm, page, acc);
    var p := site.page(PageUrl(url, page)).value;
    next := AddPage(acc, Containers(p), now, url, norm);
    CollectNext(site, url, now, norm, page, acc, p);
  }

  /** The first request of a crawl asks for its first page with what was held at the start. */
  lemma CollectFirst(site: Site, url: string, now: Moment, norm: string -> string, page: nat, acc: seq<Review>)
    requires |Collect(site, url, now, norm, page, acc).fetches| > 0
    ensures Collect(site, url, now, norm, page, acc).fetches[0] == Fetch(PageUrl(url, page), |acc|)
  {
  }

  /** A crawl that makes more than one request went on past its first page. */
  lemma CollectGoesOn(site: Site, url: string, now: Moment, norm: string -> string, page: nat, acc: seq<Review>)
    requires |Collect(site, url, now, norm, page, acc).fetches| > 1
    ensures |acc| < ReviewCap && site.page(PageUrl(url, page)).Some?
    ensures var p := site.page(PageUrl(url, page)).value;
      Containers(p) != [] && |AddPage(acc, Containers(p), now, url, norm)| != |acc|
  {
  }

  /**
   * Every request was made while fewer than 100 reviews were held, and
   * at least as many as at the start.
   */
  lemma {:induction false} CollectFetchHeld(site: Site, url: string, now: Moment, norm: string -> string, page: nat, acc: seq<Review>)
    ensures var c := Collect(site, url, now, norm, page, acc);
      forall i :: 0 <= i < |c.fetches| ==> |acc| <= c.fetches[i].held < ReviewCap
    decreases ReviewCap - |acc|
  {
    if |acc| < ReviewCap && site.page(PageUrl(url, page)).Some? {
      var p := site.page(PageUrl(url, page)).value;
      var next := AddPage(acc, Containers(p), now, url, norm);
      if Containers(p) != [] && |next| != |acc| {
        CollectFetchHeld(site, url, now, norm, page + 1, next);
        CollectNext(site, url, now, norm, page, acc, p);
      }
    }
  }

  /**
   * Why the loop stopped: the cap exactly when 100 or more reviews are held;
   * otherwise the last request failed, found no containers, or admitted
   * nothing new, and it was made holding the final reviews.
   */
  lemma {:induction false} CollectStops(site: Site, url: string, now: Moment, norm: string -> string, page: nat, acc: seq<Review>)
    ensures var c := Collect(site, url, now, norm, page, acc);
      && (c.stop == CapReached <==> |c.reviews| >= ReviewCap)
      && (c.stop != CapReached ==>
        && c.fetches != [] && c.fetches[|c.fetches| - 1].held == |c.reviews|
        && var last := site.page(c.fetches[|c.fetches| - 1].url);
        && (c.stop == FetchFailed <==> last.None?)
        && (c.stop == NoContainers ==> last.Some? && Containers(last.value) == [])
        && (c.stop == NothingNew ==> last.Some? && AddPage(c.reviews, Containers(last.value), now, url, norm) == c.reviews))
    decreases ReviewCap - |acc|
  {
    if |acc| < ReviewCap && site.page(PageUrl(url, page)).Some? {
      var es := Containers(site.page(PageUrl(url, page)).value);
      var next := AddPage(acc, es, now, url, norm);
      if es != [] && |next| != |acc| {
        CollectStops(site, url, now, norm, page + 1, next);
      } else if es != [] {
        assert next == acc;
      }
    }
  }

  /** The de-duplication invariant holds of everything the loop collects. */
  lemma {:induction false} CollectUnique(site: Site, url: string, now: Moment, norm: string -> string, page: nat, acc: seq<Review>)
    requires UniqueKeys(acc)
    ensures UniqueKeys(Collect(site, url, now, norm, page, acc).reviews)
    decreases ReviewCap - |acc|
  {
    if |acc| < ReviewCap && site.page(PageUrl(url, page)).Some? {
      var es := Containers(site.page(PageUrl(url, page)).value);
      AdmitUnique(acc, ExtractAll(es, now, url, norm));
      var next := AddPage(acc, es, now, url, norm);
      if es != [] && |next| != |acc| {
        CollectUnique(site, url, now, norm, page + 1, next);
      }
    }
  }

  /** Every review the loop appends carries the site's name and the company address. */
  lemma {:induction false} CollectLabels(site: Site, url: string, now: Moment, norm: string -> string, page: nat, acc: seq<Review>)
    ensures forall i :: |acc| <= i < |Collect(site, url, now, norm, page, acc).reviews| ==>
      && Collect(site, url, now, norm, page, acc).reviews[i].source == Some(SourceName)
      && Collect(site, url, now, norm, page, acc).reviews[i].url == Some(url)
    decreases ReviewCap - |acc|
  {
    if |acc| < ReviewCap && site.page(PageUrl(url, page)).Some? {
      var es := Containers(site.page(PageUrl(url, page)).value);
      AddPageOrigin(acc, es, now, url, norm);
      var next := AddPage(acc, es, now, url, norm);
      if es != [] && |next| != |acc| {
        CollectLabels(site, url, now, norm, page + 1, next);
        CollectExtends(site, url, now, norm, page + 1, next);
      }
    }
  }

  /** Keeping a sublist by the date filter keeps the keys unique. */
  lemma {:induction false} FilterUnique(rs: seq<Review>, start: Date, end: Date)
    requires UniqueKeys(rs)
    ensures UniqueKeys(Filter(rs, start, end))
    decreases |rs|
  {
    if rs != [] {
      var init := rs[..|rs| - 1];
      var last := rs[|rs| - 1];
      assert UniqueKeys(init);
      FilterUnique(init, start, end);
      var f := Filter(init, start, end);
      if Keep(last, start, end) {
        forall x | x in f
          ensures !(x.title == last.title && x.date == last.date)
        {
          FilterMembers(init, start, end, x);
        }
        AdmitKeepsUnique(f, last);
      }
    }
  }

  /** What the loop collects from nothing, once filtered: unique keys, all labelled, all kept by the filter. */
  lemma CollectedFacts(site: Site, url: string, now: Moment, norm: string -> string, start: Date, end: Date)
    ensures UniqueKeys(Filter(Collect(site, url, now, norm, 1, []).reviews, start, end))
    ensures forall r :: r in Filter(Collect(site, url, now, norm, 1, []).reviews, start, end) ==>
      Keep(r, start, end) && r.source == Some(SourceName) && r.url == Some(url)
  {
    CollectUnique(site, url, now, norm, 1, []);
    CollectLabels(site, url, now, norm, 1, []);
    var collected := Collect(site, url, now, norm, 1, []).reviews;
    FilterUnique(collected, start, end);
    forall r | r in Filter(collected, start, end)
      ensures r.source == Some(SourceName) && r.url == Some(url)
    {
      FilterMembers(collected, start, end, r);
      var i :| 0 <= i < |collected| && collected[i] == r;
    }
  }

  /**
   * What a fresh scraper returns: reviews with unique (title, date) pairs,
   * all labelled with the site and the company address, all kept by the
   * date filter; nothing when the company is not found.
   */
  lemma ScrapedFacts(site: Site, name: string, now: Moment, start: Date, end: Date)
    ensures UniqueKeys(Scraped(site, name, now, start, end, []))
    ensures FindCompanyUrl(site, name).None? ==> Scraped(site, name, now, start, end, []) == []
    ensures forall r :: r in Scraped(site, name, now, start, end, []) ==>
      Keep(r, start, end) && r.source == Some(SourceName) && r.url == FindCompanyUrl(site, name)
  {
    var found := FindCompanyUrl(site, name);
    if found.Some? && found.value != [] {
      CollectedFacts(site, found.value, now, DateNormaliser(now), start, end);
    }
  }

  /** A container's missing parts get the placeholders; a missing date is today's. */
  lemma ExtractDefaults(e: Element, now: Moment, url: string)
    ensures var r := Extract(e, now, url, DateNormaliser(now));
      && (e.title.None? ==> r.title == "No Title")
      && (e.body.None? && e.paragraph.None? ==> r.description == "No Description")
      && (e.dateSpan.None? && e.time.None? ==> r.date == Iso(now.date))
      && (e.rating.None? ==> r.rating.None?)
      && (e.reviewer.None? ==> r.reviewerName == Some("Anonymous"))
  {
    CanonicalUnchanged(now.date, now);
  }
}
