/**
 * `CapterraScraper`: date normalisation with four relative units and four
 * absolute formats, the search for the product page, the choice of a
 * review's description, and the pagination loop that appends every review
 * card it finds.
 */
module Capterra {
  import opened Wrappers
  import opened Strings
  import opened Civil
  import opened DateFormats
  import opened Relative
  import opened Normalise
  import opened Reviews
  import opened BaseScraper

  const BaseUrl := "https://www.capterra.com"
  const SourceName := "Capterra"

  /** No '%d/%m/%Y' here. */
  const DateFormatList: seq<Format> := [LongDate, ShortDate, IsoDate, MonthFirst]

  /**
   * The unit dispatch of the relative branch for the lower-cased unit word
   * `unit` and the number `n`: month, day, week and year, tested by substring
   * in this order; there is no hour unit, so None falls through to the formats.
   */
  function UnitDate(unit: string, n: nat, now: Moment, s: string): Option<string> {
    if Contains(unit, "month") then Some(Render(DaysBefore(now, 30 * n), s))
    else if Contains(unit, "day") then Some(Render(DaysBefore(now, n), s))
    else if Contains(unit, "week") then Some(Render(DaysBefore(now, 7 * n), s))
    else if Contains(unit, "year") then Some(Render(DaysBefore(now, 365 * n), s))
    else None
  }

  /** The relative-date branch: None without an "ago", a match or a known unit. */
  function RelativeDate(s: string, now: Moment): Option<string> {
    if !Contains(Lower(s), "ago") then None
    else
      match SearchAgo(s)
      case None => None
      case Some(m) => UnitDate(Lower(m.unit), m.amount, now, s)
  }

  /** `_parse_review_date`, with `now` standing for `datetime.now()`. */
  function NormalizeDate(s: string, now: Moment): (r: string)
    ensures r == s || IsCanonical(r)
  {
    match RelativeDate(s, now)
    case Some(r) => r
    case None => Absolute(DateFormatList, s)
  }

  /** The method form: the relative branch, then the loop over the formats. */
  method ParseReviewDate(s: string, now: Moment) returns (r: string)
    ensures r == NormalizeDate(s, now)
  {
    var relative := RelativeDate(s, now);
    if relative.Some? {
      return relative.value;
    }
    var parsed := ParseFirst(DateFormatList, Strip(s));
    r := Render(parsed, s);
  }

  lemma KnownFormats()
    ensures forall j :: 0 <= j < |DateFormatList| ==> KnownFormat(DateFormatList[j])
  {
  }

  /** On "N unit ago" the relative branch dispatches on the lower-cased unit and N. */
  lemma PhraseRelative(n: nat, unit: string, now: Moment)
    requires |unit| > 0 && AllWordChars(unit)
    ensures RelativeDate(Phrase(n, unit), now) == UnitDate(Lower(unit), n, now, Phrase(n, unit))
  {
    PhraseParts(n, unit);
  }

  /** "N months ago" is `now` minus 30·N days. */
  lemma MonthsAgo(n: nat, unit: string, now: Moment)
    requires |unit| > 0 && AllWordChars(unit)
    requires Contains(Lower(unit), "month")
    ensures NormalizeDate(Phrase(n, unit), now) == Render(DaysBefore(now, 30 * n), Phrase(n, unit))
  {
    PhraseRelative(n, unit, now);
  }

  /** "N days ago" is `now` minus N days. */
  lemma DaysAgo(n: nat, unit: string, now: Moment)
    requires |unit| > 0 && AllWordChars(unit)
    requires Contains(Lower(unit), "day") && !Contains(Lower(unit), "month")
    ensures NormalizeDate(Phrase(n, unit), now) == Render(DaysBefore(now, n), Phrase(n, unit))
  {
    PhraseRelative(n, unit, now);
  }

  /** "N weeks ago" is `now` minus 7·N days. */
  lemma WeeksAgo(n: nat, unit: string, now: Moment)
    requires |unit| > 0 && AllWordChars(unit)
    requires Contains(Lower(unit), "week")
    requires !Contains(Lower(unit), "month") && !Contains(Lower(unit), "day")
    ensures NormalizeDate(Phrase(n, unit), now) == Render(DaysBefore(now, 7 * n), Phrase(n, unit))
  {
    PhraseRelative(n, unit, now);
  }

  /** "N years ago" is `now` minus 365·N days. */
  lemma YearsAgo(n: nat, unit: string, now: Moment)
    requires |unit| > 0 && AllWordChars(unit)
    requires Contains(Lower(unit), "year")
    requires !Contains(Lower(unit), "month") && !Contains(Lower(unit), "day") && !Contains(Lower(unit), "week")
    ensures NormalizeDate(Phrase(n, unit), now) == Render(DaysBefore(now, 365 * n), Phrase(n, unit))
  {
    PhraseRelative(n, unit, now);
  }

  /** "N unit ago" with a unit none of the four names occurs in (hours among them) comes back unchanged. */
  lemma UnknownUnitUnchanged(n: nat, unit: string, now: Moment)
    requires |unit| > 0 && AllWordChars(unit)
    requires !Contains(Lower(unit), "month") && !Contains(Lower(unit), "day")
    requires !Contains(Lower(unit), "week") && !Contains(Lower(unit), "year")
    ensures NormalizeDate(Phrase(n, unit), now) == Phrase(n, unit)
  {
    PhraseRelative(n, unit, now);
    PhraseNoSeparators(n, unit);
    KnownFormats();
    AbsoluteNoSeparators(DateFormatList, Phrase(n, unit));
  }

  /** "hours" names none of the four units. */
  lemma HoursWord()
    ensures |"hours"| > 0 && AllWordChars("hours") && Lower("hours") == "hours"
    ensures !Contains("hours", "month") && !Contains("hours", "day")
    ensures !Contains("hours", "week") && !Contains("hours", "year")
  {
    LowerLetters("hours");
    MissingChar("hours", "month");
    MissingChar("hours", "day");
    MissingChar("hours", "week");
    MissingChar("hours", "year");
  }

  /** There is no hour unit: "N hours ago" comes back unchanged. */
  lemma HoursUnchanged(n: nat, now: Moment)
    ensures NormalizeDate(Phrase(n, "hours"), now) == Phrase(n, "hours")
  {
    HoursWord();
    UnknownUnitUnchanged(n, "hours", now);
  }

  /** A canonical date is already normal: it comes back unchanged. */
  lemma CanonicalUnchanged(d: Date, now: Moment)
    ensures NormalizeDate(Iso(d), now) == Iso(d)
  {
    CanonicalHasNoWord(d, "ago");
    AbsoluteCanonical(DateFormatList, d);
  }

  /** Normalising twice is normalising once. */
  lemma Idempotent(s: string, now: Moment)
    ensures NormalizeDate(NormalizeDate(s, now), now) == NormalizeDate(s, now)
  {
    var r := NormalizeDate(s, now);
    if r != s {
      CanonicalUnchanged(ParseIso(r).value, now);
    }
  }

  /** Text without digits is not a date: it comes back unchanged. */
  lemma NoDigitsUnchanged(s: string, now: Moment)
    requires forall k :: 0 <= k < |s| ==> !IsDigit(s[k])
    ensures NormalizeDate(s, now) == s
  {
    NoDigitNoAgoMatch(s);
    KnownFormats();
    AbsoluteNoDigits(DateFormatList, s);
  }

  // ---------------------------------------------------------------------
  // Finding the product page

  /**
   * A search page as the scraper sees it: the `href` of each
   * `product_result_link` anchor in document order (None for an anchor
   * without one), and the `href` of every link.
   */
  datatype SearchPage = SearchPage(products: seq<Option<string>>, links: seq<string>)

  /**
   * One `ReviewCard`: the stripped text of its `<h3>`, of each of its `<p>`s,
   * and of its review_date, star_rating and reviewer_name spans, or None
   * when the lookup finds nothing.
   */
  datatype Card = Card(
    title: Option<string>,
    paragraphs: seq<string>,
    date: Option<string>,
    rating: Option<string>,
    reviewer: Option<string>)

  /**
   * The site: `search` answers a search request (None when it raises or has
   * an error status), `page` gives the review cards of a page (None for a
   * `RequestException`, including an error status).
   */
  datatype Site = Site(
    search: string -> Option<SearchPage>,
    page: string -> Option<seq<Card>>)

  /** The search request; the name is not URL-encoded. */
  function SearchUrl(name: string): string {
    BaseUrl + "/search?q=" + name
  }

  /**
   * `_find_company_url`: the base address joined to the first product
   * result's `href` (None when that anchor has none: the KeyError is
   * caught), or, without product results, to the first link with
   * "/software/" in it.
   */
  function FindCompanyUrl(site: Site, name: string): (r: Option<string>)
    ensures r.Some? ==>
      && site.search(SearchUrl(name)).Some?
      && BaseUrl <= r.value
      && var sp := site.search(SearchUrl(name)).value;
      && var href := r.value[|BaseUrl|..];
      if sp.products != [] then sp.products[0] == Some(href)
      else
        && FirstContainingAt(sp.links, "/software/") < |sp.links|
        && href == sp.links[FirstContainingAt(sp.links, "/software/")]
        && Contains(href, "/software/")
    ensures r.None? <==>
      || site.search(SearchUrl(name)).None?
      || (site.search(SearchUrl(name)).value.products != [] && site.search(SearchUrl(name)).value.products[0].None?)
      || (site.search(SearchUrl(name)).value.products == []
          && forall i :: 0 <= i < |site.search(SearchUrl(name)).value.links| ==>
            !Contains(site.search(SearchUrl(name)).value.links[i], "/software/"))
  {
    match site.search(SearchUrl(name))
    case None => None
    case Some(sp) =>
      if sp.products != [] then
        match sp.products[0]
        case None => None
        case Some(href) =>
          assert (BaseUrl + href)[|BaseUrl|..] == href;
          Some(BaseUrl + href)
      else
        match FirstContaining(sp.links, "/software/")
        case None => None
        case Some(href) =>
          assert (BaseUrl + href)[|BaseUrl|..] == href;
          assert href == sp.links[FirstContainingAt(sp.links, "/software/")];
          Some(BaseUrl + href)
  }

  // ---------------------------------------------------------------------
  // Extracting and collecting reviews

  /** The position of the first text longer than 10 characters, or `|ps|` when there is none. */
  function FirstLongAt(ps: seq<string>): (k: nat)
    ensures k <= |ps|
  {
    if ps == [] then 0
    else if |ps[0]| > 10 then 0
    else 1 + FirstLongAt(ps[1..])
  }

  /** The first long text is long, and every text before it is short. */
  lemma {:induction false} FirstLongFacts(ps: seq<string>)
    ensures FirstLongAt(ps) < |ps| ==> |ps[FirstLongAt(ps)]| > 10
    ensures forall i :: 0 <= i < FirstLongAt(ps) ==> |ps[i]| <= 10
  {
    if ps != [] && |ps[0]| <= 10 {
      FirstLongFacts(ps[1..]);
    }
  }

  /** The description: the first paragraph text longer than 10 characters, else "No Description". */
  function Describe(ps: seq<string>): string {
    var k := FirstLongAt(ps);
    if k < |ps| then ps[k] else "No Description"
  }

  /**
   * The description is "No Description" when every text has ten characters
   * or fewer, and otherwise the first longer one.
   */
  lemma DescribeFacts(ps: seq<string>)
    ensures (forall i :: 0 <= i < |ps| ==> |ps[i]| <= 10) ==> Describe(ps) == "No Description"
    ensures forall k :: 0 <= k < |ps| && |ps[k]| > 10 && (forall i :: 0 <= i < k ==> |ps[i]| <= 10) ==>
      Describe(ps) == ps[k]
  {
    FirstLongFacts(ps);
  }

  /** The loop over the `<p>` texts that stops at the first one longer than 10 characters. */
  method ChooseDescription(ps: seq<string>) returns (description: string)
    ensures description == Describe(ps)
  {
    description := "";
    var i := 0;
    while i < |ps|
      invariant 0 <= i <= |ps| && description == ""
      invariant forall j :: 0 <= j < i ==> |ps[j]| <= 10
    {
      var text := ps[i];
      if text != "" && |text| > 10 {
        description := text;
        break;
      }
      i := i + 1;
    }
    if description == "" {
      description := "No Description";
    }
    DescribeFacts(ps);
  }

  /** The review the loop body builds from a card at time `now`, for the product address `url`. */
  function Extract(c: Card, now: Moment, url: string): Review {
    Review(
      c.title.GetOr("No Title"),
      Describe(c.paragraphs),
      NormalizeDate(c.date.GetOr(Iso(now.date)), now),
      NumberRating(c.rating),
      Some(c.reviewer.GetOr("Anonymous")),
      Some(SourceName),
      Some(url))
  }

  /** `Extract` as a function value: the collection does not depend on how one card is read. */
  function Reader(now: Moment, url: string): Card -> Review {
    c => Extract(c, now, url)
  }

  lemma ReaderApplies(now: Moment, url: string, c: Card)
    ensures Reader(now, url)(c) == Extract(c, now, url)
  {
  }

  /** The query of the review pages after the first: no filter, most recent first, then the page number. */
  const PageQuery := "?reviews_filter_json=%5B%5D&sort_type=most_recent&page="

  const ReviewsAnchor := "#reviews"

  /** The address of review page `p`. */
  function PageUrl(url: string, p: nat): string {
    if p > 1 then url + PageQuery + NatToString(p) + ReviewsAnchor
    else url + ReviewsAnchor
  }

  /** The `while len(self.reviews) < 100` loop from page `page` on, holding `acc`, reading cards with `read`. */
  function Collect(site: Site, url: string, read: Card -> Review, page: nat, acc: seq<Review>): Crawl
    decreases ReviewCap - |acc|
  {
    if |acc| >= ReviewCap then Crawl(acc, [], CapReached)
    else
      var fetch := Fetch(PageUrl(url, page), |acc|);
      match site.page(fetch.url)
      case None => Crawl(acc, [fetch], FetchFailed)
      case Some(cards) =>
        if cards == [] then Crawl(acc, [fetch], NoContainers)
        else
          var rest := Collect(site, url, read, page + 1, acc + ReadAll(cards, read));
          Crawl(rest.reviews, [fetch] + rest.fetches, rest.stop)
  }

  /** What `scrape` returns, for a scraper that already holds `initial`. */
  function Scraped(site: Site, name: string, now: Moment, start: Date, end: Date, initial: seq<Review>): seq<Review> {
    match FindCompanyUrl(site, name)
    case None => []
    case Some(url) => Filter(Collect(site, url, Reader(now, url), 1, initial).reviews, start, end)
  }

  /** One pass of the loop body: the fields of a card, with their defaults. */
  method ExtractReview(c: Card, now: Moment, url: string) returns (review: Review)
    ensures review == Extract(c, now, url)
  {
    var title := c.title.GetOr("No Title");
    var description := ChooseDescription(c.paragraphs);
    var date := ParseReviewDate(c.date.GetOr(Iso(now.date)), now);
    var rating := NumberRating(c.rating);
    var reviewerName := c.reviewer.GetOr("Anonymous");
    review := Review(title, description, date, rating, Some(reviewerName), Some(SourceName), Some(url));
  }

  /** The loop over the cards of one page, appending every review. */
  method AddCards(sc: Scraper, cards: seq<Card>, now: Moment, url: string)
    modifies sc
    ensures sc.reviews == old(sc.reviews) + ReadAll(cards, Reader(now, url))
  {
    ghost var before := sc.reviews;
    ghost var read := Reader(now, url);
    for i := 0 to |cards|
      invariant sc.reviews == before + ReadAll(cards[..i], read)
    {
      var review := ExtractReview(cards[i], now, url);
      ReaderApplies(now, url, cards[i]);
      ReadAppend(before, sc.reviews, cards, i, read, review);
      sc.reviews := sc.reviews + [review];
    }
    assert cards[..|cards|] == cards;
  }

  /** The pagination loop of `scrape`, for the resolved product address `url`. */
  method Paginate(sc: Scraper, site: Site, now: Moment, url: string)
    modifies sc
    ensures sc.reviews == Collect(site, url, Reader(now, url), 1, old(sc.reviews)).reviews
  {
    var page := 1;
    while |sc.reviews| < ReviewCap
      invariant page >= 1
      invariant Collect(site, url, Reader(now, url), 1, old(sc.reviews)).reviews
        == Collect(site, url, Reader(now, url), page, sc.reviews).reviews
      decreases ReviewCap - |sc.reviews|
    {
      var response := site.page(PageUrl(url, page));
      if response.None? {
        break;
      }
      var cards := response.value;
      if cards == [] {
        break;
      }
      AddCards(sc, cards, now, url);
      page := page + 1;
    }
  }

  /** `scrape`: resolve the product, collect pages, keep the reviews in the date range. */
  method Scrape(sc: Scraper, site: Site, now: Moment) returns (rs: seq<Review>)
    modifies sc
    ensures rs == Scraped(site, sc.companyName, now, sc.startDate, sc.endDate, old(sc.reviews))
    ensures if FindCompanyUrl(site, sc.companyName).None? then sc.reviews == old(sc.reviews) else sc.reviews == rs
  {
    var found := FindCompanyUrl(site, sc.companyName);
    if found.None? {
      return [];
    }
    Paginate(sc, site, now, found.value);
    sc.reviews := sc.FilterByDate(sc.reviews);
    rs := sc.reviews;
  }

  // ---------------------------------------------------------------------
  // Properties of the collection

  /** The reviews of the page a request got: none when it failed. */
  function PageReviews(site: Site, read: Card -> Review, f: Fetch): seq<Review> {
    match site.page(f.url)
    case None => []
    case Some(cards) => ReadAll(cards, read)
  }

  /** The reviews of every page of the requests `fs`, in request order. */
  function Gathered(site: Site, read: Card -> Review, fs: seq<Fetch>): seq<Review> {
    if fs == [] then [] else PageReviews(site, read, fs[0]) + Gathered(site, read, fs[1..])
  }

  /** A page with cards is followed by the loop from the next page on. */
  lemma CollectNext(site: Site, url: string, read: Card -> Review, page: nat, acc: seq<Review>, cards: seq<Card>)
    requires |acc| < ReviewCap && site.page(PageUrl(url, page)) == Some(cards) && cards != []
    ensures var rest := Collect(site, url, read, page + 1, acc + ReadAll(cards, read));
      Collect(site, url, read, page, acc) == Crawl(rest.reviews, [Fetch(PageUrl(url, page), |acc|)] + rest.fetches, rest.stop)
  {
  }

  /**
   * No de-duplication and no filtering while collecting: the loop ends with
   * what it started with followed by every review of every page it fetched.
   */
  lemma {:induction false} CollectContents(site: Site, url: string, read: Card -> Review, page: nat, acc: seq<Review>)
    ensures Collect(site, url, read, page, acc).reviews
      == acc + Gathered(site, read, Collect(site, url, read, page, acc).fetches)
    decreases ReviewCap - |acc|
  {
    var c := Collect(site, url, read, page, acc);
    if |acc| < ReviewCap {
      var fetch := Fetch(PageUrl(url, page), |acc|);
      match site.page(fetch.url)
      case None =>
        assert Gathered(site, read, c.fetches) == PageReviews(site, read, fetch) + [];
      case Some(cards) =>
        if cards == [] {
          assert Gathered(site, read, c.fetches) == PageReviews(site, read, fetch) + [];
        } else {
          var next := acc + ReadAll(cards, read);
          var rest := Collect(site, url, read, page + 1, next);
          CollectContents(site, url, read, page + 1, next);
          CollectNext(site, url, read, page, acc, cards);
          assert c.fetches[1..] == rest.fetches;
        }
    }
  }

  /** The i-th request asks for page `page + i`. */
  lemma CollectFetchUrls(site: Site, url: string, read: Card -> Review, page: nat, acc: seq<Review>)
    ensures forall i :: 0 <= i < |Collect(site, url, read, page, acc).fetches| ==>
      Collect(site, url, read, page, acc).fetches[i].url == PageUrl(url, page + i)
  {
    var fs := Collect(site, url, read, page, acc).fetches;
    CollectUrls(site, url, read, page, acc);
    forall i | 0 <= i < |fs|
      ensures fs[i].url == PageUrl(url, page + i)
    {
      PageUrlsAt(url, page, |fs|, i);
    }
  }

  /** The addresses of pages `page`, `page + 1`, … (`n` of them). */
  function PageUrls(url: string, page: nat, n: nat): seq<string>
    decreases n
  {
    if n == 0 then [] else [PageUrl(url, page)] + PageUrls(url, page + 1, n - 1)
  }

  lemma {:induction false} PageUrlsAt(url: string, page: nat, n: nat, i: nat)
    requires i < n
    ensures |PageUrls(url, page, n)| == n && PageUrls(url, page, n)[i] == PageUrl(url, page + i)
    decreases n
  {
    if i > 0 {
      PageUrlsAt(url, page + 1, n - 1, i - 1);
    } else if n > 1 {
      PageUrlsAt(url, page + 1, n - 1, 0);
    }
  }

  /** The crawl from `page` requests pages `page`, `page + 1`, … in order. */
  lemma {:induction false} CollectUrls(site: Site, url: string, read: Card -> Review, page: nat, acc: seq<Review>)
    ensures var fs := Collect(site, url, read, page, acc).fetches;
      Urls(fs) == PageUrls(url, page, |fs|)
    decreases ReviewCap - |acc|
  {
    var fs := Collect(site, url, read, page, acc).fetches;
    if |fs| == 1 {
      CollectFirst(site, url, read, page, acc);
      assert fs == [fs[0]];
      UrlsCons(fs[0], []);
    } else if |fs| > 1 {
      var next := CollectStep(site, url, read, page, acc);
      var rest := Collect(site, url, read, page + 1, next).fetches;
      CollectUrls(site, url, read, page + 1, next);
      UrlsCons(Fetch(PageUrl(url, page), |acc|), rest);
    }
  }

  /** The first request of a crawl asks for its first page with what was held at the start. */
  lemma CollectFirst(site: Site, url: string, read: Card -> Review, page: nat, acc: seq<Review>)
    requires |Collect(site, url, read, page, acc).fetches| > 0
    ensures Collect(site, url, read, page, acc).fetches[0] == Fetch(PageUrl(url, page), |acc|)
  {
  }

  /** A crawl that makes more than one request is its first request followed by the crawl from the next page. */
  lemma CollectStep(site: Site, url: string, read: Card -> Review, page: nat, acc: seq<Review>) returns (next: seq<Review>)
    requires |Collect(site, url, read, page, acc).fetches| > 1
    ensures |acc| < ReviewCap && |next| > |acc|
    ensures Collect(site, url, read, page, acc).fetches
      == [Fetch(PageUrl(url, page), |acc|)] + Collect(site, url, read, page + 1, next).fetches
  {
    var cards := site.page(PageUrl(url, page)).value;
    next := acc + ReadAll(cards, read);
    CollectNext(site, url, read, page, acc, cards);
  }

  /**
   * Every request was made while fewer than 100 reviews were held, and
   * at least as many as at the start.
   */
  lemma {:induction false} CollectFetchHeld(site: Site, url: string, read: Card -> Review, page: nat, acc: seq<Review>)
    ensures forall i :: 0 <= i < |Collect(site, url, read, page, acc).fetches| ==>
      |acc| <= Collect(site, url, read, page, acc).fetches[i].held < ReviewCap
    decreases ReviewCap - |acc|
  {
    if |acc| < ReviewCap && site.page(PageUrl(url, page)).Some? {
      var cards := site.page(PageUrl(url, page)).value;
      if cards != [] {
        CollectFetchHeld(site, url, read, page + 1, acc + ReadAll(cards, read));
        CollectNext(site, url, read, page, acc, cards);
      }
    }
  }

  /**
   * Why the loop stopped: the cap exactly when 100 or more reviews are held,
   * and never for a page that adds nothing; otherwise the last request, made
   * holding the final reviews, failed or found no cards.
   */
  lemma {:induction false} CollectStops(site: Site, url: string, read: Card -> Review, page: nat, acc: seq<Review>)
    ensures var c := Collect(site, url, read, page, acc);
      && (c.stop == CapReached <==> |c.reviews| >= ReviewCap)
      && c.stop != NothingNew
      && (c.stop != CapReached ==>
        && c.fetches != [] && c.fetches[|c.fetches| - 1].held == |c.reviews|
        && (c.stop == FetchFailed <==> site.page(c.fetches[|c.fetches| - 1].url).None?)
        && (c.stop == NoContainers <==> site.page(c.fetches[|c.fetches| - 1].url) == Some([])))
    decreases ReviewCap - |acc|
  {
    if |acc| < ReviewCap && site.page(PageUrl(url, page)).Some? {
      var cards := site.page(PageUrl(url, page)).value;
      if cards != [] {
        CollectStops(site, url, read, page + 1, acc + ReadAll(cards, read));
      }
    }
  }

  /** Every review read carries the site's name and the product address. */
  lemma ReaderLabels(now: Moment, url: string)
    ensures forall c :: Reader(now, url)(c).source == Some(SourceName) && Reader(now, url)(c).url == Some(url)
  {
  }

  /** When every card reads as labelled, so is every review of the fetched pages. */
  lemma {:induction false} GatheredLabels(site: Site, url: string, read: Card -> Review, fs: seq<Fetch>)
    requires forall c :: read(c).source == Some(SourceName) && read(c).url == Some(url)
    ensures forall i :: 0 <= i < |Gathered(site, read, fs)| ==>
      Gathered(site, read, fs)[i].source == Some(SourceName) && Gathered(site, read, fs)[i].url == Some(url)
  {
    if fs != [] {
      GatheredLabels(site, url, read, fs[1..]);
      if site.page(fs[0].url).Some? {
        ReadAllAt(site.page(fs[0].url).value, read);
      }
    }
  }

  /** What the loop collects from nothing, once filtered: all labelled, all kept by the filter. */
  lemma CollectedFacts(site: Site, url: string, read: Card -> Review, start: Date, end: Date)
    requires forall c :: read(c).source == Some(SourceName) && read(c).url == Some(url)
    ensures forall r :: r in Filter(Collect(site, url, read, 1, []).reviews, start, end) ==>
      Keep(r, start, end) && r.source == Some(SourceName) && r.url == Some(url)
  {
    var c := Collect(site, url, read, 1, []);
    CollectContents(site, url, read, 1, []);
    GatheredLabels(site, url, read, c.fetches);
    assert c.reviews == Gathered(site, read, c.fetches);
    forall r | r in Filter(c.reviews, start, end)
      ensures r.source == Some(SourceName) && r.url == Some(url)
    {
      FilterMembers(c.reviews, start, end, r);
      var i :| 0 <= i < |c.reviews| && c.reviews[i] == r;
    }
  }

  /**
   * What a fresh scraper returns: reviews labelled with the site and the
   * product address, all kept by the date filter; nothing when the
   * product is not found.
   */
  lemma ScrapedFacts(site: Site, name: string, now: Moment, start: Date, end: Date)
    ensures FindCompanyUrl(site, name).None? ==> Scraped(site, name, now, start, end, []) == []
    ensures forall r :: r in Scraped(site, name, now, start, end, []) ==>
      Keep(r, start, end) && r.source == Some(SourceName) && r.url == FindCompanyUrl(site, name)
  {
    var found := FindCompanyUrl(site, name);
    if found.Some? {
      ReaderLabels(now, found.value);
      CollectedFacts(site, found.value, Reader(now, found.value), start, end);
    }
  }

  /** A card's missing parts get the placeholders; a missing date is today's. */
  lemma ExtractDefaults(c: Card, now: Moment, url: string)
    ensures var r := Extract(c, now, url);
      && (c.title.None? ==> r.title == "No Title")
      && ((forall i :: 0 <= i < |c.paragraphs| ==> |c.paragraphs[i]| <= 10) ==> r.description == "No Description")
      && (c.date.None? ==> r.date == Iso(now.date))
      && (c.rating.None? ==> r.rating.None?)
      && (c.reviewer.None? ==> r.reviewerName == Some("Anonymous"))
  {
    CanonicalUnchanged(now.date, now);
    DescribeFacts(c.paragraphs);
  }
}
