/**
 * `G2Scraper`: date normalisation by calendar months, with the day and
 * week branches that always fail (they use `timedelta`, which the module
 * never imports), three absolute formats, the "a/b" rating, and the
 * pagination loop that appends every review card it finds.
 */
module G2 {
  import opened Wrappers
  import opened Strings
  import opened Civil
  import opened DateFormats
  import opened Relative
  import opened Normalise
  import opened Reviews
  import opened BaseScraper

  const BaseUrl := "https://www.g2.com"
  const SourceName := "G2"

  /** No '%m/%d/%Y' and no '%d/%m/%Y' here. */
  const DateFormatList: seq<Format> := [LongDate, ShortDate, IsoDate]

  /**
   * The relative-date branch, tested on the whole lower-cased text: Some
   * result returns it, None falls through to the formats. "month" takes
   * the first number of the text (none: the IndexError is caught and the
   * text returned) and goes back that many calendar months. "day" and
   * "week" raise a NameError for `timedelta`, which is caught: the text
   * comes back as it was.
   */
  function RelativeDate(s: string, now: Moment): Option<string> {
    var low := Lower(s);
    if !Contains(low, "ago") then None
    else if Contains(low, "month") then
      match FirstNumber(s)
      case None => Some(s)
      case Some(k) => Some(Render(MonthsBefore(now, k), s))
    else if Contains(low, "day") || Contains(low, "week") then Some(s)
    else None
  }

  /** `_parse_review_date`, with `now` standing for `datetime.now()`. */
  function NormalizeDate(s: string, now: Moment): (r: string)
    ensures r == s || IsCanonical(r)
  {
    match RelativeDate(s, now)
    case Some(r) => r
    case None => Absolute(DateFormatList, s)
  }

  /** The method form: the relative branch, then the loop over the formats. */
  method ParseReviewDate(s: string, now: Moment) returns (r: string)
    ensures r == NormalizeDate(s, now)
  {
    var relative := RelativeDate(s, now);
    if relative.Some? {
      return relative.value;
    }
    var parsed := ParseFirst(DateFormatList, Strip(s));
    r := Render(parsed, s);
  }

  lemma KnownFormats()
    ensures forall j :: 0 <= j < |DateFormatList| ==> KnownFormat(DateFormatList[j])
  {
  }

  /** "ago" holds none of the unit names. */
  lemma AgoHoldsNoUnit()
    ensures !Contains("ago", "month") && !Contains("ago", "day") && !Contains("ago", "week")
  {
    MissingChar("ago", "month");
    MissingChar("ago", "day");
    MissingChar("ago", "week");
  }

  /** "N months ago" is the same day N calendar months before `now`, clamped to the month's end. */
  lemma MonthsAgo(n: nat, unit: string, now: Moment)
    requires Contains(Lower(unit), "month")
    ensures NormalizeDate(Phrase(n, unit), now) == Render(MonthsBefore(now, n), Phrase(n, unit))
  {
    assert "ago" <= "ago";
    PhraseContainsAgo(n, unit, "ago");
    PhraseContainsUnit(n, unit, "month");
    PhraseFirstNumber(n, unit);
    MonthsBranch(Phrase(n, unit), n, now);
  }

  /** Text naming "ago" and "month" with first number k goes back k months. */
  lemma MonthsBranch(s: string, k: nat, now: Moment)
    requires Contains(Lower(s), "ago") && Contains(Lower(s), "month") && FirstNumber(s) == Some(k)
    ensures NormalizeDate(s, now) == Render(MonthsBefore(now, k), s)
  {
  }

  /** "N days ago" and "N weeks ago" come back unchanged. */
  lemma DaysAndWeeksUnchanged(n: nat, unit: string, now: Moment)
    requires Contains(Lower(unit), "day") || Contains(Lower(unit), "week")
    requires !Contains(Lower(unit), "month")
    ensures NormalizeDate(Phrase(n, unit), now) == Phrase(n, unit)
  {
    assert "ago" <= "ago";
    PhraseContainsAgo(n, unit, "ago");
    AgoHoldsNoUnit();
    PhraseContains(n, unit, "month");
    if Contains(Lower(unit), "day") {
      PhraseContainsUnit(n, unit, "day");
    } else {
      PhraseContainsUnit(n, unit, "week");
    }
  }

  /** "N unit ago" with a unit that names none of month, day and week comes back unchanged. */
  lemma UnknownUnitUnchanged(n: nat, unit: string, now: Moment)
    requires AllWordChars(unit)
    requires !Contains(Lower(unit), "month") && !Contains(Lower(unit), "day") && !Contains(Lower(unit), "week")
    ensures NormalizeDate(Phrase(n, unit), now) == Phrase(n, unit)
  {
    AgoHoldsNoUnit();
    PhraseContains(n, unit, "month");
    PhraseContains(n, unit, "day");
    PhraseContains(n, unit, "week");
    PhraseNoSeparators(n, unit);
    KnownFormats();
    AbsoluteNoSeparators(DateFormatList, Phrase(n, unit));
  }

  /** "years" names none of month, day and week. */
  lemma YearsWord()
    ensures AllWordChars("years") && Lower("years") == "years"
    ensures !Contains("years", "month") && !Contains("years", "day") && !Contains("years", "week")
  {
    LowerLetters("years");
    MissingChar("years", "month");
    MissingChar("years", "day");
    MissingChar("years", "week");
  }

  /** There is no year unit: "N years ago" comes back unchanged. */
  lemma YearsUnchanged(n: nat, now: Moment)
    ensures NormalizeDate(Phrase(n, "years"), now) == Phrase(n, "years")
  {
    YearsWord();
    UnknownUnitUnchanged(n, "years", now);
  }

  /** Text without digits comes back unchanged, whichever branch it takes. */
  lemma NoDigitsUnchanged(s: string, now: Moment)
    requires forall k :: 0 <= k < |s| ==> !IsDigit(s[k])
    ensures NormalizeDate(s, now) == s
  {
    NoDigitNoAgoMatch(s);
    KnownFormats();
    AbsoluteNoDigits(DateFormatList, s);
  }

  /** A canonical date is already normal: it comes back unchanged. */
  lemma CanonicalUnchanged(d: Date, now: Moment)
    ensures NormalizeDate(Iso(d), now) == Iso(d)
  {
    CanonicalHasNoWord(d, "ago");
    AbsoluteCanonical(DateFormatList, d);
  }

  /** Normalising twice is normalising once. */
  lemma Idempotent(s: string, now: Moment)
    ensures NormalizeDate(NormalizeDate(s, now), now) == NormalizeDate(s, now)
  {
    var r := NormalizeDate(s, now);
    if r != s {
      CanonicalUnchanged(ParseIso(r).value, now);
    }
  }

  // ---------------------------------------------------------------------
  // The rating

  function Pow10(n: nat): (r: nat)
    ensures r >= 1
  {
    if n == 0 then 1 else 10 * Pow10(n - 1)
  }

  /** Decimal notation without a sign: digits, optionally a '.' and more digits, at least one digit in all. */
  function ParseUnsigned(u: string): Option<real> {
    var l := Run(u, 0, DigitClass);
    RunFacts(u, 0, DigitClass);
    assert AllDigits(u[..l]);
    if l == |u| then
      if l > 0 then Some(DigitsValue(u) as real) else None
    else if u[l] != '.' then None
    else
      var frac := u[l + 1..];
      if AllDigits(frac) && (l > 0 || |frac| > 0) then
        Some(DigitsValue(u[..l]) as real + DigitsValue(frac) as real / Pow10(|frac|) as real)
      else None
  }

  /** `float(t)` on decimal notation: surrounding blanks ignored, an optional sign; None for the ValueError. */
  function ParseDecimal(t: string): Option<real> {
    var u := Strip(t);
    if |u| > 0 && (u[0] == '+' || u[0] == '-') then
      match ParseUnsigned(u[1..])
      case None => None
      case Some(v) => Some(if u[0] == '-' then -v else v)
    else ParseUnsigned(u)
  }

  /** `t.split('/')[0]`: the text before the first '/', or all of it. */
  function BeforeSlash(t: string): (r: string)
    ensures r <= t && '/' !in r
    ensures |r| < |t| ==> t[|r|] == '/'
  {
    if t == [] || t[0] == '/' then [] else [t[0]] + BeforeSlash(t[1..])
  }

  /** The rating of a star-rating text such as "4.5/5": the number before the '/'; None without an element or a number. */
  function SlashRating(text: Option<string>): Option<real> {
    match text
    case None => None
    case Some(t) => ParseDecimal(BeforeSlash(t))
  }

  lemma {:induction false} BeforeSlashOf(a: string, rest: string)
    requires '/' !in a
    ensures BeforeSlash(a + "/" + rest) == a
  {
    if a != [] {
      assert (a + "/" + rest)[1..] == a[1..] + "/" + rest;
      BeforeSlashOf(a[1..], rest);
    }
  }

  /** "i.d" reads as i + d/10. */
  lemma TenthsValue(i: nat, d: nat)
    requires d < 10
    ensures ParseUnsigned(NatToString(i) + "." + [DigitChar(d)]) == Some(i as real + d as real / 10.0)
  {
    var digits := NatToString(i);
    var a := digits + "." + [DigitChar(d)];
    assert a[..|digits|] == digits;
    RunExact(a, 0, DigitClass, |digits|);
    assert a[|digits| + 1..] == [DigitChar(d)];
    NatToStringValue(i);
    assert DigitsValue([DigitChar(d)]) == d by {
      assert [DigitChar(d)][..0] == [];
    }
  }

  /** "i.d/…" is rated i + d/10: "4.5/5" is 4.5. */
  lemma TenthsRating(i: nat, d: nat, rest: string)
    requires d < 10
    ensures SlashRating(Some(NatToString(i) + "." + [DigitChar(d)] + "/" + rest)) == Some(i as real + d as real / 10.0)
  {
    var a := NatToString(i) + "." + [DigitChar(d)];
    assert '/' !in a by {
      assert forall k :: 0 <= k < |a| ==> a[k] == '.' || IsDigit(a[k]);
    }
    BeforeSlashOf(a, rest);
    StripNoBlankEnds(a);
    TenthsValue(i, d);
    UnsignedDecimal(a);
  }

  /** Stripped text without a sign reads as unsigned notation. */
  lemma UnsignedDecimal(u: string)
    requires Strip(u) == u && (u == [] || (u[0] != '+' && u[0] != '-'))
    ensures ParseDecimal(u) == ParseUnsigned(u)
  {
  }

  lemma RatingExample()
    ensures SlashRating(Some("4.5/5")) == Some(4.5)
  {
    assert NatToString(4) == "4" && [DigitChar(5)] == "5";
    assert "4.5/5" == NatToString(4) + "." + [DigitChar(5)] + "/" + "5";
    TenthsRating(4, 5, "5");
  }

  // ---------------------------------------------------------------------
  // Finding the product page

  /**
   * A search page as the scraper sees it: the first `product-link`
   * anchor (None when there is none) with its `href` (None when it has
   * none), and the `href` of every link.
   */
  datatype SearchPage = SearchPage(productLink: Option<Option<string>>, links: seq<string>)

  /**
   * One `review-card`: the stripped text of its `<h3>`, of its review-body
   * paragraph, of its `<time>`, of its star-rating span and of its
   * reviewer-name div, or None when the lookup finds nothing.
   */
  datatype Card = Card(
    title: Option<string>,
    body: Option<string>,
    time: Option<string>,
    rating: Option<string>,
    reviewer: Option<string>)

  /**
   * The site: `search` answers a search request (None when it raises or has
   * an error status), `page` gives the review cards of a page (None for a
   * `RequestException`, including an error status).
   */
  datatype Site = Site(
    search: string -> Option<SearchPage>,
    page: string -> Option<seq<Card>>)

  const SearchQuery := "/products?utf8=%E2%9C%93&search="

  /** The search request; the name is not URL-encoded. */
  function SearchUrl(name: string): string {
    BaseUrl + SearchQuery + name
  }

  /**
   * `_find_company_url`: the base address joined to the `href` of the
   * first product link (None when it has none: the KeyError is caught),
   * or, without a product link, to the first link with "/products/" in it.
   */
  function FindCompanyUrl(site: Site, name: string): (r: Option<string>)
    ensures r.Some? ==>
      && site.search(SearchUrl(name)).Some?
      && BaseUrl <= r.value
      && var sp := site.search(SearchUrl(name)).value;
      && var href := r.value[|BaseUrl|..];
      if sp.productLink.Some? then sp.productLink.value == Some(href)
      else
        && FirstContainingAt(sp.links, "/products/") < |sp.links|
        && href == sp.links[FirstContainingAt(sp.links, "/products/")]
        && Contains(href, "/products/")
    ensures r.None? <==>
      || site.search(SearchUrl(name)).None?
      || site.search(SearchUrl(name)).value.productLink == Some(None)
      || (site.search(SearchUrl(name)).value.productLink.None?
          && forall i :: 0 <= i < |site.search(SearchUrl(name)).value.links| ==>
            !Contains(site.search(SearchUrl(name)).value.links[i], "/products/"))
  {
    match site.search(SearchUrl(name))
    case None => None
    case Some(sp) =>
      match sp.productLink
      case Some(link) =>
        (match link
         case None => None
         case Some(href) =>
           assert (BaseUrl + href)[|BaseUrl|..] == href;
           Some(BaseUrl + href))
      case None =>
        match FirstContaining(sp.links, "/products/")
        case None => None
        case Some(href) =>
          assert (BaseUrl + href)[|BaseUrl|..] == href;
          assert href == sp.links[FirstContainingAt(sp.links, "/products/")];
          Some(BaseUrl + href)
  }

  // ---------------------------------------------------------------------
  // Extracting and collecting reviews

  /** The review the loop body builds from a card at time `now`, for the product address `url`. */
  function Extract(c: Card, now: Moment, url: string): Review {
    Review(
      c.title.GetOr("No Title"),
      c.body.GetOr("No Description"),
      NormalizeDate(c.time.GetOr(Iso(now.date)), now),
      SlashRating(c.rating),
      Some(c.reviewer.GetOr("Anonymous")),
      Some(SourceName),
      Some(url))
  }

  /** `Extract` as a function value: the collection does not depend on how one card is read. */
  function Reader(now: Moment, url: string): Card -> Review {
    c => Extract(c, now, url)
  }

  lemma ReaderApplies(now: Moment, url: string, c: Card)
    ensures Reader(now, url)(c) == Extract(c, now, url)
  {
  }

  const PageQuery := "/reviews?page="

  /** The address of review page `p`. */
  function PageUrl(url: string, p: nat): string {
    url + PageQuery + NatToString(p)
  }

  /** The `while len(self.reviews) < 100` loop from page `page` on, holding `acc`, reading cards with `read`. */
  function Collect(site: Site, url: string, read: Card -> Review, page: nat, acc: seq<Review>): Crawl
    decreases ReviewCap - |acc|
  {
    if |acc| >= ReviewCap then Crawl(acc, [], CapReached)
    else
      var fetch := Fetch(PageUrl(url, page), |acc|);
      match site.page(fetch.url)
      case None => Crawl(acc, [fetch], FetchFailed)
      case Some(cards) =>
        if cards == [] then Crawl(acc, [fetch], NoContainers)
        else
          var rest := Collect(site, url, read, page + 1, acc + ReadAll(cards, read));
          Crawl(rest.reviews, [fetch] + rest.fetches, rest.stop)
  }

  /** What `scrape` returns, for a scraper that already holds `initial`. */
  function Scraped(site: Site, name: string, now: Moment, start: Date, end: Date, initial: seq<Review>): seq<Review> {
    match FindCompanyUrl(site, name)
    case None => []
    case Some(url) => Filter(Collect(site, url, Reader(now, url), 1, initial).reviews, start, end)
  }

  /** One pass of the loop body: the fields of a card, with their defaults. */
  method ExtractReview(c: Card, now: Moment, url: string) returns (review: Review)
    ensures review == Extract(c, now, url)
  {
    var title := c.title.GetOr("No Title");
    var description := c.body.GetOr("No Description");
    var date := ParseReviewDate(c.time.GetOr(Iso(now.date)), now);
    var rating := SlashRating(c.rating);
    var reviewerName := c.reviewer.GetOr("Anonymous");
    review := Review(title, description, date, rating, Some(reviewerName), Some(SourceName), Some(url));
  }

  /** The loop over the cards of one page, appending every review. */
  method AddCards(sc: Scraper, cards: seq<Card>, now: Moment, url: string)
    modifies sc
    ensures sc.reviews == old(sc.reviews) + ReadAll(cards, Reader(now, url))
  {
    ghost var before := sc.reviews;
    ghost var read := Reader(now, url);
    for i := 0 to |cards|
      invariant sc.reviews == before + ReadAll(cards[..i], read)
    {
      var review := ExtractReview(cards[i], now, url);
      ReaderApplies(now, url, cards[i]);
      ReadAppend(before, sc.reviews, cards, i, read, review);
      sc.reviews := sc.reviews + [review];
    }
    assert cards[..|cards|] == cards;
  }

  /** The pagination loop of `scrape`, for the resolved product address `url`. */
  method Paginate(sc: Scraper, site: Site, now: Moment, url: string)
    modifies sc
    ensures sc.reviews == Collect(site, url, Reader(now, url), 1, old(sc.reviews)).reviews
  {
    var page := 1;
    while |sc.reviews| < ReviewCap
      invariant page >= 1
      invariant Collect(site, url, Reader(now, url), 1, old(sc.reviews)).reviews
        == Collect(site, url, Reader(now, url), page, sc.reviews).reviews
      decreases ReviewCap - |sc.reviews|
    {
      var response := site.page(PageUrl(url, page));
      if response.None? {
        break;
      }
      var cards := response.value;
      if cards == [] {
        break;
      }
      AddCards(sc, cards, now, url);
      page := page + 1;
    }
  }

  /** `scrape`: resolve the product, collect pages, keep the reviews in the date range. */
  method Scrape(sc: Scraper, site: Site, now: Moment) returns (rs: seq<Review>)
    modifies sc
    ensures rs == Scraped(site, sc.companyName, now, sc.startDate, sc.endDate, old(sc.reviews))
    ensures if FindCompanyUrl(site, sc.companyName).None? then sc.reviews == old(sc.reviews) else sc.reviews == rs
  {
    var found := FindCompanyUrl(site, sc.companyName);
    if found.None? {
      return [];
    }
    Paginate(sc, site, now, found.value);
    sc.reviews := sc.FilterByDate(sc.reviews);
    rs := sc.reviews;
  }

  // ---------------------------------------------------------------------
  // Properties of the collection

  /** The reviews of the page a request got: none when it failed. */
  function PageReviews(site: Site, read: Card -> Review, f: Fetch): seq<Review> {
    match site.page(f.url)
    case None => []
    case Some(cards) => ReadAll(cards, read)
  }

  /** The reviews of every page of the requests `fs`, in request order. */
  function Gathered(site: Site, read: Card -> Review, fs: seq<Fetch>): seq<Review> {
    if fs == [] then [] else PageReviews(site, read, fs[0]) + Gathered(site, read, fs[1..])
  }

  /** A page with cards is followed by the loop from the next page on. */
  lemma CollectNext(site: Site, url: string, read: Card -> Review, page: nat, acc: seq<Review>, cards: seq<Card>)
    requires |acc| < ReviewCap && site.page(PageUrl(url, page)) == Some(cards) && cards != []
    ensures var rest := Collect(site, url, read, page + 1, acc + ReadAll(cards, read));
      Collect(site, url, read, page, acc) == Crawl(rest.reviews, [Fetch(PageUrl(url, page), |acc|)] + rest.fetches, rest.stop)
  {
  }

  /**
   * No de-duplication and no filtering while collecting: the loop ends with
   * what it started with followed by every review of every page it fetched.
   */
  lemma {:induction false} CollectContents(site: Site, url: string, read: Card -> Review, page: nat, acc: seq<Review>)
    ensures Collect(site, url, read, page, acc).reviews
      == acc + Gathered(site, read, Collect(site, url, read, page, acc).fetches)
    decreases ReviewCap - |acc|
  {
    var c := Collect(site, url, read, page, acc);
    if |acc| < ReviewCap {
      var fetch := Fetch(PageUrl(url, page), |acc|);
      match site.page(fetch.url)
      case None =>
        assert Gathered(site, read, c.fetches) == PageReviews(site, read, fetch) + [];
      case Some(cards) =>
        if cards == [] {
          assert Gathered(site, read, c.fetches) == PageReviews(site, read, fetch) + [];
        } else {
          var next := acc + ReadAll(cards, read);
          var rest := Collect(site, url, read, page + 1, next);
          CollectContents(site, url, read, page + 1, next);
          CollectNext(site, url, read, page, acc, cards);
          assert c.fetches[1..] == rest.fetches;
        }
    }
  }

  /** The i-th request asks for page `page + i`. */
  lemma CollectFetchUrls(site: Site, url: string, read: Card -> Review, page: nat, acc: seq<Review>)
    ensures forall i :: 0 <= i < |Collect(site, url, read, page, acc).fetches| ==>
      Collect(site, url, read, page, acc).fetches[i].url == PageUrl(url, page + i)
  {
    var fs := Collect(site, url, read, page, acc).fetches;
    CollectUrls(site, url, read, page, acc);
    forall i | 0 <= i < |fs|
      ensures fs[i].url == PageUrl(url, page + i)
    {
      PageUrlsAt(url, page, |fs|, i);
    }
  }

  /** The addresses of pages `page`, `page + 1`, … (`n` of them). */
  function PageUrls(url: string, page: nat, n: nat): seq<string>
    decreases n
  {
    if n == 0 then [] else [PageUrl(url, page)] + PageUrls(url, page + 1, n - 1)
  }

  lemma {:induction false} PageUrlsAt(url: string, page: nat, n: nat, i: nat)
    requires i < n
    ensures |PageUrls(url, page, n)| == n && PageUrls(url, page, n)[i] == PageUrl(url, page + i)
    decreases n
  {
    if i > 0 {
      PageUrlsAt(url, page + 1, n - 1, i - 1);
    } else if n > 1 {
      PageUrlsAt(url, page + 1, n - 1, 0);
    }
  }

  /** The crawl from `page` requests pages `page`, `page + 1`, … in order. */
  lemma {:induction false} CollectUrls(site: Site, url: string, read: Card -> Review, page: nat, acc: seq<Review>)
    ensures var fs := Collect(site, url, read, page, acc).fetches;
      Urls(fs) == PageUrls(url, page, |fs|)
    decreases ReviewCap - |acc|
  {
    var fs := Collect(site, url, read, page, acc).fetches;
    if |fs| == 1 {
      CollectFirst(site, url, read, page, acc);
      assert fs == [fs[0]];
      UrlsCons(fs[0], []);
    } else if |fs| > 1 {
      var next := CollectStep(site, url, read, page, acc);
      var rest := Collect(site, url, read, page + 1, next).fetches;
      CollectUrls(site, url, read, page + 1, next);
      UrlsCons(Fetch(PageUrl(url, page), |acc|), rest);
    }
  }

  /** The first request of a crawl asks for its first page with what was held at the start. */
  lemma CollectFirst(site: Site, url: string, read: Card -> Review, page: nat, acc: seq<Review>)
    requires |Collect(site, url, read, page, acc).fetches| > 0
    ensures Collect(site, url, read, page, acc).fetches[0] == Fetch(PageUrl(url, page), |acc|)
  {
  }

  /** A crawl that makes more than one request is its first request followed by the crawl from the next page. */
  lemma CollectStep(site: Site, url: string, read: Card -> Review, page: nat, acc: seq<Review>) returns (next: seq<Review>)
    requires |Collect(site, url, read, page, acc).fetches| > 1
    ensures |acc| < ReviewCap && |next| > |acc|
    ensures Collect(site, url, read, page, acc).fetches
      == [Fetch(PageUrl(url, page), |acc|)] + Collect(site, url, read, page + 1, next).fetches
  {
    var cards := site.page(PageUrl(url, page)).value;
    next := acc + ReadAll(cards, read);
    CollectNext(site, url, read, page, acc, cards);
  }

  /**
   * Every request was made while fewer than 100 reviews were held, and
   * at least as many as at the start.
   */
  lemma {:induction false} CollectFetchHeld(site: Site, url: string, read: Card -> Review, page: nat, acc: seq<Review>)
    ensures forall i :: 0 <= i < |Collect(site, url, read, page, acc).fetches| ==>
      |acc| <= Collect(site, url, read, page, acc).fetches[i].held < ReviewCap
    decreases ReviewCap - |acc|
  {
    if |acc| < ReviewCap && site.page(PageUrl(url, page)).Some? {
      var cards := site.page(PageUrl(url, page)).value;
      if cards != [] {
        CollectFetchHeld(site, url, read, page + 1, acc + ReadAll(cards, read));
        CollectNext(site, url, read, page, acc, cards);
      }
    }
  }

  /**
   * Why the loop stopped: the cap exactly when 100 or more reviews are held,
   * and never for a page that adds nothing; otherwise the last request, made
   * holding the final reviews, failed or found no cards.
   */
  lemma {:induction false} CollectStops(site: Site, url: string, read: Card -> Review, page: nat, acc: seq<Review>)
    ensures var c := Collect(site, url, read, page, acc);
      && (c.stop == CapReached <==> |c.reviews| >= ReviewCap)
      && c.stop != NothingNew
      && (c.stop != CapReached ==>
        && c.fetches != [] && c.fetches[|c.fetches| - 1].held == |c.reviews|
        && (c.stop == FetchFailed <==> site.page(c.fetches[|c.fetches| - 1].url).None?)
        && (c.stop == NoContainers <==> site.page(c.fetches[|c.fetches| - 1].url) == Some([])))
    decreases ReviewCap - |acc|
  {
    if |acc| < ReviewCap && site.page(PageUrl(url, page)).Some? {
      var cards := site.page(PageUrl(url, page)).value;
      if cards != [] {
        CollectStops(site, url, read, page + 1, acc + ReadAll(cards, read));
      }
    }
  }

  /** Every review read carries the site's name and the product address. */
  lemma ReaderLabels(now: Moment, url: string)
    ensures forall c :: Reader(now, url)(c).source == Some(SourceName) && Reader(now, url)(c).url == Some(url)
  {
  }

  /** When every card reads as labelled, so is every review of the fetched pages. */
  lemma {:induction false} GatheredLabels(site: Site, url: string, read: Card -> Review, fs: seq<Fetch>)
    requires forall c :: read(c).source == Some(SourceName) && read(c).url == Some(url)
    ensures forall i :: 0 <= i < |Gathered(site, read, fs)| ==>
      Gathered(site, read, fs)[i].source == Some(SourceName) && Gathered(site, read, fs)[i].url == Some(url)
  {
    if fs != [] {
      GatheredLabels(site, url, read, fs[1..]);
      if site.page(fs[0].url).Some? {
        ReadAllAt(site.page(fs[0].url).value, read);
      }
    }
  }

  /** What the loop collects from nothing, once filtered: all labelled, all kept by the filter. */
  lemma CollectedFacts(site: Site, url: string, read: Card -> Review, start: Date, end: Date)
    requires forall c :: read(c).source == Some(SourceName) && read(c).url == Some(url)
    ensures forall r :: r in Filter(Collect(site, url, read, 1, []).reviews, start, end) ==>
      Keep(r, start, end) && r.source == Some(SourceName) && r.url == Some(url)
  {
    var c := Collect(site, url, read, 1, []);
    CollectContents(site, url, read, 1, []);
    GatheredLabels(site, url, read, c.fetches);
    assert c.reviews == Gathered(site, read, c.fetches);
    forall r | r in Filter(c.reviews, start, end)
      ensures r.source == Some(SourceName) && r.url == Some(url)
    {
      FilterMembers(c.reviews, start, end, r);
      var i :| 0 <= i < |c.reviews| && c.reviews[i] == r;
    }
  }

  /**
   * What a fresh scraper returns: reviews labelled with the site and the
   * product address, all kept by the date filter; nothing when the
   * product is not found.
   */
  lemma ScrapedFacts(site: Site, name: string, now: Moment, start: Date, end: Date)
    ensures FindCompanyUrl(site, name).None? ==> Scraped(site, name, now, start, end, []) == []
    ensures forall r :: r in Scraped(site, name, now, start, end, []) ==>
      Keep(r, start, end) && r.source == Some(SourceName) && r.url == FindCompanyUrl(site, name)
  {
    var found := FindCompanyUrl(site, name);
    if found.Some? {
      ReaderLabels(now, found.value);
      CollectedFacts(site, found.value, Reader(now, found.value), start, end);
    }
  }

  /** A card's missing parts get the placeholders; a missing date is today's. */
  lemma ExtractDefaults(c: Card, now: Moment, url: string)
    ensures var r := Extract(c, now, url);
      && (c.title.None? ==> r.title == "No Title")
      && (c.body.None? ==> r.description == "No Description")
      && (c.time.None? ==> r.date == Iso(now.date))
      && (c.rating.None? ==> r.rating.None?)
      && (c.reviewer.None? ==> r.reviewerName == Some("Anonymous"))
  {
    CanonicalUnchanged(now.date, now);
  }
}
