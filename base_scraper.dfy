/**
 * `BaseScraper`: the state every site scraper shares (the company, the
 * date range, the site's name and the reviews collected so far) and the
 * fail-open date-range filter.
 */
module BaseScraper {
  import opened Wrappers
  import opened Civil
  import opened DateFormats
  import opened Reviews

  /** Every site's pagination loop runs while fewer reviews than this are held. */
  const ReviewCap: nat := 100

  /** Why a pagination loop ended; only Trustpilot's loop stops on a page that adds nothing new. */
  datatype Stop = CapReached | FetchFailed | NoContainers | NothingNew

  /** A page request: its address, and how many reviews were held when it was made. */
  datatype Fetch = Fetch(url: string, held: nat)

  /** What a pagination loop did: the reviews it ends with, its requests in order, and why it stopped. */
  datatype Crawl = Crawl(reviews: seq<Review>, fetches: seq<Fetch>, stop: Stop)

  /**
   * Whether `filter_by_date` keeps a review: its date does not parse as
   * '%Y-%m-%d' (the ValueError branch keeps it), or it lies in
   * [start, end] with both ends included.
   */
  predicate Keep(r: Review, start: Date, end: Date) {
    match ParseIso(r.date)
    case None => true
    case Some(d) => LessEq(start, d) && LessEq(d, end)
  }

  /** The reviews `filter_by_date` keeps, in their original order. */
  function Filter(rs: seq<Review>, start: Date, end: Date): (out: seq<Review>)
    ensures |out| <= |rs|
    ensures forall r :: r in out ==> r in rs && Keep(r, start, end)
  {
    if rs == [] then []
    else
      var init := Filter(rs[..|rs| - 1], start, end);
      var last := rs[|rs| - 1];
      if Keep(last, start, end) then init + [last] else init
  }

  /** `a` is `b` with some elements left out, the rest in the same order. */
  predicate IsSubsequence(a: seq<Review>, b: seq<Review>)
    decreases |b|
  {
    if b == [] then a == []
    else
      || (a != [] && a[|a| - 1] == b[|b| - 1] && IsSubsequence(a[..|a| - 1], b[..|b| - 1]))
      || IsSubsequence(a, b[..|b| - 1])
  }

  /** The reviews `read` gives for the containers `cs`, in order. */
  function ReadAll<C>(cs: seq<C>, read: C -> Review): (rs: seq<Review>)
    ensures |rs| == |cs|
  {
    if cs == [] then [] else ReadAll(cs[..|cs| - 1], read) + [read(cs[|cs| - 1])]
  }

  /** The k-th review of a page is the one read from its k-th container. */
  lemma {:induction false} ReadAllAt<C>(cs: seq<C>, read: C -> Review)
    ensures forall k :: 0 <= k < |cs| ==> ReadAll(cs, read)[k] == read(cs[k])
  {
    if cs != [] {
      ReadAllAt(cs[..|cs| - 1], read);
    }
  }

  /** Reading one container more appends its review. */
  lemma ReadOneMore<C>(cs: seq<C>, i: nat, read: C -> Review)
    requires i < |cs|
    ensures ReadAll(cs[..i + 1], read) == ReadAll(cs[..i], read) + [read(cs[i])]
  {
    assert cs[..i + 1][..i] == cs[..i];
  }

  /** Appending the review of the next container extends what was read so far. */
  lemma ReadAppend<C>(before: seq<Review>, done: seq<Review>, cs: seq<C>, i: nat, read: C -> Review, r: Review)
    requires i < |cs| && done == before + ReadAll(cs[..i], read) && r == read(cs[i])
    ensures done + [r] == before + ReadAll(cs[..i + 1], read)
  {
    ReadOneMore(cs, i, read);
  }

  /** The addresses of the requests, in order. */
  function Urls(fs: seq<Fetch>): (us: seq<string>)
    ensures |us| == |fs| && forall i :: 0 <= i < |fs| ==> us[i] == fs[i].url
  {
    if fs == [] then [] else [fs[0].url] + Urls(fs[1..])
  }

  /** The addresses of a first request followed by others. */
  lemma UrlsCons(f: Fetch, rest: seq<Fetch>)
    ensures Urls([f] + rest) == [f.url] + Urls(rest)
  {
    assert ([f] + rest)[1..] == rest;
  }

  class Scraper {
    const companyName: string
    const startDate: Date
    const endDate: Date
    const sourceName: string
    var reviews: seq<Review>

    /** `BaseScraper.__init__`: no reviews yet. */
    constructor (companyName: string, startDate: Date, endDate: Date, sourceName: string)
      ensures this.companyName == companyName && this.startDate == startDate
      ensures this.endDate == endDate && this.sourceName == sourceName
      ensures reviews == []
    {
      this.companyName := companyName;
      this.startDate := startDate;
      this.endDate := endDate;
      this.sourceName := sourceName;
      reviews := [];
    }

    /** `get_reviews`: the collected list, unchanged. */
    method GetReviews() returns (rs: seq<Review>)
      ensures rs == reviews
    {
      rs := reviews;
    }

    /** `filter_by_date`. */
    method FilterByDate(rs: seq<Review>) returns (filtered: seq<Review>)
      ensures filtered == Filter(rs, startDate, endDate)
    {
      filtered := [];
      for i := 0 to |rs|
        invariant filtered == Filter(rs[..i], startDate, endDate)
      {
        assert rs[..i + 1][..i] == rs[..i];
        var review := rs[i];
        match ParseIso(review.date)
        case None =>
          filtered := filtered + [review];
        case Some(d) =>
          if LessEq(startDate, d) && LessEq(d, endDate) {
            filtered := filtered + [review];
          }
      }
      assert rs[..|rs|] == rs;
    }
  }

  /** Filtering a concatenation filters each part. */
  lemma {:induction false} FilterAppend(a: seq<Review>, b: seq<Review>, start: Date, end: Date)
    ensures Filter(a + b, start, end) == Filter(a, start, end) + Filter(b, start, end)
    decreases |b|
  {
    if b == [] {
      assert a + b == a;
    } else {
      var b' := b[..|b| - 1];
      assert (a + b)[..|a + b| - 1] == a + b';
      FilterAppend(a, b', start, end);
    }
  }

  /** The filter keeps exactly the reviews that are unparseable or in range (both directions). */
  lemma {:induction false} FilterMembers(rs: seq<Review>, start: Date, end: Date, r: Review)
    ensures r in Filter(rs, start, end) <==> r in rs && Keep(r, start, end)
    decreases |rs|
  {
    if rs != [] {
      var init := rs[..|rs| - 1];
      FilterMembers(init, start, end, r);
      assert rs == init + [rs[|rs| - 1]];
    }
  }

  /** Fail-open: a review whose date does not parse is never dropped. */
  lemma UnparseableKept(rs: seq<Review>, start: Date, end: Date, r: Review)
    requires r in rs && ParseIso(r.date).None?
    ensures r in Filter(rs, start, end)
  {
    FilterMembers(rs, start, end, r);
  }

  /** A review with a date in [start, end] is never dropped. */
  lemma InRangeKept(rs: seq<Review>, start: Date, end: Date, r: Review, d: Date)
    requires r in rs && ParseIso(r.date) == Some(d) && LessEq(start, d) && LessEq(d, end)
    ensures r in Filter(rs, start, end)
  {
    FilterMembers(rs, start, end, r);
  }

  /** A review whose parsed date lies outside [start, end] is dropped. */
  lemma OutOfRangeDropped(rs: seq<Review>, start: Date, end: Date, r: Review, d: Date)
    requires ParseIso(r.date) == Some(d) && !(LessEq(start, d) && LessEq(d, end))
    ensures r !in Filter(rs, start, end)
  {
  }

  /** The filter leaves a list alone exactly when it would keep every review in it. */
  lemma {:induction false} FilterIdentity(rs: seq<Review>, start: Date, end: Date)
    ensures Filter(rs, start, end) == rs <==> forall r :: r in rs ==> Keep(r, start, end)
    decreases |rs|
  {
    if rs != [] {
      FilterIdentity(rs[..|rs| - 1], start, end);
      FilterIdentityStep(rs, start, end);
    }
  }

  lemma FilterIdentityStep(rs: seq<Review>, start: Date, end: Date)
    requires rs != []
    requires var init := rs[..|rs| - 1];
      Filter(init, start, end) == init <==> forall r :: r in init ==> Keep(r, start, end)
    ensures Filter(rs, start, end) == rs <==> forall r :: r in rs ==> Keep(r, start, end)
  {
    var init := rs[..|rs| - 1];
    var last := rs[|rs| - 1];
    assert rs == init + [last];
    if Keep(last, start, end) {
      assert Filter(rs, start, end) == Filter(init, start, end) + [last];
      if Filter(rs, start, end) == rs {
        assert Filter(init, start, end) == Filter(rs, start, end)[..|rs| - 1] == init;
      }
    } else {
      assert |Filter(rs, start, end)| < |rs|;
    }
  }

  /** Filtering twice is filtering once. */
  lemma FilterIdempotent(rs: seq<Review>, start: Date, end: Date)
    ensures Filter(Filter(rs, start, end), start, end) == Filter(rs, start, end)
  {
    FilterIdentity(Filter(rs, start, end), start, end);
  }

  /** The output is a subsequence of the input: order is kept and nothing is added. */
  lemma {:induction false} FilterSubsequence(rs: seq<Review>, start: Date, end: Date)
    ensures IsSubsequence(Filter(rs, start, end), rs)
    decreases |rs|
  {
    if rs != [] {
      var init := rs[..|rs| - 1];
      var last := rs[|rs| - 1];
      FilterSubsequence(init, start, end);
      if Keep(last, start, end) {
        var out := Filter(init, start, end) + [last];
        assert out[..|out| - 1] == Filter(init, start, end);
      }
    }
  }
}
