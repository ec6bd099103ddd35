/**
 * The command-line driver: input validation, the orchestrator that runs
 * the selected scrapers in a fixed order and isolates each one's failure,
 * the summary total, and the exit code.
 */
module Orchestrator {
  import opened Wrappers
  import opened Strings
  import opened Civil
  import opened DateFormats
  import opened Reviews
  import opened BaseScraper
  import G2
  import Capterra
  import Trustpilot

  // ---------------------------------------------------------------------
  // Input validation

  const ValidSources: seq<string> := ["g2", "capterra", "trustpilot", "all"]

  /** The ValueError `validate_inputs` raises, one per check. */
  datatype InputError = EmptyCompany | DateFormatError | StartAfterEnd | UnknownSource

  /** What `validate_inputs` returns: the trimmed name, both dates, the lower-cased source. */
  datatype Inputs = Inputs(company: string, start: Date, end: Date, source: string)

  /**
   * `validate_inputs`, checks in the source's order: the company name, both
   * dates with '%Y-%m-%d', the order of the dates, the source selector.
   */
  function ValidateInputs(company: string, startText: string, endText: string, source: string): Result<Inputs, InputError> {
    if company == [] || Strip(company) == [] then Err(EmptyCompany)
    else CheckParsed(Strip(company), ParseIso(startText), ParseIso(endText), source)
  }

  /** The checks after the name, on what '%Y-%m-%d' made of the two dates. */
  function CheckParsed(company: string, start: Option<Date>, end: Option<Date>, source: string): Result<Inputs, InputError> {
    if start.None? || end.None? then Err(DateFormatError)
    else if !LessEq(start.value, end.value) then Err(StartAfterEnd)
    else if Lower(source) !in ValidSources then Err(UnknownSource)
    else Ok(Inputs(company, start.value, end.value, Lower(source)))
  }

  /** Inputs are accepted exactly when every check passes. */
  lemma ValidateAccepts(company: string, startText: string, endText: string, source: string)
    ensures ValidateInputs(company, startText, endText, source).Ok? <==>
      && Strip(company) != []
      && ParseIso(startText).Some? && ParseIso(endText).Some?
      && LessEq(ParseIso(startText).value, ParseIso(endText).value)
      && Lower(source) in ValidSources
  {
  }

  /** An empty or blank name is the first thing rejected. */
  lemma EmptyCompanyRejected(company: string, startText: string, endText: string, source: string)
    ensures ValidateInputs(company, startText, endText, source) == Err(EmptyCompany) <==> Strip(company) == []
  {
  }

  /** A date error is reported once the name is accepted and either date fails '%Y-%m-%d'. */
  lemma DateFormatRejected(company: string, startText: string, endText: string, source: string)
    ensures ValidateInputs(company, startText, endText, source) == Err(DateFormatError) <==>
      Strip(company) != [] && (ParseIso(startText).None? || ParseIso(endText).None?)
  {
  }

  /** Dates in the wrong order are reported once both parse; equal dates are not. */
  lemma StartAfterEndRejected(company: string, startText: string, endText: string, source: string)
    ensures ValidateInputs(company, startText, endText, source) == Err(StartAfterEnd) <==>
      && Strip(company) != [] && ParseIso(startText).Some? && ParseIso(endText).Some?
      && LessEq(ParseIso(endText).value, ParseIso(startText).value)
      && ParseIso(endText) != ParseIso(startText)
  {
    var ps := ParseIso(startText);
    var pe := ParseIso(endText);
    if ps.Some? && pe.Some? {
      DatesOrdered(ps.value, pe.value);
    }
  }

  /** `start > end` on dates: `end` comes first and they differ. */
  lemma DatesOrdered(a: Date, b: Date)
    ensures !LessEq(a, b) <==> LessEq(b, a) && Some(b) != Some(a)
  {
  }

  /** An unknown selector is reported last. */
  lemma UnknownSourceRejected(company: string, startText: string, endText: string, source: string)
    ensures ValidateInputs(company, startText, endText, source) == Err(UnknownSource) <==>
      && Strip(company) != [] && ParseIso(startText).Some? && ParseIso(endText).Some?
      && LessEq(ParseIso(startText).value, ParseIso(endText).value)
      && Lower(source) !in ValidSources
  {
    if Strip(company) != [] {
      UnknownSourceParsed(Strip(company), ParseIso(startText), ParseIso(endText), source);
    }
  }

  /** After the name, the selector is the check that fails exactly when the dates are fine and it is unknown. */
  lemma UnknownSourceParsed(company: string, start: Option<Date>, end: Option<Date>, source: string)
    ensures CheckParsed(company, start, end, source) == Err(UnknownSource) <==>
      start.Some? && end.Some? && LessEq(start.value, end.value) && Lower(source) !in ValidSources
  {
  }

  /** `Strip` removes nothing from a stripped text. */
  lemma StripStripped(s: string)
    ensures Strip(Strip(s)) == Strip(s)
  {
    var t := Strip(s);
    var l := StripLeft(s);
    assert t == l[..|t|];
    if t != [] {
      assert t[0] == l[0];
      StripNoBlankEnds(t);
    }
  }

  lemma {:induction false} LowerLowered(s: string)
    ensures Lower(Lower(s)) == Lower(s)
  {
    assert forall i :: 0 <= i < |s| ==> Lower(Lower(s))[i] == LowerChar(LowerChar(s[i]));
  }

  /**
   * What is accepted is normalised: a non-empty trimmed name, dates in order,
   * a lower-case source from the four; one day is a valid range.
   */
  lemma AcceptedInputs(company: string, startText: string, endText: string, source: string)
    requires ValidateInputs(company, startText, endText, source).Ok?
    ensures var inputs := ValidateInputs(company, startText, endText, source).value;
      && inputs.company == Strip(company) && inputs.company != [] && Strip(inputs.company) == inputs.company
      && Some(inputs.start) == ParseIso(startText) && Some(inputs.end) == ParseIso(endText)
      && LessEq(inputs.start, inputs.end)
      && inputs.source in ValidSources && inputs.source == Lower(source)
  {
    StripStripped(company);
    ParsedAccepted(Strip(company), ParseIso(startText), ParseIso(endText), source);
  }

  /** What the checks after the name accept: the parsed dates, in order, and a known lower-case selector. */
  lemma ParsedAccepted(company: string, start: Option<Date>, end: Option<Date>, source: string)
    requires CheckParsed(company, start, end, source).Ok?
    ensures var inputs := CheckParsed(company, start, end, source).value;
      && inputs.company == company && Some(inputs.start) == start && Some(inputs.end) == end
      && LessEq(inputs.start, inputs.end)
      && inputs.source in ValidSources && inputs.source == Lower(source)
  {
  }

  /** start == end is accepted. */
  lemma SameDayAccepted(company: string, dateText: string, source: string)
    requires Strip(company) != [] && ParseIso(dateText).Some? && Lower(source) in ValidSources
    ensures ValidateInputs(company, dateText, dateText, source).Ok?
  {
  }

  /** Surrounding blanks of the name and the case of the source do not matter. */
  lemma ValidateNormalised(company: string, startText: string, endText: string, source: string)
    ensures ValidateInputs(company, startText, endText, source)
      == ValidateInputs(Strip(company), startText, endText, Lower(source))
  {
    StripStripped(company);
    if Strip(company) != [] {
      CheckLowered(Strip(company), ParseIso(startText), ParseIso(endText), source);
    }
  }

  /** The checks after the name see the selector only through `Lower`. */
  lemma CheckLowered(company: string, start: Option<Date>, end: Option<Date>, source: string)
    ensures CheckParsed(company, start, end, Lower(source)) == CheckParsed(company, start, end, source)
  {
    LowerLowered(source);
  }

  // ---------------------------------------------------------------------
  // The orchestrator

  /** The source selectors, in the order `scrape_reviews` runs them. */
  const SourceKeys: seq<string> := ["g2", "capterra", "trustpilot"]

  /** The keys of `results['sources']`, one per selector. */
  const SourceNames: seq<string> := [G2.SourceName, Capterra.SourceName, Trustpilot.SourceName]

  /** `sources_to_scrape`. */
  function SourcesToScrape(source: string): seq<string> {
    if source == "all" then SourceKeys else [source]
  }

  /**
   * What `scrape_reviews` runs against: the three sites, the time of the
   * run, and, by selector, the message of an exception that escapes that
   * scraper (the modelled `scrape` methods never let one escape).
   */
  datatype Environment = Environment(
    g2: G2.Site,
    capterra: Capterra.Site,
    trustpilot: Trustpilot.Site,
    now: Moment,
    failures: map<string, string>)

  /** How one source's block ended: its `scrape` returned, or an exception escaped with a message. */
  datatype Outcome = Returned(reviews: seq<Review>) | Raised(message: string)

  /** What the k-th scraper, fresh, does for the inputs. */
  function RunOutcome(k: nat, inputs: Inputs, env: Environment): Outcome
    requires k < |SourceKeys|
  {
    if SourceKeys[k] in env.failures then Raised(env.failures[SourceKeys[k]])
    else if k == 0 then Returned(G2.Scraped(env.g2, inputs.company, env.now, inputs.start, inputs.end, []))
    else if k == 1 then Returned(Capterra.Scraped(env.capterra, inputs.company, env.now, inputs.start, inputs.end, []))
    else Returned(Trustpilot.Scraped(env.trustpilot, inputs.company, env.now, inputs.start, inputs.end, []))
  }

  /** The outcomes of the three scrapers, in running order. */
  function Outcomes(inputs: Inputs, env: Environment): (os: seq<Outcome>)
    ensures |os| == |SourceKeys| && forall k :: 0 <= k < |SourceKeys| ==> os[k] == RunOutcome(k, inputs, env)
  {
    seq(|SourceKeys|, k requires 0 <= k < |SourceKeys| => RunOutcome(k, inputs, env))
  }

  /** `[r.to_dict() for r in reviews]`. */
  function Dicts(rs: seq<Review>): (js: seq<Json>)
    ensures |js| == |rs| && forall i :: 0 <= i < |rs| ==> js[i] == ToDict(rs[i])
  {
    seq(|rs|, i requires 0 <= i < |rs| => ToDict(rs[i]))
  }

  /** The entry of a source: its reviews and their number, or the error and 0. */
  function Entry(o: Outcome): Json {
    match o
    case Returned(rs) => Obj([("total_reviews", Num(|rs| as real)), ("reviews", Arr(Dicts(rs)))])
    case Raised(message) => Obj([("error", Str(message)), ("total_reviews", Num(0.0))])
  }

  /** Whether the k-th source is run for the selector. */
  predicate Selected(source: string, k: nat)
    requires k < |SourceKeys|
  {
    SourceKeys[k] in SourcesToScrape(source)
  }

  /** The entries of the selected sources from the k-th on, in order. */
  function Entries(source: string, os: seq<Outcome>, k: nat): seq<(string, Json)>
    requires |os| == |SourceKeys| && k <= |SourceKeys|
    decreases |SourceKeys| - k
  {
    if k == |SourceKeys| then []
    else (if Selected(source, k) then [(SourceNames[k], Entry(os[k]))] else []) + Entries(source, os, k + 1)
  }

  /** The dictionary `scrape_reviews` builds from the outcomes. */
  function Assemble(inputs: Inputs, os: seq<Outcome>): (j: Json)
    requires |os| == |SourceKeys|
    ensures j.Obj? && |j.members| == 4 && j.members[3].1.Obj?
  {
    Obj([
      ("company", Str(inputs.company)),
      ("start_date", Str(Iso(inputs.start))),
      ("end_date", Str(Iso(inputs.end))),
      ("sources", Obj(Entries(inputs.source, os, 0)))])
  }

  /** The dictionary `scrape_reviews` returns. */
  function Results(inputs: Inputs, env: Environment): (j: Json)
    ensures j.Obj? && |j.members| == 4 && j.members[3].1.Obj?
  {
    Assemble(inputs, Outcomes(inputs, env))
  }

  /** One source's block: a fresh scraper and its `scrape`, or the error entry. */
  method RunSource(k: nat, inputs: Inputs, env: Environment) returns (entry: Json)
    requires k < |SourceKeys|
    ensures entry == Entry(Outcomes(inputs, env)[k])
  {
    if SourceKeys[k] in env.failures {
      return Entry(Raised(env.failures[SourceKeys[k]]));
    }
    var sc := new Scraper(inputs.company, inputs.start, inputs.end, SourceNames[k]);
    var reviews: seq<Review>;
    if k == 0 {
      reviews := G2.Scrape(sc, env.g2, env.now);
    } else if k == 1 {
      reviews := Capterra.Scrape(sc, env.capterra, env.now);
    } else {
      reviews := Trustpilot.Scrape(sc, env.trustpilot, env.now);
    }
    entry := Entry(Returned(reviews));
  }

  /** `scrape_reviews`: the header fields, then each selected source in turn. */
  method ScrapeReviews(inputs: Inputs, env: Environment) returns (results: Json)
    ensures results == Results(inputs, env)
  {
    var sources := RunSources(inputs, env);
    results := Obj([
      ("company", Str(inputs.company)),
      ("start_date", Str(Iso(inputs.start))),
      ("end_date", Str(Iso(inputs.end))),
      ("sources", Obj(sources))]);
  }

  /** The three `if '…' in sources_to_scrape` blocks, each adding its entry to `results['sources']`. */
  method RunSources(inputs: Inputs, env: Environment) returns (sources: seq<(string, Json)>)
    ensures sources == Entries(inputs.source, Outcomes(inputs, env), 0)
  {
    ghost var os := Outcomes(inputs, env);
    var toScrape := SourcesToScrape(inputs.source);
    sources := [];
    for k := 0 to |SourceKeys|
      invariant sources + Entries(inputs.source, os, k) == Entries(inputs.source, os, 0)
    {
      EntriesStep(inputs.source, os, k);
      if SourceKeys[k] in toScrape {
        var entry := RunSource(k, inputs, env);
        MoveToDone(sources, [(SourceNames[k], entry)], Entries(inputs.source, os, k + 1), Entries(inputs.source, os, 0));
        sources := sources + [(SourceNames[k], entry)];
      }
    }
    assert Entries(inputs.source, os, |SourceKeys|) == [];
  }

  /** The entries from the k-th source on: its own, when it is selected, then the rest. */
  lemma EntriesStep(source: string, os: seq<Outcome>, k: nat)
    requires |os| == |SourceKeys| && k < |SourceKeys|
    ensures Entries(source, os, k)
      == (if Selected(source, k) then [(SourceNames[k], Entry(os[k]))] else []) + Entries(source, os, k + 1)
  {
  }

  /** Moving the next entry from what is left to what is done keeps the whole. */
  lemma MoveToDone<T>(done: seq<T>, next: seq<T>, rest: seq<T>, whole: seq<T>)
    requires done + (next + rest) == whole
    ensures (done + next) + rest == whole
  {
  }

  /**
   * The entries are those of the selected sources, in the order G2,
   * Capterra, Trustpilot.
   */
  lemma {:induction false} EntriesFrom(source: string, os: seq<Outcome>, k: nat)
    requires |os| == |SourceKeys| && k <= |SourceKeys|
    ensures forall e :: e in Entries(source, os, k) <==>
      exists j :: k <= j < |SourceKeys| && Selected(source, j) && e == (SourceNames[j], Entry(os[j]))
    decreases |SourceKeys| - k
  {
    if k < |SourceKeys| {
      EntriesFrom(source, os, k + 1);
    }
  }

  /** The entries, written out source by source. */
  lemma EntriesUnfold(source: string, os: seq<Outcome>)
    requires |os| == |SourceKeys|
    ensures Entries(source, os, 0)
      == (if Selected(source, 0) then [(SourceNames[0], Entry(os[0]))] else [])
      + (if Selected(source, 1) then [(SourceNames[1], Entry(os[1]))] else [])
      + (if Selected(source, 2) then [(SourceNames[2], Entry(os[2]))] else [])
  {
    assert Entries(source, os, 3) == [];
    assert Entries(source, os, 2) == (if Selected(source, 2) then [(SourceNames[2], Entry(os[2]))] else []);
  }

  /** "all" gives the three entries in order. */
  lemma AllSourcesInOrder(inputs: Inputs, os: seq<Outcome>)
    requires |os| == |SourceKeys| && inputs.source == "all"
    ensures Assemble(inputs, os).members[3].1.members
      == [("G2", Entry(os[0])), ("Capterra", Entry(os[1])), ("Trustpilot", Entry(os[2]))]
  {
  }

  /** A single selector gives exactly its own entry; any other text gives none. */
  lemma SingleSource(inputs: Inputs, os: seq<Outcome>)
    requires |os| == |SourceKeys| && inputs.source != "all"
    ensures forall k :: 0 <= k < |SourceKeys| && inputs.source == SourceKeys[k] ==>
      Assemble(inputs, os).members[3].1.members == [(SourceNames[k], Entry(os[k]))]
    ensures inputs.source !in SourceKeys ==> Assemble(inputs, os).members[3].1.members == []
  {
    EntriesUnfold(inputs.source, os);
    assert "g2"[0] != "capterra"[0] && "g2"[0] != "trustpilot"[0] && "capterra"[0] != "trustpilot"[0];
    assert Selected(inputs.source, 0) <==> inputs.source == "g2";
    assert Selected(inputs.source, 1) <==> inputs.source == "capterra";
    assert Selected(inputs.source, 2) <==> inputs.source == "trustpilot";
  }

  /**
   * Failure isolation: what a source's block gives depends only on whether
   * its own scraper raised, never on what happened to the others.
   */
  lemma Isolation(inputs: Inputs, env: Environment, k: nat, other: map<string, string>)
    requires k < |SourceKeys|
    requires SourceKeys[k] in env.failures <==> SourceKeys[k] in other
    requires SourceKeys[k] in env.failures ==> env.failures[SourceKeys[k]] == other[SourceKeys[k]]
    ensures RunOutcome(k, inputs, env) == RunOutcome(k, inputs, env.(failures := other))
  {
  }

  /**
   * A source entry counts what it holds: a scraper that returned gives its
   * reviews as dictionaries with their number, one that raised gives its
   * message and 0, without reviews.
   */
  lemma EntryShape(o: Outcome)
    ensures o.Raised? ==>
      && Get(Entry(o).members, "error") == Some(Str(o.message))
      && Get(Entry(o).members, "total_reviews") == Some(Num(0.0))
      && Get(Entry(o).members, "reviews").None?
    ensures o.Returned? ==>
      && Get(Entry(o).members, "error").None?
      && Get(Entry(o).members, "total_reviews") == Some(Num(|o.reviews| as real))
      && Get(Entry(o).members, "reviews") == Some(Arr(Dicts(o.reviews)))
  {
    assert "total_reviews"[0] != "error"[0] && "total_reviews"[0] != "reviews"[0] && "reviews"[0] != "error"[0];
    var ms := Entry(o).members;
    assert ms[1..][1..] == [];
    if o.Raised? {
      assert Get(ms, "reviews") == Get(ms[1..], "reviews") == Get(ms[1..][1..], "reviews");
    } else {
      assert Get(ms, "error") == Get(ms[1..], "error") == Get(ms[1..][1..], "error");
    }
  }

  /** A company no site resolves gives an empty entry, not an error entry. */
  lemma UnresolvedCompany(inputs: Inputs, env: Environment, k: nat)
    requires k < |SourceKeys| && SourceKeys[k] !in env.failures
    requires k == 0 ==> G2.FindCompanyUrl(env.g2, inputs.company).None?
    requires k == 1 ==> Capterra.FindCompanyUrl(env.capterra, inputs.company).None?
    requires k == 2 ==> Trustpilot.FindCompanyUrl(env.trustpilot, inputs.company).None?
    ensures Entry(RunOutcome(k, inputs, env)) == Obj([("total_reviews", Num(0.0)), ("reviews", Arr([]))])
  {
    if k == 0 {
      G2.ScrapedFacts(env.g2, inputs.company, env.now, inputs.start, inputs.end);
    } else if k == 1 {
      Capterra.ScrapedFacts(env.capterra, inputs.company, env.now, inputs.start, inputs.end);
    } else {
      Trustpilot.ScrapedFacts(env.trustpilot, inputs.company, env.now, inputs.start, inputs.end);
    }
  }

  /**
   * A source whose scraper returned holds only reviews labelled with that
   * source's name, the key of its entry, and each kept by the date filter.
   */
  lemma ReturnedReviews(inputs: Inputs, env: Environment, k: nat)
    requires k < |SourceKeys| && Outcomes(inputs, env)[k].Returned?
    ensures forall r :: r in Outcomes(inputs, env)[k].reviews ==>
      r.source == Some(SourceNames[k]) && Keep(r, inputs.start, inputs.end)
  {
    assert Outcomes(inputs, env)[k] == RunOutcome(k, inputs, env);
    if k == 0 {
      G2.ScrapedFacts(env.g2, inputs.company, env.now, inputs.start, inputs.end);
    } else if k == 1 {
      Capterra.ScrapedFacts(env.capterra, inputs.company, env.now, inputs.start, inputs.end);
    } else {
      Trustpilot.ScrapedFacts(env.trustpilot, inputs.company, env.now, inputs.start, inputs.end);
    }
  }

  // ---------------------------------------------------------------------
  // The summary and the exit code

  /**
   * `sum(src.get('total_reviews', 0) for src in sources.values())`: a
   * missing count is 0 and a boolean adds as 0 or 1. None stands for the
   * exception raised by an entry that is not a dictionary (`.get`) or by a
   * count that `sum` cannot add (null, text, a list or a dictionary).
   */
  function SummaryTotal(entries: seq<(string, Json)>): Option<real> {
    if entries == [] then Some(0.0)
    else
      var v := entries[0].1;
      if !v.Obj? then None
      else
        var count := match Get(v.members, "total_reviews")
          case None => Some(0.0)
          case Some(Num(x)) => Some(x)
          case Some(Bool(b)) => Some(if b then 1.0 else 0.0)
          case Some(_) => None;
        match (count, SummaryTotal(entries[1..]))
        case (Some(x), Some(rest)) => Some(x + rest)
        case _ => None
  }

  /** What a source contributes to the total: the reviews it returned, none when it raised. */
  function Contribution(o: Outcome): nat {
    match o
    case Returned(rs) => |rs|
    case Raised(_) => 0
  }

  /** The contributions of the selected sources from the k-th on. */
  function ContributionsFrom(source: string, os: seq<Outcome>, k: nat): nat
    requires |os| == |SourceKeys| && k <= |SourceKeys|
    decreases |SourceKeys| - k
  {
    if k == |SourceKeys| then 0
    else (if Selected(source, k) then Contribution(os[k]) else 0) + ContributionsFrom(source, os, k + 1)
  }

  lemma {:induction false} EntriesTotal(source: string, os: seq<Outcome>, k: nat)
    requires |os| == |SourceKeys| && k <= |SourceKeys|
    ensures SummaryTotal(Entries(source, os, k)) == Some(ContributionsFrom(source, os, k) as real)
    decreases |SourceKeys| - k
  {
    if k == |SourceKeys| {
      assert Entries(source, os, k) == [];
    } else {
      EntriesTotal(source, os, k + 1);
      EntriesStep(source, os, k);
      var rest := Entries(source, os, k + 1);
      if Selected(source, k) {
        SummaryOneMore(SourceNames[k], os[k], rest);
        assert Entries(source, os, k) == [(SourceNames[k], Entry(os[k]))] + rest;
        assert ContributionsFrom(source, os, k) == Contribution(os[k]) + ContributionsFrom(source, os, k + 1);
      } else {
        assert Entries(source, os, k) == rest;
        assert ContributionsFrom(source, os, k) == ContributionsFrom(source, os, k + 1);
      }
    }
  }

  /** An entry in front adds its count to the total of the rest. */
  lemma SummaryOneMore(name: string, o: Outcome, rest: seq<(string, Json)>)
    requires SummaryTotal(rest).Some?
    ensures SummaryTotal([(name, Entry(o))] + rest) == Some(Contribution(o) as real + SummaryTotal(rest).value)
  {
    var es := [(name, Entry(o))] + rest;
    assert es[1..] == rest;
    EntryShape(o);
  }

  /**
   * The summary never fails on the orchestrator's output: it is the number
   * of reviews of the selected sources whose scraper returned.
   */
  lemma SummaryOfResults(inputs: Inputs, os: seq<Outcome>)
    requires |os| == |SourceKeys|
    ensures SummaryTotal(Assemble(inputs, os).members[3].1.members)
      == Some(ContributionsFrom(inputs.source, os, 0) as real)
  {
    EntriesTotal(inputs.source, os, 0);
  }

  /**
   * `main` after argument parsing: 1 for a validation error, otherwise the
   * run, the total, and 0 exactly when the results were saved (`saved`
   * stands for `save_results`, which writes the file).
   */
  function ExitCode(company: string, startText: string, endText: string, source: string, env: Environment, saved: bool): int {
    match ValidateInputs(company, startText, endText, source)
    case Err(_) => 1
    case Ok(inputs) =>
      match SummaryTotal(Results(inputs, env).members[3].1.members)
      case None => 1
      case Some(_) => if saved then 0 else 1
  }

  /** The exit status is 0 exactly when the inputs are valid and the results were saved, and 1 otherwise. */
  lemma ExitCodeZero(company: string, startText: string, endText: string, source: string, env: Environment, saved: bool)
    ensures ExitCode(company, startText, endText, source, env, saved) == 0 <==>
      ValidateInputs(company, startText, endText, source).Ok? && saved
    ensures ExitCode(company, startText, endText, source, env, saved) == 0
      || ExitCode(company, startText, endText, source, env, saved) == 1
  {
    var v := ValidateInputs(company, startText, endText, source);
    if v.Ok? {
      SummaryOfResults(v.value, Outcomes(v.value, env));
    }
  }
}
