/**
 * The output checks of the test utilities, over a decoded JSON value:
 * `validate_json_structure` (the checks in their order, stopping at the
 * first that fails) and `count_reviews`.
 */
module TestUtils {
  import opened Wrappers
  import opened Civil
  import opened DateFormats
  import opened Reviews
  import Orchestrator

  const TopKeys: seq<string> := ["company", "start_date", "end_date", "sources"]
  const RequiredReviewKeys: seq<string> := ["title", "description", "date", "rating", "reviewer_name"]

  /** The check that failed; `Unexpected` is an exception no check names, caught by the outermost handler. */
  datatype Failure =
    | MissingKey(key: string)
    | InvalidDate
    | SourcesNotDict
    | MissingTotal(source: string)
    | MissingReviews(source: string)
    | ReviewsNotList(source: string)
    | ReviewMissingKey(source: string, index: nat, key: string)
    | Unexpected

  datatype Check = Pass | Fail(failure: Failure)

  /** `for key in keys: if key not in v: …`: the first key `v` lacks, or the TypeError of `in` on an unsupported value. */
  function FirstMissing(keys: seq<string>, v: Json, missing: string -> Failure): Check {
    if keys == [] then Pass
    else match In(keys[0], v)
      case None => Fail(Unexpected)
      case Some(false) => Fail(missing(keys[0]))
      case Some(true) => FirstMissing(keys[1..], v, missing)
  }

  /** `datetime.strptime(v, '%Y-%m-%d')`: a ValueError for text that does not parse, a TypeError for anything but text. */
  function CheckDate(v: Option<Json>): Check {
    match v
    case Some(Str(s)) => if ParseIso(s).Some? then Pass else Fail(InvalidDate)
    case _ => Fail(Unexpected)
  }

  /** The loop over the reviews of one source, from the i-th on. */
  function CheckReviews(source: string, reviews: seq<Json>, i: nat): Check
    requires i <= |reviews|
    decreases |reviews| - i
  {
    if i == |reviews| then Pass
    else match FirstMissing(RequiredReviewKeys, reviews[i], k => ReviewMissingKey(source, i, k))
      case Fail(f) => Fail(f)
      case Pass => CheckReviews(source, reviews, i + 1)
  }

  /** The checks on one source entry. */
  function CheckSource(name: string, entry: Json): Check {
    match In("total_reviews", entry)
    case None => Fail(Unexpected)
    case Some(false) => Fail(MissingTotal(name))
    case Some(true) =>
      match In("reviews", entry)
      case None => Fail(Unexpected)
      case Some(false) => Fail(MissingReviews(name))
      case Some(true) =>
        if !entry.Obj? then Fail(Unexpected)
        else match Get(entry.members, "reviews")
          case Some(Arr(items)) => CheckReviews(name, items, 0)
          case Some(_) => Fail(ReviewsNotList(name))
          case None => Fail(Unexpected)
  }

  /** The loop over the source entries, from the i-th on. */
  function CheckSources(entries: seq<(string, Json)>, i: nat): Check
    requires i <= |entries|
    decreases |entries| - i
  {
    if i == |entries| then Pass
    else match CheckSource(entries[i].0, entries[i].1)
      case Fail(f) => Fail(f)
      case Pass => CheckSources(entries, i + 1)
  }

  /** The checks of `validate_json_structure`, in order. */
  function Validate(data: Json): Check {
    match FirstMissing(TopKeys, data, k => MissingKey(k))
    case Fail(f) => Fail(f)
    case Pass =>
      if !data.Obj? then Fail(Unexpected)
      else
        match CheckDate(Get(data.members, "start_date"))
        case Fail(f) => Fail(f)
        case Pass =>
          match CheckDate(Get(data.members, "end_date"))
          case Fail(f) => Fail(f)
          case Pass =>
            match Get(data.members, "sources")
            case Some(Obj(entries)) => CheckSources(entries, 0)
            case Some(_) => Fail(SourcesNotDict)
            case None => Fail(Unexpected)
  }

  /** `validate_json_structure` on the decoded file. */
  function ValidateJsonStructure(data: Json): bool {
    Validate(data).Pass?
  }

  // ---------------------------------------------------------------------
  // The shape the checks accept, stated on its own

  predicate ReviewShaped(r: Json) {
    forall j :: 0 <= j < |RequiredReviewKeys| ==> In(RequiredReviewKeys[j], r) == Some(true)
  }

  predicate SourceShaped(entry: Json) {
    && entry.Obj?
    && "total_reviews" in Keys(entry.members)
    && Get(entry.members, "reviews").Some?
    && Get(entry.members, "reviews").value.Arr?
    && forall j :: 0 <= j < |Get(entry.members, "reviews").value.items| ==>
      ReviewShaped(Get(entry.members, "reviews").value.items[j])
  }

  predicate DateText(v: Option<Json>) {
    v.Some? && v.value.Str? && ParseIso(v.value.s).Some?
  }

  /**
   * A dictionary with the four top-level keys, both dates in
   * '%Y-%m-%d', and a dictionary of well-shaped source entries.
   */
  predicate WellShaped(data: Json) {
    && data.Obj?
    && (forall j :: 0 <= j < |TopKeys| ==> TopKeys[j] in Keys(data.members))
    && DateText(Get(data.members, "start_date"))
    && DateText(Get(data.members, "end_date"))
    && Get(data.members, "sources").Some?
    && Get(data.members, "sources").value.Obj?
    && forall j :: 0 <= j < |Get(data.members, "sources").value.members| ==>
      SourceShaped(Get(data.members, "sources").value.members[j].1)
  }

  lemma {:induction false} FirstMissingPass(keys: seq<string>, v: Json, missing: string -> Failure)
    ensures FirstMissing(keys, v, missing).Pass? <==> forall j :: 0 <= j < |keys| ==> In(keys[j], v) == Some(true)
    ensures FirstMissing(keys, v, missing).Pass? || FirstMissing(keys, v, missing) == Fail(Unexpected)
      || exists j :: 0 <= j < |keys| && FirstMissing(keys, v, missing) == Fail(missing(keys[j]))
  {
    if keys != [] {
      FirstMissingPass(keys[1..], v, missing);
      if In(keys[0], v) == Some(true) && FirstMissing(keys[1..], v, missing).Fail?
        && FirstMissing(keys[1..], v, missing) != Fail(Unexpected)
      {
        var j :| 0 <= j < |keys| - 1 && FirstMissing(keys[1..], v, missing) == Fail(missing(keys[1..][j]));
        assert keys[1..][j] == keys[j + 1];
      }
    }
  }

  lemma {:induction false} CheckReviewsPass(source: string, reviews: seq<Json>, i: nat)
    requires i <= |reviews|
    ensures CheckReviews(source, reviews, i).Pass? <==> forall j :: i <= j < |reviews| ==> ReviewShaped(reviews[j])
    decreases |reviews| - i
  {
    if i < |reviews| {
      CheckReviewsPass(source, reviews, i + 1);
      ReviewsStepPass(source, reviews, i);
    }
  }

  lemma ReviewsStepPass(source: string, reviews: seq<Json>, i: nat)
    requires i < |reviews|
    requires CheckReviews(source, reviews, i + 1).Pass? <==> forall j :: i + 1 <= j < |reviews| ==> ReviewShaped(reviews[j])
    ensures CheckReviews(source, reviews, i).Pass? <==> forall j :: i <= j < |reviews| ==> ReviewShaped(reviews[j])
  {
    FirstMissingPass(RequiredReviewKeys, reviews[i], k => ReviewMissingKey(source, i, k));
  }

  lemma CheckSourcePass(name: string, entry: Json)
    ensures CheckSource(name, entry).Pass? <==> SourceShaped(entry)
  {
    if entry.Obj? {
      GetFound(entry.members, "reviews");
      var r := Get(entry.members, "reviews");
      if r.Some? && r.value.Arr? {
        CheckReviewsPass(name, r.value.items, 0);
      }
    }
  }

  lemma {:induction false} CheckSourcesPass(entries: seq<(string, Json)>, i: nat)
    requires i <= |entries|
    ensures CheckSources(entries, i).Pass? <==> ShapedFrom(entries, i)
    decreases |entries| - i
  {
    if i < |entries| {
      CheckSourcesPass(entries, i + 1);
      SourcesStepPass(entries, i);
    }
  }

  /** The source entries from the i-th on are well shaped. */
  predicate ShapedFrom(entries: seq<(string, Json)>, i: nat) {
    forall j :: i <= j < |entries| ==> SourceShaped(entries[j].1)
  }

  lemma ShapedFromStep(entries: seq<(string, Json)>, i: nat)
    requires i < |entries|
    ensures ShapedFrom(entries, i) <==> SourceShaped(entries[i].1) && ShapedFrom(entries, i + 1)
  {
  }

  lemma SourcesStepPass(entries: seq<(string, Json)>, i: nat)
    requires i < |entries| && (CheckSources(entries, i + 1).Pass? <==> ShapedFrom(entries, i + 1))
    ensures CheckSources(entries, i).Pass? <==> ShapedFrom(entries, i)
  {
    CheckSourcePass(entries[i].0, entries[i].1);
    CheckSourcesStep(entries, i);
    ShapedFromStep(entries, i);
  }

  /** The checks pass exactly on the well-shaped values: validation is true iff no check fails. */
  lemma ValidateIff(data: Json)
    ensures ValidateJsonStructure(data) <==> WellShaped(data)
  {
    FirstMissingPass(TopKeys, data, k => MissingKey(k));
    if data.Obj? {
      CheckDatePass(Get(data.members, "start_date"));
      CheckDatePass(Get(data.members, "end_date"));
      var s := Get(data.members, "sources");
      if s.Some? && s.value.Obj? {
        CheckSourcesPass(s.value.members, 0);
      }
    }
  }

  /** The date check passes exactly on text in '%Y-%m-%d'. */
  lemma CheckDatePass(v: Option<Json>)
    ensures CheckDate(v).Pass? <==> DateText(v)
  {
  }

  /** On failure, the value names a check that can fail: a key that is required, or an exception. */
  lemma MissingKeyIsRequired(data: Json, key: string)
    requires Validate(data) == Fail(MissingKey(key))
    ensures key in TopKeys && In(key, data) == Some(false)
  {
    FirstMissingPass(TopKeys, data, k => MissingKey(k));
    if FirstMissing(TopKeys, data, k => MissingKey(k)).Pass? {
      MissingKeyOnlyAtTop(data);
    } else {
      MissingKeyAt(TopKeys, data, key);
    }
  }

  /** Past the top-level keys, no check reports `MissingKey`. */
  lemma MissingKeyOnlyAtTop(data: Json)
    requires FirstMissing(TopKeys, data, k => MissingKey(k)).Pass?
    ensures !Validate(data).Fail? || !Validate(data).failure.MissingKey?
  {
    if data.Obj? {
      var s := Get(data.members, "sources");
      if s.Some? && s.value.Obj? {
        SourcesNeverMissingKey(s.value.members, 0);
      }
    }
  }

  /** The outcome of a check is not a missing top-level key. */
  predicate NotMissingKey(c: Check) {
    !c.Fail? || !c.failure.MissingKey?
  }

  lemma {:induction false} SourcesNeverMissingKey(entries: seq<(string, Json)>, i: nat)
    requires i <= |entries|
    ensures NotMissingKey(CheckSources(entries, i))
    decreases |entries| - i
  {
    if i < |entries| {
      SourcesNeverMissingKey(entries, i + 1);
      SourcesStepNotMissing(entries, i);
    }
  }

  lemma SourcesStepNotMissing(entries: seq<(string, Json)>, i: nat)
    requires i < |entries| && NotMissingKey(CheckSources(entries, i + 1))
    ensures NotMissingKey(CheckSources(entries, i))
  {
    SourceNeverMissingKey(entries[i].0, entries[i].1);
    CheckSourcesStep(entries, i);
  }

  /** One step of the loop over the sources: the first failing entry ends it. */
  lemma CheckSourcesStep(entries: seq<(string, Json)>, i: nat)
    requires i < |entries|
    ensures var c := CheckSource(entries[i].0, entries[i].1);
      CheckSources(entries, i) == if c.Fail? then c else CheckSources(entries, i + 1)
  {
  }

  lemma SourceNeverMissingKey(name: string, entry: Json)
    ensures NotMissingKey(CheckSource(name, entry))
  {
    if entry.Obj? && Get(entry.members, "reviews").Some? && Get(entry.members, "reviews").value.Arr? {
      ReviewsNeverMissingKey(name, Get(entry.members, "reviews").value.items, 0);
    }
  }

  lemma {:induction false} ReviewsNeverMissingKey(source: string, reviews: seq<Json>, i: nat)
    requires i <= |reviews|
    ensures NotMissingKey(CheckReviews(source, reviews, i))
    decreases |reviews| - i
  {
    if i < |reviews| {
      ReviewsNeverMissingKey(source, reviews, i + 1);
      FirstMissingPass(RequiredReviewKeys, reviews[i], k => ReviewMissingKey(source, i, k));
    }
  }

  lemma {:induction false} MissingKeyAt(keys: seq<string>, data: Json, key: string)
    requires FirstMissing(keys, data, k => MissingKey(k)) == Fail(MissingKey(key))
    ensures key in keys && In(key, data) == Some(false)
  {
    if In(keys[0], data) == Some(true) {
      MissingKeyAt(keys[1..], data, key);
    }
  }

  // ---------------------------------------------------------------------
  // The orchestrator's output

  /** An entry is well shaped exactly when its scraper returned: an error entry has no reviews. */
  lemma EntryShaped(o: Orchestrator.Outcome)
    ensures SourceShaped(Orchestrator.Entry(o)) <==> o.Returned?
  {
    Orchestrator.EntryShape(o);
    if o.Returned? {
      var m := Orchestrator.Entry(o).members;
      assert Keys(m) == ["total_reviews", "reviews"];
      var items := Orchestrator.Dicts(o.reviews);
      forall j | 0 <= j < |items|
        ensures ReviewShaped(items[j])
      {
        assert Keys(ToDict(o.reviews[j]).members) == ReviewKeys;
        assert forall k :: 0 <= k < |RequiredReviewKeys| ==> RequiredReviewKeys[k] == ReviewKeys[k];
      }
    }
  }

  /** Looking up the header keys of a dictionary written in the orchestrator's key order. */
  lemma HeaderGets(company: Json, start: Json, end: Json, sources: Json)
    ensures var m := [("company", company), ("start_date", start), ("end_date", end), ("sources", sources)];
      && Keys(m) == TopKeys
      && Get(m, "start_date") == Some(start) && Get(m, "end_date") == Some(end) && Get(m, "sources") == Some(sources)
  {
    var m := [("company", company), ("start_date", start), ("end_date", end), ("sources", sources)];
    assert "company"[0] != "start_date"[0] && "company"[0] != "end_date"[0] && "company"[0] != "sources"[0];
    assert "start_date"[0] != "end_date"[0] && "start_date"[1] != "sources"[1] && "end_date"[0] != "sources"[0];
    assert m[1..][1..][1..] == [("sources", sources)];
    assert m[1..][1..] == [("end_date", end), ("sources", sources)];
    assert Get(m, "end_date") == Get(m[1..], "end_date") == Get(m[1..][1..], "end_date");
    assert Get(m, "sources") == Get(m[1..], "sources") == Get(m[1..][1..], "sources") == Get(m[1..][1..][1..], "sources");
  }

  /** The header of the orchestrator's output: the four keys, both dates canonical. */
  lemma AssembleHeader(inputs: Orchestrator.Inputs, os: seq<Orchestrator.Outcome>)
    requires |os| == |Orchestrator.SourceKeys|
    ensures var m := Orchestrator.Assemble(inputs, os).members;
      && Keys(m) == TopKeys
      && Get(m, "start_date") == Some(Str(Iso(inputs.start)))
      && Get(m, "end_date") == Some(Str(Iso(inputs.end)))
      && Get(m, "sources") == Some(m[3].1)
  {
    HeaderGets(Str(inputs.company), Str(Iso(inputs.start)), Str(Iso(inputs.end)),
      Obj(Orchestrator.Entries(inputs.source, os, 0)));
  }

  /**
   * What `scrape_reviews` builds passes validation exactly when every
   * selected scraper returned: one error entry makes it fail.
   */
  lemma OutputValid(inputs: Orchestrator.Inputs, os: seq<Orchestrator.Outcome>)
    requires |os| == |Orchestrator.SourceKeys|
    ensures ValidateJsonStructure(Orchestrator.Assemble(inputs, os)) <==>
      forall k :: 0 <= k < |Orchestrator.SourceKeys| && Orchestrator.Selected(inputs.source, k) ==> os[k].Returned?
  {
    var es := Orchestrator.Entries(inputs.source, os, 0);
    ValidateIff(Orchestrator.Assemble(inputs, os));
    OutputHeader(inputs, os);
    ShapedMembers(es);
    EntriesShapedFrom(inputs.source, os, 0);
  }

  /** The header of the output always passes, so the output is well shaped exactly when its entries are. */
  lemma OutputHeader(inputs: Orchestrator.Inputs, os: seq<Orchestrator.Outcome>)
    requires |os| == |Orchestrator.SourceKeys|
    ensures var es := Orchestrator.Entries(inputs.source, os, 0);
      WellShaped(Orchestrator.Assemble(inputs, os)) <==> forall j :: 0 <= j < |es| ==> SourceShaped(es[j].1)
  {
    var data := Orchestrator.Assemble(inputs, os);
    AssembleHeader(inputs, os);
    IsoRoundTrip(inputs.start);
    IsoRoundTrip(inputs.end);
    assert data.members[3].1.members == Orchestrator.Entries(inputs.source, os, 0);
  }

  lemma ShapedMembers(es: seq<(string, Json)>)
    ensures (forall j :: 0 <= j < |es| ==> SourceShaped(es[j].1)) <==> (forall e :: e in es ==> SourceShaped(e.1))
  {
  }

  /** The entries from the k-th source on are well shaped exactly when each of those selected returned. */
  lemma {:induction false} EntriesShapedFrom(source: string, os: seq<Orchestrator.Outcome>, k: nat)
    requires |os| == |Orchestrator.SourceKeys| && k <= |Orchestrator.SourceKeys|
    ensures (forall e :: e in Orchestrator.Entries(source, os, k) ==> SourceShaped(e.1)) <==>
      forall i :: k <= i < |Orchestrator.SourceKeys| && Orchestrator.Selected(source, i) ==> os[i].Returned?
    decreases |Orchestrator.SourceKeys| - k
  {
    if k < |Orchestrator.SourceKeys| {
      EntriesShapedFrom(source, os, k + 1);
      EntryShaped(os[k]);
    }
  }

  /** An error entry stops validation at its missing reviews. */
  lemma ErrorEntryRejected(name: string, message: string)
    ensures CheckSource(name, Orchestrator.Entry(Orchestrator.Raised(message))) == Fail(MissingReviews(name))
  {
    Orchestrator.EntryShape(Orchestrator.Raised(message));
    GetFound(Orchestrator.Entry(Orchestrator.Raised(message)).members, "reviews");
  }

  // ---------------------------------------------------------------------
  // `count_reviews`

  /** `len(entry.get('reviews', []))`: None for the errors `.get` on a non-dictionary and `len` of a scalar raise. */
  function EntryCount(entry: Json): Option<nat> {
    if !entry.Obj? then None
    else match Get(entry.members, "reviews")
      case None => Some(0)
      case Some(Arr(items)) => Some(|items|)
      case Some(Str(s)) => Some(|s|)
      case Some(Obj(ms)) => Some(|ms|)
      case Some(_) => None
  }

  /** The `counts` dictionary and the running `total` after some entries. */
  datatype Tally = Tally(counts: map<string, int>, total: int)

  /** The loop over the entries; None once an entry raises. */
  function TallyOf(entries: seq<(string, Json)>): Option<Tally> {
    if entries == [] then Some(Tally(map[], 0))
    else
      var last := entries[|entries| - 1];
      match (TallyOf(entries[..|entries| - 1]), EntryCount(last.1))
      case (Some(t), Some(c)) => Some(Tally(t.counts[last.0 := c], t.total + c))
      case _ => None
  }

  /** `count_reviews` on the decoded file: the counts and 'total', or `{}` after any error. */
  function Counts(data: Json): map<string, int> {
    if !data.Obj? then map[]
    else match Get(data.members, "sources")
      case Some(Obj(entries)) =>
        (match TallyOf(entries)
         case Some(t) => t.counts["total" := t.total]
         case None => map[])
      case _ => map[]
  }

  lemma TallyOneMore(entries: seq<(string, Json)>, i: nat)
    requires i < |entries|
    ensures TallyOf(entries[..i + 1]) ==
      match (TallyOf(entries[..i]), EntryCount(entries[i].1))
      case (Some(t), Some(c)) => Some(Tally(t.counts[entries[i].0 := c], t.total + c))
      case _ => None
  {
    assert entries[..i + 1][..i] == entries[..i];
  }

  /** Once an entry raises, the whole loop does. */
  lemma {:induction false} TallyStaysNone(entries: seq<(string, Json)>, n: nat)
    requires n <= |entries| && TallyOf(entries[..n]).None?
    ensures TallyOf(entries).None?
    decreases |entries| - n
  {
    if n < |entries| {
      TallyOneMore(entries, n);
      TallyStaysNone(entries, n + 1);
    } else {
      assert entries[..n] == entries;
    }
  }

  /** `count_reviews`. */
  method CountReviews(data: Json) returns (counts: map<string, int>)
    ensures counts == Counts(data)
  {
    if !data.Obj? {
      return map[];
    }
    var sources := Get(data.members, "sources");
    if sources.None? || !sources.value.Obj? {
      return map[];
    }
    var entries := sources.value.members;
    counts := map[];
    var total := 0;
    for i := 0 to |entries|
      invariant TallyOf(entries[..i]) == Some(Tally(counts, total))
    {
      TallyOneMore(entries, i);
      var count := EntryCount(entries[i].1);
      if count.None? {
        TallyStaysNone(entries, i + 1);
        return map[];
      }
      counts := counts[entries[i].0 := count.value];
      total := total + count.value;
    }
    assert entries[..|entries|] == entries;
    counts := counts["total" := total];
  }

  /** The number of reviews over the entries, front to back; None when an entry raises. */
  function SumCounts(entries: seq<(string, Json)>): Option<int> {
    if entries == [] then Some(0)
    else
      var c := EntryCount(entries[0].1);
      var rest := SumCounts(entries[1..]);
      if c.Some? && rest.Some? then Some(c.value + rest.value) else None
  }

  lemma {:induction false} SumCountsSnoc(entries: seq<(string, Json)>)
    requires entries != []
    ensures SumCounts(entries) ==
      match (SumCounts(entries[..|entries| - 1]), EntryCount(entries[|entries| - 1].1))
      case (Some(a), Some(c)) => Some(a + c)
      case _ => None
  {
    if |entries| > 1 {
      var init := entries[..|entries| - 1];
      assert entries[1..][..|entries| - 2] == init[1..];
      assert init[0] == entries[0];
      SumCountsSnoc(entries[1..]);
    }
  }

  predicate DistinctNames(entries: seq<(string, Json)>) {
    forall i, j :: 0 <= i < j < |entries| ==> entries[i].0 != entries[j].0
  }

  /** The loop fails exactly when some entry raises; otherwise its total is the sum of the entries' counts. */
  lemma {:induction false} TallyTotal(entries: seq<(string, Json)>)
    ensures TallyOf(entries).Some? <==> SumCounts(entries).Some?
    ensures TallyOf(entries).Some? ==> TallyOf(entries).value.total == SumCounts(entries).value
  {
    if entries != [] {
      TallyTotal(entries[..|entries| - 1]);
      SumCountsSnoc(entries);
    }
  }

  /**
   * Names being distinct, each name maps to its entry's count and nothing
   * else is counted.
   */
  lemma {:induction false} TallyCounts(entries: seq<(string, Json)>)
    requires TallyOf(entries).Some? && DistinctNames(entries)
    ensures forall i :: 0 <= i < |entries| ==>
      entries[i].0 in TallyOf(entries).value.counts
      && Some(TallyOf(entries).value.counts[entries[i].0]) == EntryCount(entries[i].1)
    ensures forall name :: name in TallyOf(entries).value.counts ==>
      exists i :: 0 <= i < |entries| && entries[i].0 == name
  {
    if entries != [] {
      var init := entries[..|entries| - 1];
      var last := entries[|entries| - 1];
      assert DistinctNames(init);
      assert TallyOf(init).Some?;
      TallyCounts(init);
      var t := TallyOf(entries).value;
      forall i | 0 <= i < |entries|
        ensures entries[i].0 in t.counts && Some(t.counts[entries[i].0]) == EntryCount(entries[i].1)
      {
        if i < |entries| - 1 {
          assert entries[i] == init[i];
        }
      }
      forall name | name in t.counts
        ensures exists i :: 0 <= i < |entries| && entries[i].0 == name
      {
        if name != last.0 {
          var i :| 0 <= i < |init| && init[i].0 == name;
          assert entries[i] == init[i];
        }
      }
    }
  }

  /**
   * What `count_reviews` returns for a dictionary of sources: `{}` when an
   * entry raises; otherwise 'total' is the sum of the counts and, with
   * distinct names none of which is 'total', each source maps to its count.
   */
  lemma CountsFacts(data: Json)
    requires data.Obj? && Get(data.members, "sources").Some? && Get(data.members, "sources").value.Obj?
    ensures var entries := Get(data.members, "sources").value.members;
      && (SumCounts(entries).None? <==> Counts(data) == map[])
      && (SumCounts(entries).Some? ==> "total" in Counts(data) && Counts(data)["total"] == SumCounts(entries).value)
      && (SumCounts(entries).Some? && DistinctNames(entries) ==>
        forall i :: 0 <= i < |entries| && entries[i].0 != "total" ==>
          entries[i].0 in Counts(data) && Some(Counts(data)[entries[i].0]) == EntryCount(entries[i].1))
  {
    var entries := Get(data.members, "sources").value.members;
    TallyTotal(entries);
    if TallyOf(entries).Some? {
      assert "total" in Counts(data);
      if DistinctNames(entries) {
        TallyCounts(entries);
      }
    }
  }

  lemma {:induction false} EntriesSum(source: string, os: seq<Orchestrator.Outcome>, k: nat)
    requires |os| == |Orchestrator.SourceKeys| && k <= |Orchestrator.SourceKeys|
    ensures SumCounts(Orchestrator.Entries(source, os, k)) == Some(Orchestrator.ContributionsFrom(source, os, k))
    decreases |Orchestrator.SourceKeys| - k
  {
    if k < |Orchestrator.SourceKeys| {
      EntriesSum(source, os, k + 1);
      EntriesSumStep(source, os, k);
    }
  }

  lemma EntriesSumStep(source: string, os: seq<Orchestrator.Outcome>, k: nat)
    requires |os| == |Orchestrator.SourceKeys| && k < |Orchestrator.SourceKeys|
    requires SumCounts(Orchestrator.Entries(source, os, k + 1)) == Some(Orchestrator.ContributionsFrom(source, os, k + 1))
    ensures SumCounts(Orchestrator.Entries(source, os, k)) == Some(Orchestrator.ContributionsFrom(source, os, k))
  {
    Orchestrator.EntriesStep(source, os, k);
    if Orchestrator.Selected(source, k) {
      EntryCounted(os[k]);
      SumCountsCons((Orchestrator.SourceNames[k], Orchestrator.Entry(os[k])), Orchestrator.Entries(source, os, k + 1));
    } else {
      assert [] + Orchestrator.Entries(source, os, k + 1) == Orchestrator.Entries(source, os, k + 1);
    }
  }

  /** The sum over one entry more. */
  lemma SumCountsCons(e: (string, Json), rest: seq<(string, Json)>)
    requires EntryCount(e.1).Some? && SumCounts(rest).Some?
    ensures SumCounts([e] + rest) == Some(EntryCount(e.1).value + SumCounts(rest).value)
  {
    var es := [e] + rest;
    assert es != [] && es[0] == e && es[1..] == rest;
  }

  /** An entry counts the reviews its scraper returned, and none for an error. */
  lemma EntryCounted(o: Orchestrator.Outcome)
    ensures EntryCount(Orchestrator.Entry(o)) == Some(Orchestrator.Contribution(o))
  {
    Orchestrator.EntryShape(o);
  }

  /**
   * On the orchestrator's output, `count_reviews`' 'total' is the summary
   * total of `main`: an error entry has no reviews and counts 0 in both.
   */
  lemma CountsMatchSummary(inputs: Orchestrator.Inputs, os: seq<Orchestrator.Outcome>)
    requires |os| == |Orchestrator.SourceKeys|
    ensures "total" in Counts(Orchestrator.Assemble(inputs, os))
    ensures Some(Counts(Orchestrator.Assemble(inputs, os))["total"] as real)
      == Orchestrator.SummaryTotal(Orchestrator.Assemble(inputs, os).members[3].1.members)
  {
    var data := Orchestrator.Assemble(inputs, os);
    AssembleHeader(inputs, os);
    EntriesSum(inputs.source, os, 0);
    CountsFacts(data);
    Orchestrator.SummaryOfResults(inputs, os);
  }
}
