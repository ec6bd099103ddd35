/**
 * The `Review` record, the JSON values the program writes and reads back,
 * and `Review.to_dict`.
 */
module Reviews {
  import opened Wrappers
  import opened Strings

  /**
   * One review. `title`, `description` and `date` are always strings;
   * `rating`, `reviewerName`, `source` and `url` may be Python's None.
   */
  datatype Review = Review(
    title: string,
    description: string,
    date: string,
    rating: Option<real>,
    reviewerName: Option<string>,
    source: Option<string>,
    url: Option<string>)

  /**
   * A decoded JSON value. An object is the list of its members in the
   * order of the dictionary it was written from.
   */
  datatype Json =
    | Null
    | Bool(b: bool)
    | Num(n: real)
    | Str(s: string)
    | Arr(items: seq<Json>)
    | Obj(members: seq<(string, Json)>)

  function Keys(members: seq<(string, Json)>): (ks: seq<string>)
    ensures |ks| == |members|
    ensures forall i :: 0 <= i < |members| ==> ks[i] == members[i].0
  {
    if members == [] then [] else [members[0].0] + Keys(members[1..])
  }

  /** `d[key]` for a dictionary: the value of the first member with that key. */
  function Get(members: seq<(string, Json)>, key: string): Option<Json> {
    if members == [] then None
    else if members[0].0 == key then Some(members[0].1)
    else Get(members[1..], key)
  }

  /** A key is found exactly when it is one of the keys. */
  lemma {:induction false} GetFound(members: seq<(string, Json)>, key: string)
    ensures Get(members, key).Some? <==> key in Keys(members)
  {
    if members != [] {
      GetFound(members[1..], key);
      assert Keys(members) == [members[0].0] + Keys(members[1..]);
    }
  }

  /** The member at `i` is the one found when no earlier member has its key. */
  lemma {:induction false} GetAt(members: seq<(string, Json)>, i: nat)
    requires i < |members|
    requires forall j :: 0 <= j < i ==> members[j].0 != members[i].0
    ensures Get(members, members[i].0) == Some(members[i].1)
  {
    if i > 0 {
      assert members[1..][i - 1] == members[i];
      GetAt(members[1..], i - 1);
    }
  }

  function OptStr(o: Option<string>): Json {
    match o
    case None => Null
    case Some(s) => Str(s)
  }

  function OptNum(o: Option<real>): Json {
    match o
    case None => Null
    case Some(x) => Num(x)
  }

  const ReviewKeys: seq<string> := ["title", "description", "date", "rating", "reviewer_name", "source", "url"]

  /** `Review.to_dict`. */
  function ToDict(r: Review): (j: Json)
    ensures j.Obj? && Keys(j.members) == ReviewKeys
  {
    Obj([
      ("title", Str(r.title)),
      ("description", Str(r.description)),
      ("date", Str(r.date)),
      ("rating", OptNum(r.rating)),
      ("reviewer_name", OptStr(r.reviewerName)),
      ("source", OptStr(r.source)),
      ("url", OptStr(r.url))])
  }

  function StrOf(j: Option<Json>): Option<string> {
    if j.Some? && j.value.Str? then Some(j.value.s) else None
  }

  function OptStrOf(j: Option<Json>): Option<Option<string>> {
    match j
    case Some(Null) => Some(None)
    case Some(Str(s)) => Some(Some(s))
    case _ => None
  }

  function OptNumOf(j: Option<Json>): Option<Option<real>> {
    match j
    case Some(Null) => Some(None)
    case Some(Num(x)) => Some(Some(x))
    case _ => None
  }

  /** Reading a review back from the dictionary `to_dict` writes. */
  function FromDict(j: Json): Option<Review> {
    if !j.Obj? then None
    else
      var m := j.members;
      var title := StrOf(Get(m, "title"));
      var description := StrOf(Get(m, "description"));
      var date := StrOf(Get(m, "date"));
      var rating := OptNumOf(Get(m, "rating"));
      var reviewer := OptStrOf(Get(m, "reviewer_name"));
      var source := OptStrOf(Get(m, "source"));
      var url := OptStrOf(Get(m, "url"));
      if title.Some? && description.Some? && date.Some? && rating.Some?
        && reviewer.Some? && source.Some? && url.Some?
      then Some(Review(title.value, description.value, date.value, rating.value,
                       reviewer.value, source.value, url.value))
      else None
  }

  /** Looking up the i-th key of `to_dict` finds the i-th member. */
  lemma ToDictLookup(r: Review)
    ensures forall i :: 0 <= i < |ReviewKeys| ==> Get(ToDict(r).members, ReviewKeys[i]) == Some(ToDict(r).members[i].1)
  {
    var m := ToDict(r).members;
    DistinctKeys();
    forall i | 0 <= i < |ReviewKeys|
      ensures Get(m, ReviewKeys[i]) == Some(m[i].1)
    {
      assert m[i].0 == ReviewKeys[i];
      GetAt(m, i);
    }
  }

  /** Each key of `to_dict` holds the corresponding field. */
  lemma ToDictFields(r: Review)
    ensures Get(ToDict(r).members, "title") == Some(Str(r.title))
    ensures Get(ToDict(r).members, "description") == Some(Str(r.description))
    ensures Get(ToDict(r).members, "date") == Some(Str(r.date))
    ensures Get(ToDict(r).members, "rating") == Some(OptNum(r.rating))
    ensures Get(ToDict(r).members, "reviewer_name") == Some(OptStr(r.reviewerName))
    ensures Get(ToDict(r).members, "source") == Some(OptStr(r.source))
    ensures Get(ToDict(r).members, "url") == Some(OptStr(r.url))
  {
    ToDictLookup(r);
    assert ReviewKeys[0] == "title" && ReviewKeys[1] == "description" && ReviewKeys[2] == "date";
    assert ReviewKeys[3] == "rating" && ReviewKeys[4] == "reviewer_name";
    assert ReviewKeys[5] == "source" && ReviewKeys[6] == "url";
  }

  lemma DistinctKeys()
    ensures forall i, j :: 0 <= i < j < |ReviewKeys| ==> ReviewKeys[i] != ReviewKeys[j]
  {
    assert "rating"[0] != "source"[0];
  }

  /** Every field is stored under its own key and read back unchanged. */
  lemma ToDictRoundTrip(r: Review)
    ensures FromDict(ToDict(r)) == Some(r)
  {
    var m := ToDict(r).members;
    ToDictFields(r);
    assert StrOf(Get(m, "title")) == Some(r.title);
    assert StrOf(Get(m, "description")) == Some(r.description);
    assert StrOf(Get(m, "date")) == Some(r.date);
    assert OptNumOf(Get(m, "rating")) == Some(r.rating);
    assert OptStrOf(Get(m, "reviewer_name")) == Some(r.reviewerName);
    assert OptStrOf(Get(m, "source")) == Some(r.source);
    assert OptStrOf(Get(m, "url")) == Some(r.url);
  }

  /**
   * Python's `key in v`: the keys of a dictionary, the elements of a list,
   * a substring of a string; None for the TypeError any other value raises.
   * For a dictionary it agrees with the lookup `v[key]`; for a string it
   * holds exactly when `key` occurs at some position.
   */
  function In(key: string, v: Json): (r: Option<bool>)
    ensures v.Obj? ==> r == Some(key in Keys(v.members))
    ensures v.Arr? ==> r == Some(Str(key) in v.items)
    ensures v.Str? ==> r == Some(Contains(v.s, key))
    ensures r.None? <==> !(v.Obj? || v.Arr? || v.Str?)
    ensures v.Obj? ==> (r == Some(true) <==> Get(v.members, key).Some?)
    ensures v.Arr? ==> (r == Some(true) <==> exists i :: 0 <= i < |v.items| && v.items[i] == Str(key))
    ensures v.Str? ==> (r == Some(true) <==> exists i :: OccursAt(v.s, key, i))
  {
    match v
    case Obj(m) =>
      GetFound(m, key);
      Some(key in Keys(m))
    case Arr(items) => Some(Str(key) in items)
    case Str(s) =>
      ContainsIff(s, key);
      Some(Contains(s, key))
    case _ => None
  }
}
