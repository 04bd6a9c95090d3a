/** What the stores and the dashboard share: the investment labels and
    the four-band level function of data.js and script.js, the
    `{success, data | error}` reply shape, the lookups by id and name, and
    `searchCompanies`, whose filter is the same code in data.js and
    lib/database.js. */
module Records {
  import opened JsonValues
  import opened Sorting

  /** One reading of the clock: `new Date().toISOString()` and `Date.now()`. */
  datatype Instant = Instant(iso: string, millis: int)

  /** The four investment labels of the primary store and the dashboard,
      and the label for scores outside 0..100. */
  const Worth := "值得投资"
  const Caution := "谨慎投资"
  const HighRisk := "高风险"
  const NotAdvised := "不建议投资"
  const UnknownLevel := "未知"

  /** `getInvestmentLevel` of data.js and of the dashboard (the same code):
      four inclusive bands over 0..100, `未知` outside. */
  function InvestmentLevel(score: int): (level: string)
    ensures level == NotAdvised <==> 0 <= score <= 25
    ensures level == HighRisk <==> 26 <= score <= 50
    ensures level == Caution <==> 51 <= score <= 75
    ensures level == Worth <==> 76 <= score <= 100
    ensures level == UnknownLevel <==> score < 0 || score > 100
  {
    if 0 <= score <= 25 then NotAdvised
    else if 26 <= score <= 50 then HighRisk
    else if 51 <= score <= 75 then Caution
    else if 76 <= score <= 100 then Worth
    else UnknownLevel
  }

  /** `{success: true, data}` or `{success: false, error}`. */
  datatype Outcome<T> = Success(data: T) | Failure(error: string)

  /** `c.id` of a stored company. */
  function IdOf(c: Json): Json {
    Prop(c, "id")
  }

  /** `c.name` of a stored company. */
  function NameOf(c: Json): Json {
    Prop(c, "name")
  }

  /** `companies.findIndex(c => c.id === id)`; `None` is -1. */
  function FindIndex(cs: seq<Json>, id: Json): (k: Option<nat>)
    ensures k.None? <==> forall i :: 0 <= i < |cs| ==> IdOf(cs[i]) != id
    ensures k.Some? ==> k.value < |cs| && IdOf(cs[k.value]) == id
    ensures k.Some? ==> forall i :: 0 <= i < k.value ==> IdOf(cs[i]) != id
  {
    if cs == [] then None
    else if IdOf(cs[0]) == id then Some(0)
    else match FindIndex(cs[1..], id)
      case None => None
      case Some(k) => Some(k + 1)
  }

  /** `c.toLowerCase().includes(term)` on a property value; `None` is the
      TypeError raised when the value is not a string. */
  function LowerIncludes(v: Json, term: string, lower: string -> string): (r: Option<bool>)
    ensures r.None? <==> !v.Str?
  {
    if v.Str? then Some(Includes(lower(v.s), term)) else None
  }

  /** The filter callback of `searchCompanies`: name, business and level are
      tried in that order and the first hit ends the test, so a field after
      a hit is never read; `None` is a TypeError (a field read that is not a
      string, or a company that is `null` or `undefined`). */
  function SearchTest(c: Json, term: string, lower: string -> string): Option<bool>
  {
    if Nullish(c) then None
    else match LowerIncludes(Prop(c, "name"), term, lower)
      case None => None
      case Some(true) => Some(true)
      case Some(false) =>
        match LowerIncludes(Prop(c, "business"), term, lower)
        case None => None
        case Some(true) => Some(true)
        case Some(false) => LowerIncludes(Prop(c, "investmentLevel"), term, lower)
  }

  /** The search hit, stated independently of evaluation order: one of the
      three fields is a string whose lower-cased form contains the term. */
  predicate Hit(c: Json, term: string, lower: string -> string) {
    || (Prop(c, "name").Str? && Includes(lower(Prop(c, "name").s), term))
    || (Prop(c, "business").Str? && Includes(lower(Prop(c, "business").s), term))
    || (Prop(c, "investmentLevel").Str? && Includes(lower(Prop(c, "investmentLevel").s), term))
  }

  /** When the test does not raise, it answers exactly `Hit`. */
  lemma SearchTestIsHit(c: Json, term: string, lower: string -> string)
    requires SearchTest(c, term, lower).Some?
    ensures SearchTest(c, term, lower).value == Hit(c, term, lower)
  {
  }

  /** A test that raises for no company. */
  predicate SearchTotal(cs: seq<Json>, term: string, lower: string -> string) {
    forall i :: 0 <= i < |cs| ==> SearchTest(cs[i], term, lower).Some?
  }

  /** `companies.filter(...)` with `term = query.toLowerCase()`: every
      company the filter keeps, in the original order, or the TypeError. */
  function Search(cs: seq<Json>, query: string, lower: string -> string): (r: Outcome<seq<Json>>)
    ensures r.Success? <==> SearchTotal(cs, lower(query), lower)
    ensures r.Success? ==> forall i :: 0 <= i < |r.data| ==>
      r.data[i] in cs && Hit(r.data[i], lower(query), lower)
    ensures r.Success? ==> forall i :: 0 <= i < |cs| && Hit(cs[i], lower(query), lower) ==>
      cs[i] in r.data
    ensures r.Failure? ==> r.error == TypeErrorMessage
  {
    var term := lower(query);
    if SearchTotal(cs, term, lower) then
      var keep := (c: Json) => SearchTest(c, term, lower) == Some(true);
      var kept := Filter(cs, keep);
      FilterMembers(cs, keep);
      forall i | 0 <= i < |kept|
        ensures Hit(kept[i], term, lower)
      {
        var k :| 0 <= k < |cs| && cs[k] == kept[i];
        SearchTestIsHit(cs[k], term, lower);
      }
      forall i | 0 <= i < |cs| && Hit(cs[i], term, lower)
        ensures cs[i] in kept
      {
        SearchTestIsHit(cs[i], term, lower);
      }
      Success(kept)
    else
      Failure(TypeErrorMessage)
  }

  /** Searching is order-preserving: the hits of a concatenation are the hits
      of each part, in order. */
  lemma SearchConcat(a: seq<Json>, b: seq<Json>, query: string, lower: string -> string)
    requires Search(a, query, lower).Success? && Search(b, query, lower).Success?
    ensures Search(a + b, query, lower).Success?
    ensures Search(a + b, query, lower).data == Search(a, query, lower).data + Search(b, query, lower).data
  {
    var term := lower(query);
    var p := c => SearchTest(c, term, lower) == Some(true);
    assert SearchTotal(a + b, term, lower) by {
      forall i | 0 <= i < |a + b|
        ensures SearchTest((a + b)[i], term, lower).Some?
      {
        if i >= |a| {
          assert (a + b)[i] == b[i - |a|];
        }
      }
    }
    FilterConcat(a, b, p);
  }

  /** `options.merge` of an import, with the default `{merge: false}`
      standing in for a missing argument; `null` options raise before this
      is read. */
  predicate MergeMode(options: Json) {
    !options.Undefined? && Truthy(Prop(options, "merge"))
  }
}
