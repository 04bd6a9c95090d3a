/** The pure helpers of the browser dashboard's `CompanyManager`
    (script.js): the label and CSS class of a score, the filtered and sorted
    view of the list, the legacy score fallback, the revenue normaliser, the
    HTML escaper and the risk bands of the detail view. The companies are
    the objects the API returned, so each one is a record. */
module Dashboard {
  import opened JsonValues
  import opened Sorting
  import opened Records

  // ---------------------------------------------------------------------
  // Labels and classes

  /** `getInvestmentLevel(score)`: `score >= 0` converts the score to a
      number, and NaN (a missing score, say) falls through every band. */
  function LevelOf(score: Json): (level: string)
    ensures ToNumber(score).None? ==> level == UnknownLevel
    ensures ToNumber(score).Some? ==> level == InvestmentLevel(ToNumber(score).value)
  {
    match ToNumber(score)
    case None => UnknownLevel
    case Some(n) => InvestmentLevel(n)
  }

  /** On 0..100 the four bands leave no gap: every score there gets one of
      the four labels. */
  lemma BandsCoverScale(n: int)
    requires 0 <= n <= 100
    ensures InvestmentLevel(n) in {Worth, Caution, HighRisk, NotAdvised}
  {
  }

  /** `getInvestmentClass(investment)`: a `switch` with `===` cases. */
  function InvestmentClass(investment: Json): (cls: string)
    ensures cls == "worth" <==> investment == Str(Worth)
    ensures cls == "caution" <==> investment == Str(Caution)
    ensures cls == "not-recommended" <==> investment == Str(NotAdvised)
    ensures cls == "high-risk" <==> investment == Str(HighRisk)
    ensures cls == "" <==> investment !in {Str(Worth), Str(Caution), Str(NotAdvised), Str(HighRisk)}
  {
    if investment == Str(Worth) then "worth"
    else if investment == Str(Caution) then "caution"
    else if investment == Str(NotAdvised) then "not-recommended"
    else if investment == Str(HighRisk) then "high-risk"
    else ""
  }

  /** Every score on the scale is shown with a class, and different labels
      are shown with different classes. */
  lemma ClassOfBand(n: int, m: int)
    requires 0 <= n <= 100 && 0 <= m <= 100
    ensures InvestmentClass(Str(InvestmentLevel(n))) != ""
    ensures InvestmentLevel(n) != InvestmentLevel(m) ==>
      InvestmentClass(Str(InvestmentLevel(n))) != InvestmentClass(Str(InvestmentLevel(m)))
  {
    BandsCoverScale(n);
    BandsCoverScale(m);
  }

  // ---------------------------------------------------------------------
  // Legacy scores

  /** `getProspectScore(company)`: the stored score when there is one,
      otherwise a score for the legacy `investment` label. */
  function ProspectScore(c: Record): (score: Json)
    ensures Field(c, "investmentScore") != Undefined ==> score == Field(c, "investmentScore")
    ensures Field(c, "investmentScore") == Undefined ==> score in {Num(85), Num(60), Num(30), Num(50)}
  {
    if Field(c, "investmentScore") != Undefined then Field(c, "investmentScore")
    else
      var legacy := Field(c, "investment");
      if legacy == Str(Worth) then Num(85)
      else if legacy == Str(Caution) then Num(60)
      else if legacy == Str(NotAdvised) then Num(30)
      else Num(50)
  }

  /** Where the legacy scores land on the level scale: the two upper labels
      come back as themselves, while `不建议投资` (30) and every other
      label (50) come back as `高风险`. */
  lemma LegacyScoreLevels(c: Record)
    requires Field(c, "investmentScore") == Undefined
    ensures Field(c, "investment") == Str(Worth) ==> LevelOf(ProspectScore(c)) == Worth
    ensures Field(c, "investment") == Str(Caution) ==> LevelOf(ProspectScore(c)) == Caution
    ensures Field(c, "investment") != Str(Worth) && Field(c, "investment") != Str(Caution) ==>
      LevelOf(ProspectScore(c)) == HighRisk
  {
  }

  // ---------------------------------------------------------------------
  // The filtered and sorted view

  /** The dashboard's filter, search and sort state; the UI only ever
      stores strings there. */
  datatype ViewState = ViewState(filterLevel: string, sortOrder: string, searchTerm: string, categoryFilter: string)

  /** `c.investmentLevel || c.investment` */
  function LevelValue(c: Record): Json {
    Or(Field(c, "investmentLevel"), Field(c, "investment"))
  }

  /** `x || ''` must be a string for `toLowerCase` to be called on it. */
  predicate Textual(c: Record) {
    && Or(LevelValue(c), Str("")).Str?
    && Or(Field(c, "name"), Str("")).Str?
    && Or(Field(c, "business"), Str("")).Str?
  }

  /** The filter callback of `getProcessedCompanies`; `None` is the
      TypeError of calling `toLowerCase` on a value that is not a string. */
  function ViewTest(c: Record, v: ViewState, lower: string -> string): Option<bool> {
    var term := lower(v.searchTerm);
    var levelV := Or(LevelValue(c), Str(""));
    var nameV := Or(Field(c, "name"), Str(""));
    var businessV := Or(Field(c, "business"), Str(""));
    if !levelV.Str? || !nameV.Str? || !businessV.Str? then None
    else
      var level := lower(levelV.s);
      var name := lower(nameV.s);
      var business := lower(businessV.s);
      var matchLevel := v.filterLevel == "all" || LevelValue(c) == Str(v.filterLevel);
      var matchSearch := term == "" || Includes(name, term) || Includes(business, term) || Includes(level, term);
      var matchCategory := v.categoryFilter == "" || Includes(business, v.categoryFilter);
      Some(matchLevel && matchSearch && matchCategory)
  }

  /** The three conditions a shown company meets, stated on their own. */
  predicate ViewMatch(c: Record, v: ViewState, lower: string -> string)
    requires Textual(c)
  {
    && (v.filterLevel == "all" || LevelValue(c) == Str(v.filterLevel))
    && (lower(v.searchTerm) == ""
        || Includes(lower(Or(Field(c, "name"), Str("")).s), lower(v.searchTerm))
        || Includes(lower(Or(Field(c, "business"), Str("")).s), lower(v.searchTerm))
        || Includes(lower(Or(LevelValue(c), Str("")).s), lower(v.searchTerm)))
    && (v.categoryFilter == "" || Includes(lower(Or(Field(c, "business"), Str("")).s), v.categoryFilter))
  }

  lemma ViewTestIsMatch(c: Record, v: ViewState, lower: string -> string)
    ensures ViewTest(c, v, lower).Some? <==> Textual(c)
    ensures Textual(c) ==> ViewTest(c, v, lower) == Some(ViewMatch(c, v, lower))
  {
  }

  function Shown(v: ViewState, lower: string -> string): Record -> bool {
    c => ViewTest(c, v, lower) == Some(true)
  }

  /** The comparator's key: `investmentScore` when it is a number,
      otherwise `getProspectScore`, converted by the subtraction; a key that
      is NaN is taken as 0. */
  function SortScore(c: Record): int {
    if Field(c, "investmentScore").Num? then Field(c, "investmentScore").n
    else match ToNumber(ProspectScore(c))
      case None => 0
      case Some(n) => n
  }

  /** `getProcessedCompanies()`: filter, then a stable sort by score,
      ascending for 'asc' and descending otherwise. */
  function Processed(cs: seq<Record>, v: ViewState, lower: string -> string): Outcome<seq<Record>> {
    if exists i :: 0 <= i < |cs| && !Textual(cs[i]) then Failure(TypeErrorMessage)
    else
      var kept := Filter(cs, Shown(v, lower));
      Success(if v.sortOrder == "asc" then SortBy(kept, SortScore) else SortByDescending(kept, SortScore))
  }

  /** The view shows exactly the companies meeting the three conditions,
      each as often as it is listed, ordered by score in the chosen
      direction; it fails only on a company with a non-string name,
      business or level. */
  lemma ProcessedView(cs: seq<Record>, v: ViewState, lower: string -> string)
    ensures Processed(cs, v, lower).Success? <==> forall i :: 0 <= i < |cs| ==> Textual(cs[i])
    ensures Processed(cs, v, lower).Success? ==>
      forall c :: c in Processed(cs, v, lower).data <==> c in cs && ViewMatch(c, v, lower)
    ensures Processed(cs, v, lower).Success? ==>
      multiset(Processed(cs, v, lower).data) == multiset(Filter(cs, Shown(v, lower)))
    ensures Processed(cs, v, lower).Success? && v.sortOrder == "asc" ==>
      SortedBy(Processed(cs, v, lower).data, SortScore)
    ensures Processed(cs, v, lower).Success? && v.sortOrder != "asc" ==>
      forall i, j :: 0 <= i < j < |Processed(cs, v, lower).data| ==>
        SortScore(Processed(cs, v, lower).data[i]) >= SortScore(Processed(cs, v, lower).data[j])
  {
    if Processed(cs, v, lower).Success? {
      var kept := Filter(cs, Shown(v, lower));
      FilterMembers(cs, Shown(v, lower));
      var r := Processed(cs, v, lower).data;
      assert multiset(r) == multiset(kept);
      forall c
        ensures c in r <==> c in cs && ViewMatch(c, v, lower)
      {
        if c in cs {
          var i :| 0 <= i < |cs| && cs[i] == c;
          ViewTestIsMatch(c, v, lower);
        }
        assert c in r <==> c in multiset(kept);
      }
    }
  }

  // ---------------------------------------------------------------------
  // Revenue

  /** `{year, value}` before the NaN filter; `None` is NaN. */
  datatype Item = Item(year: string, value: Option<int>)

  /** A point of the revenue chart. */
  datatype Point = Point(year: string, value: int)

  /** `company.revenue || company.annualRevenue || null` */
  function RevenueSource(c: Record): Json {
    Or(Or(Field(c, "revenue"), Field(c, "annualRevenue")), Null)
  }

  /** `typeof v === 'object'` */
  predicate TypeofObject(v: Json) {
    v.Obj? || v.Arr? || v.Null?
  }

  /** An `{year, value}` entry of an array of objects is kept when it is
      truthy and has both properties. */
  predicate Complete(it: Json) {
    Truthy(it) && Prop(it, "year") != Undefined && Prop(it, "value") != Undefined
  }

  /** The pushes for an array of `{year, value}` objects. */
  function EntryItems(xs: seq<Json>): seq<Item>
    decreases |xs|
  {
    if xs == [] then []
    else
      var it := xs[|xs| - 1];
      EntryItems(xs[..|xs| - 1])
        + (if Complete(it) then [Item(JsString(Prop(it, "year")), ToNumber(Prop(it, "value")))] else [])
  }

  /** The pushes for an array of plain values: the year of index `i` is
      `String(i + 1)`. */
  function ScalarItems(xs: seq<Json>): seq<Item>
    decreases |xs|
  {
    if xs == [] then []
    else ScalarItems(xs[..|xs| - 1]) + [Item(IntToString(|xs|), ToNumber(xs[|xs| - 1]))]
  }

  /** The pushes for an object map, its keys taken in `order`. */
  function KeyItems(src: Record, order: seq<string>): seq<Item>
    decreases |order|
  {
    if order == [] then []
    else
      var y := order[|order| - 1];
      KeyItems(src, order[..|order| - 1]) + [Item(y, ToNumber(Field(src, y)))]
  }

  /** `parseInt(year) || 0` */
  function YearNumber(year: string): int {
    match ParseInt(year)
    case None => 0
    case Some(n) => n
  }

  /** The sort key of an item. */
  function YearKey(it: Item): int {
    YearNumber(it.year)
  }

  /** The same key on a point of the chart. */
  function PointYear(p: Point): int {
    YearNumber(p.year)
  }

  /** `items.filter(it => !isNaN(it.value))` */
  function Numeric(items: seq<Item>): seq<Point>
    decreases |items|
  {
    if items == [] then []
    else
      var it := items[|items| - 1];
      Numeric(items[..|items| - 1]) + (if it.value.Some? then [Point(it.year, it.value.value)] else [])
  }

  /** The items pushed before the NaN filter; `order` stands for
      `Object.keys(src)` when the source is an object map. */
  function RawItems(c: Record, order: seq<string>): seq<Item> {
    var src := RevenueSource(c);
    if !Truthy(src) then []
    else if src.Arr? then
      if |src.items| > 0 && TypeofObject(src.items[0]) then EntryItems(src.items) else ScalarItems(src.items)
    else if src.Obj? then SortBy(KeyItems(src.fields, order), YearKey)
    else []
  }

  /** `normalizeRevenue(company)` */
  function NormalizedRevenue(c: Record, order: seq<string>): seq<Point> {
    Numeric(RawItems(c, order))
  }

  /** `normalizeRevenue(company)` as the code runs it: the `forEach` loops
      push into `items`, an object map's items are sorted by year, and the
      final `filter` drops the NaN values. `order` stands for
      `Object.keys(src)`. */
  method NormalizeRevenue(c: Record, order: seq<string>) returns (points: seq<Point>)
    ensures points == NormalizedRevenue(c, order)
  {
    var src := RevenueSource(c);
    var items: seq<Item> := [];
    if !Truthy(src) {
      return [];
    }
    if src.Arr? {
      if |src.items| > 0 && TypeofObject(src.items[0]) {
        items := PushEntries(src.items);
      } else {
        items := PushScalars(src.items);
      }
    } else if src.Obj? {
      items := PushKeys(src.fields, order);
      items := SortBy(items, YearKey);
    }
    points := DropNaN(items);
  }

  /** The `forEach` over an array of `{year, value}` objects. */
  method PushEntries(xs: seq<Json>) returns (items: seq<Item>)
    ensures items == EntryItems(xs)
  {
    items := [];
    var i := 0;
    while i < |xs|
      invariant 0 <= i <= |xs|
      invariant items == EntryItems(xs[..i])
    {
      assert xs[..i + 1][..i] == xs[..i];
      var it := xs[i];
      if Complete(it) {
        items := items + [Item(JsString(Prop(it, "year")), ToNumber(Prop(it, "value")))];
      }
      i := i + 1;
    }
    assert xs[..|xs|] == xs;
  }

  /** The `forEach((v, idx) => ...)` over an array of plain values. */
  method PushScalars(xs: seq<Json>) returns (items: seq<Item>)
    ensures items == ScalarItems(xs)
  {
    items := [];
    var i := 0;
    while i < |xs|
      invariant 0 <= i <= |xs|
      invariant items == ScalarItems(xs[..i])
    {
      assert xs[..i + 1][..i] == xs[..i];
      items := items + [Item(IntToString(i + 1), ToNumber(xs[i]))];
      i := i + 1;
    }
    assert xs[..|xs|] == xs;
  }

  /** The `forEach` over the keys of an object map. */
  method PushKeys(src: Record, order: seq<string>) returns (items: seq<Item>)
    ensures items == KeyItems(src, order)
  {
    items := [];
    var i := 0;
    while i < |order|
      invariant 0 <= i <= |order|
      invariant items == KeyItems(src, order[..i])
    {
      assert order[..i + 1][..i] == order[..i];
      items := items + [Item(order[i], ToNumber(Field(src, order[i])))];
      i := i + 1;
    }
    assert order[..|order|] == order;
  }

  /** `items.filter(it => !isNaN(it.value))` */
  method DropNaN(items: seq<Item>) returns (points: seq<Point>)
    ensures points == Numeric(items)
  {
    points := [];
    var j := 0;
    while j < |items|
      invariant 0 <= j <= |items|
      invariant points == Numeric(items[..j])
    {
      assert items[..j + 1][..j] == items[..j];
      if items[j].value.Some? {
        points := points + [Point(items[j].year, items[j].value.value)];
      }
      j := j + 1;
    }
    assert items[..|items|] == items;
  }

  /** `order` lists the keys of `src`, each once. */
  ghost predicate KeyOrder(order: seq<string>, src: Record) {
    && (forall k :: k in src <==> k in order)
    && (forall i, j :: 0 <= i < j < |order| ==> order[i] != order[j])
  }

  /** The NaN filter keeps exactly the items with a number, in order. */
  lemma {:induction false} NumericKeeps(items: seq<Item>)
    ensures |Numeric(items)| <= |items|
    ensures forall p :: p in Numeric(items) <==> Item(p.year, Some(p.value)) in items
    decreases |items|
  {
    if items != [] {
      var init := items[..|items| - 1];
      NumericKeeps(init);
      assert items == init + [items[|items| - 1]];
    }
  }

  /** When every item has a number, the filter drops nothing. */
  lemma {:induction false} NumericAll(items: seq<Item>)
    requires forall i :: 0 <= i < |items| ==> items[i].value.Some?
    ensures |Numeric(items)| == |items|
    ensures forall i :: 0 <= i < |items| ==> Numeric(items)[i] == Point(items[i].year, items[i].value.value)
    decreases |items|
  {
    if items != [] {
      NumericAll(items[..|items| - 1]);
    }
  }

  /** A bound on the years of the items bounds the years of the points. */
  lemma {:induction false} NumericBounded(items: seq<Item>, bound: int)
    requires forall i :: 0 <= i < |items| ==> YearKey(items[i]) <= bound
    ensures forall i :: 0 <= i < |Numeric(items)| ==> PointYear(Numeric(items)[i]) <= bound
    decreases |items|
  {
    if items != [] {
      var init := items[..|items| - 1];
      var last := items[|items| - 1];
      assert forall i :: 0 <= i < |init| ==> init[i] == items[i];
      NumericBounded(init, bound);
      if last.value.Some? {
        assert Numeric(items) == Numeric(init) + [Point(last.year, last.value.value)];
      } else {
        assert Numeric(items) == Numeric(init);
      }
    }
  }

  lemma SortedAppend(ps: seq<Point>, p: Point)
    requires SortedBy(ps, PointYear)
    requires forall i :: 0 <= i < |ps| ==> PointYear(ps[i]) <= PointYear(p)
    ensures SortedBy(ps + [p], PointYear)
  {
    var r := ps + [p];
    forall i, j | 0 <= i < j < |r|
      ensures PointYear(r[i]) <= PointYear(r[j])
    {
      assert r[i] == ps[i];
      if j < |ps| {
        assert r[j] == ps[j];
      }
    }
  }

  /** The filter keeps the order of its input. */
  lemma {:induction false} NumericSorted(items: seq<Item>)
    requires SortedBy(items, YearKey)
    ensures SortedBy(Numeric(items), PointYear)
    decreases |items|
  {
    if items != [] {
      var init := items[..|items| - 1];
      var last := items[|items| - 1];
      assert forall i :: 0 <= i < |init| ==> init[i] == items[i];
      assert SortedBy(init, YearKey);
      NumericSorted(init);
      NumericBounded(init, YearKey(last));
      if last.value.Some? {
        assert Numeric(items) == Numeric(init) + [Point(last.year, last.value.value)];
        SortedAppend(Numeric(init), Point(last.year, last.value.value));
      } else {
        assert Numeric(items) == Numeric(init);
      }
    }
  }

  lemma {:induction false} ScalarItemsYears(xs: seq<Json>)
    ensures |ScalarItems(xs)| == |xs|
    ensures forall i :: 0 <= i < |xs| ==> ScalarItems(xs)[i] == Item(IntToString(i + 1), ToNumber(xs[i]))
    decreases |xs|
  {
    if xs != [] {
      var init := xs[..|xs| - 1];
      ScalarItemsYears(init);
      assert ScalarItems(xs) == ScalarItems(init) + [Item(IntToString(|xs|), ToNumber(xs[|xs| - 1]))];
      forall i | 0 <= i < |init|
        ensures ScalarItems(xs)[i] == Item(IntToString(i + 1), ToNumber(xs[i]))
      {
        assert ScalarItems(xs)[i] == ScalarItems(init)[i];
        assert init[i] == xs[i];
      }
      var last := |xs| - 1;
      assert ScalarItems(xs)[last] == Item(IntToString(last + 1), ToNumber(xs[last]));
    }
  }

  lemma {:induction false} EntryItemsFrom(xs: seq<Json>)
    ensures forall it :: it in EntryItems(xs) ==>
      exists i :: 0 <= i < |xs| && Complete(xs[i]) && it == Item(JsString(Prop(xs[i], "year")), ToNumber(Prop(xs[i], "value")))
    ensures forall i :: 0 <= i < |xs| && Complete(xs[i]) ==>
      Item(JsString(Prop(xs[i], "year")), ToNumber(Prop(xs[i], "value"))) in EntryItems(xs)
    decreases |xs|
  {
    if xs != [] {
      var init := xs[..|xs| - 1];
      EntryItemsFrom(init);
      assert forall i :: 0 <= i < |init| ==> init[i] == xs[i];
    }
  }

  lemma {:induction false} KeyItemsOf(src: Record, order: seq<string>)
    ensures |KeyItems(src, order)| == |order|
    ensures forall i :: 0 <= i < |order| ==> KeyItems(src, order)[i] == Item(order[i], ToNumber(Field(src, order[i])))
    decreases |order|
  {
    if order != [] {
      KeyItemsOf(src, order[..|order| - 1]);
    }
  }

  /** With no revenue source the chart is empty. */
  lemma NoSourceNoPoints(c: Record, order: seq<string>)
    requires !Truthy(RevenueSource(c))
    ensures NormalizedRevenue(c, order) == []
  {
  }

  /** An array of plain values: the points are the numeric values, each
      labelled with its 1-based position, and when all are numbers, the
      `i`-th point is the `i`-th value labelled `String(i + 1)`. */
  lemma ScalarRevenue(c: Record, order: seq<string>)
    requires RevenueSource(c).Arr? && RevenueSource(c).items != []
    requires !TypeofObject(RevenueSource(c).items[0])
    ensures forall p :: p in NormalizedRevenue(c, order) <==>
      exists i :: 0 <= i < |RevenueSource(c).items| &&
        p.year == IntToString(i + 1) && ToNumber(RevenueSource(c).items[i]) == Some(p.value)
    ensures (forall i :: 0 <= i < |RevenueSource(c).items| ==> ToNumber(RevenueSource(c).items[i]).Some?) ==>
      |NormalizedRevenue(c, order)| == |RevenueSource(c).items| &&
      forall i :: 0 <= i < |RevenueSource(c).items| ==>
        NormalizedRevenue(c, order)[i] == Point(IntToString(i + 1), ToNumber(RevenueSource(c).items[i]).value)
  {
    var xs := RevenueSource(c).items;
    assert NormalizedRevenue(c, order) == Numeric(ScalarItems(xs));
    ScalarPoints(xs);
    if forall i :: 0 <= i < |xs| ==> ToNumber(xs[i]).Some? {
      ScalarPointsAll(xs);
    }
  }

  /** The points of an array of plain values are its numeric values, each
      labelled with its 1-based position. */
  lemma ScalarPoints(xs: seq<Json>)
    ensures forall p :: p in Numeric(ScalarItems(xs)) <==>
      exists i :: 0 <= i < |xs| && p.year == IntToString(i + 1) && ToNumber(xs[i]) == Some(p.value)
  {
    forall p | p in Numeric(ScalarItems(xs))
      ensures exists i :: 0 <= i < |xs| && p.year == IntToString(i + 1) && ToNumber(xs[i]) == Some(p.value)
    {
      ScalarPointFrom(xs, p);
    }
    forall i | 0 <= i < |xs| && ToNumber(xs[i]).Some?
      ensures Point(IntToString(i + 1), ToNumber(xs[i]).value) in Numeric(ScalarItems(xs))
    {
      ScalarPointTo(xs, i);
    }
  }

  /** With every value numeric, the `i`-th point is the `i`-th value. */
  lemma ScalarPointsAll(xs: seq<Json>)
    requires forall i :: 0 <= i < |xs| ==> ToNumber(xs[i]).Some?
    ensures |Numeric(ScalarItems(xs))| == |xs|
    ensures forall i :: 0 <= i < |xs| ==> Numeric(ScalarItems(xs))[i] == Point(IntToString(i + 1), ToNumber(xs[i]).value)
  {
    ScalarItemsYears(xs);
    NumericAll(ScalarItems(xs));
  }

  /** Each numeric value of an array of plain values gives a point. */
  lemma ScalarPointTo(xs: seq<Json>, i: nat)
    requires i < |xs| && ToNumber(xs[i]).Some?
    ensures Point(IntToString(i + 1), ToNumber(xs[i]).value) in Numeric(ScalarItems(xs))
  {
    var items := ScalarItems(xs);
    ScalarItemsYears(xs);
    NumericKeeps(items);
    assert items[i] == Item(IntToString(i + 1), ToNumber(xs[i]));
  }

  /** Each point of an array of plain values comes from one of its
      positions. */
  lemma ScalarPointFrom(xs: seq<Json>, p: Point)
    requires p in Numeric(ScalarItems(xs))
    ensures exists i :: 0 <= i < |xs| && p.year == IntToString(i + 1) && ToNumber(xs[i]) == Some(p.value)
  {
    var items := ScalarItems(xs);
    ScalarItemsYears(xs);
    NumericKeeps(items);
    var k := Position(items, Item(p.year, Some(p.value)));
    assert items[k] == Item(IntToString(k + 1), ToNumber(xs[k]));
  }

  /** An array of objects: a point comes from a complete entry with a
      numeric value, and every such entry gives its point. */
  lemma EntryRevenue(c: Record, order: seq<string>)
    requires RevenueSource(c).Arr? && RevenueSource(c).items != []
    requires TypeofObject(RevenueSource(c).items[0])
    ensures forall p :: p in NormalizedRevenue(c, order) <==>
      exists i :: 0 <= i < |RevenueSource(c).items| && Complete(RevenueSource(c).items[i]) &&
        p.year == JsString(Prop(RevenueSource(c).items[i], "year")) &&
        ToNumber(Prop(RevenueSource(c).items[i], "value")) == Some(p.value)
  {
    var xs := RevenueSource(c).items;
    EntryItemsFrom(xs);
    NumericKeeps(EntryItems(xs));
  }

  /** An object map: the points are its numeric entries, sorted by year. */
  lemma MapRevenue(c: Record, order: seq<string>)
    requires RevenueSource(c).Obj?
    requires KeyOrder(order, RevenueSource(c).fields)
    ensures forall p :: p in NormalizedRevenue(c, order) <==>
      p.year in RevenueSource(c).fields && ToNumber(RevenueSource(c).fields[p.year]) == Some(p.value)
    ensures SortedBy(NormalizedRevenue(c, order), PointYear)
  {
    var src := RevenueSource(c).fields;
    var sorted := SortBy(KeyItems(src, order), YearKey);
    assert NormalizedRevenue(c, order) == Numeric(sorted);
    forall p | p in Numeric(sorted)
      ensures p.year in src && ToNumber(src[p.year]) == Some(p.value)
    {
      MapPointFrom(src, order, p);
    }
    forall p: Point | p.year in src && ToNumber(src[p.year]) == Some(p.value)
      ensures p in Numeric(sorted)
    {
      MapPointTo(src, order, p);
    }
    NumericSorted(sorted);
  }

  /** Each point of an object map comes from one of its numeric entries. */
  lemma MapPointFrom(src: Record, order: seq<string>, p: Point)
    requires KeyOrder(order, src)
    requires p in Numeric(SortBy(KeyItems(src, order), YearKey))
    ensures p.year in src && ToNumber(src[p.year]) == Some(p.value)
  {
    var raw := KeyItems(src, order);
    var it := Item(p.year, Some(p.value));
    NumericKeeps(SortBy(raw, YearKey));
    assert it in multiset(raw);
    var k := Position(raw, it);
    KeyItemsOf(src, order);
    assert order[k] == p.year;
  }

  /** Each numeric entry of an object map gives a point. */
  lemma MapPointTo(src: Record, order: seq<string>, p: Point)
    requires KeyOrder(order, src)
    requires p.year in src && ToNumber(src[p.year]) == Some(p.value)
    ensures p in Numeric(SortBy(KeyItems(src, order), YearKey))
  {
    var raw := KeyItems(src, order);
    var sorted := SortBy(raw, YearKey);
    var it := Item(p.year, Some(p.value));
    var i := Position(order, p.year);
    KeyItemsOf(src, order);
    assert raw[i] == it;
    assert it in multiset(sorted);
    NumericKeeps(sorted);
  }

  // ---------------------------------------------------------------------
  // HTML escaping

  /** The replacement for one character of `/[&<>"']/`. */
  function EscapeChar(ch: char): string {
    if ch == '&' then "&amp;"
    else if ch == '<' then "&lt;"
    else if ch == '>' then "&gt;"
    else if ch == '"' then "&quot;"
    else if ch == '\'' then "&#39;"
    else [ch]
  }

  /** The characters the escaper must never let through. */
  predicate Raw(ch: char) {
    ch == '<' || ch == '>' || ch == '"' || ch == '\''
  }

  predicate Special(ch: char) {
    ch == '&' || Raw(ch)
  }

  /** `String(str).replace(/[&<>"']/g, ...)` on the string. */
  function Escape(s: string): (t: string)
    ensures |t| >= |s|
    ensures forall i :: 0 <= i < |t| ==> !Raw(t[i])
  {
    if s == [] then [] else EscapeChar(s[0]) + Escape(s[1..])
  }

  /** `escapeHtml(str)` */
  function EscapeHtml(v: Json): string {
    Escape(JsString(v))
  }

  /** Text without any of the five characters is left as it is. */
  lemma {:induction false} EscapePlain(s: string)
    requires forall i :: 0 <= i < |s| ==> !Special(s[i])
    ensures Escape(s) == s
  {
    if s != [] {
      EscapePlain(s[1..]);
    }
  }

  /** Reads the five entities back. */
  function Unescape(t: string): string
    decreases |t|
  {
    if t == [] then []
    else if t[0] == '&' && "&amp;" <= t then "&" + Unescape(t[5..])
    else if t[0] == '&' && "&lt;" <= t then "<" + Unescape(t[4..])
    else if t[0] == '&' && "&gt;" <= t then ">" + Unescape(t[4..])
    else if t[0] == '&' && "&quot;" <= t then "\"" + Unescape(t[6..])
    else if t[0] == '&' && "&#39;" <= t then "'" + Unescape(t[5..])
    else [t[0]] + Unescape(t[1..])
  }

  /** The entity of one character reads back to that character. */
  lemma UnescapeOne(ch: char, rest: string)
    ensures Unescape(EscapeChar(ch) + rest) == [ch] + Unescape(rest)
  {
    if ch == '&' {
      UnescapeAmp(rest);
    } else if ch == '<' {
      UnescapeLt(rest);
    } else if ch == '>' {
      UnescapeGt(rest);
    } else if ch == '"' {
      UnescapeQuot(rest);
    } else if ch == '\'' {
      UnescapeApos(rest);
    } else {
      assert ([ch] + rest)[1..] == rest;
    }
  }

  lemma UnescapeAmp(rest: string)
    ensures Unescape("&amp;" + rest) == "&" + Unescape(rest)
  {
    var t := "&amp;" + rest;
    assert t[5..] == rest;
    assert "&amp;" <= t;
  }

  lemma UnescapeLt(rest: string)
    ensures Unescape("&lt;" + rest) == "<" + Unescape(rest)
  {
    var t := "&lt;" + rest;
    assert t[4..] == rest;
    assert "&lt;" <= t;
    assert !("&amp;" <= t) by { assert t[1] == 'l'; }
  }

  lemma UnescapeGt(rest: string)
    ensures Unescape("&gt;" + rest) == ">" + Unescape(rest)
  {
    var t := "&gt;" + rest;
    assert t[4..] == rest;
    assert "&gt;" <= t;
    assert !("&amp;" <= t) && !("&lt;" <= t) by { assert t[1] == 'g'; }
  }

  lemma UnescapeQuot(rest: string)
    ensures Unescape("&quot;" + rest) == "\"" + Unescape(rest)
  {
    var t := "&quot;" + rest;
    assert t[6..] == rest;
    assert "&quot;" <= t;
    assert !("&amp;" <= t) && !("&lt;" <= t) && !("&gt;" <= t) by { assert t[1] == 'q'; }
  }

  lemma UnescapeApos(rest: string)
    ensures Unescape("&#39;" + rest) == "'" + Unescape(rest)
  {
    var t := "&#39;" + rest;
    assert t[5..] == rest;
    assert "&#39;" <= t;
    assert !("&amp;" <= t) && !("&lt;" <= t) && !("&gt;" <= t) && !("&quot;" <= t) by { assert t[1] == '#'; }
  }

  /** Escaping loses nothing: the entities read back to the original. */
  lemma {:induction false} EscapeRoundTrip(s: string)
    ensures Unescape(Escape(s)) == s
  {
    if s != [] {
      EscapeRoundTrip(s[1..]);
      UnescapeOne(s[0], Escape(s[1..]));
    }
  }

  // ---------------------------------------------------------------------
  // Risk bands

  const LowRiskBand := "低风险"
  const MediumRiskBand := "中等风险"
  const RaisedRiskBand := "较高风险"
  const HighRiskBand := "高风险"

  /** The band, colour, description and suggestion of the detail view. */
  datatype Assessment = Assessment(level: string, color: string, description: string, suggestion: string)

  /** The thresholds of `populateRiskAssessment` on a number. */
  function RiskBand(n: int): (a: Assessment)
    ensures a.level == LowRiskBand <==> n >= 80
    ensures a.level == MediumRiskBand <==> 60 <= n < 80
    ensures a.level == RaisedRiskBand <==> 40 <= n < 60
    ensures a.level == HighRiskBand <==> n < 40
  {
    if n >= 80 then
      Assessment(LowRiskBand, "#28a745", "该公司财务状况良好，业务稳定，投资风险较低。", "建议积极投资，可作为核心持仓。")
    else if n >= 60 then
      Assessment(MediumRiskBand, "#ffc107", "该公司基本面尚可，但存在一定不确定性。", "建议适度投资，注意风险控制。")
    else if n >= 40 then
      Assessment(RaisedRiskBand, "#fd7e14", "该公司存在较多风险因素，需要谨慎评估。", "建议谨慎投资，仅作为小仓位配置。")
    else
      Assessment(HighRiskBand, "#dc3545", "该公司风险较高，投资需要极度谨慎。", "不建议投资，或仅作为投机性小额投资。")
  }

  /** `score = company.investmentScore || 0`; a score that is NaN fails
      every threshold and lands in the last band. */
  function RiskOf(c: Record): (a: Assessment)
    ensures !Truthy(Field(c, "investmentScore")) ==> a.level == HighRiskBand
    ensures Field(c, "investmentScore").Num? ==> a == RiskBand(Field(c, "investmentScore").n)
  {
    match ToNumber(Or(Field(c, "investmentScore"), Num(0)))
    case None => RiskBand(0)
    case Some(n) => RiskBand(n)
  }

  function RiskRank(level: string): nat {
    if level == LowRiskBand then 0
    else if level == MediumRiskBand then 1
    else if level == RaisedRiskBand then 2
    else 3
  }

  /** A higher score never means a higher risk. */
  lemma RiskMonotone(a: int, b: int)
    requires a <= b
    ensures RiskRank(RiskBand(b).level) <= RiskRank(RiskBand(a).level)
  {
  }
}
