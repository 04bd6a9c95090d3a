/** lib/database.js's `VercelDatabase`, the in-memory store of the
    serverless deployment, as functions from the list of companies (and the
    call's arguments) to the new list and the reply. The class in
    memory_store.dfy is proved to follow these functions.

    Every company this store holds is an object: the three defaults, the
    literal `addCompany` and `updateCompany` build, and the spread copies
    `importData` makes. The list is therefore a sequence of records, and a
    record is read back as a JSON object with `Obj`. */
module MemoryStoreSpec {
  import opened JsonValues
  import opened Sorting
  import opened Records

  const RequiredFieldsError := "公司名称和业务类型为必填项"
  const MissingCompanyError := "公司不存在"
  const UnknownOperationError := "未知操作类型"
  const InvalidImportError := "无效的导入数据格式"
  const ExportVersion := "1.0.0"

  // ---------------------------------------------------------------------
  // The default list

  function DefaultCompany(id: string, name: string, business: string, score: int, at: string): Record {
    CompanyLiteral(Str(id), Str(name), Str(business), Num(score), Str("A+"), Str(at))
  }

  /** The list every cold start begins with. */
  const DefaultCompanies: seq<Record> := [
    DefaultCompany("1", "华为技术有限公司", "半导体,AI算力,网络通信", 95, "2024-01-15T08:30:00.000Z"),
    DefaultCompany("2", "比亚迪股份有限公司", "新能源,智能终端", 92, "2024-01-15T09:15:00.000Z"),
    DefaultCompany("3", "宁德时代新能源科技股份有限公司", "新能源,高性能材料", 90, "2024-01-15T10:00:00.000Z")
  ]

  // ---------------------------------------------------------------------
  // Letter grades

  /** `getInvestmentLevel` on a number. */
  function LetterGrade(n: int): (g: string)
    ensures g == "A+" <==> n >= 90
    ensures g == "A" <==> 80 <= n < 90
    ensures g == "B+" <==> 70 <= n < 80
    ensures g == "B" <==> 60 <= n < 70
    ensures g == "C+" <==> 50 <= n < 60
    ensures g == "C" <==> 40 <= n < 50
    ensures g == "D" <==> n < 40
  {
    if n >= 90 then "A+"
    else if n >= 80 then "A"
    else if n >= 70 then "B+"
    else if n >= 60 then "B"
    else if n >= 50 then "C+"
    else if n >= 40 then "C"
    else "D"
  }

  /** `getInvestmentLevel(score)` on any value: `score >= 90` converts the
      score to a number, and NaN fails every comparison. */
  function Grade(score: Json): (g: string)
    ensures ToNumber(score).None? ==> g == "D"
    ensures ToNumber(score).Some? ==> g == LetterGrade(ToNumber(score).value)
  {
    match ToNumber(score)
    case None => "D"
    case Some(n) => LetterGrade(n)
  }

  /** The position of a grade on the scale, "D" lowest. */
  function GradeRank(g: string): nat {
    if g == "A+" then 6
    else if g == "A" then 5
    else if g == "B+" then 4
    else if g == "B" then 3
    else if g == "C+" then 2
    else if g == "C" then 1
    else 0
  }

  /** A higher score never earns a lower grade. */
  lemma GradeMonotone(a: int, b: int)
    requires a <= b
    ensures GradeRank(LetterGrade(a)) <= GradeRank(LetterGrade(b))
  {
  }

  // ---------------------------------------------------------------------
  // Lookup by id

  /** The records as the JSON objects the replies carry. */
  function Objects(cs: seq<Record>): (r: seq<Json>)
    ensures |r| == |cs|
    ensures forall i :: 0 <= i < |cs| ==> r[i] == Obj(cs[i])
  {
    seq(|cs|, i requires 0 <= i < |cs| => Obj(cs[i]))
  }

  /** `companies.findIndex(c => c.id === id)`; `None` is -1. */
  function FindId(cs: seq<Record>, id: Json): (k: Option<nat>)
    ensures k.None? <==> forall i :: 0 <= i < |cs| ==> Field(cs[i], "id") != id
    ensures k.Some? ==> k.value < |cs| && Field(cs[k.value], "id") == id
    ensures k.Some? ==> forall i :: 0 <= i < k.value ==> Field(cs[i], "id") != id
  {
    var os := Objects(cs);
    assert forall i :: 0 <= i < |cs| ==> IdOf(os[i]) == Field(cs[i], "id");
    FindIndex(os, id)
  }

  /** No two companies share an id (`undefined` counts as an id too). */
  ghost predicate DistinctIds(cs: seq<Record>) {
    forall i, j :: 0 <= i < j < |cs| ==> Field(cs[i], "id") != Field(cs[j], "id")
  }

  /** The ids present in the list. */
  ghost function IdSet(cs: seq<Record>): set<Json> {
    set i | 0 <= i < |cs| :: Field(cs[i], "id")
  }

  lemma DefaultsDistinct()
    ensures DistinctIds(DefaultCompanies)
  {
    var d := DefaultCompanies;
    forall i | 0 <= i < 3
      ensures Field(d[i], "id") == Str([['1', '2', '3'][i]])
    {
      match i
      case 0 =>
        CompanyLiteralFields(Str("1"), Str("华为技术有限公司"), Str("半导体,AI算力,网络通信"), Num(95), Str("A+"), Str("2024-01-15T08:30:00.000Z"));
      case 1 =>
        CompanyLiteralFields(Str("2"), Str("比亚迪股份有限公司"), Str("新能源,智能终端"), Num(92), Str("A+"), Str("2024-01-15T09:15:00.000Z"));
      case 2 =>
        CompanyLiteralFields(Str("3"), Str("宁德时代新能源科技股份有限公司"), Str("新能源,高性能材料"), Num(90), Str("A+"), Str("2024-01-15T10:00:00.000Z"));
    }
  }

  /** `getCompanyById` */
  function Lookup(cs: seq<Record>, id: Json): (r: Outcome<Record>)
    ensures r.Success? <==> exists i :: 0 <= i < |cs| && Field(cs[i], "id") == id
    ensures r.Success? ==> r.data in cs && Field(r.data, "id") == id
    ensures r.Failure? ==> r.error == MissingCompanyError
  {
    match FindId(cs, id)
    case None => Failure(MissingCompanyError)
    case Some(k) => Success(cs[k])
  }

  // ---------------------------------------------------------------------
  // New ids

  /** `parseInt(c.id) || 0` */
  function IdNumber(c: Record): int {
    match ParseIntOf(Field(c, "id"))
    case None => 0
    case Some(n) => n
  }

  /** `companies.map(c => parseInt(c.id) || 0)` */
  function IdNumbers(cs: seq<Record>): (ns: seq<int>)
    ensures |ns| == |cs|
    ensures forall i :: 0 <= i < |cs| ==> ns[i] == IdNumber(cs[i])
  {
    seq(|cs|, i requires 0 <= i < |cs| => IdNumber(cs[i]))
  }

  /** `Math.max(...ns)` on a non-empty list. */
  function Max(ns: seq<int>): (m: int)
    requires ns != []
    ensures forall i :: 0 <= i < |ns| ==> ns[i] <= m
    ensures m in ns
  {
    if |ns| == 1 then ns[0]
    else
      var m := Max(ns[1..]);
      assert forall i :: 1 <= i < |ns| ==> ns[i] == ns[1..][i - 1];
      if ns[0] > m then ns[0] else m
  }

  function MaxId(cs: seq<Record>): (m: int)
    requires cs != []
    ensures forall i :: 0 <= i < |cs| ==> IdNumber(cs[i]) <= m
  {
    Max(IdNumbers(cs))
  }

  /** The id `addCompany` gives: one more than the largest numeric id,
      written with `toString`. `Math.max()` of nothing is `-Infinity`, and
      `-Infinity + 1` prints as "-Infinity". */
  function NextId(cs: seq<Record>): string {
    if cs == [] then "-Infinity" else IntToString(MaxId(cs) + 1)
  }

  /** The new id is not the id of any company already stored. */
  lemma NextIdFresh(cs: seq<Record>)
    ensures forall i :: 0 <= i < |cs| ==> Field(cs[i], "id") != Str(NextId(cs))
  {
    if cs != [] {
      var m := MaxId(cs);
      ParseIntOfIntToString(m + 1);
      assert ParseIntOf(Str(NextId(cs))) == Some(m + 1);
      forall i | 0 <= i < |cs|
        ensures Field(cs[i], "id") != Str(NextId(cs))
      {
        assert IdNumber(cs[i]) < m + 1;
      }
    }
  }

  /** An emptied store hands out an id that is not a number at all. */
  lemma EmptyStoreId()
    ensures NextId([]) == "-Infinity"
    ensures ParseInt(NextId([])) == None
  {
    var s := "-Infinity";
    assert !IsSpace(s[0]);
    assert TrimStart(s) == s;
    assert SplitSign(s) == (-1, s[1..]);
    assert !IsDigit(s[1..][0]);
  }

  /** The id the counter evidently means to give: "1" for an empty store,
      otherwise what the code gives, one more than the largest numeric id. */
  function CountingId(cs: seq<Record>): string {
    if cs == [] then "1" else IntToString(MaxId(cs) + 1)
  }

  /** The corrected counter hands out a number that no stored company has
      as its id: 1 on an empty store, and the code's own id otherwise. */
  lemma CountingIdFresh(cs: seq<Record>)
    ensures cs == [] ==> ParseInt(CountingId(cs)) == Some(1)
    ensures cs != [] ==> CountingId(cs) == NextId(cs) && ParseInt(CountingId(cs)) == Some(MaxId(cs) + 1)
    ensures forall i :: 0 <= i < |cs| ==> Field(cs[i], "id") != Str(CountingId(cs))
  {
    var k := if cs == [] then 1 else MaxId(cs) + 1;
    ParseIntOfIntToString(k);
    assert IntToString(1) == "1";
    assert ParseIntOf(Str(CountingId(cs))) == Some(k);
    NextIdFresh(cs);
  }

  // ---------------------------------------------------------------------
  // Add, update, delete

  /** The company literal of `addCompany`, with the id from the corrected
      counter `CountingId`. */
  function NewCompany(cs: seq<Record>, data: Json, at: string): Record {
    var score := Or(Prop(data, "investmentScore"), Num(0));
    CompanyLiteral(Str(CountingId(cs)), Prop(data, "name"), Prop(data, "business"), score, Str(Grade(score)), Str(at))
  }

  /** The seven properties of a freshly added company. */
  function CompanyLiteral(id: Json, name: Json, business: Json, score: Json, level: Json, at: Json): Record {
    map["id" := id, "name" := name, "business" := business,
        "investmentScore" := score, "investmentLevel" := level,
        "createdAt" := at, "updatedAt" := at]
  }

  lemma CompanyLiteralFields(id: Json, name: Json, business: Json, score: Json, level: Json, at: Json)
    ensures var c := CompanyLiteral(id, name, business, score, level, at);
      Field(c, "id") == id && Field(c, "name") == name && Field(c, "business") == business
      && Field(c, "investmentScore") == score && Field(c, "investmentLevel") == level
  {
  }

  /** `addCompany(data)`: reading a property of a missing `data` is a
      TypeError; a falsy name or business is refused. */
  function AddStep(cs: seq<Record>, data: Json, at: string): (seq<Record>, Outcome<Record>) {
    if Nullish(data) then (cs, Failure(TypeErrorMessage))
    else if !Truthy(Prop(data, "name")) || !Truthy(Prop(data, "business")) then
      (cs, Failure(RequiredFieldsError))
    else
      var c := NewCompany(cs, data, at);
      (cs + [c], Success(c))
  }

  /** `{...old, ...patch, id, updatedAt}`, with the level recomputed when the
      patch carries a score. */
  function Patched(c: Record, id: Json, patch: Json, at: string): Record {
    var m := c + Spread(patch) + map["id" := id, "updatedAt" := Str(at)];
    var score := Prop(patch, "investmentScore");
    if score != Undefined then m["investmentLevel" := Str(Grade(score))] else m
  }

  /** `updateCompany(id, patch)`: the spread of a missing patch is empty, but
      the score test that follows reads a property of it. */
  function UpdateStep(cs: seq<Record>, id: Json, patch: Json, at: string): (seq<Record>, Outcome<Record>) {
    match FindId(cs, id)
    case None => (cs, Failure(MissingCompanyError))
    case Some(k) =>
      if Nullish(patch) then (cs, Failure(TypeErrorMessage))
      else
        var c := Patched(cs[k], id, patch, at);
        (cs[k := c], Success(c))
  }

  /** `deleteCompany(id)` */
  function DeleteStep(cs: seq<Record>, id: Json): (seq<Record>, Outcome<Record>) {
    match FindId(cs, id)
    case None => (cs, Failure(MissingCompanyError))
    case Some(k) => (cs[..k] + cs[k + 1..], Success(cs[k]))
  }

  /** What `addCompany` does: it refuses exactly the calls without a name
      or business, and otherwise appends one company with a fresh id, the
      given name and business, and the grade of its score. */
  lemma AddOutcome(cs: seq<Record>, data: Json, at: string)
    ensures AddStep(cs, data, at).1.Success? <==>
      !Nullish(data) && Truthy(Prop(data, "name")) && Truthy(Prop(data, "business"))
    ensures AddStep(cs, data, at).1.Failure? ==> AddStep(cs, data, at).0 == cs
    ensures AddStep(cs, data, at).1.Success? ==>
      var c := AddStep(cs, data, at).1.data;
      && AddStep(cs, data, at).0 == cs + [c]
      && (forall i :: 0 <= i < |cs| ==> Field(cs[i], "id") != Field(c, "id"))
      && Field(c, "name") == Prop(data, "name")
      && Field(c, "business") == Prop(data, "business")
      && Field(c, "investmentLevel") == Str(Grade(Field(c, "investmentScore")))
      && (Truthy(Prop(data, "investmentScore")) ==> Field(c, "investmentScore") == Prop(data, "investmentScore"))
      && (!Truthy(Prop(data, "investmentScore")) ==> Field(c, "investmentScore") == Num(0))
  {
    if !Nullish(data) && Truthy(Prop(data, "name")) && Truthy(Prop(data, "business")) {
      var c := NewCompany(cs, data, at);
      assert AddStep(cs, data, at) == (cs + [c], Success(c));
      NewCompanyFields(cs, data, at);
      NewCompanyFresh(cs, data, at);
    } else {
      assert AddStep(cs, data, at).0 == cs && AddStep(cs, data, at).1.Failure?;
    }
  }

  /** The fields of the company literal of `addCompany`. */
  lemma NewCompanyFields(cs: seq<Record>, data: Json, at: string)
    ensures var c := NewCompany(cs, data, at);
      && Field(c, "name") == Prop(data, "name")
      && Field(c, "business") == Prop(data, "business")
      && Field(c, "investmentLevel") == Str(Grade(Field(c, "investmentScore")))
      && (Truthy(Prop(data, "investmentScore")) ==> Field(c, "investmentScore") == Prop(data, "investmentScore"))
      && (!Truthy(Prop(data, "investmentScore")) ==> Field(c, "investmentScore") == Num(0))
  {
    var score := Or(Prop(data, "investmentScore"), Num(0));
    CompanyLiteralFields(Str(CountingId(cs)), Prop(data, "name"), Prop(data, "business"), score, Str(Grade(score)), Str(at));
  }

  /** The company literal of `addCompany` carries an id no stored company has. */
  lemma NewCompanyFresh(cs: seq<Record>, data: Json, at: string)
    ensures forall i :: 0 <= i < |cs| ==> Field(cs[i], "id") != Field(NewCompany(cs, data, at), "id")
  {
    CountingIdFresh(cs);
    var score := Or(Prop(data, "investmentScore"), Num(0));
    CompanyLiteralFields(Str(CountingId(cs)), Prop(data, "name"), Prop(data, "business"), score, Str(Grade(score)), Str(at));
  }

  lemma AddKeepsDistinct(cs: seq<Record>, data: Json, at: string)
    requires DistinctIds(cs)
    ensures DistinctIds(AddStep(cs, data, at).0)
  {
    if AddStep(cs, data, at).1.Success? {
      var c := NewCompany(cs, data, at);
      assert AddStep(cs, data, at).0 == cs + [c];
      NewCompanyFresh(cs, data, at);
      DistinctAppend(cs, c);
    }
  }

  /** Appending a company whose id is new keeps the ids distinct. */
  lemma DistinctAppend(cs: seq<Record>, c: Record)
    requires DistinctIds(cs)
    requires forall i :: 0 <= i < |cs| ==> Field(cs[i], "id") != Field(c, "id")
    ensures DistinctIds(cs + [c])
  {
    var after := cs + [c];
    forall i, j | 0 <= i < j < |after|
      ensures Field(after[i], "id") != Field(after[j], "id")
    {
      assert after[i] == cs[i];
      if j < |cs| {
        assert after[j] == cs[j];
      }
    }
  }

  /** A list whose ids are, position by position, those of a list with
      distinct ids has distinct ids too. */
  lemma DistinctSameIds(cs: seq<Record>, ds: seq<Record>)
    requires DistinctIds(cs) && |ds| == |cs|
    requires forall j :: 0 <= j < |cs| ==> Field(ds[j], "id") == Field(cs[j], "id")
    ensures DistinctIds(ds)
  {
  }

  /** Splicing one company out keeps the ids distinct and leaves none with
      the id of the one taken out. */
  lemma DistinctRemove(cs: seq<Record>, k: nat, after: seq<Record>)
    requires DistinctIds(cs) && k < |cs| && after == cs[..k] + cs[k + 1..]
    ensures DistinctIds(after)
    ensures forall i :: 0 <= i < |after| ==> Field(after[i], "id") != Field(cs[k], "id")
  {
    assert forall i :: 0 <= i < |after| ==> after[i] == (if i < k then cs[i] else cs[i + 1]);
  }

  /** The patched record keeps the id it is stored under, is stamped,
      takes every property of the patch except the id and the stamp, keeps
      the other properties of the old record, and grades a patched score. */
  lemma PatchedFields(c: Record, id: Json, patch: Json, at: string, key: string)
    ensures Field(Patched(c, id, patch, at), "id") == id
    ensures Field(Patched(c, id, patch, at), "updatedAt") == Str(at)
    ensures Prop(patch, "investmentScore") != Undefined ==>
      Field(Patched(c, id, patch, at), "investmentLevel") == Str(Grade(Prop(patch, "investmentScore")))
    ensures key in Spread(patch) && key != "id" && key != "updatedAt" && key != "investmentLevel" ==>
      Field(Patched(c, id, patch, at), key) == Spread(patch)[key]
    ensures key in c && key !in Spread(patch) && key != "id" && key != "updatedAt" && key != "investmentLevel" ==>
      Field(Patched(c, id, patch, at), key) == c[key]
  {
  }

  /** What `updateCompany` does: it answers for exactly the stored ids and
      a present patch, and replaces that one company with the patched one. */
  lemma UpdateOutcome(cs: seq<Record>, id: Json, patch: Json, at: string)
    ensures UpdateStep(cs, id, patch, at).1.Success? <==>
      (exists i :: 0 <= i < |cs| && Field(cs[i], "id") == id) && !Nullish(patch)
    ensures UpdateStep(cs, id, patch, at).1.Failure? ==> UpdateStep(cs, id, patch, at).0 == cs
    ensures UpdateStep(cs, id, patch, at).1.Success? ==>
      var k := FindId(cs, id).value;
      var after := UpdateStep(cs, id, patch, at).0;
      && |after| == |cs|
      && after[k] == UpdateStep(cs, id, patch, at).1.data == Patched(cs[k], id, patch, at)
      && (forall j :: 0 <= j < |cs| && j != k ==> after[j] == cs[j])
  {
  }

  lemma UpdateKeepsDistinct(cs: seq<Record>, id: Json, patch: Json, at: string)
    requires DistinctIds(cs)
    ensures DistinctIds(UpdateStep(cs, id, patch, at).0)
  {
    if UpdateStep(cs, id, patch, at).1.Success? {
      var k := FindId(cs, id).value;
      var c := Patched(cs[k], id, patch, at);
      var after := cs[k := c];
      assert UpdateStep(cs, id, patch, at).0 == after;
      PatchedFields(cs[k], id, patch, at, "id");
      assert forall j :: 0 <= j < |cs| ==> Field(after[j], "id") == Field(cs[j], "id");
      DistinctSameIds(cs, after);
    }
  }

  /** What `deleteCompany` does: it answers for exactly the stored ids and
      takes that one company out, keeping the others in order. */
  lemma DeleteOutcome(cs: seq<Record>, id: Json)
    ensures DeleteStep(cs, id).1.Success? <==> exists i :: 0 <= i < |cs| && Field(cs[i], "id") == id
    ensures DeleteStep(cs, id).1.Failure? ==> DeleteStep(cs, id).0 == cs
    ensures DeleteStep(cs, id).1.Success? ==>
      var after := DeleteStep(cs, id).0;
      var c := DeleteStep(cs, id).1.data;
      && |after| + 1 == |cs|
      && Field(c, "id") == id
      && multiset(after) + multiset{c} == multiset(cs)
  {
    if DeleteStep(cs, id).1.Success? {
      var k := FindId(cs, id).value;
      assert cs == cs[..k] + [cs[k]] + cs[k + 1..];
    }
  }

  /** Deleting from a list with distinct ids leaves no company with that id
      behind, and the ids stay distinct. */
  lemma DeleteRemovesId(cs: seq<Record>, id: Json)
    requires DistinctIds(cs)
    ensures DistinctIds(DeleteStep(cs, id).0)
    ensures forall i :: 0 <= i < |DeleteStep(cs, id).0| ==> Field(DeleteStep(cs, id).0[i], "id") != id
  {
    if DeleteStep(cs, id).1.Success? {
      var k := FindId(cs, id).value;
      assert DeleteStep(cs, id).0 == cs[..k] + cs[k + 1..];
      DistinctRemove(cs, k, DeleteStep(cs, id).0);
    }
  }

  // ---------------------------------------------------------------------
  // Search

  /** `searchCompanies(query)`: `query.toLowerCase()` needs a string. */
  function SearchStep(cs: seq<Record>, query: Json, lower: string -> string): (r: Outcome<seq<Json>>)
    ensures !query.Str? ==> r == Failure(TypeErrorMessage)
    ensures r.Success? ==> forall i :: 0 <= i < |r.data| ==>
      r.data[i] in Objects(cs) && Hit(r.data[i], lower(query.s), lower)
    ensures r.Success? ==> forall i :: 0 <= i < |cs| && Hit(Obj(cs[i]), lower(query.s), lower) ==>
      Obj(cs[i]) in r.data
  {
    if !query.Str? then Failure(TypeErrorMessage)
    else
      var r := Search(Objects(cs), query.s, lower);
      assert forall i :: 0 <= i < |cs| ==> Objects(cs)[i] == Obj(cs[i]);
      r
  }

  // ---------------------------------------------------------------------
  // Statistics

  /** The count stored under `k`, 0 when there is none: `counts[k] || 0`. */
  function Count(m: map<string, nat>, k: string): nat {
    if k in m then m[k] else 0
  }

  /** `counts[k] = (counts[k] || 0) + 1` */
  function Bump(m: map<string, nat>, k: string): map<string, nat> {
    m[k := Count(m, k) + 1]
  }

  /** Bumps each key in turn. */
  function Tally(m: map<string, nat>, ks: seq<string>): map<string, nat>
    decreases |ks|
  {
    if ks == [] then m else Bump(Tally(m, ks[..|ks| - 1]), ks[|ks| - 1])
  }

  function Occurrences(ks: seq<string>, k: string): nat
    decreases |ks|
  {
    if ks == [] then 0
    else Occurrences(ks[..|ks| - 1], k) + (if ks[|ks| - 1] == k then 1 else 0)
  }

  /** A tally holds a key exactly when the key was seen, and counts how
      often it was seen. */
  lemma {:induction false} TallyCounts(m: map<string, nat>, ks: seq<string>, k: string)
    ensures k in Tally(m, ks) <==> k in m || k in ks
    ensures Count(Tally(m, ks), k) == Count(m, k) + Occurrences(ks, k)
    decreases |ks|
  {
    if ks != [] {
      var init := ks[..|ks| - 1];
      TallyCounts(m, init, k);
      assert ks == init + [ks[|ks| - 1]];
    }
  }

  lemma {:induction false} TallyConcat(m: map<string, nat>, a: seq<string>, b: seq<string>)
    ensures Tally(m, a + b) == Tally(Tally(m, a), b)
    decreases |b|
  {
    if b == [] {
      assert a + b == a;
    } else {
      var init := b[..|b| - 1];
      TallyConcat(m, a, init);
      assert (a + b)[..|a + b| - 1] == a + init;
    }
  }

  /** `company.investmentLevel` used as a property key. */
  function LevelKey(c: Record): string {
    JsString(Field(c, "investmentLevel"))
  }

  function LevelKeys(cs: seq<Record>): seq<string>
    decreases |cs|
  {
    if cs == [] then [] else LevelKeys(cs[..|cs| - 1]) + [LevelKey(cs[|cs| - 1])]
  }

  /** `s.split(',').map(b => b.trim())` */
  function BusinessParts(s: string): (ps: seq<string>)
    ensures |ps| >= 1
  {
    var parts := Split(s, ',');
    seq(|parts|, i requires 0 <= i < |parts| => Trim(parts[i]))
  }

  /** Every business is a string, so `split` can be called on it. */
  predicate BusinessOk(cs: seq<Record>) {
    forall i :: 0 <= i < |cs| ==> Field(cs[i], "business").Str?
  }

  /** All the business tags, company after company. */
  function BusinessKeys(cs: seq<Record>): seq<string>
    requires BusinessOk(cs)
    decreases |cs|
  {
    if cs == [] then []
    else BusinessKeys(cs[..|cs| - 1]) + BusinessParts(Field(cs[|cs| - 1], "business").s)
  }

  /** `sum + c.investmentScore` while the sum stays a number: `null` and
      booleans add as 0 and 1; anything else turns the sum into NaN or a
      string, which the model does not follow. */
  function Addend(v: Json): Option<int> {
    match v
    case Num(n) => Some(n)
    case Null => Some(0)
    case Bool(b) => Some(if b then 1 else 0)
    case _ => None
  }

  /** `companies.reduce((sum, c) => sum + c.investmentScore, 0)` */
  function ScoreSum(cs: seq<Record>): Option<int>
    decreases |cs|
  {
    if cs == [] then Some(0)
    else match (ScoreSum(cs[..|cs| - 1]), Addend(Field(cs[|cs| - 1], "investmentScore")))
      case (Some(s), Some(a)) => Some(s + a)
      case _ => None
  }

  /** `averageScore`: 0 for an empty list, otherwise the sum over the count
      (the division is left as a fraction). */
  datatype Average = Zero | Mean(sum: int, count: nat) | NotNumeric

  function AverageOf(cs: seq<Record>): Average {
    if |cs| == 0 then Zero
    else match ScoreSum(cs)
      case None => NotNumeric
      case Some(s) => Mean(s, |cs|)
  }

  datatype MemStats = MemStats(total: nat, levels: map<string, nat>, businesses: map<string, nat>, average: Average)

  /** `getStatistics`: a company whose business is not a string makes
      `split` raise. */
  function StatisticsOf(cs: seq<Record>): Outcome<MemStats> {
    if !BusinessOk(cs) then Failure(TypeErrorMessage)
    else Success(MemStats(|cs|, Tally(map[], LevelKeys(cs)), Tally(map[], BusinessKeys(cs)), AverageOf(cs)))
  }

  /** The level keys are the companies' levels, one per company. */
  lemma {:induction false} LevelKeysOf(cs: seq<Record>)
    ensures |LevelKeys(cs)| == |cs|
    ensures forall i :: 0 <= i < |cs| ==> LevelKeys(cs)[i] == LevelKey(cs[i])
    decreases |cs|
  {
    if cs != [] {
      LevelKeysOf(cs[..|cs| - 1]);
    }
  }

  /** The level distribution has an entry for exactly the levels some
      company carries, and it counts the companies carrying each. */
  lemma LevelDistribution(cs: seq<Record>, k: string)
    requires StatisticsOf(cs).Success?
    ensures k in StatisticsOf(cs).data.levels <==> exists i :: 0 <= i < |cs| && LevelKey(cs[i]) == k
    ensures Count(StatisticsOf(cs).data.levels, k) == Occurrences(LevelKeys(cs), k)
  {
    var ks := LevelKeys(cs);
    assert StatisticsOf(cs).data.levels == Tally(map[], ks);
    TallyCounts(map[], ks, k);
    LevelKeysHas(cs, k);
  }

  /** A level is among the level keys exactly when some company carries it. */
  lemma LevelKeysHas(cs: seq<Record>, k: string)
    ensures k in LevelKeys(cs) <==> exists i :: 0 <= i < |cs| && LevelKey(cs[i]) == k
  {
    var ks := LevelKeys(cs);
    LevelKeysOf(cs);
    if k in ks {
      var i := Position(ks, k);
      assert LevelKey(cs[i]) == k;
    }
  }

  /** The sum of a distribution's counts. */
  ghost function MapTotal(m: map<string, nat>): nat
    decreases |m|
  {
    if m == map[] then 0
    else
      var k :| k in m;
      m[k] + MapTotal(m - {k})
  }

  /** The sum does not depend on which key is taken first. */
  lemma {:induction false} MapTotalRemove(m: map<string, nat>, k: string)
    requires k in m
    ensures MapTotal(m) == m[k] + MapTotal(m - {k})
    decreases |m|
  {
    var j :| j in m && MapTotal(m) == m[j] + MapTotal(m - {j});
    if j != k {
      assert |m - {j}| < |m| by { assert j in m && j !in m - {j}; assert (m - {j}).Keys < m.Keys; }
      assert |m - {k}| < |m| by { assert k in m && k !in m - {k}; assert (m - {k}).Keys < m.Keys; }
      MapTotalRemove(m - {j}, k);
      MapTotalRemove(m - {k}, j);
      assert m - {j} - {k} == m - {k} - {j};
    }
  }

  /** Counting one more key adds one to the sum. */
  lemma MapTotalBump(m: map<string, nat>, k: string)
    ensures MapTotal(Bump(m, k)) == MapTotal(m) + 1
  {
    MapTotalRemove(Bump(m, k), k);
    if k in m {
      MapTotalRemove(m, k);
      assert Bump(m, k) - {k} == m - {k};
    } else {
      assert Bump(m, k) - {k} == m;
    }
  }

  lemma {:induction false} TallyTotal(m: map<string, nat>, ks: seq<string>)
    ensures MapTotal(Tally(m, ks)) == MapTotal(m) + |ks|
    decreases |ks|
  {
    if ks != [] {
      TallyTotal(m, ks[..|ks| - 1]);
      MapTotalBump(Tally(m, ks[..|ks| - 1]), ks[|ks| - 1]);
    }
  }

  /** The level distribution counts every company once: its counts add up
      to `total`. */
  lemma LevelsSumToTotal(cs: seq<Record>)
    requires StatisticsOf(cs).Success?
    ensures MapTotal(StatisticsOf(cs).data.levels) == StatisticsOf(cs).data.total == |cs|
  {
    var ks := LevelKeys(cs);
    assert StatisticsOf(cs).data.levels == Tally(map[], ks);
    LevelKeysOf(cs);
    TallyTotal(map[], ks);
  }

  /** One more company adds its tags at the end. */
  lemma BusinessKeysNext(cs: seq<Record>, i: nat)
    requires i < |cs| && BusinessOk(cs[..i]) && Field(cs[i], "business").Str?
    ensures BusinessOk(cs[..i + 1])
    ensures BusinessKeys(cs[..i + 1]) == BusinessKeys(cs[..i]) + BusinessParts(Field(cs[i], "business").s)
  {
    var next := cs[..i + 1];
    assert next[..i] == cs[..i];
    assert next[i] == cs[i];
    assert BusinessOk(next) by {
      forall j | 0 <= j < |next|
        ensures Field(next[j], "business").Str?
      {
        if j < i {
          assert next[j] == cs[..i][j];
        }
      }
    }
  }

  /** One more company adds its level at the end. */
  lemma LevelKeysNext(cs: seq<Record>, i: nat)
    requires i < |cs|
    ensures LevelKeys(cs[..i + 1]) == LevelKeys(cs[..i]) + [LevelKey(cs[i])]
  {
    assert cs[..i + 1][..i] == cs[..i];
  }

  /** A company whose business is not a string makes the whole list fail. */
  lemma BusinessNotOk(cs: seq<Record>, i: nat)
    requires i < |cs| && !Field(cs[i], "business").Str?
    ensures !BusinessOk(cs)
  {
  }

  /** Each company's trimmed tags are all in the business distribution. */
  lemma BusinessKeysCover(cs: seq<Record>, i: nat, t: string)
    requires BusinessOk(cs) && i < |cs|
    requires t in BusinessParts(Field(cs[i], "business").s)
    ensures t in BusinessKeys(cs)
  {
    BusinessKeysPrefix(cs, i);
    BusinessKeysNext(cs, i);
    BusinessKeysPrefix(cs, i + 1);
    InSuffixPart(BusinessKeys(cs[..i]), BusinessParts(Field(cs[i], "business").s), BusinessKeys(cs), t);
  }

  /** An element of `b` is in any sequence that starts with `a + b`. */
  lemma InSuffixPart<T>(a: seq<T>, b: seq<T>, whole: seq<T>, t: T)
    requires a + b <= whole && t in b
    ensures t in whole
  {
    var j := Position(b, t);
    assert whole[|a| + j] == (a + b)[|a| + j] == t;
  }

  /** The tags of the first `n` companies start the tags of the list. */
  lemma {:induction false} BusinessKeysPrefix(cs: seq<Record>, n: nat)
    requires BusinessOk(cs) && n <= |cs|
    ensures BusinessOk(cs[..n])
    ensures BusinessKeys(cs[..n]) <= BusinessKeys(cs)
    decreases |cs|
  {
    if n == |cs| {
      assert cs[..n] == cs;
    } else {
      var init := cs[..|cs| - 1];
      BusinessKeysLast(cs);
      BusinessKeysPrefix(init, n);
      assert init[..n] == cs[..n];
    }
  }

  /** The tags of a list are those of all but its last company, then the
      last company's. */
  lemma BusinessKeysLast(cs: seq<Record>)
    requires BusinessOk(cs) && cs != []
    ensures BusinessOk(cs[..|cs| - 1])
    ensures BusinessKeys(cs) == BusinessKeys(cs[..|cs| - 1]) + BusinessParts(Field(cs[|cs| - 1], "business").s)
  {
    var init := cs[..|cs| - 1];
    forall j | 0 <= j < |init|
      ensures Field(init[j], "business").Str?
    {
      assert init[j] == cs[j];
    }
  }

  lemma BusinessDistribution(cs: seq<Record>, i: nat, t: string)
    requires StatisticsOf(cs).Success? && i < |cs|
    requires t in BusinessParts(Field(cs[i], "business").s)
    ensures t in StatisticsOf(cs).data.businesses
    ensures Count(StatisticsOf(cs).data.businesses, t) == Occurrences(BusinessKeys(cs), t) >= 1
  {
    BusinessKeysCover(cs, i, t);
    TallyCounts(map[], BusinessKeys(cs), t);
    OccursPositive(BusinessKeys(cs), t);
  }

  lemma {:induction false} OccursPositive(ks: seq<string>, k: string)
    requires k in ks
    ensures Occurrences(ks, k) >= 1
    decreases |ks|
  {
    if ks[|ks| - 1] != k {
      assert ks == ks[..|ks| - 1] + [ks[|ks| - 1]];
      OccursPositive(ks[..|ks| - 1], k);
    }
  }

  // ---------------------------------------------------------------------
  // Batches

  /** One operation of a batch that is not `null` or `undefined`. */
  function OpStep(cs: seq<Record>, op: Json, at: string): (seq<Record>, Outcome<Record>) {
    var t := Prop(op, "type");
    if t == Str("add") then AddStep(cs, Prop(op, "data"), at)
    else if t == Str("update") then UpdateStep(cs, Prop(op, "id"), Prop(op, "data"), at)
    else if t == Str("delete") then DeleteStep(cs, Prop(op, "id"))
    else (cs, Failure(UnknownOperationError))
  }

  /** `{operation, result}` */
  datatype Entry = Entry(operation: Json, result: Outcome<Record>)

  /** The list after the operations run so far, their entries, and whether
      reading `operation.type` raised. */
  datatype BatchRun = BatchRun(cs: seq<Record>, entries: seq<Entry>, aborted: bool)

  /** The `for ... of` loop of `batchOperation`; operation `i` runs at
      `clock(i)`. Each operation's own errors are caught inside it; only a
      `null` or `undefined` operation ends the loop. */
  function RunBatch(cs: seq<Record>, ops: seq<Json>, clock: nat -> string): BatchRun
    decreases |ops|
  {
    if ops == [] then BatchRun(cs, [], false)
    else
      var prior := RunBatch(cs, ops[..|ops| - 1], clock);
      var op := ops[|ops| - 1];
      if prior.aborted then prior
      else if Nullish(op) then prior.(aborted := true)
      else
        var step := OpStep(prior.cs, op, clock(|ops| - 1));
        BatchRun(step.0, prior.entries + [Entry(op, step.1)], false)
  }

  datatype BatchReply = Completed(entries: seq<Entry>) | Aborted(error: string)

  /** `batchOperation(operations)`: the changes made before an abort stay.
      Operations that are not iterable raise at once; a string is walked
      character by character. */
  function BatchStep(cs: seq<Record>, operations: Json, clock: nat -> string): (seq<Record>, BatchReply) {
    match Iterated(operations)
    case None => (cs, Aborted(TypeErrorMessage))
    case Some(ops) =>
      var run := RunBatch(cs, ops, clock);
      (run.cs, if run.aborted then Aborted(TypeErrorMessage) else Completed(run.entries))
  }

  /** Once the loop has aborted, later operations change nothing. */
  lemma {:induction false} RunBatchStops(cs: seq<Record>, ops: seq<Json>, k: nat, clock: nat -> string)
    requires k <= |ops| && RunBatch(cs, ops[..k], clock).aborted
    ensures RunBatch(cs, ops, clock) == RunBatch(cs, ops[..k], clock)
    decreases |ops| - k
  {
    if k < |ops| {
      assert ops[..k + 1][..k] == ops[..k];
      RunBatchStops(cs, ops, k + 1, clock);
    } else {
      assert ops[..k] == ops;
    }
  }

  /** A batch answers every operation in order, each entry naming its
      operation, and aborts exactly when some operation is missing; an
      abort leaves the entries of the operations before the first missing
      one. */
  lemma {:induction false} BatchAnswersEachOp(cs: seq<Record>, ops: seq<Json>, clock: nat -> string)
    ensures RunBatch(cs, ops, clock).aborted <==> exists i :: 0 <= i < |ops| && Nullish(ops[i])
    ensures !RunBatch(cs, ops, clock).aborted ==> |RunBatch(cs, ops, clock).entries| == |ops|
    ensures |RunBatch(cs, ops, clock).entries| <= |ops|
    ensures RunBatch(cs, ops, clock).aborted ==>
      forall i :: 0 <= i < |RunBatch(cs, ops, clock).entries| ==> !Nullish(ops[i])
    ensures RunBatch(cs, ops, clock).aborted ==> |RunBatch(cs, ops, clock).entries| < |ops|
    ensures RunBatch(cs, ops, clock).aborted ==> Nullish(ops[|RunBatch(cs, ops, clock).entries|])
    ensures forall i :: 0 <= i < |RunBatch(cs, ops, clock).entries| ==>
      RunBatch(cs, ops, clock).entries[i].operation == ops[i]
    decreases |ops|
  {
    if ops != [] {
      var init := ops[..|ops| - 1];
      BatchAnswersEachOp(cs, init, clock);
      assert forall i :: 0 <= i < |init| ==> init[i] == ops[i];
    }
  }

  /** Entry `i` of a batch answers operation `i` with the result that
      operation has on the list the earlier operations left. */
  lemma {:induction false} BatchEntryIsStep(cs: seq<Record>, ops: seq<Json>, i: nat, clock: nat -> string)
    requires i < |RunBatch(cs, ops, clock).entries|
    ensures i < |ops|
    ensures RunBatch(cs, ops, clock).entries[i] ==
      Entry(ops[i], OpStep(RunBatch(cs, ops[..i], clock).cs, ops[i], clock(i)).1)
    decreases |ops|
  {
    var init := ops[..|ops| - 1];
    var prior := RunBatch(cs, init, clock);
    BatchAnswersEachOp(cs, init, clock);
    if i < |prior.entries| {
      BatchEntryIsStep(cs, init, i, clock);
      assert init[..i] == ops[..i];
      assert init[i] == ops[i];
    } else {
      assert init == ops[..i];
    }
  }

  /** Operation `i` of a batch not yet aborted: a missing operation aborts
      the loop with nothing else changed; any other runs on the list the
      earlier operations left, and its entry is its own result, the
      unknown-operation failure when its `type` is none of the three. */
  lemma RunBatchNext(cs: seq<Record>, ops: seq<Json>, i: nat, clock: nat -> string)
    requires i < |ops| && !RunBatch(cs, ops[..i], clock).aborted
    ensures Nullish(ops[i]) ==>
      RunBatch(cs, ops[..i + 1], clock) == RunBatch(cs, ops[..i], clock).(aborted := true)
    ensures !Nullish(ops[i]) ==>
      var prior := RunBatch(cs, ops[..i], clock);
      var step := OpStep(prior.cs, ops[i], clock(i));
      RunBatch(cs, ops[..i + 1], clock) == BatchRun(step.0, prior.entries + [Entry(ops[i], step.1)], false)
    ensures !Nullish(ops[i]) && Prop(ops[i], "type") !in {Str("add"), Str("update"), Str("delete")} ==>
      var prior := RunBatch(cs, ops[..i], clock);
      RunBatch(cs, ops[..i + 1], clock) == BatchRun(prior.cs, prior.entries + [Entry(ops[i], Failure(UnknownOperationError))], false)
  {
    assert ops[..i + 1][..i] == ops[..i];
    assert ops[..i + 1][i] == ops[i];
  }

  /** A batch of one operation does what the single call does. */
  lemma BatchOfOne(cs: seq<Record>, op: Json, clock: nat -> string)
    requires !Nullish(op)
    ensures BatchStep(cs, Arr([op]), clock) == (OpStep(cs, op, clock(0)).0, Completed([Entry(op, OpStep(cs, op, clock(0)).1)]))
  {
    assert [op][..0] == [];
    assert RunBatch(cs, [], clock) == BatchRun(cs, [], false);
    var step := OpStep(cs, op, clock(0));
    assert RunBatch(cs, [op], clock) == BatchRun(step.0, [Entry(op, step.1)], false);
  }

  // ---------------------------------------------------------------------
  // Export and import

  /** `exportData`'s `data` */
  function ExportDoc(cs: seq<Record>, iso: string): Json {
    Obj(map["companies" := Arr(Objects(cs)), "exportTime" := Str(iso), "version" := Str(ExportVersion)])
  }

  /** `{...importCompany, updatedAt}` */
  function Overwrite(imp: Json, at: string): Record {
    Spread(imp) + map["updatedAt" := Str(at)]
  }

  /** `{...importCompany, createdAt, updatedAt}` */
  function Inserted(imp: Json, at: string): Record {
    Spread(imp) + map["createdAt" := Str(at), "updatedAt" := Str(at)]
  }

  /** The list while merging, the two counters, and whether reading the id
      of a missing incoming company raised. */
  datatype MergeRun = MergeRun(cs: seq<Record>, added: nat, updated: nat, failed: bool)

  /** One turn of the merge `forEach`. `findIndex` calls its test only on a
      non-empty list, so a missing company raises only then. */
  function MergeOne(run: MergeRun, imp: Json, at: string): MergeRun {
    if Nullish(imp) && run.cs != [] then run.(failed := true)
    else match FindId(run.cs, Prop(imp, "id"))
      case Some(k) => run.(cs := run.cs[k := Overwrite(imp, at)], updated := run.updated + 1)
      case None => run.(cs := run.cs + [Inserted(imp, at)], added := run.added + 1)
  }

  /** The merge `forEach` over the incoming companies. */
  function MergeAll(cs: seq<Record>, imps: seq<Json>, at: string): MergeRun
    decreases |imps|
  {
    if imps == [] then MergeRun(cs, 0, 0, false)
    else
      var prior := MergeAll(cs, imps[..|imps| - 1], at);
      if prior.failed then prior else MergeOne(prior, imps[|imps| - 1], at)
  }

  /** The replacing `map` */
  function Replace(imps: seq<Json>, at: string): (r: seq<Record>)
    ensures |r| == |imps|
  {
    seq(|imps|, i requires 0 <= i < |imps| => Overwrite(imps[i], at))
  }

  datatype ImportReply = MergedIn(added: nat, updated: nat) | Replaced(count: nat)

  /** `importData(data, options)`: the shape test reads `data.companies`,
      then `options.merge` is read. */
  function ImportStep(cs: seq<Record>, input: Json, options: Json, at: string): (seq<Record>, Outcome<ImportReply>) {
    if Nullish(input) then (cs, Failure(TypeErrorMessage))
    else
      var list := Prop(input, "companies");
      if !Truthy(list) || !list.Arr? then (cs, Failure(InvalidImportError))
      else if options.Null? then (cs, Failure(TypeErrorMessage))
      else if MergeMode(options) then
        var run := MergeAll(cs, list.items, at);
        (run.cs, if run.failed then Failure(TypeErrorMessage) else Success(MergedIn(run.added, run.updated)))
      else
        var r := Replace(list.items, at);
        (r, Success(Replaced(|r|)))
  }

  lemma SpreadId(imp: Json)
    ensures Field(Spread(imp), "id") == Prop(imp, "id")
  {
  }

  /** Once the merge has failed, later companies change nothing. */
  lemma {:induction false} MergeStops(cs: seq<Record>, imps: seq<Json>, k: nat, at: string)
    requires k <= |imps| && MergeAll(cs, imps[..k], at).failed
    ensures MergeAll(cs, imps, at) == MergeAll(cs, imps[..k], at)
    decreases |imps| - k
  {
    if k < |imps| {
      assert imps[..k + 1][..k] == imps[..k];
      MergeStops(cs, imps, k + 1, at);
    } else {
      assert imps[..k] == imps;
    }
  }

  /** A merge counts every incoming company once, as added or updated; the
      list grows by the added ones and never shrinks; ids that were
      distinct stay distinct, since a company whose id is already stored
      overwrites that company instead of joining the list. */
  lemma {:induction false} MergeCounts(cs: seq<Record>, imps: seq<Json>, at: string)
    ensures !MergeAll(cs, imps, at).failed ==>
      MergeAll(cs, imps, at).added + MergeAll(cs, imps, at).updated == |imps|
    ensures |MergeAll(cs, imps, at).cs| == |cs| + MergeAll(cs, imps, at).added
    ensures DistinctIds(cs) ==> DistinctIds(MergeAll(cs, imps, at).cs)
    decreases |imps|
  {
    if imps != [] {
      var init := imps[..|imps| - 1];
      MergeCounts(cs, init, at);
      var prior := MergeAll(cs, init, at);
      if !prior.failed {
        MergeOneCounts(prior, imps[|imps| - 1], at);
      }
    }
  }

  /** One turn of the merge counts its entry once, as added or as updated,
      and keeps ids distinct. */
  lemma MergeOneCounts(run: MergeRun, imp: Json, at: string)
    requires !run.failed
    ensures var next := MergeOne(run, imp, at);
      && next.added >= run.added
      && (!next.failed ==> next.added + next.updated == run.added + run.updated + 1)
      && |next.cs| - |run.cs| == next.added - run.added
      && (DistinctIds(run.cs) ==> DistinctIds(next.cs))
  {
    if !(Nullish(imp) && run.cs != []) {
      SpreadId(imp);
      var id := Prop(imp, "id");
      match FindId(run.cs, id)
      case Some(k) =>
        var after := run.cs[k := Overwrite(imp, at)];
        assert Field(after[k], "id") == Field(run.cs[k], "id");
        assert forall j :: 0 <= j < |after| ==> Field(after[j], "id") == Field(run.cs[j], "id");
      case None =>
        var after := run.cs + [Inserted(imp, at)];
        assert Field(after[|run.cs|], "id") == id;
    }
  }

  /** The ids of the incoming companies. */
  ghost function IncomingIds(imps: seq<Json>): set<Json> {
    set i | 0 <= i < |imps| :: Prop(imps[i], "id")
  }

  lemma IncomingIdsNext(imps: seq<Json>)
    requires imps != []
    ensures IncomingIds(imps) == IncomingIds(imps[..|imps| - 1]) + {Prop(imps[|imps| - 1], "id")}
  {
    var init := imps[..|imps| - 1];
    forall x | x in IncomingIds(imps)
      ensures x in IncomingIds(init) + {Prop(imps[|imps| - 1], "id")}
    {
      var i :| 0 <= i < |imps| && Prop(imps[i], "id") == x;
      if i < |init| {
        assert init[i] == imps[i];
      }
    }
    forall x | x in IncomingIds(init)
      ensures x in IncomingIds(imps)
    {
      var i :| 0 <= i < |init| && Prop(init[i], "id") == x;
      assert init[i] == imps[i];
    }
  }

  /** After a merge the list holds the ids it held before and the ids of
      every incoming company, and no others. */
  lemma {:induction false} MergeIds(cs: seq<Record>, imps: seq<Json>, at: string)
    requires !MergeAll(cs, imps, at).failed
    ensures IdSet(MergeAll(cs, imps, at).cs) == IdSet(cs) + IncomingIds(imps)
    decreases |imps|
  {
    if imps != [] {
      var init := imps[..|imps| - 1];
      var imp := imps[|imps| - 1];
      var prior := MergeAll(cs, init, at);
      assert !prior.failed;
      assert MergeAll(cs, imps, at) == MergeOne(prior, imp, at);
      MergeIds(cs, init, at);
      IncomingIdsNext(imps);
      MergeOneIds(prior, imp, at);
    }
  }

  /** One turn of the merge adds the incoming id to the ids. */
  lemma MergeOneIds(run: MergeRun, imp: Json, at: string)
    requires !MergeOne(run, imp, at).failed
    ensures IdSet(MergeOne(run, imp, at).cs) == IdSet(run.cs) + {Prop(imp, "id")}
  {
    SpreadId(imp);
    var id := Prop(imp, "id");
    match FindId(run.cs, id)
    case Some(k) =>
      var after := run.cs[k := Overwrite(imp, at)];
      assert MergeOne(run, imp, at).cs == after;
      SameIds(run.cs, after);
      assert id in IdSet(run.cs);
    case None =>
      assert MergeOne(run, imp, at).cs == run.cs + [Inserted(imp, at)];
      IdSetAppend(run.cs, Inserted(imp, at));
  }

  lemma SameIds(a: seq<Record>, b: seq<Record>)
    requires |a| == |b|
    requires forall j :: 0 <= j < |a| ==> Field(a[j], "id") == Field(b[j], "id")
    ensures IdSet(a) == IdSet(b)
  {
    forall x | x in IdSet(a) ensures x in IdSet(b) {
      var j :| 0 <= j < |a| && Field(a[j], "id") == x;
      assert Field(b[j], "id") == x;
    }
    forall x | x in IdSet(b) ensures x in IdSet(a) {
      var j :| 0 <= j < |b| && Field(b[j], "id") == x;
      assert Field(a[j], "id") == x;
    }
  }

  lemma IdSetAppend(cs: seq<Record>, c: Record)
    ensures IdSet(cs + [c]) == IdSet(cs) + {Field(c, "id")}
  {
    var after := cs + [c];
    forall x | x in IdSet(after) ensures x in IdSet(cs) + {Field(c, "id")} {
      var j :| 0 <= j < |after| && Field(after[j], "id") == x;
      if j < |cs| {
        assert after[j] == cs[j];
      }
    }
    forall x | x in IdSet(cs) ensures x in IdSet(after) {
      var j :| 0 <= j < |cs| && Field(cs[j], "id") == x;
      assert after[j] == cs[j];
    }
    assert after[|cs|] == c;
  }

  /** `{...c, updatedAt: at}` */
  function Restamp(c: Record, at: string): (r: Record)
    ensures Field(r, "id") == Field(c, "id")
  {
    c["updatedAt" := Str(at)]
  }

  /** The first `n` companies restamped, the others as they are. */
  function Restamped(cs: seq<Record>, n: nat, at: string): (r: seq<Record>)
    ensures |r| == |cs|
    ensures forall i :: 0 <= i < |cs| ==> Field(r[i], "id") == Field(cs[i], "id")
  {
    seq(|cs|, i requires 0 <= i < |cs| => if i < n then Restamp(cs[i], at) else cs[i])
  }

  lemma OverwriteObject(c: Record, at: string)
    ensures Overwrite(Obj(c), at) == Restamp(c, at)
  {
    var a := Overwrite(Obj(c), at);
    var b := Restamp(c, at);
    assert a.Keys == b.Keys;
    assert forall k :: k in a ==> a[k] == b[k];
  }

  /** Importing an export in replace mode gives the exported companies
      back, restamped. */
  lemma ExportImportRoundTrip(cs: seq<Record>, before: seq<Record>, iso: string, at: string)
    ensures ImportStep(before, ExportDoc(cs, iso), Undefined, at) ==
      (Restamped(cs, |cs|, at), Success(Replaced(|cs|)))
  {
    var list := Prop(ExportDoc(cs, iso), "companies");
    assert list == Arr(Objects(cs));
    var r := Replace(Objects(cs), at);
    forall i | 0 <= i < |cs|
      ensures r[i] == Restamped(cs, |cs|, at)[i]
    {
      OverwriteObject(cs[i], at);
    }
    assert r == Restamped(cs, |cs|, at);
  }

  /** Merging an export back into the store it came from counts every
      company as updated and changes nothing but the stamps. */
  lemma ExportMergeRoundTrip(cs: seq<Record>, iso: string, at: string)
    requires DistinctIds(cs)
    ensures ImportStep(cs, ExportDoc(cs, iso), Obj(map["merge" := Bool(true)]), at) ==
      (Restamped(cs, |cs|, at), Success(MergedIn(0, |cs|)))
  {
    var list := Prop(ExportDoc(cs, iso), "companies");
    assert list == Arr(Objects(cs));
    assert MergeMode(Obj(map["merge" := Bool(true)]));
    MergePrefix(cs, |cs|, at);
    assert Objects(cs)[..|cs|] == Objects(cs);
  }

  /** The first `n` exported companies, merged back, restamp the first `n`
      stored ones. */
  lemma {:induction false} MergePrefix(cs: seq<Record>, n: nat, at: string)
    requires DistinctIds(cs) && n <= |cs|
    ensures MergeAll(cs, Objects(cs)[..n], at) == MergeRun(Restamped(cs, n, at), 0, n, false)
  {
    if n == 0 {
      assert Restamped(cs, 0, at) == cs;
    } else {
      var imps := Objects(cs)[..n];
      assert imps[..n - 1] == Objects(cs)[..n - 1];
      assert imps[n - 1] == Obj(cs[n - 1]);
      MergePrefix(cs, n - 1, at);
      MergePrefixStep(cs, n, at);
    }
  }

  /** Merging back the `n`-th exported company restamps the `n`-th stored
      one. */
  lemma MergePrefixStep(cs: seq<Record>, n: nat, at: string)
    requires DistinctIds(cs) && 0 < n <= |cs|
    ensures MergeOne(MergeRun(Restamped(cs, n - 1, at), 0, n - 1, false), Obj(cs[n - 1]), at)
      == MergeRun(Restamped(cs, n, at), 0, n, false)
  {
    var prior := Restamped(cs, n - 1, at);
    var imp := Obj(cs[n - 1]);
    var id := Field(cs[n - 1], "id");
    assert Prop(imp, "id") == id;
    assert FindId(prior, id) == Some(n - 1);
    OverwriteObject(cs[n - 1], at);
    assert prior[n - 1 := Overwrite(imp, at)] == Restamped(cs, n, at);
  }
}
