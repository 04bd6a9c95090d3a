/** lib/database.js's `VercelDatabase` as a class: the list of companies is
    a field the methods reassign. Each method is proved to move the list
    and answer exactly as the matching function of `MemoryStoreSpec` says,
    so the properties proved there hold of the class. */
module MemoryStore {
  import opened JsonValues
  import opened Records
  import opened MemoryStoreSpec

  class VercelDatabase {
    var companies: seq<Record>

    /** `new VercelDatabase()`: a fresh copy of the defaults, whose ids are
        distinct. */
    constructor ()
      ensures companies == DefaultCompanies
      ensures DistinctIds(companies)
    {
      companies := DefaultCompanies;
      DefaultsDistinct();
    }

    /** `getAllCompanies`: the list and its length. */
    method GetAllCompanies() returns (data: seq<Record>, total: nat)
      ensures data == companies && total == |companies|
    {
      data := companies;
      total := |data|;
    }

    /** `getCompanyById` */
    method GetCompanyById(id: Json) returns (r: Outcome<Record>)
      ensures r == Lookup(companies, id)
    {
      var k := FindId(companies, id);
      if k.Some? {
        r := Success(companies[k.value]);
      } else {
        r := Failure(MissingCompanyError);
      }
    }

    /** `addCompany`, with the corrected id counter; both timestamps read
        the clock `at`. */
    method AddCompany(data: Json, at: string) returns (r: Outcome<Record>)
      modifies this
      ensures (companies, r) == AddStep(old(companies), data, at)
    {
      if Nullish(data) {
        return Failure(TypeErrorMessage);
      }
      if !Truthy(Prop(data, "name")) || !Truthy(Prop(data, "business")) {
        return Failure(RequiredFieldsError);
      }
      var newId := CountingId(companies);
      var score := Or(Prop(data, "investmentScore"), Num(0));
      var c := map["id" := Str(newId), "name" := Prop(data, "name"), "business" := Prop(data, "business"),
                   "investmentScore" := score, "investmentLevel" := Str(Grade(score)),
                   "createdAt" := Str(at), "updatedAt" := Str(at)];
      companies := companies + [c];
      r := Success(c);
    }

    /** `updateCompany` */
    method UpdateCompany(id: Json, patch: Json, at: string) returns (r: Outcome<Record>)
      modifies this
      ensures (companies, r) == UpdateStep(old(companies), id, patch, at)
    {
      var k := FindId(companies, id);
      if k.None? {
        return Failure(MissingCompanyError);
      }
      var c := companies[k.value] + Spread(patch) + map["id" := id, "updatedAt" := Str(at)];
      if Nullish(patch) {
        return Failure(TypeErrorMessage);
      }
      if Prop(patch, "investmentScore") != Undefined {
        c := c["investmentLevel" := Str(Grade(Prop(patch, "investmentScore")))];
      }
      companies := companies[k.value := c];
      r := Success(c);
    }

    /** `deleteCompany`: `splice(index, 1)` */
    method DeleteCompany(id: Json) returns (r: Outcome<Record>)
      modifies this
      ensures (companies, r) == DeleteStep(old(companies), id)
    {
      var k := FindId(companies, id);
      if k.None? {
        return Failure(MissingCompanyError);
      }
      var c := companies[k.value];
      companies := companies[..k.value] + companies[k.value + 1..];
      r := Success(c);
    }

    /** `searchCompanies`; `total` is the length of the hits. */
    method SearchCompanies(query: Json, lower: string -> string) returns (r: Outcome<seq<Json>>)
      ensures r == SearchStep(companies, query, lower)
    {
      if !query.Str? {
        return Failure(TypeErrorMessage);
      }
      r := Search(Objects(companies), query.s, lower);
    }

    /** `getStatistics` */
    method GetStatistics() returns (r: Outcome<MemStats>)
      ensures r == StatisticsOf(companies)
    {
      var ok, levels, businesses := Distributions(companies);
      if !ok {
        return Failure(TypeErrorMessage);
      }
      var average := Zero;
      if |companies| > 0 {
        average := AverageScore(companies);
      }
      r := Success(MemStats(|companies|, levels, businesses, average));
    }

    /** The `forEach` of `getStatistics`, which fills both distributions;
        `ok` is false when a `split` raised. */
    static method Distributions(cs: seq<Record>) returns (ok: bool, levels: map<string, nat>, businesses: map<string, nat>)
      ensures ok == BusinessOk(cs)
      ensures ok ==> levels == Tally(map[], LevelKeys(cs)) && businesses == Tally(map[], BusinessKeys(cs))
    {
      levels := map[];
      businesses := map[];
      var i := 0;
      while i < |cs|
        invariant 0 <= i <= |cs|
        invariant BusinessOk(cs[..i])
        invariant levels == Tally(map[], LevelKeys(cs[..i]))
        invariant businesses == Tally(map[], BusinessKeys(cs[..i]))
      {
        var c := cs[i];
        LevelKeysNext(cs, i);
        levels := Bump(levels, LevelKey(c));
        var b := Field(c, "business");
        if !b.Str? {
          BusinessNotOk(cs, i);
          return false, levels, businesses;
        }
        BusinessKeysNext(cs, i);
        businesses := BumpAll(businesses, BusinessParts(b.s));
        TallyConcat(map[], BusinessKeys(cs[..i]), BusinessParts(b.s));
        i := i + 1;
      }
      assert cs[..|cs|] == cs;
      ok := true;
    }

    /** `businesses.forEach(business => counts[business] = (counts[business] || 0) + 1)` */
    static method BumpAll(m: map<string, nat>, parts: seq<string>) returns (r: map<string, nat>)
      ensures r == Tally(m, parts)
    {
      r := m;
      var j := 0;
      while j < |parts|
        invariant 0 <= j <= |parts|
        invariant r == Tally(m, parts[..j])
      {
        assert parts[..j + 1][..j] == parts[..j];
        r := Bump(r, parts[j]);
        j := j + 1;
      }
      assert parts[..|parts|] == parts;
    }

    /** The `reduce` of `getStatistics` over a non-empty list. */
    static method AverageScore(cs: seq<Record>) returns (average: Average)
      requires cs != []
      ensures average == AverageOf(cs)
    {
      var sum := 0;
      var numeric := true;
      var k := 0;
      while k < |cs|
        invariant 0 <= k <= |cs|
        invariant ScoreSum(cs[..k]) == if numeric then Some(sum) else None
      {
        assert cs[..k + 1][..k] == cs[..k];
        var a := Addend(Field(cs[k], "investmentScore"));
        if numeric && a.Some? {
          sum := sum + a.value;
        } else {
          numeric := false;
        }
        k := k + 1;
      }
      assert cs[..|cs|] == cs;
      average := if numeric then Mean(sum, |cs|) else NotNumeric;
    }

    /** `batchOperation`: operation `i` runs at `clock(i)`. */
    method BatchOperation(operations: Json, clock: nat -> string) returns (r: BatchReply)
      modifies this
      ensures (companies, r) == BatchStep(old(companies), operations, clock)
    {
      var iterated := Iterated(operations);
      if iterated.None? {
        return Aborted(TypeErrorMessage);
      }
      var ops := iterated.value;
      ghost var start := companies;
      var entries: seq<Entry> := [];
      var i := 0;
      while i < |ops|
        invariant 0 <= i <= |ops|
        invariant RunBatch(start, ops[..i], clock) == BatchRun(companies, entries, false)
      {
        var op := ops[i];
        assert ops[..i + 1][..i] == ops[..i];
        if Nullish(op) {
          RunBatchStops(start, ops, i + 1, clock);
          return Aborted(TypeErrorMessage);
        }
        var t := Prop(op, "type");
        var res;
        if t == Str("add") {
          res := AddCompany(Prop(op, "data"), clock(i));
        } else if t == Str("update") {
          res := UpdateCompany(Prop(op, "id"), Prop(op, "data"), clock(i));
        } else if t == Str("delete") {
          res := DeleteCompany(Prop(op, "id"));
        } else {
          res := Failure(UnknownOperationError);
        }
        entries := entries + [Entry(op, res)];
        i := i + 1;
      }
      assert ops[..|ops|] == ops;
      r := Completed(entries);
    }

    /** `exportData`'s `data` */
    method ExportData(at: string) returns (r: Json)
      ensures r == ExportDoc(companies, at)
    {
      r := Obj(map["companies" := Arr(Objects(companies)), "exportTime" := Str(at), "version" := Str(ExportVersion)]);
    }

    /** `importData`: the merge `forEach` overwrites or appends company by
        company and counts each. */
    method ImportData(input: Json, options: Json, at: string) returns (r: Outcome<ImportReply>)
      modifies this
      ensures (companies, r) == ImportStep(old(companies), input, options, at)
    {
      if Nullish(input) {
        return Failure(TypeErrorMessage);
      }
      var list := Prop(input, "companies");
      if !Truthy(list) || !list.Arr? {
        return Failure(InvalidImportError);
      }
      if options.Null? {
        return Failure(TypeErrorMessage);
      }
      if MergeMode(options) {
        var incoming := list.items;
        ghost var start := companies;
        var added := 0;
        var updated := 0;
        var i := 0;
        while i < |incoming|
          invariant 0 <= i <= |incoming|
          invariant MergeAll(start, incoming[..i], at) == MergeRun(companies, added, updated, false)
        {
          var imp := incoming[i];
          assert incoming[..i + 1][..i] == incoming[..i];
          if Nullish(imp) && companies != [] {
            MergeStops(start, incoming, i + 1, at);
            return Failure(TypeErrorMessage);
          }
          var k := FindId(companies, Prop(imp, "id"));
          if k.Some? {
            companies := companies[k.value := Overwrite(imp, at)];
            updated := updated + 1;
          } else {
            companies := companies + [Inserted(imp, at)];
            added := added + 1;
          }
          i := i + 1;
        }
        assert incoming[..|incoming|] == incoming;
        r := Success(MergedIn(added, updated));
      } else {
        companies := Replace(list.items, at);
        r := Success(Replaced(|companies|));
      }
    }
  }
}
