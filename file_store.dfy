/** data.js's `CompanyDatabase` as a class: the in-memory list and the lock
    flag are fields the methods update, and the files live in a `FileSystem`
    object the store shares with whoever else looks at the disk. Each
    method is proved to move the pair (store, files) exactly as the
    matching function of `FileStoreSpec` says, so the properties proved
    there hold of the class. */
module FileStore {
  import opened JsonValues
  import opened Records
  import opened FileStoreSpec

  /** The data directory: the data file, its temporary sibling, the lock
      file and the backup directory. */
  class FileSystem {
    var state: DiskState

    constructor (initial: DiskState)
      ensures state == initial
    {
      state := initial;
    }

    /** `fs.unlink` of a backup: the entry called `name` leaves the
        listing. */
    method Unlink(name: string)
      modifies this
      ensures state == old(state).(backups := Without(old(state.backups), name))
    {
      state := state.(backups := Without(state.backups, name));
    }

    /** The loop of `cleanOldBackups`: unlinks the files of `c` from index
        `from` on, in order. */
    method UnlinkFrom(c: seq<DirEntry>, from: nat)
      requires from <= |c|
      modifies this
      ensures state == old(state).(backups := WithoutAll(old(state.backups), c[from..]))
    {
      ghost var start := state.backups;
      var i := from;
      while i < |c|
        invariant from <= i <= |c|
        invariant state.backups == UnlinkedFrom(start, c, from, i)
        invariant state.dataFile == old(state.dataFile) && state.tempFile == old(state.tempFile)
        invariant state.lockFile == old(state.lockFile)
      {
        Unlink(c[i].name);
        i := i + 1;
      }
      UnlinkedFromAll(start, c, from, |c|);
      assert c[from..|c|] == c[from..];
    }
  }

  class CompanyDatabase {
    const disk: FileSystem
    /** `generateChecksum`: the MD5 of the serialised list. */
    const checksum: seq<Json> -> string
    var companies: seq<Json>
    var isLocked: bool

    function State(): Snap
      reads this, disk
    {
      Snap(companies, isLocked, disk.state)
    }

    /** The store with the corrected `saveData`: a save that runs while
        the store already holds its lock (inside `batchOperation` or
        `importData`) writes under that lock instead of trying to take it
        again. `Env(checksum, false)` is the code as written. */
    function Config(): Env {
      Env(checksum, true)
    }

    /** `new CompanyDatabase()`: starts empty and unlocked, then loads. */
    constructor (disk: FileSystem, checksum: seq<Json> -> string, at: Instant)
      modifies disk
      ensures this.disk == disk && this.checksum == checksum
      ensures State() == Load(Snap([], false, old(disk.state)), at, Env(checksum, true))
    {
      this.disk := disk;
      this.checksum := checksum;
      companies := [];
      isLocked := false;
      new;
      LoadData(at);
    }

    /** `acquireLock`: up to 50 attempts; the 100 ms sleep between them is
        not modelled, and nothing removes the lock file meanwhile. */
    method AcquireLock() returns (ok: bool)
      modifies this, disk
      ensures (State(), ok) == Acquire(old(State()))
    {
      var attempts := 0;
      while attempts < MaxAttempts
        invariant 0 <= attempts <= MaxAttempts
        invariant State() == old(State())
        invariant attempts > 0 ==> disk.state.lockFile
      {
        if !disk.state.lockFile {
          disk.state := disk.state.(lockFile := true);
          isLocked := true;
          return true;
        }
        attempts := attempts + 1;
      }
      return false;
    }

    /** `releaseLock` */
    method ReleaseLock()
      modifies this, disk
      ensures State() == Release(old(State()))
    {
      if isLocked && disk.state.lockFile {
        disk.state := disk.state.(lockFile := false);
        isLocked := false;
      }
    }

    /** `saveData`: `Some(e)` is the error it rethrows. Under a lock the
        store already holds, it only writes. */
    method SaveData(at: Instant) returns (err: Option<string>)
      modifies this, disk
      ensures (State(), err) == Save(old(State()), at, Config())
    {
      if isLocked {
        var doc := Document(companies, at.iso, checksum(companies));
        disk.state := disk.state.(tempFile := Some(Parsed(doc)));
        disk.state := disk.state.(dataFile := disk.state.tempFile, tempFile := None);
        return None;
      }
      var ok := AcquireLock();
      if ok {
        var doc := Document(companies, at.iso, checksum(companies));
        disk.state := disk.state.(tempFile := Some(Parsed(doc)));
        disk.state := disk.state.(dataFile := disk.state.tempFile, tempFile := None);
        err := None;
      } else {
        err := Some(LockError);
      }
      ReleaseLock();
    }

    /** `validateData` */
    static method ValidateData(d: Json) returns (ok: bool)
      ensures ok == ValidDocument(d)
    {
      if !Truthy(d) || !(d.Obj? || d.Arr?) {
        return false;
      }
      var cs := Prop(d, "companies");
      if !cs.Arr? {
        return false;
      }
      var i := 0;
      while i < |cs.items|
        invariant 0 <= i <= |cs.items|
        invariant forall j :: 0 <= j < i ==> ValidCompany(cs.items[j])
      {
        var c := cs.items[i];
        if !Truthy(Prop(c, "id")) || !Truthy(Prop(c, "name")) || !Prop(c, "investmentScore").Num? {
          return false;
        }
        i := i + 1;
      }
      return true;
    }

    /** `restoreFromBackup` */
    method RestoreFromBackup()
      modifies this
      ensures State() == old(State()).(companies := Restored(disk.state.backups))
    {
      var c := Candidates(disk.state.backups);
      if |c| > 0 && c[0].content.Parsed? {
        var ok := ValidateData(c[0].content.doc);
        if ok {
          companies := DocCompanies(c[0].content.doc);
          return;
        }
      }
      companies := [];
    }

    /** `loadData` */
    method LoadData(at: Instant)
      modifies this, disk
      ensures State() == Load(old(State()), at, Config())
    {
      match disk.state.dataFile
      case None =>
        companies := [];
        var ignored := SaveData(at);
      case Some(content) =>
        if content.Parsed? {
          var ok := ValidateData(content.doc);
          if ok {
            companies := DocCompanies(content.doc);
          } else {
            RestoreFromBackup();
          }
        } else {
          RestoreFromBackup();
        }
    }

    /** `cleanOldBackups`: unlinks the candidates past the third, one by
        one. */
    method CleanOldBackups()
      modifies disk
      ensures disk.state == old(disk.state).(backups := Pruned(old(disk.state.backups)))
    {
      var start := disk.state.backups;
      var c := Candidates(start);
      if |c| > KeptBackups {
        disk.UnlinkFrom(c, KeptBackups);
      }
    }

    /** `createBackup` */
    method CreateBackup(at: Instant)
      modifies disk
      ensures State() == Backup(old(State()), at)
    {
      if disk.state.dataFile.Some? {
        var name := BackupName(at.iso);
        var copy := DirEntry(name, at.millis, disk.state.dataFile.value);
        disk.state := disk.state.(backups := Without(disk.state.backups, name) + [copy]);
        CleanOldBackups();
      }
    }

    /** `getAllCompanies`: the reloaded list (its length is the `count`). */
    method GetAllCompanies(at: Instant) returns (r: seq<Json>)
      modifies this, disk
      ensures State() == Load(old(State()), at, Config())
      ensures r == companies && AllValid(r)
    {
      LoadData(at);
      r := companies;
    }

    /** `getCompanyById` */
    method GetCompanyById(id: Json, at: Instant) returns (r: Json)
      modifies this, disk
      ensures (State(), r) == GetById(old(State()), id, at, Config())
    {
      LoadData(at);
      var k := FindIndex(companies, id);
      r := if k.Some? then companies[k.value] else Null;
    }

    /** `addCompany` */
    method AddCompany(data: Json, at: Instant) returns (r: Outcome<Json>)
      modifies this, disk
      ensures (State(), r) == AddStep(old(State()), data, at, Config())
    {
      if Nullish(data) {
        return Failure(TypeErrorMessage);
      }
      if !Truthy(NameOf(data)) || !Prop(data, "investmentScore").Num? {
        return Failure(MissingFieldsError);
      }
      LoadData(at);
      if NameTaken(companies, NameOf(data)) {
        return Failure(NameTakenError);
      }
      var c := NewCompany(data, at);
      r := CommitRecord(companies + [c], c, at);
    }

    /** `updateCompany` */
    method UpdateCompany(id: Json, patch: Json, at: Instant) returns (r: Outcome<Json>)
      modifies this, disk
      ensures (State(), r) == UpdateStep(old(State()), id, patch, at, Config())
    {
      LoadData(at);
      r := ApplyUpdate(id, patch, at);
    }

    /** `updateCompany` on the reloaded list. */
    method ApplyUpdate(id: Json, patch: Json, at: Instant) returns (r: Outcome<Json>)
      modifies this, disk
      ensures (State(), r) == UpdateLoaded(old(State()), id, patch, at, Config())
    {
      var k := FindIndex(companies, id);
      if k.None? {
        return Failure(NotFoundError);
      }
      if Nullish(patch) {
        return Failure(TypeErrorMessage);
      }
      if Truthy(NameOf(patch)) && NameClash(companies, NameOf(patch), id) {
        return Failure(NameTakenError);
      }
      var c := Merged(companies[k.value], patch, at);
      r := CommitRecord(companies[k.value := c], c, at);
    }

    /** `deleteCompany` */
    method DeleteCompany(id: Json, at: Instant) returns (r: Outcome<Json>)
      modifies this, disk
      ensures (State(), r) == DeleteStep(old(State()), id, at, Config())
    {
      LoadData(at);
      r := ApplyDelete(id, at);
    }

    /** `deleteCompany` on the reloaded list. */
    method ApplyDelete(id: Json, at: Instant) returns (r: Outcome<Json>)
      modifies this, disk
      ensures (State(), r) == DeleteLoaded(old(State()), id, at, Config())
    {
      var k := FindIndex(companies, id);
      if k.None? {
        return Failure(NotFoundError);
      }
      var c := companies[k.value];
      r := CommitRecord(companies[..k.value] + companies[k.value + 1..], c, at);
    }

    /** The common tail of the record operations: the new list goes into
        memory, then `saveData` runs and its error, if any, is the answer. */
    method CommitRecord(cs: seq<Json>, c: Json, at: Instant) returns (r: Outcome<Json>)
      modifies this, disk
      ensures (State(), r) == Commit(old(State()), cs, c, at, Config())
    {
      companies := cs;
      var err := SaveData(at);
      r := Reported(err, c);
    }

    /** `batchOperation`: the `i`-th operation runs at `clock(i)`. */
    method BatchOperation(operations: Json, clock: nat -> Instant) returns (r: BatchReply)
      modifies this, disk
      ensures (State(), r) == BatchStep(old(State()), operations, clock, Config())
    {
      var ok := AcquireLock();
      if !ok {
        ReleaseLock();
        return BatchFailed(LockError, []);
      }
      var iterated := Iterated(operations);
      if iterated.None? {
        ReleaseLock();
        return BatchFailed(TypeErrorMessage, []);
      }
      var ops := iterated.value;
      ghost var locked := State();
      var results: seq<Outcome<Json>> := [];
      var i := 0;
      while i < |ops|
        invariant 0 <= i <= |ops|
        invariant RunOps(locked, ops[..i], clock, Config()) == (State(), results, None)
      {
        var op := ops[i];
        RunOpsNext(locked, ops, i, clock, Config());
        if Nullish(op) {
          RunOpsStops(locked, ops, i + 1, clock, Config());
          ReleaseLock();
          return BatchFailed(TypeErrorMessage, results);
        }
        var res := RunOperation(op, clock(i));
        results := results + [res];
        i := i + 1;
      }
      assert ops[..|ops|] == ops;
      ReleaseLock();
      r := BatchDone(results);
    }

    /** One operation of the batch, dispatched on its `type`. */
    method RunOperation(op: Json, at: Instant) returns (res: Outcome<Json>)
      requires !Nullish(op)
      modifies this, disk
      ensures OpStep(old(State()), op, at, Config()) == Some((State(), res))
    {
      var t := Prop(op, "type");
      if t == Str("add") {
        res := AddCompany(Prop(op, "data"), at);
      } else if t == Str("update") {
        res := UpdateCompany(Prop(op, "id"), Prop(op, "data"), at);
      } else if t == Str("delete") {
        res := DeleteCompany(Prop(op, "id"), at);
      } else {
        res := Failure(UnknownOperationError);
      }
    }

    /** `searchCompanies` */
    method SearchCompanies(query: Json, lower: string -> string, at: Instant) returns (r: Outcome<seq<Json>>)
      modifies this, disk
      ensures (State(), r) == SearchStep(old(State()), query, lower, at, Config())
    {
      LoadData(at);
      if !query.Str? {
        return Failure(TypeErrorMessage);
      }
      r := Search(companies, query.s, lower);
    }

    /** The `forEach` of `getStatistics` and the rounded mean. */
    static method ComputeStatistics(cs: seq<Json>, iso: string) returns (st: Stats)
      requires AllValid(cs)
      ensures st == StatisticsOf(cs, iso)
    {
      var levels := InitialLevels;
      var total := 0;
      for i := 0 to |cs|
        invariant AllValid(cs[..i])
        invariant levels == TallyLevels(cs[..i])
        invariant total == SumScores(cs[..i])
      {
        assert cs[..i + 1][..i] == cs[..i];
        levels := Bump(levels, LevelKey(cs[i]));
        total := total + Prop(cs[i], "investmentScore").n;
      }
      assert cs[..|cs|] == cs;
      st := Stats(|cs|, levels, if |cs| > 0 then RoundHalfUp(total, |cs|) else 0, iso);
    }

    /** `getStatistics` */
    method GetStatistics(at: Instant) returns (st: Stats)
      modifies this, disk
      ensures State() == Load(old(State()), at, Config())
      ensures st == StatisticsOf(companies, at.iso)
    {
      LoadData(at);
      st := ComputeStatistics(companies, at.iso);
    }

    /** `exportData` */
    method ExportData(at: Instant) returns (r: Json)
      modifies this, disk
      ensures State() == Load(old(State()), at, Config())
      ensures r == ExportDoc(companies, at.iso)
    {
      LoadData(at);
      r := ExportDoc(companies, at.iso);
    }

    /** `importData`: the count of incoming records on success. */
    method ImportData(input: Json, options: Json, at: Instant) returns (r: Outcome<nat>)
      modifies this, disk
      ensures (State(), r) == ImportStep(old(State()), input, options, at, Config())
    {
      if Nullish(input) {
        ReleaseLock();
        return Failure(TypeErrorMessage);
      }
      if !ImportShapeOk(input) {
        ReleaseLock();
        return Failure(ImportFormatError);
      }
      var incoming := Prop(input, "companies").items;
      var ok := AcquireLock();
      if !ok {
        ReleaseLock();
        return Failure(LockError);
      }
      CreateBackup(at);
      if options.Null? {
        ReleaseLock();
        return Failure(TypeErrorMessage);
      }
      r := MergeOrReplace(incoming, MergeMode(options), at);
    }

    /** The body of `importData` after the backup, under the lock. */
    method MergeOrReplace(incoming: seq<Json>, merge: bool, at: Instant) returns (r: Outcome<nat>)
      modifies this, disk
      ensures (State(), r) == ImportLocked(old(State()), incoming, merge, at, Config())
    {
      if merge {
        r := MergeIncoming(incoming, at);
      } else {
        companies := incoming;
        var err := SaveData(at);
        ReleaseLock();
        r := Reported(err, |incoming|);
      }
    }

    /** The merging import: reload, then append the incoming records whose
        ids are new, and save. */
    method MergeIncoming(incoming: seq<Json>, at: Instant) returns (r: Outcome<nat>)
      modifies this, disk
      ensures (State(), r) == ImportLocked(old(State()), incoming, true, at, Config())
    {
      LoadData(at);
      if exists i :: 0 <= i < |incoming| && Nullish(incoming[i]) {
        ReleaseLock();
        return Failure(TypeErrorMessage);
      }
      companies := companies + FreshRecords(companies, incoming);
      var err := SaveData(at);
      ReleaseLock();
      r := Reported(err, |incoming|);
    }
  }
}
