# Company investment database, modelled in Dafny

This project models a small company-investment tracker. It keeps a list of
companies, each with a name, a business description, an investment score
from 0 to 100 and the investment label derived from that score. Three parts
are modelled:

- **`CompanyDatabase` (data.js)** keeps the list in a JSON file. Every
  operation reloads the file first. Saving takes a lock file, writes a
  temporary file and renames it over the data file. When the data file is
  damaged, the store restores the newest backup, and it keeps only the
  newest backups. The `FileStore.CompanyDatabase` class has the list and the
  lock flag as fields. The files live in a `FileStore.FileSystem` object.
  Every method is proved to move the store and its files exactly as a
  function of `FileStoreSpec` says, and the properties are proved about
  those functions.
- **`VercelDatabase` (lib/database.js)** keeps the list in memory, starting
  from three default companies. It grades scores with letters (A+ … D). The
  `MemoryStore.VercelDatabase` class reassigns a `seq` field. Each method is
  proved against a function of `MemoryStoreSpec`, and the properties are
  proved there.
- **The dashboard's pure helpers (script.js)** are modelled in `Dashboard`:
  the score label, the CSS class, the legacy score fallback, the filtered
  and sorted view, the revenue normaliser (a method with loops), the HTML
  escaper and the risk bands.

Shared pieces are modelled once:

- `JsonValues` holds JavaScript values and the conversions the code relies
  on: `||`, `??`, spread, `Number`, `String`, `parseInt`, `split`, `trim`
  and `includes`.
- `Sorting` holds a stable sort, a filter and a distinctness predicate.
- `Records` holds what both stores share: the four-band label, the lookup
  by id and the search.

JavaScript numbers are modelled as integers. Property order of a JavaScript
object is a parameter where the code depends on it. `toLowerCase`, the
clock and the MD5 checksum are parameters as well.

Three defects of the code are listed under "## Findings". For each, the
code as written is modelled by its own member, with a lemma that shows the
defect, and the classes use the corrected behaviour:

- `FileStore.CompanyDatabase` saves under a lock it already holds instead
  of trying to take it again (`Env.reentrant` set).
- `MemoryStore.VercelDatabase` numbers new companies with `CountingId`,
  which gives "1" on an empty list and the code's own id otherwise.

Where the code's own comments and the code differ, the model follows the
code: `cleanOldBackups` keeps three backups, although the comment beside
its call (data.js:174) says ten.

## Model

| member | source | states |
|---|---|---|
| Records.InvestmentLevel | data.js:460-472 | the four inclusive bands 0-25 不建议投资, 26-50 高风险, 51-75 谨慎投资, 76-100 值得投资, each as an if-and-only-if; 未知 exactly outside 0..100 |
| Records.FindIndex | data.js:344 | `findIndex` by `id`: none exactly when no company has the id; otherwise the first company with it |
| Records.Search | data.js:477-499 | `searchCompanies`: fails with a TypeError exactly when the filter callback throws for some company (a field it reads is not a string); otherwise the hits are exactly the companies whose lowered name, business or level contains the lowered query |
| Records.SearchTestIsHit | data.js:481-485 | the filter callback answers exactly the hit predicate |
| Records.SearchConcat | data.js:481-485 | searching a concatenated list gives the concatenated hits (the search keeps list order) |
| Sorting.SortBy | script.js:373-377 | same length, a permutation of the input (multiset), ascending by the key |
| Sorting.SortByDescending | script.js:373-377 | the same for `b - a`: a permutation, descending by the key |
| Sorting.SortByStable | script.js:373-377 | the sort is stable (`Array.prototype.sort` is, since ES2019): the elements of any one key come out in their input order |
| Sorting.SortByDescendingStable | script.js:373-377 | the descending sort is stable too |
| Sorting.FilterMembers | script.js:356-371 | `Array.prototype.filter`: keeps exactly the elements meeting the test |
| Sorting.FilterConcat | script.js:356-371 | the filter keeps the original order: filtering a concatenation concatenates the filtered parts |
| FileStoreSpec.DocumentRoundTrip | data.js:107-122 | the document `saveData` writes passes `validateData` exactly when every company has a truthy id, a truthy name and a numeric score, and then gives back the same list |
| FileStoreSpec.LockNotReentrant | data.js:43-76 | `acquireLock` succeeds exactly when no lock file exists; a second acquire fails; release after acquire restores the files |
| FileStoreSpec.ReleaseNeedsOwnership | data.js:67-76 | `releaseLock` only deletes the lock file when this store holds the lock |
| FileStoreSpec.Save | data.js:127-152 | `saveData`: the list and the backups are unchanged; on success the data file holds the document and no temporary file is left; on failure the error is the lock message and the data file is untouched; as written, success means no lock file was present and the lock is never left held by the store |
| FileStoreSpec.Reported | data.js:370-383 | an operation that ends with a save succeeds exactly when the save does |
| FileStoreSpec.Sanitize | data.js:168 | the ISO time with every `:` and `.` replaced, same length |
| FileStoreSpec.BackupName | data.js:169 | the backup name has the `companies_` prefix and `.json` suffix that the cleanup and the restore look for |
| FileStoreSpec.CandidatesProps | data.js:187-194 | the listed backups are exactly the backup-named files, newest first |
| FileStoreSpec.PruneKeepsNewest | data.js:185-205 | `cleanOldBackups` deletes no file other than backups and keeps exactly the three newest backups |
| FileStoreSpec.WithoutAllMembers | data.js:197-201 | unlinking a list of files removes exactly the entries with those names |
| FileStoreSpec.UnlinkedFromAll | data.js:198-200 | unlinking the candidates one after another is unlinking all of them |
| FileStoreSpec.Restored | data.js:210-239 | whatever `restoreFromBackup` loads passes validation |
| FileStoreSpec.RestoreTakesNewest | data.js:210-239 | a restored list comes from the newest valid backup; with no backup the list is empty |
| FileStoreSpec.BackupThenRestore | data.js:166-239 | after `createBackup` of a valid data file, the restore brings back exactly that data file's list |
| FileStoreSpec.NewestFirst | data.js:192-194 | a backup newer than all others is the first candidate |
| FileStoreSpec.Load | data.js:81-102 | `loadData`: the loaded list is always valid; a missing data file gives an empty list and saves it; a valid file gives its list; a damaged one gives the restored backup |
| FileStoreSpec.SaveThenLoad | data.js:81-152 | after a successful save, the next load gives back the saved list |
| FileStoreSpec.AddFailures | data.js:297-336 | `addCompany` fails with the missing-fields message when the name is falsy or the score is not a number, and with the name-taken message when the name is in use |
| FileStoreSpec.AddSuccess | data.js:297-336 | a successful add appends one valid company with an unused name and the label of its score, and the data file then holds the new list |
| FileStoreSpec.NewCompanyFields | data.js:311-319 | the new record has a truthy id, the given name and score, and the given level or else the one its score maps to |
| FileStoreSpec.MergedFields | data.js:358-367 | the updated company keeps every field the patch does not name, takes every patched field, gets a new `updatedAt`, and gets its label recomputed exactly when the patch carries a numeric score |
| FileStoreSpec.UpdateOutcome | data.js:344-384 | on the reloaded list, `updateCompany` reports not-found when no company has the id and name-taken when another company has the patched name; a success replaces only the first company with the id, by the merged record it returns |
| FileStoreSpec.DeleteOutcome | data.js:392-413 | on the reloaded list, `deleteCompany` reports not-found exactly when no company has the id; a success splices out and returns the first company with it, keeping the others in order |
| FileStoreSpec.RunOps | data.js:424-440 | the batch loop gives at most one result per operation, and exactly one each when it is not interrupted |
| FileStoreSpec.RunOpsStops | data.js:424-451 | once the batch loop has thrown, later operations change nothing |
| FileStoreSpec.RunOpsNext | data.js:424-440 | one more operation: a `null` one ends the loop with a TypeError, any other appends its own step's result |
| FileStoreSpec.BatchAnswersEachOp | data.js:418-455 | `batchOperation` answers every operation the `for ... of` yields; a held lock fails the whole batch; operations that are not an array or a string fail it with a TypeError after the lock is taken, and the lock is freed; an unknown type is answered with the unknown-operation message |
| FileStoreSpec.RunOpsUnknown | data.js:424-438 | operations with no `type` are each answered with the unknown-operation message, and change nothing |
| FileStoreSpec.BatchOfString | data.js:418-455 | a string passed as the operations is walked character by character, each answered with the unknown-operation message, and the lock is freed |
| FileStoreSpec.KeyIndex | data.js:510-522 | the distribution lookup finds the entry with that label, or reports that there is none |
| FileStoreSpec.CountKey | data.js:510-522 | a label count never exceeds the number of companies |
| FileStoreSpec.RoundHalfUp | data.js:526-528 | `Math.round(total / n)` rounds half up |
| FileStoreSpec.TallyCounts | data.js:504-541 | the level distribution starts with the four labels, counts every label exactly, has no label twice, and has an entry for every level some company carries |
| FileStoreSpec.TallyTable | data.js:510-524 | after any list of companies the distribution holds the four labels first with their exact counts; every other entry is NaN (`undefined++`) and is the level of some company; no level appears twice |
| FileStoreSpec.TallyCovers | data.js:521-523 | every level some company carries has an entry in the distribution |
| FileStoreSpec.TallySumsToTotal | data.js:504-541 | when every company carries one of the four labels, the four counts add up to the total |
| FileStoreSpec.FreshRecords | data.js:582-585 | merge import adds exactly the incoming companies whose id is not yet in the list |
| FileStoreSpec.ImportModes | data.js:569-607 | `importData` rejects input without a `companies` array with the format message, whatever the options; `null` options raise after the backup is written and the lock is still freed; replace mode (the default) takes the incoming list; merge mode appends the fresh ones |
| FileStoreSpec.RunOneOp | data.js:424-440 | a batch of one operation is that operation's step |
| FileStoreSpec.BatchFirstSaveFails | data.js:418-455 | as written, when the data file exists: in a batch, the first add's save fails with the lock message because the batch already holds the lock, and the data file is unchanged |
| FileStoreSpec.BatchCommitsEachSave | data.js:418-455 | corrected (a save that may run under the batch's lock): the add succeeds and the data file then holds the new list |
| FileStoreSpec.ImportNeverPersists | data.js:569-607 | as written, when the data file exists: importing an export always fails, with the lock message (or a TypeError for `null` options), and leaves the data file unchanged and the lock free |
| FileStoreSpec.ExportImportRoundTrip | data.js:546-607 | corrected: importing an export with the default options succeeds with its size, and the next load gives back the exported list |
| FileStore.FileSystem.constructor | data.js:30-38 | the files start in the given state |
| FileStore.FileSystem.Unlink | data.js:199 | `unlinkSync` of a backup removes the entries with that name and nothing else |
| FileStore.FileSystem.UnlinkFrom | data.js:198-200 | the loop unlinks every candidate from the fourth on, leaving the rest of the files as they were |
| FileStore.CompanyDatabase.constructor | data.js:10-25 | a new store has loaded the data file as `loadData` does |
| FileStore.CompanyDatabase.AcquireLock | data.js:43-62 | moves the store and files as the acquire step |
| FileStore.CompanyDatabase.ReleaseLock | data.js:67-76 | moves the store and files as the release step |
| FileStore.CompanyDatabase.SaveData | data.js:127-152 | moves the store and files as `Save`, with the corrected write under a lock the store already holds |
| FileStore.CompanyDatabase.ValidateData | data.js:107-122 | its loop answers exactly the validity predicate |
| FileStore.CompanyDatabase.RestoreFromBackup | data.js:210-239 | the list becomes `Restored` of the backup directory; nothing else changes |
| FileStore.CompanyDatabase.LoadData | data.js:81-102 | moves the store and files as `Load` |
| FileStore.CompanyDatabase.CleanOldBackups | data.js:185-205 | the backup directory becomes `Pruned` of itself; nothing else changes |
| FileStore.CompanyDatabase.CreateBackup | data.js:166-180 | moves the files as `Backup` |
| FileStore.CompanyDatabase.GetAllCompanies | data.js:256-272 | reloads, then returns the loaded list, which is valid |
| FileStore.CompanyDatabase.GetCompanyById | data.js:277-292 | moves the store and answers as `GetById` |
| FileStore.CompanyDatabase.AddCompany | data.js:297-336 | moves the store and files and answers as `AddStep` |
| FileStore.CompanyDatabase.CommitRecord | data.js:321-335 | puts the new list in place, saves, and answers the record or the save's error, as `Commit` |
| FileStore.CompanyDatabase.UpdateCompany | data.js:341-384 | moves the store and files and answers as `UpdateStep` |
| FileStore.CompanyDatabase.ApplyUpdate | data.js:344-383 | on the reloaded list, moves the store and answers as `UpdateLoaded` |
| FileStore.CompanyDatabase.DeleteCompany | data.js:389-413 | moves the store and files and answers as `DeleteStep` |
| FileStore.CompanyDatabase.ApplyDelete | data.js:392-412 | on the reloaded list, moves the store and answers as `DeleteLoaded` |
| FileStore.CompanyDatabase.BatchOperation | data.js:418-455 | takes any `operations` value; moves the store and files and answers as `BatchStep` |
| FileStore.CompanyDatabase.RunOperation | data.js:425-438 | one operation dispatched on its `type`, moving the store as `OpStep` |
| FileStore.CompanyDatabase.SearchCompanies | data.js:477-499 | moves the store and answers as `SearchStep` |
| FileStore.CompanyDatabase.ComputeStatistics | data.js:504-541 | its loops compute exactly `StatisticsOf` |
| FileStore.CompanyDatabase.GetStatistics | data.js:504-541 | reloads, then answers `StatisticsOf` of the loaded list |
| FileStore.CompanyDatabase.ExportData | data.js:546-564 | reloads, then answers the export document of the loaded list |
| FileStore.CompanyDatabase.ImportData | data.js:569-607 | moves the store and files and answers as `ImportStep` |
| FileStore.CompanyDatabase.MergeOrReplace | data.js:580-606 | the import under the lock after the backup, as `ImportLocked` |
| FileStore.CompanyDatabase.MergeIncoming | data.js:580-585 | the merging import, as `ImportLocked` in merge mode |
| MemoryStoreSpec.LetterGrade | lib/database.js:386-394 | the letter grades A+ (90 and up), A, B+, B, C+, C (40-49) and D (below 40), each as an if-and-only-if |
| MemoryStoreSpec.Grade | lib/database.js:386-394 | a score that converts to NaN is graded D; otherwise the letter of the converted number |
| MemoryStoreSpec.GradeMonotone | lib/database.js:386-394 | a higher score never gets a lower grade |
| MemoryStoreSpec.DefaultsDistinct | lib/database.js:7-35 | the three default companies have distinct ids |
| MemoryStoreSpec.Objects | lib/database.js:47-62 | the list as JSON objects, element by element |
| MemoryStoreSpec.FindId | lib/database.js:137 | `find`/`findIndex` by `id`: none exactly when no company has the id; otherwise the first one with it |
| MemoryStoreSpec.Lookup | lib/database.js:67-89 | `getCompanyById` succeeds exactly when some company has the id, with that company; otherwise the not-found message |
| MemoryStoreSpec.IdNumbers | lib/database.js:105 | `parseInt` of every id, one per company |
| MemoryStoreSpec.Max | lib/database.js:105 | `Math.max`: an element of the list no smaller than any other |
| MemoryStoreSpec.MaxId | lib/database.js:105 | no company's id number exceeds it |
| MemoryStoreSpec.NextIdFresh | lib/database.js:105 | as written, the new id is not the id of any company already listed |
| MemoryStoreSpec.EmptyStoreId | lib/database.js:105 | as written: on an empty list the new id is `"-Infinity"`, which is not a number |
| MemoryStoreSpec.CountingIdFresh | lib/database.js:105 | corrected: "1" on an empty list, otherwise exactly the code's id (largest numeric id plus one); either way unused |
| JsonValues.ParseIntOfIntToString | lib/database.js:105 | `parseInt` reads back every id written with `toString`: the two are inverse |
| JsonValues.Spread | data.js:358-361 | `{...v}` copies an object's own fields, and from anything else only index keys |
| JsonValues.SpreadIndexed | data.js:358-361 | `{...v}` keys an array's elements and a string's characters by their indices, and gives nothing for other values |
| JsonValues.IndexedFields | lib/database.js:145-148 | each element sits under its index written out, and every key is such an index |
| MemoryStoreSpec.AddOutcome | lib/database.js:94-130 | `addCompany` succeeds exactly when the input is an object with a truthy name and business; a success appends one company with the fresh id, the given fields, the graded score and both timestamps; a failure changes nothing |
| MemoryStoreSpec.NewCompanyFields | lib/database.js:107-115 | the new company has the given name and business, the score or 0 when the score is falsy, and the grade of that score |
| MemoryStoreSpec.NewCompanyFresh | lib/database.js:105-108 | with the corrected counter, the new company's id is not the id of any stored company |
| MemoryStoreSpec.AddKeepsDistinct | lib/database.js:94-130 | adding keeps the ids distinct |
| MemoryStoreSpec.DistinctAppend | lib/database.js:117 | appending a company whose id is new keeps the ids distinct |
| MemoryStoreSpec.PatchedFields | lib/database.js:145-155 | the updated company keeps its id, takes every patched field, keeps every other field, gets the new `updatedAt`, and is regraded exactly when the patch carries a score |
| MemoryStoreSpec.UpdateOutcome | lib/database.js:135-170 | `updateCompany` succeeds exactly when the id exists and the patch is not nullish; a success replaces only that company with the patched one; a failure changes nothing |
| MemoryStoreSpec.UpdateKeepsDistinct | lib/database.js:135-170 | updating keeps the ids distinct |
| MemoryStoreSpec.DeleteOutcome | lib/database.js:175-198 | `deleteCompany` succeeds exactly when the id exists; a success removes exactly that one company (multiset) |
| MemoryStoreSpec.DeleteRemovesId | lib/database.js:175-198 | with distinct ids, after the delete no company has that id |
| MemoryStoreSpec.DistinctRemove | lib/database.js:185 | splicing one company out keeps the ids distinct and leaves none with its id |
| MemoryStoreSpec.SearchStep | lib/database.js:203-225 | a non-string query is a TypeError; on success the hits are exactly the companies whose lowered name, business or level contains the lowered query |
| MemoryStoreSpec.TallyCounts | lib/database.js:236-245 | a distribution holds a key exactly when it was seen, and counts how often |
| MemoryStoreSpec.TallyConcat | lib/database.js:236-245 | counting two runs of keys in turn is counting them together |
| MemoryStoreSpec.BusinessParts | lib/database.js:241 | `split(',')` then `trim` gives at least one tag |
| MemoryStoreSpec.LevelKeysOf | lib/database.js:238 | one level key per company, in order |
| MemoryStoreSpec.LevelKeysHas | lib/database.js:238 | a level is among the counted keys exactly when some company carries it |
| MemoryStoreSpec.LevelDistribution | lib/database.js:230-263 | `levelDistribution` holds exactly the levels of the companies, each with its number of companies |
| MemoryStoreSpec.MapTotalRemove | lib/database.js:236-238 | the sum of a distribution does not depend on which key is taken first |
| MemoryStoreSpec.MapTotalBump | lib/database.js:238 | counting one more key adds one to the sum |
| MemoryStoreSpec.TallyTotal | lib/database.js:236-238 | a distribution's sum grows by the number of keys counted |
| MemoryStoreSpec.LevelsSumToTotal | lib/database.js:230-263 | the level counts add up to `total`, the number of companies |
| MemoryStoreSpec.BusinessKeysNext | lib/database.js:241-244 | one more company adds its tags at the end |
| MemoryStoreSpec.BusinessKeysPrefix | lib/database.js:241-244 | the tags of the first companies start the tags of the whole list |
| MemoryStoreSpec.BusinessKeysCover | lib/database.js:241-244 | every tag of every company is counted |
| MemoryStoreSpec.BusinessDistribution | lib/database.js:230-263 | every tag of every company is in `businessDistribution`, with its number of occurrences, at least one |
| MemoryStoreSpec.OccursPositive | lib/database.js:242-244 | a tag that occurs is counted at least once |
| MemoryStoreSpec.RunBatchStops | lib/database.js:272-288 | once an operation has thrown, later operations change nothing |
| MemoryStoreSpec.BatchAnswersEachOp | lib/database.js:268-301 | `batchOperation` aborts exactly when some operation is nullish, at the first such; otherwise it has one entry per operation, in order, each naming its operation |
| MemoryStoreSpec.BatchEntryIsStep | lib/database.js:272-289 | entry `i` holds operation `i` and the result that operation has on the list the earlier operations left |
| MemoryStoreSpec.RunBatchNext | lib/database.js:272-289 | one more turn of the loop: a nullish operation aborts with nothing changed; any other moves the list as its step and appends its entry, the unknown-operation failure when `type` is none of add, update, delete |
| MemoryStoreSpec.BatchOfOne | lib/database.js:268-301 | a batch of one operation is that operation's step |
| MemoryStoreSpec.Replace | lib/database.js:365-368 | replace import keeps one company per incoming entry |
| MemoryStoreSpec.SpreadId | lib/database.js:345 | spreading an entry keeps its id |
| MemoryStoreSpec.MergeStops | lib/database.js:341-357 | once the merge loop has thrown, later entries change nothing |
| MemoryStoreSpec.MergeCounts | lib/database.js:336-362 | added plus updated is the number of entries; the list grows by exactly the added ones; distinct ids stay distinct |
| MemoryStoreSpec.MergeOneCounts | lib/database.js:342-356 | one entry of the merge is counted once, as added or as updated; the list grows only when it is added; distinct ids stay distinct |
| MemoryStoreSpec.MergeIds | lib/database.js:336-362 | after a merge, the ids are those before together with the incoming ids |
| MemoryStoreSpec.MergeOneIds | lib/database.js:342-356 | one entry of the merge adds its id to the ids, whether it overwrites or appends |
| MemoryStoreSpec.SameIds | lib/database.js:343-348 | overwriting in place keeps the set of ids |
| MemoryStoreSpec.IdSetAppend | lib/database.js:349-356 | appending adds exactly the new id |
| MemoryStoreSpec.Restamp | lib/database.js:343-348 | a restamped company keeps its id |
| MemoryStoreSpec.Restamped | lib/database.js:336-362 | restamping a prefix keeps the length and every id |
| MemoryStoreSpec.OverwriteObject | lib/database.js:343-348 | overwriting with a company's own object is restamping it |
| MemoryStoreSpec.ExportImportRoundTrip | lib/database.js:306-381 | replace-importing an export gives back the exported companies, restamped, and reports their number |
| MemoryStoreSpec.ExportMergeRoundTrip | lib/database.js:306-381 | merge-importing a store's own export updates every company in place and adds none |
| MemoryStoreSpec.MergePrefix | lib/database.js:336-362 | merging the first n companies of a store's own export restamps exactly those n |
| MemoryStore.VercelDatabase.constructor | lib/database.js:38-42 | a new store holds the three defaults, no two with the same id |
| MemoryStore.VercelDatabase.GetAllCompanies | lib/database.js:47-62 | the list and its length |
| MemoryStore.VercelDatabase.GetCompanyById | lib/database.js:67-89 | answers `Lookup` |
| MemoryStore.VercelDatabase.AddCompany | lib/database.js:94-130 | moves the list and answers as `AddStep`, with the corrected id counter |
| MemoryStore.VercelDatabase.UpdateCompany | lib/database.js:135-170 | moves the list and answers as `UpdateStep` |
| MemoryStore.VercelDatabase.DeleteCompany | lib/database.js:175-198 | moves the list and answers as `DeleteStep` |
| MemoryStore.VercelDatabase.SearchCompanies | lib/database.js:203-225 | answers `SearchStep` |
| MemoryStore.VercelDatabase.GetStatistics | lib/database.js:230-263 | answers `StatisticsOf` of the list |
| MemoryStore.VercelDatabase.Distributions | lib/database.js:236-245 | its loop fills both distributions exactly as `Tally` of the level keys and of the tags, and stops where a `split` throws |
| MemoryStore.VercelDatabase.BumpAll | lib/database.js:242-244 | its loop counts every tag |
| MemoryStore.VercelDatabase.AverageScore | lib/database.js:253-254 | its loop computes the `reduce` over the scores |
| MemoryStore.VercelDatabase.BatchOperation | lib/database.js:268-301 | takes any `operations` value (a value that is not iterable raises a TypeError); moves the list and answers as `BatchStep` |
| MemoryStore.VercelDatabase.ExportData | lib/database.js:306-322 | answers the export document |
| MemoryStore.VercelDatabase.ImportData | lib/database.js:327-381 | moves the list and answers as `ImportStep` |
| Dashboard.LevelOf | script.js:230-242 | a score that converts to NaN is 未知; otherwise the band of the converted number |
| Dashboard.BandsCoverScale | script.js:230-242 | every score from 0 to 100 gets one of the four labels |
| Dashboard.InvestmentClass | script.js:406-414 | each of the four labels has its own class, as an if-and-only-if; anything else gets the empty class |
| Dashboard.ClassOfBand | script.js:406-414 | every score on the scale is shown with a class, and different labels get different classes |
| Dashboard.ProspectScore | script.js:528-541 | the stored score when there is one; otherwise 85, 60, 30 or 50 |
| Dashboard.LegacyScoreLevels | script.js:528-541 | legacy 值得投资 and 谨慎投资 come back as themselves; every other legacy label comes back as 高风险 |
| Dashboard.ViewTestIsMatch | script.js:356-371 | the filter callback throws exactly on a company with a non-string name, business or level, and otherwise answers the three conditions |
| Dashboard.ProcessedView | script.js:354-380 | the view shows exactly the companies meeting the level, search and category conditions, each as often as listed, ascending by score for 'asc' and descending otherwise; it fails only on a non-string field |
| Dashboard.NormalizeRevenue | script.js:686-705 | its loops compute exactly `NormalizedRevenue` |
| Dashboard.PushEntries | script.js:692-696 | the loop pushes exactly the complete `{year, value}` entries |
| Dashboard.PushScalars | script.js:698 | the loop pushes every value with its 1-based position as year |
| Dashboard.PushKeys | script.js:701 | the loop pushes every key of the map with its value |
| Dashboard.DropNaN | script.js:704 | the loop keeps exactly the items with a number |
| Dashboard.NumericKeeps | script.js:704 | the NaN filter keeps exactly the items with a number, and never more items |
| Dashboard.NumericAll | script.js:704 | when every item has a number, the filter drops nothing |
| Dashboard.NumericSorted | script.js:702-704 | the NaN filter keeps the items sorted by year |
| Dashboard.ScalarItemsYears | script.js:698 | item i is the i-th value with year `String(i + 1)` |
| Dashboard.EntryItemsFrom | script.js:692-696 | an item comes from a complete entry, and every complete entry gives one |
| Dashboard.KeyItemsOf | script.js:701 | item i is key i of the map with its value |
| Dashboard.NoSourceNoPoints | script.js:687-689 | with neither `revenue` nor `annualRevenue` the chart is empty |
| Dashboard.ScalarRevenue | script.js:697-699 | an array of plain values gives exactly its numeric values, each labelled with its 1-based position, and all of them in order when all are numbers |
| Dashboard.ScalarPoints | script.js:698-704 | a point of an array of plain values is exactly a numeric value labelled with its 1-based position |
| Dashboard.EntryRevenue | script.js:691-696 | an array of objects gives exactly the complete entries with a numeric value |
| Dashboard.MapRevenue | script.js:700-704 | an object map gives exactly its numeric entries, sorted ascending by year |
| Dashboard.MapPointFrom | script.js:701-704 | every point of an object map comes from one of its numeric entries |
| Dashboard.MapPointTo | script.js:701-704 | every numeric entry of an object map gives a point |
| Dashboard.Escape | script.js:758-763 | the escaped text is never shorter and holds none of `<`, `>`, `"` and `'` |
| Dashboard.EscapePlain | script.js:758-763 | text without any of the five characters is left unchanged |
| Dashboard.UnescapeOne | script.js:760-761 | the entity of one character reads back as that character |
| Dashboard.EscapeRoundTrip | script.js:758-763 | escaping loses nothing: reading the entities back gives the original text |
| Dashboard.RiskBand | script.js:808-828 | the four risk bands at 80, 60 and 40, each as an if-and-only-if |
| Dashboard.RiskOf | script.js:805-828 | a missing, zero or other falsy score is 高风险; a numeric score gets its band |
| Dashboard.RiskMonotone | script.js:808-828 | a higher score never means a higher risk |

## Left out

- Numbers are integers: fractions, exponents, hexadecimal literals, `Infinity` and floating-point rounding are not modelled. Scores such as 25.5 would fall between the bands.
- `VercelDatabase` average: kept as the exact sum and count (`Mean`), not as a float; a sum that turns into string concatenation or NaN is reported as `NotNumeric`.
- Property order of objects: `Object.keys` in `normalizeRevenue` is a parameter, and spread and record equality ignore key order. JavaScript lists integer-like keys (such as "7") first, in ascending order; the level distribution keeps the order in which keys were added.
- TallyTable: "the four labels first" is the insertion order. When a company's level is integer-like (7 or "7", which `addCompany` keeps when given and an update can set), `JSON.stringify` writes that key before the four labels.
- Properties whose value is `undefined` and `__proto__` keys are not modelled. In data.js, `investmentLevels["__proto__"]++` stores nothing, while `FileStoreSpec.TallyLevels` adds a NaN entry for it.
- JsonValues.Spread: a string here is a sequence of Unicode scalar values, and its spread keys each one by its index. JavaScript keys UTF-16 code units, so a character outside the Basic Multilingual Plane takes two keys there.
- JsonValues.Prop: reading a property of a string or an array (`length`, an index) gives `undefined`. The code reads only named fields such as `id`, `type`, `companies` and `merge`, which strings and arrays lack.
- MemoryStoreSpec.TallyCounts: some keys name a property every object inherits from `Object.prototype` (`constructor`, `toString`, `valueOf`, `hasOwnProperty` and the rest). For those, `counts[k] || 0` gives the inherited function, not 0, so JavaScript turns the count into a string. For `__proto__` it is the prototype itself, and the assignment is dropped. The model counts these keys like any other, from 0.
- MemoryStoreSpec.LevelDistribution: counts a level named after an inherited property from 0, as `TallyCounts` does; the code gives a string there.
- MemoryStoreSpec.BusinessDistribution: counts a business tag named after an inherited property from 0, as `TallyCounts` does; the code gives a string there.
- Records.FindIndex, MemoryStoreSpec.FindId, FileStoreSpec.NameTaken, FileStoreSpec.NameClash, FileStoreSpec.HasId, MemoryStoreSpec.MergeOne: these compare ids and names as values. JavaScript's `===` and `Set.has` compare objects and arrays by reference, so two separately parsed equal objects never match. data.js parses the file again on every load. The model therefore matches an object- or array-valued id that the code would not; for strings, numbers, booleans, `null` and `undefined` the two agree.
- Every TypeError is one message, `"TypeError"`; the engine's wording is not modelled.
- Asynchrony: `await` points cannot interleave with other requests here. The unawaited `saveData` inside `loadData` is modelled as running to completion at once.
- FileStoreSpec.ImportNeverPersists: states the failure only when the data file exists. With no data file, `loadData` starts an unawaited save. That save and the import's own save then both poll the lock. In the model, the first save fails at once and frees the lock, so a merge import succeeds. In the code, the first save holds the lock through its 50 polls, so the import's save fails too. `FileStoreSpec.BatchFirstSaveFails` has the same restriction for the same reason.
- The lock's 100 ms retry sleeps are not modelled; only the 50-attempt outcome is. Other processes are represented only by the lock file they may leave.
- `startBackupSchedule` (a timer) and `ensureDirectories` (directory creation) are I/O set-up and are left out.
- The MD5 checksum is a parameter of the file store. Read, write and rename errors other than a damaged data file are not modelled.
- Logging (`console.warn`, `console.error`) is left out.
- The clock is a parameter, and one operation reads one instant. `addCompany` reads the clock three times in data.js (`Date.now()` for the id, two `new Date()` for the stamps) and twice in lib/database.js. `saveData` reads it again for `lastModified`. The model gives all reads within one operation the same time.
- Dashboard.ProcessedView: a comparator key that is NaN is taken as 0. JavaScript leaves the order implementation-defined then, so the model fixes one order.
- `toLowerCase` is a parameter: case folding is not modelled.
- The DOM, ECharts, `fetch`, debouncing and the other UI code of script.js are left out, and so are the HTTP handlers under api/ and server.js.

## Findings

| source | as written | input that shows it | evidently intended | confidence | as-written member | corrected member |
|---|---|---|---|---|---|---|
| data.js:418-455 | `batchOperation` takes the lock and then calls `addCompany` and the others, whose `saveData` tries to take the same lock again | a batch with one valid add on an unlocked store whose data file exists: the add is answered with the lock error and nothing is saved | each operation of the batch is saved | not executed | FileStoreSpec.BatchFirstSaveFails | FileStoreSpec.BatchCommitsEachSave |
| data.js:569-607 | `importData` takes the lock and then calls `saveData`, which cannot take it | importing any export into a store whose data file exists: the answer is the lock error and the data file is unchanged | the import is saved, and a later load gives back the imported list | not executed | FileStoreSpec.ImportNeverPersists | FileStoreSpec.ExportImportRoundTrip |
| lib/database.js:105 | the new id is `Math.max(...ids) + 1` | `addCompany` on an empty list: `Math.max()` is `-Infinity`, so the id is `"-Infinity"` | an empty list gives id "1"; otherwise the id is as written | not executed | MemoryStoreSpec.EmptyStoreId | MemoryStoreSpec.CountingIdFresh |
