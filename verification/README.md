# Word-game data manager, modelled in Dafny

This project models `DataManager`, the persistence layer of a vocabulary game
(`data.js`). The manager keeps five pieces of live state: a configuration map,
a map from word to answer statistics, an append-only log of session records, a
progress aggregate, and the identifier of the current word bank. It mirrors
four of these into four keys of the browser's key-value store. It also
exports and imports backups and resets everything once the user confirms.

The model follows the source's shape:

- `DataManager` is a class (`data_manager.dfy`). Its fields are reassigned by
  methods that state the whole new state.
- The store is a second class, `LocalStore` (`local_storage.dfy`), with one
  slot per key. A write may fail: `setItem` can throw on a full quota. The
  model leaves that choice open (`ok :| true`), and a failed write leaves its
  slot unchanged.
- The rules the methods apply are pure functions with their properties
  proved:
  - `WordStats.Answer` is the per-answer update;
  - `StudyProgress.NextProgress` is the progress recomputation;
  - `GameRecords.RecentFirst` is the newest-first read;
  - `Backup.Imported` is the import.

Conventions:

- Percentages are integers in tenths of a percent, so the text "83.3" is 833.
- `(c / t * 100).toFixed(1)` becomes `RoundTenths(c, t)`, which rounds halves
  up. The source rounds before it compares, so the model compares the rounded
  value: `accuracy > 80` becomes `accuracy > 800`.
- The clock becomes two parameters: a millisecond timestamp `now`, and an
  integer day number `today` that stands for `toDateString`.
- The confirmation dialog becomes a boolean. The localized date string of a
  record is a parameter.
- JSON text is not modelled. A stored key holds a `Slot`: missing, unparseable,
  or a parsed payload. An import document is an `ImportDoc`: malformed, or a
  parsed object with each of the four sections present or absent.

The word statistics sit in a map, and a map has no order. So the filter and
the two reductions in `updateProgress` are a loop over the keys (`Tally`).
That loop is proved equal to order-free sums (`SumOver`).

The model follows the code as written, including these behaviours a reader may not expect:

- `updateWordStat` accepts any result string. A string other than "correct" or
  "wrong" still marks the word studied and restamps it, but changes neither
  counter.
- `resetData` does not reset the live `currentBank` field. After a reset, the
  configuration names `words.txt`, but `getCurrentBank` and the next progress
  total still use the old bank.
- An import whose store write fails partway returns false. The sections
  assigned before the failure stay replaced in memory, and so does the one
  whose write failed. `ImportData` reports how far the import got in the
  ghost result `applied`.
- Importing a configuration does not update `currentBank` either.

## Model

| member | source | states |
|---|---|---|
| `Settings.Merge` | data.js:38-39 | shallow spread: the result has the keys of both maps, and a key in the patch takes the patch's value |
| `Settings.LoadConfig` | data.js:19-36 | the loaded config always has every default key; stored keys override the defaults; a missing or unparseable slot gives exactly the defaults |
| `Settings.ReloadRoundTrip` | data.js:19-47 | loading a saved config gives it back if and only if it holds every default key |
| `Settings.Enabled` | data.js:103 | an option read as a condition: a missing key is falsy, a present one follows JavaScript truthiness |
| `Settings.AdjustOnUnlessStoredOff` | data.js:19-36 | after loading, difficulty adjustment is on unless the stored options set `difficultyAdjust` to a falsy value |
| `Json.Slot.GetOr` | data.js:54-62 | the load rule of the statistics, the records and the progress (also data.js:137-145 and 191-211): a parsed payload, or the default when the key is missing or does not parse |
| `Settings.BankOf` | data.js:8 | the starting bank is the configured one when that is truthy, otherwise `words.txt`; the result is always truthy |
| `WordStats.RoundTenths` | data.js:97-100 | the result is the nearest tenth of correct/total·100, with halves rounded up; it is at most 1000 when correct ≤ total |
| `WordStats.NextDifficulty` | data.js:102-109 | moves at most one step; goes down iff adjustment is on, there are ≥5 attempts, accuracy >80% and difficulty >1; goes up iff adjustment is on, ≥5 attempts, accuracy <40% and difficulty <3; keeps [1,3] |
| `WordStats.MasterLevel` | data.js:112-118 | level in [1,5]; it is 1 iff accuracy <60%, and each higher level covers its own 10% band |
| `WordStats.MasterLevelMonotonic` | data.js:112-118 | higher accuracy never gives a lower mastery level |
| `WordStats.Answer` | data.js:74-118 | "correct" adds exactly 1 to correctTimes and "wrong" exactly 1 to wrongTimes; any other string changes neither; the word is marked studied and stamped `now`; accuracy is the rounded ratio in [0,1000], or unchanged with no attempts; difficulty moves ≤1 step, only with adjustment on and ≥5 attempts, and in the direction `NextDifficulty` fixes (down above 80%, up below 40%), staying in [1,3]; mastery is untouched below 10 attempts and then equals the step function, in [1,5] |
| `WordStats.Fresh` | data.js:75-85 | a new entry is unstudied, has no attempts, is stamped with the creation time and satisfies the answer invariant `Consistent` |
| `WordStats.AnswerKeepsConsistent` | data.js:87-118 | an answer preserves `Consistent`: accuracy is the rounded ratio, difficulty is in [1,3] and is 1 below 5 attempts, mastery is 0 below 10 attempts and the step function from then on |
| `WordStats.ReplayCounts` | data.js:87-100 | after any run of answers, the counters have grown by exactly the number of "correct" and "wrong" results, and consistency is kept |
| `WordStats.FromFresh` | data.js:74-118 | from a new entry, accuracy is round(correct/total·100, 1 decimal); difficulty stays 1 until 5 attempts; mastery stays 0 until 10 attempts |
| `WordStats.FiveCorrectOneWrong` | data.js:74-118 | five correct answers then one wrong give accuracy 83.3%, difficulty 1, mastery 0 |
| `GameRecords.Stamp` | data.js:148-152 | the caller's fields are kept, except that `timestamp` and `date` are set to the given stamps |
| `GameRecords.Reverse` | data.js:166 | same length, and element i is element n-1-i of the input |
| `GameRecords.SliceStart` | data.js:166 | `slice(-limit)` keeps the last min(limit, n) elements for a positive limit; 0 keeps all; a negative limit drops the first -limit |
| `GameRecords.RecentFirst` | data.js:165-167 | for limit > 0 it returns min(limit, n) records; for limit 0 all n; in every case newest first (element i is record n-1-i) |
| `GameRecords.AppendedComesFirst` | data.js:147-167 | after an append, the new record is first in every read; with limit 0 or a limit above the old length, the rest is the previous read |
| `Banks.LookupBank` | data.js:176-188 | a known identifier gets its table entry; anything else gets the "unknown" entry with count 0 (both directions); no count exceeds 4100 |
| `StudyProgress.LoadProgress` | data.js:191-211 | the stored aggregate, or, for a missing or unparseable key, 0 studied out of 3500, accuracy 0, streak 0 and no study date |
| `StudyProgress.SumOverAnyKey` | data.js:218-220 | the sum over the entries does not depend on which entry is taken first |
| `StudyProgress.StudiedAtMost` | data.js:215 | the number of studied entries is at most the number of entries |
| `StudyProgress.CorrectAtMostAttempts` | data.js:218-221 | total correct answers never exceed total attempts |
| `StudyProgress.Tally` | data.js:214-220 | the loop computes the studied count (≤ entries), total attempts and total correct, with correct ≤ attempts |
| `StudyProgress.OverallAccuracy` | data.js:221 | 0 with no attempts; otherwise the nearest tenth of the ratio, which lies in [0,1000] |
| `StudyProgress.NextStreak` | data.js:223-238 | no last date gives 1; a gap of 1 day adds one; a gap of more than a day gives 1; a gap ≤ 0 or an unreadable date keeps the streak |
| `StudyProgress.NextProgress` | data.js:213-250 | studied = number of studied entries, which is ≤ the number of entries; total = the bank's count; accuracy is the aggregate rounded ratio in [0,1000]; streak follows `NextStreak`; the last study date becomes today |
| `StudyProgress.SameDayIsIdempotent` | data.js:224-246 | recomputing again on the same day changes nothing, the streak included |
| `StudyProgress.ConsecutiveDaysExtend` | data.js:227-235 | studying on each of k consecutive days after the last study day adds k to the streak |
| `StudyProgress.FirstStudyThenConsecutive` | data.js:227-238 | a first study followed by consecutive days gives a streak equal to the number of days |
| `StudyProgress.GapRestarts` | data.js:231-235 | after a gap of more than one day, the streak restarts at 1 and counts consecutive days from there |
| `LocalStorage.LocalStore.SetConfig` | data.js:40-46 | a successful write stores the config under its key; a failed one changes nothing; other keys are untouched |
| `LocalStorage.LocalStore.SetStats` | data.js:64-72 | a successful write stores the statistics; a failed one changes nothing; other keys are untouched |
| `LocalStorage.LocalStore.SetRecords` | data.js:156-162 | a successful write stores the log; a failed one changes nothing; other keys are untouched |
| `LocalStorage.LocalStore.SetProgress` | data.js:256-264 | a successful write stores the progress; a failed one changes nothing; other keys are untouched |
| `LocalStorage.LocalStore.RemoveAll` | data.js:320-323 | all four keys become missing |
| `Backup.Reparse` | data.js:267-274 | an exported snapshot read back carries all four sections |
| `Backup.ApplyFirst` | data.js:290-308 | after the first n sections are taken, a section is replaced exactly when it is among the first n and the document carries it; the others are kept |
| `Backup.WrittenFirst` | data.js:290-308 | after the first n writes succeed, each written key holds its imported section and every other key is as it was |
| `Backup.Imported` | data.js:286-315 | a malformed document changes nothing; otherwise exactly the sections present are replaced wholesale, and absent ones are kept |
| `Backup.ExportImportRoundTrip` | data.js:267-315 | importing what was exported gives back all four sections unchanged |
| `Backup.ImportIdempotent` | data.js:286-310 | importing the same document twice equals importing it once |
| `Backup.PartialImportIsPrefix` | data.js:290-313 | an import cut short has replaced a prefix of the sections, and finishing it gives the full import |
| `DataManagement.UpdateKeepsAllConsistent` | data.js:75-96 | replacing one entry with a consistent one keeps every entry consistent |
| `DataManagement.AnswerKeepsAllConsistent` | data.js:74-122 | answering any word, whether it had an entry or not, keeps every entry of a consistent map consistent |
| `DataManagement.DataManager.constructor` | data.js:3-10 | each section is loaded from its key, or defaults when the key is missing or corrupt; the current bank is the configured one, or `words.txt` |
| `DataManagement.DataManager.SaveConfig` | data.js:38-47 | config becomes the merge of the old config and the patch, even when the write fails; the result says whether it was written; nothing else changes |
| `DataManagement.DataManager.GetConfig` | data.js:49-51 | a copy with the same keys and values as the live config |
| `DataManagement.DataManager.UpdateWordStat` | data.js:74-122 | the word's entry (created if absent) becomes `Answer` of it; no other word's entry changes; consistency of the whole map is preserved; only the statistics key may be rewritten |
| `DataManagement.DataManager.GetWordStat` | data.js:124-134 | the stored entry, or an unstudied entry with zero counters, difficulty 1, mastery 0 and timestamp 0 |
| `DataManagement.DataManager.SaveGameRecord` | data.js:147-163 | appends exactly one stamped record at the end, with earlier records unchanged; the log key is rewritten iff the result is true |
| `DataManagement.DataManager.GetGameRecords` | data.js:165-167 | at most `limit` records for a positive limit (50 when none is given), newest first, read without changing state |
| `DataManagement.DataManager.SetCurrentBank` | data.js:170-174 | the live bank and the config's `currentBank` both become the new identifier; only the config key may be rewritten |
| `DataManagement.DataManager.GetCurrentBank` | data.js:176-188 | the table entry of the live bank, or the "unknown" entry |
| `DataManagement.DataManager.UpdateProgress` | data.js:213-250 | progress becomes `NextProgress` of the old progress, the statistics, the live bank's count and today; nothing else changes |
| `DataManagement.DataManager.GetProgress` | data.js:252-254 | a read that recomputes and may write, as `UpdateProgress` does |
| `DataManagement.DataManager.ExportData` | data.js:267-284 | the snapshot holds the four sections, and importing it leaves them as they are |
| `DataManagement.DataManager.ImportData` | data.js:286-315 | a malformed document changes nothing in memory or in the store and returns false; a parsed document returns false only when the write of a section it carries fails, and then the sections up to and including that one are replaced in memory, the earlier ones are written, and the failing key and later keys are unchanged; a document with no sections returns true; on success exactly the sections present are replaced and written; `currentBank` is untouched |
| `DataManagement.DataManager.ResetData` | data.js:318-333 | without confirmation, nothing changes and the result is false; with it, the result is true, config is the defaults, statistics and log are empty, progress is {0, 3500, 0, 0, no date} and all four keys are removed; `currentBank` keeps its value |
| `DataManagement.DataManager.SaveAll` | data.js:336-341 | always returns true; the live state is unchanged; config, statistics and progress may be rewritten; the log key is untouched |

## Left out

- `JSON.stringify`/`JSON.parse`: payloads are abstract values, and reading back a written value gives that value. Malformed text is the `Unparseable` slot or the `Malformed` document. A document that parses to `null` is also `Malformed`, because reading a property of it throws.
- Stored payloads are well-typed. A key holding JSON `null` or a number is not modelled: a `null` progress would make `updateProgress` throw. Neither are statistics whose counters are not numbers.
- Configuration values and the fields of session records are scalars (`Value`). Arrays and objects as option values or record fields are not modelled.
- `Date.now`, `toLocaleString` and `toDateString`, and the millisecond day arithmetic: times are parameters (`now`, `date`, and the day number `today`). Daylight-saving and time-zone effects are out of scope. A `lastStudyDate` text that does not parse is the `Invalid` date: the day difference is NaN, so the streak is kept.
- Floating point in `toFixed(1)`: rounding is exact round-half-up on integers, so it may differ from the float result at exact ties. The stored accuracy is text in the source ("83.3") but a number of tenths here.
- Words and bank identifiers that name `Object.prototype` members (`constructor`, `toString`, `__proto__`): in the source, the lookup finds an inherited member.
- Aliasing: `updateWordStat` returns the live statistics object, and `getConfig`'s copy is shallow. The model returns values, so a caller's later mutation of a returned object is not captured.
- `exportData`'s `Blob`, object URL and file name: only the snapshot is modelled.
- `confirm()`: replaced by the `confirmed` parameter.
- `console.log`/`console.error`, `init()` and the global `window.dataManager` instance.
- A `getGameRecords` limit that is not an integer is not modelled. The default of 50 is modelled as a default parameter value.
- DataManagement.DataManager.GetGameRecords: states only the bound and the newest-first order. The exact lengths are stated by `GameRecords.RecentFirst`, which it returns.
