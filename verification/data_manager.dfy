/**
 * The data manager: the live configuration, word statistics, session log,
 * progress aggregate and current bank, kept in step with the key-value store.
 * The clock, the confirmation dialog and the store's write failures are inputs.
 */
module DataManagement {
  import opened Json
  import opened Settings
  import opened WordStats
  import opened GameRecords
  import opened Banks
  import opened StudyProgress
  import opened LocalStorage
  import opened Backup

  /** Every entry of the map satisfies the answer invariant. */
  predicate AllConsistent(m: map<string, WordStat>) {
    forall w :: w in m ==> Consistent(m[w])
  }

  /** Replacing one entry by a consistent one keeps the whole map consistent. */
  lemma UpdateKeepsAllConsistent(m: map<string, WordStat>, word: string, s: WordStat)
    requires AllConsistent(m) && Consistent(s)
    ensures AllConsistent(m[word := s])
  {
  }

  /** Answering one word keeps every entry of the map consistent. */
  lemma AnswerKeepsAllConsistent(m: map<string, WordStat>, word: string, result: string, adjust: bool, now: int)
    ensures var before := if word in m then m[word] else Fresh(now);
            AllConsistent(m) ==> AllConsistent(m[word := Answer(before, result, adjust, now)])
  {
    var before := if word in m then m[word] else Fresh(now);
    if AllConsistent(m) {
      AnswerKeepsConsistent(before, result, adjust, now);
      UpdateKeepsAllConsistent(m, word, Answer(before, result, adjust, now));
    }
  }

  class DataManager {
    var config: Config
    var wordStats: map<string, WordStat>
    var gameRecords: seq<Record>
    var currentBank: Value
    var progress: Progress
    const storage: LocalStore

    /** The four sections, as `exportData` collects them. */
    function State(): Sections
      reads this
    {
      Sections(config, wordStats, gameRecords, progress)
    }

    /** Loads every section from the store, falling back to the defaults. */
    constructor (storage: LocalStore)
      ensures this.storage == storage
      ensures config == LoadConfig(storage.configSlot)
      ensures wordStats == storage.statsSlot.GetOr(map[])
      ensures gameRecords == storage.recordsSlot.GetOr([])
      ensures currentBank == BankOf(config)
      ensures progress == LoadProgress(storage.progressSlot)
    {
      this.storage := storage;
      config := LoadConfig(storage.configSlot);
      wordStats := storage.statsSlot.GetOr(map[]);
      gameRecords := storage.recordsSlot.GetOr([]);
      currentBank := BankOf(LoadConfig(storage.configSlot));
      progress := LoadProgress(storage.progressSlot);
    }

    /** Merges `patch` into the configuration and writes it; false when the write fails. */
    method SaveConfig(patch: Config) returns (ok: bool)
      modifies this, storage
      ensures config == Merge(old(config), patch)
      ensures State() == old(State()).(config := config) && currentBank == old(currentBank)
      ensures storage.Contents() ==
                if ok then old(storage.Contents()).(config := Parsed(config)) else old(storage.Contents())
    {
      config := Merge(config, patch);
      ok := storage.SetConfig(config);
    }

    /** A copy of the configuration. */
    function GetConfig(): (r: Config)
      reads this
      ensures r.Keys == config.Keys && forall k :: k in r ==> r[k] == config[k]
    {
      config
    }

    /**
     * Records one answer for `word` at time `now`, creating its entry on first
     * use, and writes the statistics. Only that word's entry changes.
     */
    method UpdateWordStat(word: string, result: string, now: int) returns (stat: WordStat)
      modifies this, storage
      ensures stat == Answer(if word in old(wordStats) then old(wordStats)[word] else Fresh(now),
                             result, Enabled(config, DifficultyAdjustKey), now)
      ensures wordStats == old(wordStats)[word := stat]
      ensures AllConsistent(old(wordStats)) ==> AllConsistent(wordStats)
      ensures State() == old(State()).(wordStats := wordStats) && currentBank == old(currentBank)
      ensures storage.Contents() == old(storage.Contents())
           || storage.Contents() == old(storage.Contents()).(stats := Parsed(wordStats))
    {
      var current := if word in wordStats then wordStats[word] else Fresh(now);
      ghost var adjust := Enabled(config, DifficultyAdjustKey);
      ghost var expected := Answer(current, result, adjust, now);
      var correctTimes, wrongTimes := current.correctTimes, current.wrongTimes;
      if result == Correct {
        correctTimes := correctTimes + 1;
      } else if result == Wrong {
        wrongTimes := wrongTimes + 1;
      }

      var total := correctTimes + wrongTimes;
      var accuracy := current.accuracy;
      if total > 0 {
        accuracy := RoundTenths(correctTimes, total);
      }
      assert accuracy == expected.accuracy;

      var difficulty := current.difficulty;
      if Enabled(config, DifficultyAdjustKey) && total >= 5 {
        if accuracy > 800 && difficulty > 1 {
          difficulty := difficulty - 1;
        } else if accuracy < 400 && difficulty < 3 {
          difficulty := difficulty + 1;
        }
      }
      assert difficulty == expected.difficulty;

      var masterLevel := current.masterLevel;
      if total >= 10 {
        if accuracy >= 900 {
          masterLevel := 5;
        } else if accuracy >= 800 {
          masterLevel := 4;
        } else if accuracy >= 700 {
          masterLevel := 3;
        } else if accuracy >= 600 {
          masterLevel := 2;
        } else {
          masterLevel := 1;
        }
      }
      assert masterLevel == expected.masterLevel;

      stat := WordStat(true, difficulty, wrongTimes, correctTimes, accuracy, now, masterLevel);
      AnswerKeepsAllConsistent(wordStats, word, result, adjust, now);
      wordStats := wordStats[word := stat];
      var _ := storage.SetStats(wordStats);
    }

    /** The entry for `word`, or an all-zero entry for a word never answered. */
    function GetWordStat(word: string): (r: WordStat)
      reads this
      ensures word in wordStats ==> r == wordStats[word]
      ensures word !in wordStats ==> !r.studied && Attempts(r) == 0 && r.accuracy == 0
                                     && r.difficulty == 1 && r.masterLevel == 0 && r.lastStudied == 0
    {
      if word in wordStats then wordStats[word] else Unstudied
    }

    /** Stamps `record` with `now` and the formatted `date`, appends it, and writes the log. */
    method SaveGameRecord(record: Record, now: int, date: string) returns (ok: bool)
      modifies this, storage
      ensures gameRecords == old(gameRecords) + [Stamp(record, now, date)]
      ensures State() == old(State()).(gameRecords := gameRecords) && currentBank == old(currentBank)
      ensures storage.Contents() ==
                if ok then old(storage.Contents()).(records := Parsed(gameRecords)) else old(storage.Contents())
    {
      gameRecords := gameRecords + [Stamp(record, now, date)];
      ok := storage.SetRecords(gameRecords);
    }

    /** The newest `limit` records, newest first (see `RecentFirst`). */
    function GetGameRecords(limit: int := DefaultRecordLimit): (r: seq<Record>)
      reads this
      ensures |r| <= |gameRecords| && (limit > 0 ==> |r| <= limit)
      ensures forall i :: 0 <= i < |r| ==> r[i] == gameRecords[|gameRecords| - 1 - i]
    {
      RecentFirst(gameRecords, limit)
    }

    /** Selects a bank in the live field and in the configuration, and writes the configuration. */
    method SetCurrentBank(bankFile: string)
      modifies this, storage
      ensures currentBank == Str(bankFile)
      ensures config == old(config)[CurrentBankKey := Str(bankFile)]
      ensures State() == old(State()).(config := config)
      ensures storage.Contents() == old(storage.Contents())
           || storage.Contents() == old(storage.Contents()).(config := Parsed(config))
    {
      currentBank := Str(bankFile);
      config := config[CurrentBankKey := Str(bankFile)];
      ghost var selected := config;
      var _ := SaveConfig(config);
      assert config == selected;
    }

    /** The table entry of the current bank, or the "unknown" entry. */
    function GetCurrentBank(): (r: BankInfo)
      reads this
      ensures Known(currentBank) ==> r == BankTable[currentBank.s]
      ensures !Known(currentBank) ==> r == UnknownBank
    {
      LookupBank(currentBank)
    }

    /** Recomputes the aggregate for day `today` from the word statistics and writes it. */
    method UpdateProgress(today: int) returns (p: Progress)
      modifies this, storage
      ensures p == progress
      ensures progress == NextProgress(old(progress), wordStats, LookupBank(currentBank).count, today)
      ensures State() == old(State()).(progress := progress) && currentBank == old(currentBank)
      ensures storage.Contents() == old(storage.Contents())
           || storage.Contents() == old(storage.Contents()).(progress := Parsed(progress))
    {
      var studied, attempts, correct := Tally(wordStats);
      var accuracy := OverallAccuracy(correct, attempts);
      var streak := NextStreak(progress.streak, progress.lastStudyDate, today);
      progress := Progress(studied, GetCurrentBank().count, accuracy, streak, OnDay(today));
      var _ := storage.SetProgress(progress);
      p := progress;
    }

    /** Reading the progress recomputes and writes it. */
    method GetProgress(today: int) returns (p: Progress)
      modifies this, storage
      ensures p == progress
      ensures progress == NextProgress(old(progress), wordStats, LookupBank(currentBank).count, today)
      ensures State() == old(State()).(progress := progress) && currentBank == old(currentBank)
      ensures storage.Contents() == old(storage.Contents())
           || storage.Contents() == old(storage.Contents()).(progress := Parsed(progress))
    {
      p := UpdateProgress(today);
    }

    /** The snapshot a backup file holds; nothing changes. */
    function ExportData(exportDate: string): (snap: Snapshot)
      reads this
      ensures Imported(State(), Reparse(snap)) == State()
      ensures snap.exportDate == exportDate
    {
      ExportImportRoundTrip(State(), exportDate);
      Snapshot(State(), exportDate)
    }

    /**
     * Replaces the sections the document carries, in the order config,
     * statistics, records, progress, writing each after assigning it. A
     * malformed document changes nothing. A failed write stops the import and
     * returns false with the sections before it, and the one that failed,
     * already replaced in memory: `applied` counts how far it got.
     */
    method ImportData(doc: ImportDoc) returns (ok: bool, ghost applied: nat)
      modifies this, storage
      ensures applied <= 4
      ensures State() == ApplyFirst(old(State()), doc, applied)
      ensures currentBank == old(currentBank)
      ensures doc.Malformed? ==> !ok && storage.Contents() == old(storage.Contents())
      ensures ok ==> doc.Document? && State() == Imported(old(State()), doc)
      ensures ok ==> storage.Contents() == WrittenFirst(old(storage.Contents()), doc, 4)
      ensures doc == Document(None, None, None, None) ==> ok
      ensures !ok && doc.Document? ==> 1 <= applied && Carries(doc, applied - 1)
      ensures !ok && doc.Document? ==>
                storage.Contents() == WrittenFirst(old(storage.Contents()), doc, applied - 1)
    {
      applied := 0;
      if doc.Malformed? {
        return false, 0;
      }
      var written: bool;
      if doc.config.Some? {
        config := doc.config.value;
        written := storage.SetConfig(config);
        if !written {
          return false, 1;
        }
      }
      if doc.wordStats.Some? {
        wordStats := doc.wordStats.value;
        written := storage.SetStats(wordStats);
        if !written {
          return false, 2;
        }
      }
      if doc.gameRecords.Some? {
        gameRecords := doc.gameRecords.value;
        written := storage.SetRecords(gameRecords);
        if !written {
          return false, 3;
        }
      }
      if doc.progress.Some? {
        progress := doc.progress.value;
        written := storage.SetProgress(progress);
        if !written {
          return false, 4;
        }
      }
      return true, 4;
    }

    /**
     * With confirmation, clears the four keys and reloads the defaults; the
     * live `currentBank` field keeps its value. Without it, nothing changes.
     */
    method ResetData(confirmed: bool) returns (done: bool)
      modifies this, storage
      ensures done == confirmed
      ensures currentBank == old(currentBank)
      ensures !confirmed ==> State() == old(State()) && storage.Contents() == old(storage.Contents())
      ensures confirmed ==> State() == Sections(DefaultConfig, map[], [], DefaultProgress)
      ensures confirmed ==> storage.Contents() == Cleared
    {
      if !confirmed {
        return false;
      }
      storage.RemoveAll();
      config := LoadConfig(storage.configSlot);
      wordStats := map[];
      gameRecords := [];
      progress := LoadProgress(storage.progressSlot);
      return true;
    }

    /** Writes the configuration, the statistics and the progress; the log is written on every save already. */
    method SaveAll() returns (ok: bool)
      modifies this, storage
      ensures ok
      ensures State() == old(State()) && currentBank == old(currentBank)
      ensures storage.Contents().records == old(storage.Contents()).records
      ensures storage.Contents().config in {old(storage.Contents()).config, Parsed(config)}
      ensures storage.Contents().stats in {old(storage.Contents()).stats, Parsed(wordStats)}
      ensures storage.Contents().progress in {old(storage.Contents()).progress, Parsed(progress)}
    {
      var _ := SaveConfig(config);
      assert config == old(config);
      var _ := storage.SetStats(wordStats);
      var _ := storage.SetProgress(progress);
      return true;
    }
  }
}
