/**
 * The browser's key-value store as four slots, one per key the data manager
 * uses. A write can fail (quota exceeded, serialisation error); the model
 * leaves that choice open, and a failed write leaves its slot as it was.
 */
module LocalStorage {
  import opened Json
  import opened Settings
  import opened WordStats
  import opened GameRecords
  import opened StudyProgress

  /** The contents of the four keys. */
  datatype StoreState = StoreState(
    config: Slot<Config>,                  // "wordGameConfig"
    stats: Slot<map<string, WordStat>>,    // "wordGameStats"
    records: Slot<seq<Record>>,            // "wordGameRecords"
    progress: Slot<Progress>               // "wordGameProgress"
  )

  const Cleared := StoreState(Missing, Missing, Missing, Missing)

  class LocalStore {
    var configSlot: Slot<Config>
    var statsSlot: Slot<map<string, WordStat>>
    var recordsSlot: Slot<seq<Record>>
    var progressSlot: Slot<Progress>

    function Contents(): StoreState
      reads this
    {
      StoreState(configSlot, statsSlot, recordsSlot, progressSlot)
    }

    constructor (initial: StoreState)
      ensures Contents() == initial
    {
      configSlot := initial.config;
      statsSlot := initial.stats;
      recordsSlot := initial.records;
      progressSlot := initial.progress;
    }

    method SetConfig(c: Config) returns (ok: bool)
      modifies this
      ensures Contents() == if ok then old(Contents()).(config := Parsed(c)) else old(Contents())
    {
      ok :| true;
      if ok {
        configSlot := Parsed(c);
      }
    }

    method SetStats(m: map<string, WordStat>) returns (ok: bool)
      modifies this
      ensures Contents() == if ok then old(Contents()).(stats := Parsed(m)) else old(Contents())
    {
      ok :| true;
      if ok {
        statsSlot := Parsed(m);
      }
    }

    method SetRecords(rs: seq<Record>) returns (ok: bool)
      modifies this
      ensures Contents() == if ok then old(Contents()).(records := Parsed(rs)) else old(Contents())
    {
      ok :| true;
      if ok {
        recordsSlot := Parsed(rs);
      }
    }

    method SetProgress(p: Progress) returns (ok: bool)
      modifies this
      ensures Contents() == if ok then old(Contents()).(progress := Parsed(p)) else old(Contents())
    {
      ok :| true;
      if ok {
        progressSlot := Parsed(p);
      }
    }

    /** `removeItem` on all four keys. */
    method RemoveAll()
      modifies this
      ensures Contents() == Cleared
    {
      configSlot, statsSlot, recordsSlot, progressSlot := Missing, Missing, Missing, Missing;
    }
  }
}
