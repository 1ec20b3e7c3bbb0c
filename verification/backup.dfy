/**
 * Export and import of the four sections. A parsed import document carries
 * each section or not; a document that does not parse (or is `null`) is
 * refused as a whole.
 */
module Backup {
  import opened Json
  import opened Settings
  import opened WordStats
  import opened GameRecords
  import opened StudyProgress
  import opened LocalStorage

  /** The four sections the data manager keeps. */
  datatype Sections = Sections(
    config: Config,
    wordStats: map<string, WordStat>,
    gameRecords: seq<Record>,
    progress: Progress
  )

  /** The object `exportData` serialises. */
  datatype Snapshot = Snapshot(data: Sections, exportDate: string)

  /** What `JSON.parse` makes of an import document; an absent or falsy section is `None`. */
  datatype ImportDoc =
    | Malformed
    | Document(config: Option<Config>, wordStats: Option<map<string, WordStat>>,
               gameRecords: Option<seq<Record>>, progress: Option<Progress>)

  /** The document read back from an exported snapshot: every section present. */
  function Reparse(snap: Snapshot): (doc: ImportDoc)
    ensures doc.Document? && doc.config.Some? && doc.wordStats.Some?
    ensures doc.gameRecords.Some? && doc.progress.Some?
  {
    Document(Some(snap.data.config), Some(snap.data.wordStats),
             Some(snap.data.gameRecords), Some(snap.data.progress))
  }

  /** Whether the document carries section `i`: 0 config, 1 statistics, 2 records, 3 progress. */
  predicate Carries(doc: ImportDoc, i: nat) {
    doc.Document? &&
    if i == 0 then doc.config.Some?
    else if i == 1 then doc.wordStats.Some?
    else if i == 2 then doc.gameRecords.Some?
    else if i == 3 then doc.progress.Some?
    else false
  }

  /**
   * The sections after the first `n` of config, word statistics, records and
   * progress have been taken from the document: a section is replaced exactly
   * when it comes among the first `n` and the document carries it.
   */
  function ApplyFirst(s: Sections, doc: ImportDoc, n: nat): (r: Sections)
    ensures r.config == if n > 0 && Carries(doc, 0) then doc.config.value else s.config
    ensures r.wordStats == if n > 1 && Carries(doc, 1) then doc.wordStats.value else s.wordStats
    ensures r.gameRecords == if n > 2 && Carries(doc, 2) then doc.gameRecords.value else s.gameRecords
    ensures r.progress == if n > 3 && Carries(doc, 3) then doc.progress.value else s.progress
  {
    if doc.Malformed? then s
    else
      Sections(
        if n > 0 && doc.config.Some? then doc.config.value else s.config,
        if n > 1 && doc.wordStats.Some? then doc.wordStats.value else s.wordStats,
        if n > 2 && doc.gameRecords.Some? then doc.gameRecords.value else s.gameRecords,
        if n > 3 && doc.progress.Some? then doc.progress.value else s.progress)
  }

  /**
   * The store after the writes of the first `n` sections the document
   * carries have succeeded: each written key holds the imported section,
   * every other key is as it was.
   */
  function WrittenFirst(st: StoreState, doc: ImportDoc, n: nat): (r: StoreState)
    ensures r.config == if n > 0 && Carries(doc, 0) then Parsed(doc.config.value) else st.config
    ensures r.stats == if n > 1 && Carries(doc, 1) then Parsed(doc.wordStats.value) else st.stats
    ensures r.records == if n > 2 && Carries(doc, 2) then Parsed(doc.gameRecords.value) else st.records
    ensures r.progress == if n > 3 && Carries(doc, 3) then Parsed(doc.progress.value) else st.progress
  {
    if doc.Malformed? then st
    else
      StoreState(
        if n > 0 && doc.config.Some? then Parsed(doc.config.value) else st.config,
        if n > 1 && doc.wordStats.Some? then Parsed(doc.wordStats.value) else st.stats,
        if n > 2 && doc.gameRecords.Some? then Parsed(doc.gameRecords.value) else st.records,
        if n > 3 && doc.progress.Some? then Parsed(doc.progress.value) else st.progress)
  }

  /** A completed import: the sections the document carries replace the old ones wholesale. */
  function Imported(s: Sections, doc: ImportDoc): (r: Sections)
    ensures doc.Malformed? ==> r == s
    ensures doc.Document? ==>
              && r.config == (if doc.config.Some? then doc.config.value else s.config)
              && r.wordStats == (if doc.wordStats.Some? then doc.wordStats.value else s.wordStats)
              && r.gameRecords == (if doc.gameRecords.Some? then doc.gameRecords.value else s.gameRecords)
              && r.progress == (if doc.progress.Some? then doc.progress.value else s.progress)
  {
    ApplyFirst(s, doc, 4)
  }

  /** Importing what was exported gives every section back. */
  lemma ExportImportRoundTrip(s: Sections, exportDate: string)
    ensures Imported(s, Reparse(Snapshot(s, exportDate))) == s
  {
  }

  /** Importing the same document twice is the same as importing it once. */
  lemma ImportIdempotent(s: Sections, doc: ImportDoc)
    ensures Imported(Imported(s, doc), doc) == Imported(s, doc)
  {
  }

  /** An import that stops early has replaced a prefix of what a completed import replaces. */
  lemma PartialImportIsPrefix(s: Sections, doc: ImportDoc, n: nat)
    ensures n >= 4 ==> ApplyFirst(s, doc, n) == Imported(s, doc)
    ensures ApplyFirst(s, doc, 0) == s
    ensures Imported(ApplyFirst(s, doc, n), doc) == Imported(s, doc)
  {
  }
}
