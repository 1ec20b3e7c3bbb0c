/** Session records: stamped on save, read back newest first. */
module GameRecords {
  import opened Json

  /** One session record: the caller's fields plus `timestamp` and `date`. */
  type Record = map<string, Value>

  /** How many records `getGameRecords` returns when no limit is given. */
  const DefaultRecordLimit := 50

  /** `{ ...record, timestamp, date }`: the two stamps override fields of the same name. */
  function Stamp(record: Record, now: int, date: string): (r: Record)
    ensures r.Keys == record.Keys + {"timestamp", "date"}
    ensures r["timestamp"] == Num(now as real) && r["date"] == Str(date)
    ensures forall k :: k in record && k != "timestamp" && k != "date" ==> r[k] == record[k]
  {
    record["timestamp" := Num(now as real)]["date" := Str(date)]
  }

  function Min(a: int, b: int): int {
    if a < b then a else b
  }

  /** The sequence backwards. */
  function Reverse<T>(s: seq<T>): (r: seq<T>)
    ensures |r| == |s|
    ensures forall i :: 0 <= i < |s| ==> r[i] == s[|s| - 1 - i]
    decreases |s|
  {
    if s == [] then [] else [s[|s| - 1]] + Reverse(s[..|s| - 1])
  }

  /**
   * Where `slice(-limit)` starts in a list of `n` elements: a positive limit
   * keeps the last `limit`, while `-0` is `0` and keeps everything, and a
   * negative limit drops the first `-limit`.
   */
  function SliceStart(n: nat, limit: int): (k: nat)
    ensures k <= n
    ensures limit > 0 ==> n - k == Min(limit, n)
    ensures limit <= 0 ==> k == Min(-limit, n)
  {
    if limit > 0 then (if limit < n then n - limit else 0)
    else (if -limit < n then -limit else n)
  }

  /**
   * `records.slice(-limit).reverse()`: a suffix of the log, newest first.
   * A positive limit gives the last `min(limit, n)` records; 0 gives them all.
   */
  function RecentFirst(records: seq<Record>, limit: int): (r: seq<Record>)
    ensures limit > 0 ==> |r| == Min(limit, |records|)
    ensures limit == 0 ==> |r| == |records|
    ensures limit < 0 ==> |r| == |records| - Min(-limit, |records|)
    ensures forall i :: 0 <= i < |r| ==> r[i] == records[|records| - 1 - i]
  {
    Reverse(records[SliceStart(|records|, limit)..])
  }

  /** After an append, the newest record comes first in every non-empty read. */
  lemma AppendedComesFirst(records: seq<Record>, x: Record, limit: int)
    requires limit >= 0
    ensures RecentFirst(records + [x], limit) != []
    ensures RecentFirst(records + [x], limit)[0] == x
    ensures limit == 0 || limit > |records| ==>
              RecentFirst(records + [x], limit)[1..] == RecentFirst(records, limit)
  {
  }
}
