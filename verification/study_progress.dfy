/**
 * The progress aggregate `updateProgress` recomputes: studied words, overall
 * accuracy, the study-day streak and the bank's declared size.
 */
module StudyProgress {
  import opened Json
  import opened WordStats

  /**
   * `lastStudyDate`: never set (or falsy), a day number, or a truthy text that
   * does not parse as a date (its day difference is NaN).
   */
  datatype StudyDate = NoDate | OnDay(day: int) | Invalid

  /** The aggregate; `accuracy` is in tenths of a percent. */
  datatype Progress = Progress(studied: int, total: int, accuracy: int, streak: int, lastStudyDate: StudyDate)

  /** What `loadProgress` falls back to. */
  const DefaultProgress := Progress(0, 3500, 0, 0, NoDate)

  /**
   * `loadProgress`: the stored aggregate, or, for a missing or unparseable
   * key, no studied words out of 3500, accuracy 0, streak 0 and no study date.
   */
  function LoadProgress(slot: Slot<Progress>): (r: Progress)
    ensures slot.Parsed? ==> r == slot.value
    ensures !slot.Parsed? ==> r.studied == 0 && r.total == 3500 && r.accuracy == 0
                              && r.streak == 0 && r.lastStudyDate == NoDate
  {
    slot.GetOr(DefaultProgress)
  }

  function StudiedMark(s: WordStat): nat {
    if s.studied then 1 else 0
  }

  function CorrectOf(s: WordStat): nat {
    s.correctTimes
  }

  /** The sum of `f` over the entries of `keys`, in no particular order. */
  ghost function SumOver(m: map<string, WordStat>, keys: set<string>, f: WordStat -> nat): nat
    requires keys <= m.Keys
    decreases keys
  {
    if keys == {} then 0
    else
      var k :| k in keys;
      f(m[k]) + SumOver(m, keys - {k}, f)
  }

  /** The sum does not depend on which key is taken first. */
  lemma {:induction false} SumOverAnyKey(m: map<string, WordStat>, keys: set<string>, f: WordStat -> nat, k: string)
    requires keys <= m.Keys && k in keys
    ensures SumOver(m, keys, f) == f(m[k]) + SumOver(m, keys - {k}, f)
    decreases keys
  {
    var j :| j in keys && SumOver(m, keys, f) == f(m[j]) + SumOver(m, keys - {j}, f);
    if j != k {
      SumOverAnyKey(m, keys - {j}, f, k);
      SumOverAnyKey(m, keys - {k}, f, j);
      assert keys - {j} - {k} == keys - {k} - {j};
    }
  }

  ghost function StudiedCount(m: map<string, WordStat>): nat {
    SumOver(m, m.Keys, StudiedMark)
  }

  ghost function TotalAttempts(m: map<string, WordStat>): nat {
    SumOver(m, m.Keys, Attempts)
  }

  ghost function TotalCorrect(m: map<string, WordStat>): nat {
    SumOver(m, m.Keys, CorrectOf)
  }

  /** At most one studied word per entry. */
  lemma {:induction false} StudiedAtMost(m: map<string, WordStat>, keys: set<string>)
    requires keys <= m.Keys
    ensures SumOver(m, keys, StudiedMark) <= |keys|
    decreases keys
  {
    if keys != {} {
      var k :| k in keys;
      SumOverAnyKey(m, keys, StudiedMark, k);
      StudiedAtMost(m, keys - {k});
    }
  }

  /** Correct answers never exceed attempts, over any set of entries. */
  lemma {:induction false} CorrectAtMostAttempts(m: map<string, WordStat>, keys: set<string>)
    requires keys <= m.Keys
    ensures SumOver(m, keys, CorrectOf) <= SumOver(m, keys, Attempts)
    decreases keys
  {
    if keys != {} {
      var k :| k in keys;
      SumOverAnyKey(m, keys, CorrectOf, k);
      SumOverAnyKey(m, keys, Attempts, k);
      CorrectAtMostAttempts(m, keys - {k});
    }
  }

  /** The filter and the two reductions of `updateProgress`, walked over the keys. */
  method Tally(m: map<string, WordStat>) returns (studied: nat, attempts: nat, correct: nat)
    ensures studied == StudiedCount(m) && studied <= |m|
    ensures attempts == TotalAttempts(m) && correct == TotalCorrect(m)
    ensures correct <= attempts
  {
    StudiedAtMost(m, m.Keys);
    CorrectAtMostAttempts(m, m.Keys);
    studied, attempts, correct := 0, 0, 0;
    var rest := m.Keys;
    while rest != {}
      invariant rest <= m.Keys
      invariant studied + SumOver(m, rest, StudiedMark) == StudiedCount(m)
      invariant attempts + SumOver(m, rest, Attempts) == TotalAttempts(m)
      invariant correct + SumOver(m, rest, CorrectOf) == TotalCorrect(m)
      decreases rest
    {
      var k :| k in rest;
      SumOverAnyKey(m, rest, StudiedMark, k);
      SumOverAnyKey(m, rest, Attempts, k);
      SumOverAnyKey(m, rest, CorrectOf, k);
      studied := studied + StudiedMark(m[k]);
      attempts := attempts + Attempts(m[k]);
      correct := correct + CorrectOf(m[k]);
      rest := rest - {k};
    }
  }

  /** Overall accuracy in tenths: 0 when nothing was attempted. */
  function OverallAccuracy(correct: nat, attempts: nat): (r: int)
    requires correct <= attempts
    ensures 0 <= r <= 1000
    ensures attempts > 0 ==> (2 * r - 1) * attempts <= 2000 * correct < (2 * r + 1) * attempts
    ensures attempts == 0 ==> r == 0
  {
    if attempts > 0 then RoundTenths(correct, attempts) else 0
  }

  /**
   * The streak rule: a first study starts at 1, a one-day gap extends the
   * streak, a longer gap restarts it, and the same day, a date in the
   * future or an unreadable date leave it alone.
   */
  function NextStreak(streak: int, last: StudyDate, today: int): (r: int)
    ensures last == NoDate ==> r == 1
    ensures last.OnDay? && today - last.day == 1 ==> r == streak + 1
    ensures last.OnDay? && today - last.day > 1 ==> r == 1
    ensures last.OnDay? && today - last.day <= 0 ==> r == streak
    ensures last == Invalid ==> r == streak
  {
    match last
    case NoDate => 1
    case Invalid => streak
    case OnDay(d) =>
      if today - d == 1 then streak + 1
      else if today - d > 1 then 1
      else streak
  }

  /** The aggregate `updateProgress` stores on day `today` for a bank of `bankCount` words. */
  ghost function NextProgress(p: Progress, m: map<string, WordStat>, bankCount: int, today: int): (r: Progress)
    ensures r.studied == StudiedCount(m) && 0 <= r.studied <= |m|
    ensures r.total == bankCount
    ensures 0 <= r.accuracy <= 1000
    ensures TotalAttempts(m) > 0 ==> r.accuracy == RoundTenths(TotalCorrect(m), TotalAttempts(m))
    ensures TotalAttempts(m) == 0 ==> r.accuracy == 0
    ensures r.streak == NextStreak(p.streak, p.lastStudyDate, today)
    ensures r.lastStudyDate == OnDay(today)
  {
    StudiedAtMost(m, m.Keys);
    CorrectAtMostAttempts(m, m.Keys);
    Progress(
      StudiedCount(m),
      bankCount,
      OverallAccuracy(TotalCorrect(m), TotalAttempts(m)),
      NextStreak(p.streak, p.lastStudyDate, today),
      OnDay(today))
  }

  /** Recomputing again on the same day changes nothing. */
  lemma SameDayIsIdempotent(p: Progress, m: map<string, WordStat>, bankCount: int, today: int)
    ensures NextProgress(NextProgress(p, m, bankCount, today), m, bankCount, today)
         == NextProgress(p, m, bankCount, today)
  {
  }

  /** The streak after recomputing the progress on each of `days` in turn. */
  function StreakAfterDays(streak: int, last: StudyDate, days: seq<int>): int
    decreases |days|
  {
    if days == [] then streak
    else StreakAfterDays(NextStreak(streak, last, days[0]), OnDay(days[0]), days[1..])
  }

  predicate Consecutive(days: seq<int>) {
    forall i :: 0 < i < |days| ==> days[i] == days[i - 1] + 1
  }

  /** Studying on each of the days right after day `d` adds one per day. */
  lemma {:induction false} ConsecutiveDaysExtend(streak: int, d: int, days: seq<int>)
    requires Consecutive(days) && days != [] && days[0] == d + 1
    ensures StreakAfterDays(streak, OnDay(d), days) == streak + |days|
    decreases |days|
  {
    if |days| > 1 {
      ConsecutiveDaysExtend(streak + 1, days[0], days[1..]);
    }
  }

  /** A first study and the consecutive days after it give a streak of their number. */
  lemma FirstStudyThenConsecutive(streak: int, days: seq<int>)
    requires Consecutive(days) && days != []
    ensures StreakAfterDays(streak, NoDate, days) == |days|
  {
    if |days| > 1 {
      ConsecutiveDaysExtend(1, days[0], days[1..]);
    }
  }

  /** After a gap of more than a day the streak restarts, whatever it was. */
  lemma GapRestarts(streak: int, d: int, days: seq<int>)
    requires Consecutive(days) && days != [] && days[0] > d + 1
    ensures StreakAfterDays(streak, OnDay(d), days) == |days|
  {
    if |days| > 1 {
      ConsecutiveDaysExtend(1, days[0], days[1..]);
    }
  }
}
