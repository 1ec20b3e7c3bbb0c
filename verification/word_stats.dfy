/**
 * Per-word statistics and the rule `updateWordStat` applies to one entry on
 * every answer. Percentages are integers in tenths of a percent: an accuracy
 * of 833 stands for the stored text "83.3".
 */
module WordStats {

  const Correct := "correct"
  const Wrong := "wrong"

  datatype WordStat = WordStat(
    studied: bool,
    difficulty: int,
    wrongTimes: nat,
    correctTimes: nat,
    accuracy: int,     // tenths of a percent
    lastStudied: int,  // milliseconds since the epoch
    masterLevel: int
  )

  function Attempts(s: WordStat): nat {
    s.correctTimes + s.wrongTimes
  }

  /** The entry created for a word on its first answer, stamped `now`. */
  function Fresh(now: int): (r: WordStat)
    ensures !r.studied && Attempts(r) == 0 && r.lastStudied == now
    ensures Consistent(r)
  {
    WordStat(false, 1, 0, 0, 0, now, 0)
  }

  /** `getWordStat`'s stand-in for a word never answered. */
  const Unstudied := WordStat(false, 1, 0, 0, 0, 0, 0)

  /** `(correct / total * 100).toFixed(1)` as tenths, rounding halves up. */
  function RoundTenths(correct: nat, total: nat): (r: nat)
    requires total > 0
    ensures (2 * r - 1) * total <= 2000 * correct < (2 * r + 1) * total
    ensures correct <= total ==> r <= 1000
  {
    var r := (2000 * correct + total) / (2 * total);
    assert (2 * r - 1) * total == 2 * total * r - total;
    assert (2 * r + 1) * total == 2 * total * r + total;
    if correct <= total then
      assert (2 * r - 1) * total <= 2000 * total;
      CancelFactor(2 * r - 1, 2000, total);
      r
    else
      r
  }

  lemma CancelFactor(x: int, y: int, t: int)
    requires t > 0 && x * t <= y * t
    ensures x <= y
  {
  }

  /** Difficulty moves one step per answer, only when adjustment is on and 5 attempts are reached. */
  function NextDifficulty(d: int, accuracy: int, total: nat, adjust: bool): (r: int)
    ensures d - 1 <= r <= d + 1
    ensures r < d <==> adjust && total >= 5 && accuracy > 800 && d > 1
    ensures r > d <==> adjust && total >= 5 && accuracy < 400 && d < 3
    ensures 1 <= d <= 3 ==> 1 <= r <= 3
  {
    if adjust && total >= 5 then
      if accuracy > 800 && d > 1 then d - 1
      else if accuracy < 400 && d < 3 then d + 1
      else d
    else d
  }

  /** The mastery step function: 90% and up is 5, then one level per 10% down to 60%, below that 1. */
  function MasterLevel(accuracy: int): (r: int)
    ensures 1 <= r <= 5
    ensures r == 1 <==> accuracy < 600
    ensures r > 1 ==> 400 + 100 * r <= accuracy
    ensures 1 < r < 5 ==> accuracy < 500 + 100 * r
  {
    if accuracy >= 900 then 5
    else if accuracy >= 800 then 4
    else if accuracy >= 700 then 3
    else if accuracy >= 600 then 2
    else 1
  }

  /** A higher accuracy never gives a lower mastery level. */
  lemma MasterLevelMonotonic(a: int, b: int)
    requires a <= b
    ensures MasterLevel(a) <= MasterLevel(b)
  {
  }

  /**
   * One answer to an entry: counters, accuracy (rounded before it is compared),
   * then difficulty and mastery, stamped `now`.
   */
  function Answer(s: WordStat, result: string, adjust: bool, now: int): (r: WordStat)
    ensures r.studied && r.lastStudied == now
    ensures result == Correct ==> r.correctTimes == s.correctTimes + 1 && r.wrongTimes == s.wrongTimes
    ensures result == Wrong ==> r.wrongTimes == s.wrongTimes + 1 && r.correctTimes == s.correctTimes
    ensures result != Correct && result != Wrong ==>
              r.correctTimes == s.correctTimes && r.wrongTimes == s.wrongTimes
    ensures Attempts(r) > 0 ==>
              r.accuracy == RoundTenths(r.correctTimes, Attempts(r)) && 0 <= r.accuracy <= 1000
    ensures Attempts(r) == 0 ==> r.accuracy == s.accuracy
    ensures s.difficulty - 1 <= r.difficulty <= s.difficulty + 1
    ensures r.difficulty == NextDifficulty(s.difficulty, r.accuracy, Attempts(r), adjust)
    ensures r.difficulty != s.difficulty ==> adjust && Attempts(r) >= 5
    ensures 1 <= s.difficulty <= 3 ==> 1 <= r.difficulty <= 3
    ensures Attempts(r) < 10 ==> r.masterLevel == s.masterLevel
    ensures Attempts(r) >= 10 ==> r.masterLevel == MasterLevel(r.accuracy) && 1 <= r.masterLevel <= 5
  {
    var correct := s.correctTimes + (if result == Correct then 1 else 0);
    var wrong := s.wrongTimes + (if result == Wrong then 1 else 0);
    var total := correct + wrong;
    var accuracy := if total > 0 then RoundTenths(correct, total) else s.accuracy;
    WordStat(
      true,
      NextDifficulty(s.difficulty, accuracy, total, adjust),
      wrong,
      correct,
      accuracy,
      now,
      if total >= 10 then MasterLevel(accuracy) else s.masterLevel)
  }

  /**
   * What every entry built by answers alone satisfies: accuracy is the rounded
   * ratio (0 before any attempt), difficulty stays 1 below 5 attempts and
   * within [1,3], mastery stays 0 below 10 attempts and then follows accuracy.
   */
  predicate Consistent(s: WordStat) {
    && 1 <= s.difficulty <= 3
    && (Attempts(s) == 0 ==> s.accuracy == 0)
    && (Attempts(s) > 0 ==> s.accuracy == RoundTenths(s.correctTimes, Attempts(s)))
    && (Attempts(s) < 5 ==> s.difficulty == 1)
    && (Attempts(s) < 10 ==> s.masterLevel == 0)
    && (Attempts(s) >= 10 ==> s.masterLevel == MasterLevel(s.accuracy))
  }

  /** An answer keeps an entry consistent. */
  lemma AnswerKeepsConsistent(s: WordStat, result: string, adjust: bool, now: int)
    requires Consistent(s)
    ensures Consistent(Answer(s, result, adjust, now))
  {
  }

  /** A word's answers, oldest first, applied to its entry. */
  function Replay(s: WordStat, results: seq<string>, adjust: bool, now: int): WordStat
    decreases |results|
  {
    if results == [] then s
    else Replay(Answer(s, results[0], adjust, now), results[1..], adjust, now)
  }

  function Occurrences(results: seq<string>, x: string): nat
    decreases |results|
  {
    if results == [] then 0
    else (if results[0] == x then 1 else 0) + Occurrences(results[1..], x)
  }

  /**
   * After a run of answers the counters have grown by exactly the number of
   * "correct" and "wrong" results, and a consistent entry stays consistent.
   */
  lemma {:induction false} ReplayCounts(s: WordStat, results: seq<string>, adjust: bool, now: int)
    ensures Replay(s, results, adjust, now).correctTimes == s.correctTimes + Occurrences(results, Correct)
    ensures Replay(s, results, adjust, now).wrongTimes == s.wrongTimes + Occurrences(results, Wrong)
    ensures Consistent(s) ==> Consistent(Replay(s, results, adjust, now))
    ensures results != [] ==> Replay(s, results, adjust, now).studied
    decreases |results|
  {
    if results != [] {
      var next := Answer(s, results[0], adjust, now);
      ReplayCounts(next, results[1..], adjust, now);
      if Consistent(s) {
        AnswerKeepsConsistent(s, results[0], adjust, now);
      }
      if results[1..] == [] {
        assert Replay(s, results, adjust, now) == next;
      }
    }
  }

  /**
   * From a fresh entry, any sequence of answers gives accuracy
   * round(correct / total * 100, 1 decimal), difficulty 1 until the fifth
   * attempt and mastery 0 until the tenth.
   */
  lemma FromFresh(results: seq<string>, adjust: bool, created: int, now: int)
    ensures var r := Replay(Fresh(created), results, adjust, now);
            var c := Occurrences(results, Correct);
            var t := c + Occurrences(results, Wrong);
            && r.correctTimes == c && Attempts(r) == t
            && (t > 0 ==> r.accuracy == RoundTenths(c, t) && r.accuracy <= 1000)
            && (t == 0 ==> r.accuracy == 0)
            && 1 <= r.difficulty <= 3
            && (t < 5 ==> r.difficulty == 1)
            && 0 <= r.masterLevel <= 5
            && (t < 10 ==> r.masterLevel == 0)
  {
    ReplayCounts(Fresh(created), results, adjust, now);
  }

  /** Five correct answers then one wrong one: 83.3%, difficulty 1, mastery 0. */
  lemma FiveCorrectOneWrong(now: int)
    ensures var r := Replay(Fresh(now), [Correct, Correct, Correct, Correct, Correct, Wrong], true, now);
            r.accuracy == 833 && r.difficulty == 1 && r.masterLevel == 0
  {
    var s := Fresh(now);
    var s1 := Answer(s, Correct, true, now);
    var s2 := Answer(s1, Correct, true, now);
    var s3 := Answer(s2, Correct, true, now);
    var s4 := Answer(s3, Correct, true, now);
    var s5 := Answer(s4, Correct, true, now);
    assert s5.correctTimes == 5 && s5.wrongTimes == 0 && s5.difficulty == 1;
    var s6 := Answer(s5, Wrong, true, now);
    assert RoundTenths(5, 6) == 833;
    var rs := [Correct, Correct, Correct, Correct, Correct, Wrong];
    assert Replay(s5, rs[5..], true, now) == s6;
    assert Replay(s4, rs[4..], true, now) == s6;
    assert Replay(s3, rs[3..], true, now) == s6;
    assert Replay(s2, rs[2..], true, now) == s6;
    assert Replay(s1, rs[1..], true, now) == s6;
  }
}
