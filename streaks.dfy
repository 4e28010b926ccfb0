/** The daily-play streak of `src/logic/streaks.ts`. Dates are the ISO texts the rest of
    the application stores; their instants come from IsoTime.Parse. */
module Streaks {
  import opened Wrappers
  import opened Types
  import opened IsoTime

  function Max(a: int, b: int): int { if a < b then b else a }

  /** `lastDayISO` is null or the empty text, both falsy in JavaScript. */
  predicate NoPreviousDay(s: StreakState) {
    s.lastDayISO == None || s.lastDayISO == Some("")
  }

  /** Whole days from the last played instant to `dateISO`, rounded down; None when the
      stored last day is not a valid date (the difference is then NaN). */
  function DayDiff(s: StreakState, dateISO: string): Option<int>
    requires Parse(dateISO).Some? && !NoPreviousDay(s)
  {
    match Parse(s.lastDayISO.value)
    case None => None
    case Some(last) => Some((Parse(dateISO).value - last) / DayMs)
  }

  /** Record a finished session on `dateISO`. The date must be a valid instant: for an
      invalid one the source throws from `toISOString`. */
  function UpdateStreak(streak: StreakState, dateISO: string): (r: StreakState)
    requires Parse(dateISO).Some?
    ensures r.best >= streak.best
    ensures streak.best >= streak.current ==> r.best >= r.current
    ensures r != streak ==> r.lastDayISO == Some(dateISO)
  {
    if NoPreviousDay(streak) then StreakState(1, Max(1, streak.best), Some(dateISO))
    else
      match DayDiff(streak, dateISO)
      case Some(0) => streak
      case Some(1) =>
        var current := streak.current + 1;
        StreakState(current, Max(streak.best, current), Some(dateISO))
      case _ => StreakState(1, Max(streak.best, 1), Some(dateISO))
  }

  /** The four branches, stated over the instants of the two dates. */
  lemma UpdateStreakBranches(streak: StreakState, dateISO: string)
    requires Parse(dateISO).Some?
    ensures NoPreviousDay(streak) ==>
              UpdateStreak(streak, dateISO) == StreakState(1, Max(1, streak.best), Some(dateISO))
    ensures !NoPreviousDay(streak) && DayDiff(streak, dateISO) == Some(0) ==>
              UpdateStreak(streak, dateISO) == streak
    ensures !NoPreviousDay(streak) && DayDiff(streak, dateISO) == Some(1) ==>
              UpdateStreak(streak, dateISO)
                == StreakState(streak.current + 1, Max(streak.best, streak.current + 1), Some(dateISO))
    ensures !NoPreviousDay(streak) && DayDiff(streak, dateISO) != Some(0) && DayDiff(streak, dateISO) != Some(1) ==>
              UpdateStreak(streak, dateISO) == StreakState(1, Max(streak.best, 1), Some(dateISO))
  {
  }

  /** A date earlier than the last played day (negative difference) resets the streak. */
  lemma EarlierDateResets(streak: StreakState, dateISO: string)
    requires Parse(dateISO).Some? && !NoPreviousDay(streak)
    requires Parse(streak.lastDayISO.value).Some?
    requires Parse(dateISO).value < Parse(streak.lastDayISO.value).value
    ensures UpdateStreak(streak, dateISO) == StreakState(1, Max(streak.best, 1), Some(dateISO))
  {
    assert DayDiff(streak, dateISO).value < 0;
  }

  /** Finishing a second session on the same date changes nothing more. */
  lemma UpdateStreakIdempotent(streak: StreakState, dateISO: string)
    requires Parse(dateISO).Some?
    ensures UpdateStreak(UpdateStreak(streak, dateISO), dateISO) == UpdateStreak(streak, dateISO)
  {
    var once := UpdateStreak(streak, dateISO);
    if once != streak {
      assert once.lastDayISO == Some(dateISO) && dateISO != "";
      assert DayDiff(once, dateISO) == Some(0);
    }
  }

  /** Playing on D, D+1 and D+3 from a fresh streak: current 1, 2, 1 and best 1, 2, 2. */
  lemma StreakWalk(d0: string, d1: string, d3: string)
    requires Parse(d0).Some? && Parse(d1).Some? && Parse(d3).Some?
    requires Parse(d1).value == Parse(d0).value + DayMs
    requires Parse(d3).value == Parse(d0).value + 3 * DayMs
    ensures var s1 := UpdateStreak(StreakState(0, 0, None), d0);
            var s2 := UpdateStreak(s1, d1);
            var s3 := UpdateStreak(s2, d3);
            s1.current == 1 && s2.current == 2 && s3.current == 1 &&
            s1.best == 1 && s2.best == 2 && s3.best == 2
  {
    var s1 := UpdateStreak(StreakState(0, 0, None), d0);
    assert s1 == StreakState(1, 1, Some(d0));
    var s2 := UpdateStreak(s1, d1);
    assert d0 != "";
    assert DayDiff(s1, d1) == Some(1);
    assert s2 == StreakState(2, 2, Some(d1));
    assert d1 != "";
    assert DayDiff(s2, d3) == Some(2);
  }

  /** Sessions written on consecutive calendar days extend the streak. */
  lemma NextCalendarDayExtends(streak: StreakState, day: string, nextDay: string)
    requires ValidDay(day) && ValidDay(nextDay)
    requires DaysFromCivil(Year(nextDay), Month(nextDay), Day(nextDay)) == DaysFromCivil(Year(day), Month(day), Day(day)) + 1
    requires streak.lastDayISO == Some(day + Midnight)
    ensures Parse(nextDay + Midnight).Some?
    ensures UpdateStreak(streak, nextDay + Midnight).current == streak.current + 1
  {
    var date := nextDay + Midnight;
    var a := DaysFromCivil(Year(day), Month(day), Day(day));
    DayStartParses(day);
    DayStartParses(nextDay);
    assert DayDiff(streak, date) == Some(1) by {
      assert (day + Midnight) != "";
      assert Parse(date).value - Parse(day + Midnight).value == (a + 1) * DayMs - a * DayMs == DayMs;
    }
    UpdateStreakBranches(streak, date);
  }

  /** The decimal numeral of a natural number. */
  function NatText(n: nat): (t: string)
    ensures |t| > 0 && forall i :: 0 <= i < |t| ==> IsDigit(t[i])
    ensures DigitsValue(t) == n
    ensures n >= 10 ==> t[0] != '0'
  {
    var digit := ['0' + (n % 10) as char];
    if n < 10 then digit
    else
      var front := NatText(n / 10);
      assert (front + digit)[..|front|] == front;
      front + digit
  }

  /** How a template literal renders an integer. */
  function IntText(n: int): (t: string)
    ensures |t| > 0 && ' ' !in t
    ensures IntValue(t) == n
  {
    if n < 0 then
      assert ("-" + NatText(-n))[1..] == NatText(-n);
      "-" + NatText(-n)
    else NatText(n)
  }

  /** The number a string of decimal digits denotes, most significant digit first. */
  function DigitsValue(t: string): int {
    if t == [] then 0 else 10 * DigitsValue(t[..|t| - 1]) + DigitAt(t, |t| - 1)
  }

  /** The number an optionally signed decimal numeral denotes. */
  function IntValue(t: string): int {
    if |t| > 0 && t[0] == '-' then -DigitsValue(t[1..]) else DigitsValue(t)
  }

  /** The text before the first space, and the text after it. */
  function SplitAtSpace(t: string): (string, string)
  {
    if t == [] then ([], [])
    else if t[0] == ' ' then ([], t[1..])
    else
      var (a, b) := SplitAtSpace(t[1..]);
      ([t[0]] + a, b)
  }

  lemma {:induction false} SplitAfterWord(word: string, rest: string)
    requires ' ' !in word
    ensures SplitAtSpace(word + " " + rest) == (word, rest)
  {
    var t := word + " " + rest;
    if word == [] {
      assert t[0] == ' ' && t[1..] == rest;
    } else {
      assert t[0] == word[0] && t[1..] == word[1..] + " " + rest;
      assert ' ' !in word[1..] by { assert forall c :: c in word[1..] ==> c in word; }
      SplitAfterWord(word[1..], rest);
      assert [word[0]] + word[1..] == word;
    }
  }

  /** "<current> <label>", with the singular label exactly when the streak is 1. */
  function FormatStreakLabel(streak: StreakState, singular: string, plural: string): (r: string)
    ensures SplitAtSpace(r).0 == IntText(streak.current)
    ensures streak.current == 1 ==> SplitAtSpace(r).1 == singular
    ensures streak.current != 1 ==> SplitAtSpace(r).1 == plural
    ensures |r| == |IntText(streak.current)| + 1 + |if streak.current == 1 then singular else plural|
    ensures r[|IntText(streak.current)|] == ' '
  {
    var value := streak.current;
    var suffix := if value == 1 then singular else plural;
    SplitAfterWord(IntText(value), suffix);
    IntText(value) + " " + suffix
  }
}
