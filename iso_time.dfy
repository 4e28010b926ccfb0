/** `new Date(text).getTime()` for the one text form the application writes and reads back,
    the ISO 8601 instant "YYYY-MM-DDTHH:MM:SS.sssZ" (UTC). Any other text, and any text
    whose fields are out of range, is an invalid date (JavaScript's NaN), shown as None. */
module IsoTime {
  import opened Wrappers

  /** 24 hours of 60 minutes of 60 seconds of 1000 milliseconds. */
  const DayMs: int := 86400000

  predicate IsDigit(c: char) {
    '0' <= c <= '9'
  }

  /** Every character of `s` in [lo, hi) is a decimal digit. */
  predicate DigitsAt(s: string, lo: nat, hi: nat)
    requires lo <= hi <= |s|
  {
    forall i :: lo <= i < hi ==> IsDigit(s[i])
  }

  function DigitAt(s: string, i: nat): int
    requires i < |s|
  {
    s[i] as int - '0' as int
  }

  /** The value of the two digits at i and i + 1. */
  function Num2(s: string, i: nat): int
    requires i + 1 < |s|
  {
    10 * DigitAt(s, i) + DigitAt(s, i + 1)
  }

  predicate IsLeapYear(y: int) {
    y % 4 == 0 && (y % 100 != 0 || y % 400 == 0)
  }

  function DaysInMonth(y: int, m: int): int
    requires 1 <= m <= 12
  {
    if m == 2 then (if IsLeapYear(y) then 29 else 28)
    else if m == 4 || m == 6 || m == 9 || m == 11 then 30
    else 31
  }

  /** Days from 1970-01-01 to the given proleptic Gregorian date (the civil-to-days
      formula counting 400-year eras of 146097 days from 0000-03-01). */
  function DaysFromCivil(y: int, m: int, d: int): int
    requires 1 <= m <= 12
  {
    var y' := if m <= 2 then y - 1 else y;
    var era := y' / 400;
    var yoe := y' - era * 400;
    var mp := if m > 2 then m - 3 else m + 9;
    var doy := (153 * mp + 2) / 5 + d - 1;
    var doe := yoe * 365 + yoe / 4 - yoe / 100 + doy;
    era * 146097 + doe - 719468
  }

  /** "YYYY-MM-DD" with digits in the numeric places (the first ten characters). */
  predicate DayShape(s: string) {
    && |s| >= 10 && s[4] == '-' && s[7] == '-'
    && DigitsAt(s, 0, 4) && DigitsAt(s, 5, 7) && DigitsAt(s, 8, 10)
  }

  function Year(s: string): int requires |s| >= 4 {
    100 * Num2(s, 0) + Num2(s, 2)
  }

  function Month(s: string): int requires |s| >= 7 { Num2(s, 5) }

  function Day(s: string): int requires |s| >= 10 { Num2(s, 8) }

  /** The day part of a text names a day that exists. */
  predicate DayInRange(s: string)
    requires |s| >= 10
  {
    1 <= Month(s) <= 12 && 1 <= Day(s) <= DaysInMonth(Year(s), Month(s))
  }

  /** A "YYYY-MM-DD" text naming a day that exists, as `todayISO` produces. */
  predicate ValidDay(day: string) {
    |day| == 10 && DayShape(day) && DayInRange(day)
  }

  /** The fixed characters of the canonical instant form, and digits everywhere else. */
  predicate CanonicalShape(s: string) {
    && |s| == 24 && DayShape(s)
    && s[10] == 'T' && s[13] == ':' && s[16] == ':' && s[19] == '.' && s[23] == 'Z'
    && DigitsAt(s, 11, 13) && DigitsAt(s, 14, 16) && DigitsAt(s, 17, 19) && DigitsAt(s, 20, 23)
  }

  /** Milliseconds since 1970-01-01T00:00:00.000Z, or None for an invalid date. */
  function Parse(s: string): (t: Option<int>)
  {
    if !CanonicalShape(s) || !DayInRange(s) then None
    else
      var h, mi, sec := Num2(s, 11), Num2(s, 14), Num2(s, 17);
      var ms := 100 * DigitAt(s, 20) + Num2(s, 21);
      if h > 23 || mi > 59 || sec > 59 then None
      else Some(DaysFromCivil(Year(s), Month(s), Day(s)) * DayMs + h * 3600000 + mi * 60000 + sec * 1000 + ms)
  }

  const Midnight: string := "T00:00:00.000Z"

  /** The start of a valid calendar day (how a session's date is written) is a valid
      instant, and it falls exactly on a day boundary. */
  lemma DayStartParses(day: string)
    requires ValidDay(day)
    ensures Parse(day + Midnight) == Some(DaysFromCivil(Year(day), Month(day), Day(day)) * DayMs)
  {
    var s := day + Midnight;
    DayPart(day, s);
    TimePart(day, s);
  }

  /** Appending to a day keeps its fields. */
  lemma DayPart(day: string, s: string)
    requires ValidDay(day) && |s| >= 10 && s[..10] == day
    ensures DayShape(s) && DayInRange(s)
    ensures Year(s) == Year(day) && Month(s) == Month(day) && Day(s) == Day(day)
  {
    assert forall i :: 0 <= i < 10 ==> s[i] == day[i];
  }

  /** The time written after a day is midnight, in the canonical form. */
  lemma TimePart(day: string, s: string)
    requires |day| == 10 && s == day + Midnight
    ensures |s| == 24 && s[10] == 'T' && s[13] == ':' && s[16] == ':' && s[19] == '.' && s[23] == 'Z'
    ensures DigitsAt(s, 11, 13) && DigitsAt(s, 14, 16) && DigitsAt(s, 17, 19) && DigitsAt(s, 20, 23)
    ensures Num2(s, 11) == 0 && Num2(s, 14) == 0 && Num2(s, 17) == 0 && DigitAt(s, 20) == 0 && Num2(s, 21) == 0
  {
    assert forall i :: 10 <= i < 24 ==> s[i] == Midnight[i - 10];
  }

  /** The fields of the text "2024-01-01T00:00:00.000Z". */
  lemma ExampleFields(s: string)
    requires s == "2024-01-01T00:00:00.000Z"
    ensures CanonicalShape(s) && Year(s) == 2024 && Month(s) == 1 && Day(s) == 1
    ensures Num2(s, 11) == 0 && Num2(s, 14) == 0 && Num2(s, 17) == 0 && DigitAt(s, 20) == 0 && Num2(s, 21) == 0
  {
    var day := "2024-01-01";
    assert s == day + Midnight;
    assert s[..10] == day;
    assert Year(day) == 2024 && Month(day) == 1 && Day(day) == 1;
    DayPart(day, s);
    TimePart(day, s);
  }

  lemma ParseExample()
    ensures Parse("2024-01-01T00:00:00.000Z") == Some(1704067200000)
  {
    var s := "2024-01-01T00:00:00.000Z";
    ExampleFields(s);
    assert DaysInMonth(2024, 1) == 31;
    assert DaysFromCivil(2024, 1, 1) == 19723;
  }

  /** February 2024 has 29 days, so the 30th is an invalid date; a date without a time
      is not the canonical form. */
  lemma ParseRejects()
    ensures Parse("2024-02-30T00:00:00.000Z") == None
    ensures Parse("2024-01-01") == None
  {
    var s := "2024-02-30T00:00:00.000Z";
    assert Year(s) == 2024 && Month(s) == 2 && Day(s) == 30 by {}
    assert DaysInMonth(2024, 2) == 29;
    assert !DayInRange(s);
  }
}
