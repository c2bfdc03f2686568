/**
 * Naive date-times as `datetime.datetime` holds them, their order, and the fixed text format
 * "%Y-%m-%d %H:%M:%S" read by `datetime.strptime` and written by `strftime`.
 */
module Timestamps {
  import opened Results
  import opened Text

  /** A calendar date and time of day to the second. */
  datatype Timestamp = Timestamp(year: int, month: int, day: int, hour: int, minute: int, second: int)

  predicate IsLeapYear(year: int) {
    year % 4 == 0 && (year % 100 != 0 || year % 400 == 0)
  }

  function DaysInMonth(year: int, month: int): (n: int)
    requires 1 <= month <= 12
    ensures 28 <= n <= 31
    ensures n == 29 <==> month == 2 && IsLeapYear(year)
    ensures n == 31 <==> month in {1, 3, 5, 7, 8, 10, 12}
  {
    if month == 2 then (if IsLeapYear(year) then 29 else 28)
    else if month in {4, 6, 9, 11} then 30
    else 31
  }

  /** The values `datetime.datetime` accepts (years 1 to 9999, no leap seconds). */
  predicate Valid(t: Timestamp) {
    && 1 <= t.year <= 9999
    && 1 <= t.month <= 12
    && 1 <= t.day <= DaysInMonth(t.year, t.month)
    && 0 <= t.hour < 24
    && 0 <= t.minute < 60
    && 0 <= t.second < 60
  }

  type DateTime = t: Timestamp | Valid(t) witness Timestamp(1970, 1, 1, 0, 0, 0)

  /** Python's `<` on two naive date-times: lexicographic on (year, month, day, hour, minute, second). */
  predicate Before(a: Timestamp, b: Timestamp) {
    if a.year != b.year then a.year < b.year
    else if a.month != b.month then a.month < b.month
    else if a.day != b.day then a.day < b.day
    else if a.hour != b.hour then a.hour < b.hour
    else if a.minute != b.minute then a.minute < b.minute
    else a.second < b.second
  }

  lemma BeforeIsStrictTotalOrder(a: Timestamp, b: Timestamp, c: Timestamp)
    ensures !Before(a, a)
    ensures Before(a, b) && Before(b, c) ==> Before(a, c)
    ensures a == b || Before(a, b) || Before(b, a)
  {
  }

  /** The microsecond field of a `datetime`. */
  type Microsecond = m: int | 0 <= m < 1000000

  /** A reading of `datetime.datetime.now()`: a valid date-time plus its microseconds. */
  datatype Instant = Instant(stamp: DateTime, microsecond: Microsecond)

  predicate InstantBefore(a: Instant, b: Instant) {
    Before(a.stamp, b.stamp) || (a.stamp == b.stamp && a.microsecond < b.microsecond)
  }

  lemma InstantBeforeTransitive(a: Instant, b: Instant, c: Instant)
    requires InstantBefore(a, b) && InstantBefore(b, c)
    ensures InstantBefore(a, c)
  {
    BeforeIsStrictTotalOrder(a.stamp, b.stamp, c.stamp);
  }

  /** `now >= t` for a parsed `t`, whose microseconds are zero. */
  predicate AtOrAfter(now: Instant, t: DateTime) {
    !InstantBefore(now, Instant(t, 0))
  }

  /** Since a parsed expiry has no microseconds, comparing whole seconds decides `now >= t`. */
  lemma AtOrAfterBySeconds(now: Instant, t: DateTime)
    ensures AtOrAfter(now, t) <==> !Before(now.stamp, t)
  {
  }

  // ---------------------------------------------------------------------------------------
  // Reading: the regular expression `strptime` builds for "%Y-%m-%d %H:%M:%S"
  // ---------------------------------------------------------------------------------------

  /** One field matched: its value and the text after it. */
  datatype Scan = Scan(value: int, rest: string)

  /** The value of the two-digit numeral `ab`. */
  function TwoDigits(a: char, b: char): (n: int)
    requires IsDigit(a) && IsDigit(b)
    ensures 0 <= n <= 99 && n / 10 == DigitValue(a) && n % 10 == DigitValue(b)
  {
    10 * DigitValue(a) + DigitValue(b)
  }

  /** `%Y`: exactly four digits. */
  function MatchYear(s: string): (r: Option<Scan>)
    ensures r.Some? ==> |s| >= 4 && 0 <= r.value.value <= 9999 && r.value.rest == s[4..]
  {
    if |s| >= 4 && IsDigit(s[0]) && IsDigit(s[1]) && IsDigit(s[2]) && IsDigit(s[3])
    then Some(Scan(100 * TwoDigits(s[0], s[1]) + TwoDigits(s[2], s[3]), s[4..]))
    else None
  }

  /** `%m`: the alternatives `1[0-2]`, `0[1-9]`, `[1-9]`, tried in that order. */
  function MatchMonth(s: string): (r: Option<Scan>)
    ensures r.Some? ==> 1 <= r.value.value <= 12
  {
    if |s| >= 2 && s[0] == '1' && '0' <= s[1] <= '2' then Some(Scan(TwoDigits(s[0], s[1]), s[2..]))
    else if |s| >= 2 && s[0] == '0' && '1' <= s[1] <= '9' then Some(Scan(DigitValue(s[1]), s[2..]))
    else if |s| >= 1 && '1' <= s[0] <= '9' then Some(Scan(DigitValue(s[0]), s[1..]))
    else None
  }

  /** `%d`: the alternatives `3[01]`, `[12]\d`, `0[1-9]`, `[1-9]`, ` [1-9]`, in that order. */
  function MatchDay(s: string): (r: Option<Scan>)
    ensures r.Some? ==> 1 <= r.value.value <= 31
  {
    if |s| >= 2 && s[0] == '3' && '0' <= s[1] <= '1' then Some(Scan(TwoDigits(s[0], s[1]), s[2..]))
    else if |s| >= 2 && '1' <= s[0] <= '2' && IsDigit(s[1]) then Some(Scan(TwoDigits(s[0], s[1]), s[2..]))
    else if |s| >= 2 && s[0] == '0' && '1' <= s[1] <= '9' then Some(Scan(DigitValue(s[1]), s[2..]))
    else if |s| >= 1 && '1' <= s[0] <= '9' then Some(Scan(DigitValue(s[0]), s[1..]))
    else if |s| >= 2 && s[0] == ' ' && '1' <= s[1] <= '9' then Some(Scan(DigitValue(s[1]), s[2..]))
    else None
  }

  /** `%H`: the alternatives `2[0-3]`, `[0-1]\d`, `\d`, in that order. */
  function MatchHour(s: string): (r: Option<Scan>)
    ensures r.Some? ==> 0 <= r.value.value <= 23
  {
    if |s| >= 2 && s[0] == '2' && '0' <= s[1] <= '3' then Some(Scan(TwoDigits(s[0], s[1]), s[2..]))
    else if |s| >= 2 && '0' <= s[0] <= '1' && IsDigit(s[1]) then Some(Scan(TwoDigits(s[0], s[1]), s[2..]))
    else if |s| >= 1 && IsDigit(s[0]) then Some(Scan(DigitValue(s[0]), s[1..]))
    else None
  }

  /** `%M`: the alternatives `[0-5]\d`, `\d`, in that order. */
  function MatchMinute(s: string): (r: Option<Scan>)
    ensures r.Some? ==> 0 <= r.value.value <= 59
  {
    if |s| >= 2 && '0' <= s[0] <= '5' && IsDigit(s[1]) then Some(Scan(TwoDigits(s[0], s[1]), s[2..]))
    else if |s| >= 1 && IsDigit(s[0]) then Some(Scan(DigitValue(s[0]), s[1..]))
    else None
  }

  /** `%S`: the alternatives `6[0-1]`, `[0-5]\d`, `\d`, in that order (61 admits leap seconds). */
  function MatchSecond(s: string): (r: Option<Scan>)
    ensures r.Some? ==> 0 <= r.value.value <= 61
  {
    if |s| >= 2 && s[0] == '6' && '0' <= s[1] <= '1' then Some(Scan(TwoDigits(s[0], s[1]), s[2..]))
    else if |s| >= 2 && '0' <= s[0] <= '5' && IsDigit(s[1]) then Some(Scan(TwoDigits(s[0], s[1]), s[2..]))
    else if |s| >= 1 && IsDigit(s[0]) then Some(Scan(DigitValue(s[0]), s[1..]))
    else None
  }

  function MatchChar(c: char, s: string): (r: Option<string>)
    ensures r.Some? <==> |s| > 0 && s[0] == c
    ensures r.Some? ==> r.value == s[1..]
  {
    if |s| > 0 && s[0] == c then Some(s[1..]) else None
  }

  /** Drops the longest run of leading whitespace. */
  function SkipWhitespace(s: string): (r: string)
    ensures |r| <= |s| && r == s[|s| - |r|..]
    ensures forall i | 0 <= i < |s| - |r| :: IsSpace(s[i])
    ensures r == [] || !IsSpace(r[0])
  {
    if |s| > 0 && IsSpace(s[0]) then SkipWhitespace(s[1..]) else s
  }

  /** A space in the format stands for `\s+`: one or more whitespace characters. */
  function MatchWhitespace(s: string): (r: Option<string>)
    ensures r.Some? <==> |s| > 0 && IsSpace(s[0])
    ensures r.Some? ==> |r.value| < |s| && (r.value == [] || !IsSpace(r.value[0]))
  {
    if |s| > 0 && IsSpace(s[0]) then Some(SkipWhitespace(s)) else None
  }

  /** The regular expression matched at the start of the text: the six fields and what follows them. */
  datatype Match = Match(fields: Timestamp, rest: string)

  /** The date half, "%Y-%m-%d", giving year, month and day in the fields of a midnight timestamp. */
  function MatchDate(s: string): (r: Option<Match>)
    ensures r.Some? ==> var t := r.value.fields;
      && 0 <= t.year <= 9999 && 1 <= t.month <= 12 && 1 <= t.day <= 31
  {
    var y :- MatchYear(s);
    var s1 :- MatchChar('-', y.rest);
    var mo :- MatchMonth(s1);
    var s2 :- MatchChar('-', mo.rest);
    var d :- MatchDay(s2);
    Some(Match(Timestamp(y.value, mo.value, d.value, 0, 0, 0), d.rest))
  }

  /** The time half, `\s+%H:%M:%S`, giving hour, minute and second. */
  function MatchTime(s: string): (r: Option<Match>)
    ensures r.Some? ==> var t := r.value.fields;
      && 0 <= t.hour <= 23 && 0 <= t.minute <= 59 && 0 <= t.second <= 61
  {
    var s3 :- MatchWhitespace(s);
    var h :- MatchHour(s3);
    var s4 :- MatchChar(':', h.rest);
    var mi :- MatchMinute(s4);
    var s5 :- MatchChar(':', mi.rest);
    var sec :- MatchSecond(s5);
    Some(Match(Timestamp(0, 0, 0, h.value, mi.value, sec.value), sec.rest))
  }

  function MatchFormat(s: string): (r: Option<Match>)
    ensures r.Some? ==> var t := r.value.fields;
      && 0 <= t.year <= 9999 && 1 <= t.month <= 12 && 1 <= t.day <= 31
      && 0 <= t.hour <= 23 && 0 <= t.minute <= 59 && 0 <= t.second <= 61
  {
    var date :- MatchDate(s);
    var time :- MatchTime(date.rest);
    var d, c := date.fields, time.fields;
    Some(Match(Timestamp(d.year, d.month, d.day, c.hour, c.minute, c.second), time.rest))
  }

  /** The three ValueErrors `datetime.strptime` can raise on a string argument. */
  datatype ParseError =
    | FormatMismatch                      // "time data ... does not match format ..."
    | UnconvertedData(remainder: string)  // "unconverted data remains: ..."
    | OutOfRange                          // year 0, a day past the month's end, second 60 or 61

  /** `datetime.datetime.strptime(s, "%Y-%m-%d %H:%M:%S")`. */
  function ParseTimestamp(s: string): (r: Result<DateTime, ParseError>)
    ensures r.Success? ==> MatchFormat(s).Some? && MatchFormat(s).value.rest == []
    ensures r == Failure(FormatMismatch) <==> MatchFormat(s).None?
    ensures r.Failure? && r.error.UnconvertedData? ==> r.error.remainder != []
    ensures r == Failure(OutOfRange) ==> var t := MatchFormat(s).value.fields;
      t.year == 0 || t.day > DaysInMonth(t.year, t.month) || t.second >= 60
  {
    match MatchFormat(s)
    case None => Failure(FormatMismatch)
    case Some(m) =>
      if m.rest != [] then Failure(UnconvertedData(m.rest))
      else if !Valid(m.fields) then Failure(OutOfRange)
      else Success(m.fields)
  }

  // ---------------------------------------------------------------------------------------
  // Writing: `strftime("%Y-%m-%d %H:%M:%S")`
  // ---------------------------------------------------------------------------------------

  function Pad2(n: int): (s: string)
    requires 0 <= n < 100
    ensures |s| == 2 && IsDigit(s[0]) && IsDigit(s[1])
  {
    [DigitChar(n / 10), DigitChar(n % 10)]
  }

  function Pad4(n: int): (s: string)
    requires 0 <= n < 10000
    ensures |s| == 4 && forall i | 0 <= i < 4 :: IsDigit(s[i])
  {
    Pad2(n / 100) + Pad2(n % 100)
  }

  /** Every field zero-padded: four digits of year, two of each other field. */
  function Format(t: DateTime): (s: string)
    ensures |s| == 19 && s[4] == '-' && s[7] == '-' && s[10] == ' ' && s[13] == ':' && s[16] == ':'
    ensures forall i | 0 <= i < 19 && i != 4 && i != 7 && i != 10 && i != 13 && i != 16 :: IsDigit(s[i])
  {
    Pad4(t.year) + ("-" + (Pad2(t.month) + ("-" + (Pad2(t.day) + (" " +
      (Pad2(t.hour) + (":" + (Pad2(t.minute) + (":" + Pad2(t.second))))))))))
  }

  /** The form without leading zeros (year still four digits), which `strptime` accepts too. */
  function Unpadded(n: int): (s: string)
    requires 0 <= n < 100
  {
    if n < 10 then [DigitChar(n)] else Pad2(n)
  }

  function FormatUnpadded(t: DateTime): (s: string)
  {
    Pad4(t.year) + ("-" + (Unpadded(t.month) + ("-" + (Unpadded(t.day) + (" " +
      (Unpadded(t.hour) + (":" + (Unpadded(t.minute) + (":" + Unpadded(t.second))))))))))
  }

  // ---------------------------------------------------------------------------------------
  // Reading what was written
  // ---------------------------------------------------------------------------------------

  lemma Pad2Digits(n: int)
    requires 0 <= n < 100
    ensures |Pad2(n)| == 2 && IsDigit(Pad2(n)[0]) && IsDigit(Pad2(n)[1])
    ensures DigitValue(Pad2(n)[0]) == n / 10 && TwoDigits(Pad2(n)[0], Pad2(n)[1]) == n
  {
  }

  lemma MatchYearPad4(y: int, rest: string)
    requires 0 <= y < 10000
    ensures MatchYear(Pad4(y) + rest) == Some(Scan(y, rest))
  {
    var s := Pad4(y) + rest;
    Pad2Digits(y / 100);
    Pad2Digits(y % 100);
    assert s[..4] == Pad2(y / 100) + Pad2(y % 100);
    assert s[4..] == rest;
  }

  lemma MatchTwoDigitFields(n: int, rest: string)
    requires 0 <= n < 100
    ensures 1 <= n <= 12 ==> MatchMonth(Pad2(n) + rest) == Some(Scan(n, rest))
    ensures 1 <= n <= 31 ==> MatchDay(Pad2(n) + rest) == Some(Scan(n, rest))
    ensures 0 <= n <= 23 ==> MatchHour(Pad2(n) + rest) == Some(Scan(n, rest))
    ensures 0 <= n <= 59 ==> MatchMinute(Pad2(n) + rest) == Some(Scan(n, rest))
    ensures 0 <= n <= 59 ==> MatchSecond(Pad2(n) + rest) == Some(Scan(n, rest))
  {
    var s := Pad2(n) + rest;
    Pad2Digits(n);
    assert s[0] == Pad2(n)[0] && s[1] == Pad2(n)[1];
    assert s[2..] == rest;
  }

  lemma MatchDateOfPadded(t: DateTime, rest: string)
    ensures MatchDate(Pad4(t.year) + ("-" + (Pad2(t.month) + ("-" + (Pad2(t.day) + rest)))))
         == Some(Match(Timestamp(t.year, t.month, t.day, 0, 0, 0), rest))
  {
    var tailM := "-" + (Pad2(t.day) + rest);
    var tailY := "-" + (Pad2(t.month) + tailM);
    MatchYearPad4(t.year, tailY);
    assert MatchChar('-', tailY) == Some(Pad2(t.month) + tailM);
    MatchTwoDigitFields(t.month, tailM);
    assert MatchMonth(Pad2(t.month) + tailM) == Some(Scan(t.month, tailM));
    assert MatchChar('-', tailM) == Some(Pad2(t.day) + rest);
    MatchTwoDigitFields(t.day, rest);
    assert MatchDay(Pad2(t.day) + rest) == Some(Scan(t.day, rest));
  }

  lemma MatchTimeOfPadded(t: DateTime, rest: string)
    ensures MatchTime(" " + (Pad2(t.hour) + (":" + (Pad2(t.minute) + (":" + (Pad2(t.second) + rest))))))
         == Some(Match(Timestamp(0, 0, 0, t.hour, t.minute, t.second), rest))
  {
    var tail4 := ":" + (Pad2(t.second) + rest);
    var tail3 := ":" + (Pad2(t.minute) + tail4);
    var tail2 := Pad2(t.hour) + tail3;
    assert MatchWhitespace(" " + tail2) == Some(tail2) by {
      Pad2Digits(t.hour);
      assert tail2[0] == Pad2(t.hour)[0];
      assert !IsSpace(tail2[0]);
      assert (" " + tail2)[1..] == tail2;
      assert SkipWhitespace(tail2) == tail2;
    }
    MatchTwoDigitFields(t.hour, tail3);
    assert MatchHour(tail2) == Some(Scan(t.hour, tail3));
    assert MatchChar(':', tail3) == Some(Pad2(t.minute) + tail4);
    MatchTwoDigitFields(t.minute, tail4);
    assert MatchMinute(Pad2(t.minute) + tail4) == Some(Scan(t.minute, tail4));
    assert MatchChar(':', tail4) == Some(Pad2(t.second) + rest);
    MatchTwoDigitFields(t.second, rest);
    assert MatchSecond(Pad2(t.second) + rest) == Some(Scan(t.second, rest));
  }

  /** Reading back what `strftime` wrote gives the same date-time. */
  lemma ParseFormatRoundTrip(t: DateTime)
    ensures ParseTimestamp(Format(t)) == Success(t)
  {
    var time := " " + (Pad2(t.hour) + (":" + (Pad2(t.minute) + (":" + Pad2(t.second)))));
    assert Format(t) == Pad4(t.year) + ("-" + (Pad2(t.month) + ("-" + (Pad2(t.day) + time))));
    MatchDateOfPadded(t, time);
    assert Pad2(t.second) + [] == Pad2(t.second);
    MatchTimeOfPadded(t, []);
  }

  /** A run of whitespace is skipped up to the first character that is not whitespace. */
  lemma {:induction false} SkipWhitespaceRun(run: string, rest: string)
    requires forall i | 0 <= i < |run| :: IsSpace(run[i])
    requires rest == [] || !IsSpace(rest[0])
    ensures SkipWhitespace(run + rest) == rest
  {
    if run != [] {
      assert (run + rest)[1..] == run[1..] + rest;
      SkipWhitespaceRun(run[1..], rest);
    }
  }

  /** `\s+` consumes a whole run of whitespace and stops at the next character. */
  lemma MatchWhitespaceRun(run: string, rest: string)
    requires run != [] && forall i | 0 <= i < |run| :: IsSpace(run[i])
    requires rest == [] || !IsSpace(rest[0])
    ensures MatchWhitespace(run + rest) == Some(rest)
  {
    assert (run + rest)[0] == run[0];
    SkipWhitespaceRun(run, rest);
  }

  /** The time half looks at its separator only through what `\s+` leaves. */
  lemma MatchTimeSameAfterWhitespace(a: string, b: string)
    requires MatchWhitespace(a) == MatchWhitespace(b)
    ensures MatchTime(a) == MatchTime(b)
  {
  }

  /** The time half read after any run of whitespace, as after the single space `strftime` writes. */
  lemma MatchTimeAfterRun(t: DateTime, run: string)
    requires run != [] && forall i | 0 <= i < |run| :: IsSpace(run[i])
    ensures MatchTime(run + (Pad2(t.hour) + (":" + (Pad2(t.minute) + (":" + Pad2(t.second))))))
         == Some(Match(Timestamp(0, 0, 0, t.hour, t.minute, t.second), []))
  {
    var clock := Pad2(t.hour) + (":" + (Pad2(t.minute) + (":" + Pad2(t.second))));
    assert Pad2(t.second) + [] == Pad2(t.second);
    MatchTimeOfPadded(t, []);
    Pad2Digits(t.hour);
    assert clock[0] == Pad2(t.hour)[0];
    MatchWhitespaceRun(run, clock);
    MatchWhitespaceRun(" ", clock);
    MatchTimeSameAfterWhitespace(run + clock, " " + clock);
  }

  /**
   * The date and the time may be separated by any non-empty run of whitespace, as `\s+`
   * allows: tabs, line breaks and the separators U+001C to U+001F as well as spaces.
   */
  lemma ParseAcceptsAnySeparator(t: DateTime, run: string)
    requires run != [] && forall i | 0 <= i < |run| :: IsSpace(run[i])
    ensures ParseTimestamp(Pad4(t.year) + ("-" + (Pad2(t.month) + ("-" + (Pad2(t.day) + (run +
      (Pad2(t.hour) + (":" + (Pad2(t.minute) + (":" + Pad2(t.second))))))))))) == Success(t)
  {
    var clock := Pad2(t.hour) + (":" + (Pad2(t.minute) + (":" + Pad2(t.second))));
    MatchDateOfPadded(t, run + clock);
    MatchTimeAfterRun(t, run);
  }

  /** A date-time followed by anything more, such as fractional seconds, is refused. */
  lemma ParseRejectsTrailingText(t: DateTime, extra: string)
    requires extra != []
    ensures ParseTimestamp(Format(t) + extra) == Failure(UnconvertedData(extra))
  {
    var time := " " + (Pad2(t.hour) + (":" + (Pad2(t.minute) + (":" + Pad2(t.second)))));
    var timeExtra := " " + (Pad2(t.hour) + (":" + (Pad2(t.minute) + (":" + (Pad2(t.second) + extra)))));
    var date := Pad4(t.year) + ("-" + (Pad2(t.month) + ("-" + Pad2(t.day))));
    assert Format(t) == date + time;
    assert time + extra == timeExtra;
    assert Format(t) + extra == Pad4(t.year) + ("-" + (Pad2(t.month) + ("-" + (Pad2(t.day) + timeExtra))));
    MatchDateOfPadded(t, timeExtra);
    MatchTimeOfPadded(t, extra);
  }

  lemma MatchOneDigitFields(n: int, rest: string)
    requires 0 <= n < 100
    requires rest == [] || !IsDigit(rest[0])
    ensures 1 <= n <= 12 ==> MatchMonth(Unpadded(n) + rest) == Some(Scan(n, rest))
    ensures 1 <= n <= 31 ==> MatchDay(Unpadded(n) + rest) == Some(Scan(n, rest))
    ensures 0 <= n <= 23 ==> MatchHour(Unpadded(n) + rest) == Some(Scan(n, rest))
    ensures 0 <= n <= 59 ==> MatchMinute(Unpadded(n) + rest) == Some(Scan(n, rest))
    ensures 0 <= n <= 59 ==> MatchSecond(Unpadded(n) + rest) == Some(Scan(n, rest))
  {
    if n < 10 {
      var s := Unpadded(n) + rest;
      assert s[0] == DigitChar(n) && s[1..] == rest;
    } else {
      MatchTwoDigitFields(n, rest);
    }
  }

  lemma MatchDateOfUnpadded(t: DateTime, rest: string)
    requires rest == [] || !IsDigit(rest[0])
    ensures MatchDate(Pad4(t.year) + ("-" + (Unpadded(t.month) + ("-" + (Unpadded(t.day) + rest)))))
         == Some(Match(Timestamp(t.year, t.month, t.day, 0, 0, 0), rest))
  {
    var tailM := "-" + (Unpadded(t.day) + rest);
    var tailY := "-" + (Unpadded(t.month) + tailM);
    MatchYearPad4(t.year, tailY);
    assert MatchChar('-', tailY) == Some(Unpadded(t.month) + tailM);
    MatchOneDigitFields(t.month, tailM);
    assert MatchMonth(Unpadded(t.month) + tailM) == Some(Scan(t.month, tailM));
    assert MatchChar('-', tailM) == Some(Unpadded(t.day) + rest);
    MatchOneDigitFields(t.day, rest);
    assert MatchDay(Unpadded(t.day) + rest) == Some(Scan(t.day, rest));
  }

  lemma MatchTimeOfUnpadded(t: DateTime)
    ensures MatchTime(" " + (Unpadded(t.hour) + (":" + (Unpadded(t.minute) + (":" + Unpadded(t.second))))))
         == Some(Match(Timestamp(0, 0, 0, t.hour, t.minute, t.second), []))
  {
    var tail4 := ":" + Unpadded(t.second);
    var tail3 := ":" + (Unpadded(t.minute) + tail4);
    var tail2 := Unpadded(t.hour) + tail3;
    assert MatchWhitespace(" " + tail2) == Some(tail2) by {
      assert tail2[0] == Unpadded(t.hour)[0];
      assert !IsSpace(tail2[0]);
      assert (" " + tail2)[1..] == tail2;
      assert SkipWhitespace(tail2) == tail2;
    }
    MatchOneDigitFields(t.hour, tail3);
    assert MatchHour(tail2) == Some(Scan(t.hour, tail3));
    assert MatchChar(':', tail3) == Some(Unpadded(t.minute) + tail4);
    MatchOneDigitFields(t.minute, tail4);
    assert MatchMinute(Unpadded(t.minute) + tail4) == Some(Scan(t.minute, tail4));
    assert MatchChar(':', tail4) == Some(Unpadded(t.second));
    assert Unpadded(t.second) + [] == Unpadded(t.second);
    MatchOneDigitFields(t.second, []);
    assert MatchSecond(Unpadded(t.second)) == Some(Scan(t.second, []));
  }

  /** `strptime` also reads month, day, hour, minute and second written without leading zeros. */
  lemma ParseAcceptsUnpadded(t: DateTime)
    ensures ParseTimestamp(FormatUnpadded(t)) == Success(t)
  {
    var time := " " + (Unpadded(t.hour) + (":" + (Unpadded(t.minute) + (":" + Unpadded(t.second)))));
    MatchDateOfUnpadded(t, time);
    MatchTimeOfUnpadded(t);
  }
}
