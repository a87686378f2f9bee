/**
 * Calendar dates as `java.time.LocalDate` handles them for the birth-date
 * field: validity, `isAfter`, the `%02d/%02d/%04d` text the date picker
 * callback stores, parsing it back with the pattern `dd/MM/yyyy`, and the
 * whole-year count of `ChronoUnit.YEARS.between`. "Today" is always an
 * explicit argument.
 */
module Dates {
  import opened KotlinText

  /** A proleptic Gregorian date; `month` is 1-based. */
  datatype Date = Date(year: int, month: int, day: int)

  predicate IsLeap(y: int) {
    y % 4 == 0 && (y % 100 != 0 || y % 400 == 0)
  }

  function DaysInMonth(y: int, m: int): (n: int)
    requires 1 <= m <= 12
    ensures 28 <= n <= 31
    ensures n == 29 <==> m == 2 && IsLeap(y)
  {
    if m == 2 then (if IsLeap(y) then 29 else 28)
    else if m == 4 || m == 6 || m == 9 || m == 11 then 30
    else 31
  }

  /** What `LocalDate.of(year, month, day)` accepts. */
  predicate ValidDate(d: Date) {
    -999_999_999 <= d.year <= 999_999_999
    && 1 <= d.month <= 12 && 1 <= d.day <= DaysInMonth(d.year, d.month)
  }

  /** `a.isAfter(b)`: a comes strictly later in (year, month, day) order. */
  predicate IsAfter(a: Date, b: Date) {
    a.year > b.year
    || (a.year == b.year && (a.month > b.month || (a.month == b.month && a.day > b.day)))
  }

  /** The (month, day) of `t` comes strictly before the (month, day) of `b` in the year. */
  predicate MonthDayBefore(t: Date, b: Date) {
    t.month < b.month || (t.month == b.month && t.day < b.day)
  }

  // ---------------------------------------------------------------------------
  // String.format("%02d/%02d/%04d", day, month, year) and its parse
  // ---------------------------------------------------------------------------

  /** The text stored for a picked date: day, month and year zero-padded to 2, 2 and 4 digits. */
  function FormatDate(d: Date): (s: string)
    requires ValidDate(d) && d.year >= 0
  {
    PadZeros(NatToString(d.day), 2) + "/" + PadZeros(NatToString(d.month), 2) + "/"
    + PadZeros(NatToString(d.year), 4)
  }

  /** The stored date text is never blank: a '/' follows the two-digit day. */
  lemma FormattedDateNotBlank(d: Date)
    requires ValidDate(d) && d.year >= 0
    ensures FormatDate(d) != [] && !IsBlank(FormatDate(d))
  {
    var dd := PadZeros(NatToString(d.day), 2);
    var s := FormatDate(d);
    assert s[|dd|] == '/';
    assert !IsWhitespace(s[|dd|]);
  }

  /**
   * `LocalDate.parse(s, DateTimeFormatter.ofPattern("dd/MM/yyyy"))`, strict
   * parsing with the default SMART resolver: two digits, '/', two digits,
   * '/', four digits; day 1..31, month 1..12, year of era at least 1; a day
   * past the end of its month is moved back to the month's last day.
   * Every other text is unparseable (None).
   */
  function ParseDate(s: string): (r: Option<Date>)
    ensures r.Some? ==> ValidDate(r.value) && 1 <= r.value.year <= 9999
  {
    if |s| == 10 && s[2] == '/' && s[5] == '/'
       && AllDigits(s[0..2]) && AllDigits(s[3..5]) && AllDigits(s[6..10]) then
      DigitsValueBound(s[6..10]);
      var day, month, year := DigitsValue(s[0..2]), DigitsValue(s[3..5]), DigitsValue(s[6..10]);
      if 1 <= day <= 31 && 1 <= month <= 12 && year >= 1 then
        var last := DaysInMonth(year, month);
        Some(Date(year, month, if day > last then last else day))
      else None
    else None
  }

  /** A number below 10^w, zero-padded to w places: exactly w digits that read back as the number. */
  lemma PaddedField(n: nat, w: nat)
    requires 1 <= w && n < Pow10(w)
    ensures |PadZeros(NatToString(n), w)| == w
    ensures AllDigits(PadZeros(NatToString(n), w))
    ensures DigitsValue(PadZeros(NatToString(n), w)) == n
  {
    NatToStringLength(n, w);
    NatToStringValue(n);
    PadZerosValue(NatToString(n), w);
  }

  /** The stored text of a date of years 1..9999: dd, '/', mm, '/', yyyy, ten characters in all. */
  lemma FormatDateLayout(d: Date)
    requires ValidDate(d) && 1 <= d.year <= 9999
    ensures var s := FormatDate(d);
      && |s| == 10 && s[2] == '/' && s[5] == '/'
      && s[0..2] == PadZeros(NatToString(d.day), 2)
      && s[3..5] == PadZeros(NatToString(d.month), 2)
      && s[6..10] == PadZeros(NatToString(d.year), 4)
  {
    PaddedField(d.day, 2);
    PaddedField(d.month, 2);
    PaddedField(d.year, 4);
    SlashedLayout(PadZeros(NatToString(d.day), 2), PadZeros(NatToString(d.month), 2),
                  PadZeros(NatToString(d.year), 4));
  }

  lemma SlashedLayout(dd: string, mm: string, yy: string)
    requires |dd| == 2 && |mm| == 2 && |yy| == 4
    ensures var s := dd + "/" + mm + "/" + yy;
      && |s| == 10 && s[2] == '/' && s[5] == '/'
      && s[0..2] == dd && s[3..5] == mm && s[6..10] == yy
  {
  }

  /** Formatting a date of years 1..9999 and parsing it back gives the same date. */
  lemma ParseFormatRoundTrip(d: Date)
    requires ValidDate(d) && 1 <= d.year <= 9999
    ensures ParseDate(FormatDate(d)) == Some(d)
  {
    FormatDateLayout(d);
    PaddedField(d.day, 2);
    PaddedField(d.month, 2);
    PaddedField(d.year, 4);
  }

  /** A year past 9999 prints with five or more digits, which the pattern refuses. */
  lemma FormatPastYear9999Unparseable(d: Date)
    requires ValidDate(d) && d.year >= 10000
    ensures ParseDate(FormatDate(d)) == None
  {
    NatToStringLength(d.year, 4);
  }

  // ---------------------------------------------------------------------------
  // ChronoUnit.YEARS.between(birth, today)
  // ---------------------------------------------------------------------------

  /** Java's `/` on integers: the quotient truncated toward zero. */
  function TruncDiv(a: int, b: int): int
    requires b > 0
  {
    if a >= 0 then a / b else -((-a) / b)
  }

  function ProlepticMonth(d: Date): int {
    d.year * 12 + d.month - 1
  }

  /** `LocalDate.monthsUntil`: whole months, from packed (month, day) values. */
  function MonthsUntil(b: Date, t: Date): int {
    TruncDiv((ProlepticMonth(t) * 32 + t.day) - (ProlepticMonth(b) * 32 + b.day), 32)
  }

  /** `ChronoUnit.YEARS.between(b, t)`, i.e. `monthsUntil(t) / 12`. */
  function YearsBetween(b: Date, t: Date): int {
    TruncDiv(MonthsUntil(b, t), 12)
  }

  /**
   * The age in whole years: the difference of the years, one less when the
   * birthday has not yet come round this year.
   */
  function AgeInYears(b: Date, t: Date): int {
    (t.year - b.year) - (if MonthDayBefore(t, b) then 1 else 0)
  }

  /** For a birth date not after today, Java's year count is the age in whole years. */
  lemma YearsBetweenIsAge(b: Date, t: Date)
    requires ValidDate(b) && ValidDate(t) && !IsAfter(b, t)
    ensures YearsBetween(b, t) == AgeInYears(b, t) >= 0
  {
    var delta := ProlepticMonth(t) - ProlepticMonth(b);
    var diff := (ProlepticMonth(t) * 32 + t.day) - (ProlepticMonth(b) * 32 + b.day);
    assert diff == 32 * delta + (t.day - b.day);
    var months := if t.day >= b.day then delta else delta - 1;
    if t.day >= b.day {
      assert delta >= 0;
      assert 0 <= t.day - b.day < 32;
    } else {
      assert delta >= 1;
      assert diff == 32 * (delta - 1) + (32 + t.day - b.day);
      assert 0 <= 32 + t.day - b.day < 32;
    }
    assert diff >= 0;
    assert MonthsUntil(b, t) == diff / 32 == months;
    var k := (t.month - b.month) - (if t.day < b.day then 1 else 0);
    assert months == 12 * (t.year - b.year) + k;
    assert -12 <= k <= 11;
    assert MonthDayBefore(t, b) <==> k < 0;
    if k >= 0 {
      assert months / 12 == t.year - b.year;
    } else {
      assert months == 12 * (t.year - b.year - 1) + (k + 12);
      assert months / 12 == t.year - b.year - 1;
    }
  }

  // ---------------------------------------------------------------------------
  // calculerAge
  // ---------------------------------------------------------------------------

  /**
   * `calculerAge(dateNaissance)` with `LocalDate.now()` made the argument
   * `today`: the year count as text, or "" when the text does not parse.
   */
  function CalculerAge(s: string, today: Date): string {
    match ParseDate(s)
    case None => ""
    case Some(b) => IntToString(YearsBetween(b, today))
  }

  /** The age text is empty exactly when the date text does not parse. */
  lemma CalculerAgeEmptyIffUnparseable(s: string, today: Date)
    ensures CalculerAge(s, today) == "" <==> ParseDate(s).None?
  {
  }

  /** The age shown for a date the picker stored is the whole-year age, in decimal. */
  lemma AgeOfFormattedDate(b: Date, today: Date)
    requires ValidDate(b) && 1 <= b.year <= 9999
    requires ValidDate(today) && !IsAfter(b, today)
    ensures CalculerAge(FormatDate(b), today) == NatToString(AgeInYears(b, today))
  {
    ParseFormatRoundTrip(b);
    YearsBetweenIsAge(b, today);
  }

  /** Someone born on 29 February has a birthday on 1 March in other years. */
  lemma LeapDayBirthday()
    ensures AgeInYears(Date(2000, 2, 29), Date(2001, 2, 28)) == 0
    ensures AgeInYears(Date(2000, 2, 29), Date(2001, 3, 1)) == 1
    ensures YearsBetween(Date(2000, 2, 29), Date(2001, 2, 28)) == 0
    ensures YearsBetween(Date(2000, 2, 29), Date(2001, 3, 1)) == 1
  {
    YearsBetweenIsAge(Date(2000, 2, 29), Date(2001, 2, 28));
    YearsBetweenIsAge(Date(2000, 2, 29), Date(2001, 3, 1));
  }

  /** "15/06/1990" reads as 15 June 1990. */
  lemma ParseExample()
    ensures ParseDate("15/06/1990") == Some(Date(1990, 6, 15))
  {
    var text := "15/06/1990";
    assert text[0..2] == "15" && text[3..5] == "06" && text[6..10] == "1990";
    assert DigitsValue("1") == 1 by { assert "1"[..0] == []; }
    assert DigitsValue("0") == 0 by { assert "0"[..0] == []; }
    assert DigitsValue("15") == 15 by { assert "15"[..1] == "1"; }
    assert DigitsValue("06") == 6 by { assert "06"[..1] == "0"; }
    assert DigitsValue("19") == 19 by { assert "19"[..1] == "1"; }
    assert DigitsValue("199") == 199 by { assert "199"[..2] == "19"; }
    assert DigitsValue("1990") == 1990 by { assert "1990"[..3] == "199"; }
  }

  /** The day before the birthday still counts the previous age; the birthday adds one. */
  lemma AgeAroundBirthday()
    ensures CalculerAge("15/06/1990", Date(2024, 6, 14)) == "33"
    ensures CalculerAge("15/06/1990", Date(2024, 6, 15)) == "34"
    ensures CalculerAge("not-a-date", Date(2024, 6, 15)) == ""
  {
    var b := Date(1990, 6, 15);
    ParseExample();
    YearsBetweenIsAge(b, Date(2024, 6, 14));
    YearsBetweenIsAge(b, Date(2024, 6, 15));
  }
}
