/**
 * Calendar dates and the `d-m-Y` rendering `DateTime::format` gives them:
 * two-digit day, two-digit month and a year of at least four digits, with a
 * minus sign for years before year 0.
 */
module DateFormat {
  import opened Wrappers
  import opened Decimal

  datatype Date = Date(day: int, month: int, year: int)

  predicate IsLeapYear(y: int) {
    y % 4 == 0 && (y % 100 != 0 || y % 400 == 0)
  }

  function DaysInMonth(month: int, year: int): (n: int)
    requires 1 <= month <= 12
    ensures 28 <= n <= 31
  {
    if month == 2 then (if IsLeapYear(year) then 29 else 28)
    else if month == 4 || month == 6 || month == 9 || month == 11 then 30
    else 31
  }

  predicate ValidDate(d: Date) {
    1 <= d.month <= 12 && 1 <= d.day <= DaysInMonth(d.month, d.year)
  }

  /** The dates a `\DateTime` can denote (proleptic Gregorian calendar). */
  type CalendarDate = d: Date | ValidDate(d) witness Date(1, 1, 1970)

  /**
   * A `\DateTime` object, reduced to the calendar date it denotes. It is
   * mutable and handed around by reference, as PHP objects are.
   */
  class DateTime {
    var date: CalendarDate

    constructor (d: CalendarDate)
      ensures date == d
    {
      date := d;
    }

    /** `$dateTime->setDate(...)` with an in-range date. */
    method SetDate(d: CalendarDate)
      modifies this
      ensures date == d
    {
      date := d;
    }
  }

  /** `d` and `m`: zero-padded to two digits. */
  function TwoDigits(n: nat): (s: string)
    requires n < 100
    ensures |s| == 2 && AllDigits(s) && DigitsValue(s) == n
  {
    NatToStringLength(n, 2);
    NatToStringRoundTrip(n);
    PadLeftValue(NatToString(n), 2);
    PadLeft(NatToString(n), 2)
  }

  /**
   * `Y`: a minus sign exactly before year 0, then at least four digits whose
   * value is the year's magnitude, so the field reads back as the year.
   */
  function YearDigits(y: int): (s: string)
    ensures |s| >= 4
    ensures var negative := |s| > 0 && s[0] == '-';
            var digits := if negative then s[1..] else s;
            negative == (y < 0) && |digits| >= 4 && AllDigits(digits) &&
            (if negative then -(DigitsValue(digits) as int) else DigitsValue(digits)) == y &&
            (|digits| > 4 ==> digits[0] != '0')
  {
    var m: nat := if y < 0 then -y else y;
    NatToStringRoundTrip(m);
    PadLeftValue(NatToString(m), 4);
    var p := PadLeft(NatToString(m), 4);
    assert IsDigit(p[0]);
    if y < 0 then "-" + p else p
  }

  /** `$date->format('d-m-Y')`. */
  function FormatDmy(d: CalendarDate): string {
    TwoDigits(d.day) + "-" + TwoDigits(d.month) + "-" + YearDigits(d.year)
  }

  /** Reads a `d-m-Y` string back; the inverse of FormatDmy. */
  function ParseDmy(s: string): Option<Date> {
    if |s| < 6 || s[2] != '-' || s[5] != '-' || !AllDigits(s[..2]) || !AllDigits(s[3..5]) then None
    else
      var y := s[6..];
      var negative := |y| > 0 && y[0] == '-';
      var digits := if negative then y[1..] else y;
      if |digits| < 4 || !AllDigits(digits) then None
      else
        var magnitude := DigitsValue(digits);
        Some(Date(DigitsValue(s[..2]), DigitsValue(s[3..5]),
                  if negative then -(magnitude as int) else magnitude))
  }

  /** ParseDmy of `s`, given its three fields. */
  lemma ParseDmyFrom(s: string, dd: string, mm: string, yy: string, d: Date)
    requires |s| == 6 + |yy| && s[2] == '-' && s[5] == '-'
    requires s[..2] == dd && s[3..5] == mm && s[6..] == yy
    requires |dd| == 2 && AllDigits(dd) && DigitsValue(dd) == d.day
    requires |mm| == 2 && AllDigits(mm) && DigitsValue(mm) == d.month
    requires var negative := |yy| > 0 && yy[0] == '-';
             var digits := if negative then yy[1..] else yy;
             |digits| >= 4 && AllDigits(digits) &&
             (if negative then -(DigitsValue(digits) as int) else DigitsValue(digits)) == d.year
    ensures ParseDmy(s) == Some(d)
  {
  }

  /** Two digit fields and a rendered year, joined by dashes, read back as the date they hold. */
  lemma FieldsRoundTrip(dd: string, mm: string, d: Date)
    requires |dd| == 2 && AllDigits(dd) && DigitsValue(dd) == d.day
    requires |mm| == 2 && AllDigits(mm) && DigitsValue(mm) == d.month
    ensures ParseDmy(dd + "-" + mm + "-" + YearDigits(d.year)) == Some(d)
  {
    var yy := YearDigits(d.year);
    FieldsShape(dd, mm, yy);
    ParseDmyFrom(dd + "-" + mm + "-" + yy, dd, mm, yy, d);
  }

  /** Reading a formatted date gives back the date: the rendering loses nothing. */
  lemma FormatDmyRoundTrip(d: CalendarDate)
    ensures ParseDmy(FormatDmy(d)) == Some(d)
  {
    FieldsRoundTrip(TwoDigits(d.day), TwoDigits(d.month), d);
  }

  /** A date in years 0 to 9999 renders as exactly `DD-MM-YYYY`. */
  lemma FormatDmyShape(d: CalendarDate)
    requires 0 <= d.year < 10000
    ensures var s := FormatDmy(d);
            |s| == 10 && s[2] == '-' && s[5] == '-' &&
            AllDigits(s[..2]) && AllDigits(s[3..5]) && AllDigits(s[6..])
  {
    assert Pow10(4) == 10000;
    NatToStringLength(d.year, 4);
    PadLeftValue(NatToString(d.year), 4);
    FieldsShape(TwoDigits(d.day), TwoDigits(d.month), YearDigits(d.year));
  }

  /** Two two-character fields and a third field joined by dashes. */
  lemma FieldsShape(dd: string, mm: string, yyyy: string)
    requires |dd| == 2 && |mm| == 2
    ensures var s := dd + "-" + mm + "-" + yyyy;
            |s| == 6 + |yyyy| && s[2] == '-' && s[5] == '-' &&
            s[..2] == dd && s[3..5] == mm && s[6..] == yyyy
  {
  }

  /** A day or month below 10 gets one leading zero. */
  lemma TwoDigitsSmall(n: nat)
    requires n < 10
    ensures TwoDigits(n) == ['0', DigitChar(n)]
  {
    assert Zeros(1) == ['0'];
  }

  /** The year 2024 renders as its four digits. */
  lemma YearDigits2024()
    ensures YearDigits(2024) == "2024"
  {
    assert NatToString(2024) == "2024" by {
      assert NatToString(2) == "2";
      assert NatToString(20) == "20";
      assert NatToString(202) == "202";
    }
  }

  /** The rendering of 7 March 2024. */
  lemma FormatDmyExample()
    ensures FormatDmy(Date(7, 3, 2024)) == "07-03-2024"
  {
    var dd, mm, yy := TwoDigits(7), TwoDigits(3), YearDigits(2024);
    assert dd == "07" by {
      TwoDigitsSmall(7);
      assert DigitChar(7) == '7';
    }
    assert mm == "03" by {
      TwoDigitsSmall(3);
      assert DigitChar(3) == '3';
    }
    assert yy == "2024" by {
      YearDigits2024();
    }
  }
}
