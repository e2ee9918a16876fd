/**
 * Calendar dates and the compact ordinal form "YYYYDDD" (year and day of the year, section
 * 4.1.3 of ISO 8601:2004), as `pd.to_datetime(s, format="%Y%j").date()` reads it and
 * `date.strftime("%Y%j")` writes it, with Gregorian leap years.
 */
module OrdinalDates {
  import opened Wrappers

  datatype Date = Date(year: int, month: int, day: int)

  /** Why a string is not read as a date: it does not match "%Y%j", or the date cannot be represented. */
  datatype DateError = Malformed | OutOfRange

  predicate IsLeapYear(y: int)
  {
    y % 4 == 0 && (y % 100 != 0 || y % 400 == 0)
  }

  function DaysInYear(y: int): int
  {
    if IsLeapYear(y) then 366 else 365
  }

  function DaysInMonth(y: int, m: int): int
    requires 1 <= m <= 12
  {
    if m == 2 then (if IsLeapYear(y) then 29 else 28)
    else if m == 4 || m == 6 || m == 9 || m == 11 then 30
    else 31
  }

  /** The number of days of year `y` before the first of month `m`; month 13 stands for the next year. */
  function DaysBeforeMonth(y: int, m: int): int
    requires 1 <= m <= 13
    decreases m
  {
    if m == 1 then 0 else DaysBeforeMonth(y, m - 1) + DaysInMonth(y, m - 1)
  }

  predicate ValidDate(d: Date)
  {
    1 <= d.month <= 12 && 1 <= d.day <= DaysInMonth(d.year, d.month)
  }

  /** `(y1, m1, d1) <= (y2, m2, d2)` in calendar order. */
  predicate NotAfter(a: Date, b: Date)
  {
    a.year < b.year || (a.year == b.year && (a.month < b.month || (a.month == b.month && a.day <= b.day)))
  }

  /**
   * The midnights pandas can hold in a nanosecond `Timestamp`: its range runs from
   * 1677-09-21 00:12:43 to 2262-04-11 23:47:16, so the first whole day is 1677-09-22.
   */
  predicate InTimestampRange(d: Date)
  {
    NotAfter(Date(1677, 9, 22), d) && NotAfter(d, Date(2262, 4, 11))
  }

  lemma DaysBeforeYearEnd(y: int)
    ensures DaysBeforeMonth(y, 13) == DaysInYear(y)
  {
    assert DaysBeforeMonth(y, 3) == 31 + DaysInMonth(y, 2);
    assert DaysBeforeMonth(y, 7) == DaysBeforeMonth(y, 3) + 122;
    assert DaysBeforeMonth(y, 10) == DaysBeforeMonth(y, 7) + 92;
  }

  lemma {:induction false} DaysBeforeGrows(y: int, m: int, m': int)
    requires 1 <= m < m' <= 13
    ensures DaysBeforeMonth(y, m) + DaysInMonth(y, m) <= DaysBeforeMonth(y, m')
    decreases m' - m
  {
    if m' > m + 1 {
      DaysBeforeGrows(y, m, m' - 1);
    }
  }

  /** `%j` of a date: its day of the year, counting 1 January as 1. */
  function DayOfYear(d: Date): (n: int)
    requires ValidDate(d)
    ensures 1 <= n <= DaysInYear(d.year)
  {
    DaysBeforeGrows(d.year, d.month, 13);
    DaysBeforeYearEnd(d.year);
    DaysBeforeMonth(d.year, d.month) + d.day
  }

  function FindMonth(y: int, n: int, m: int): (d: Date)
    requires 1 <= m <= 12 && DaysBeforeMonth(y, m) < n <= DaysInYear(y)
    ensures ValidDate(d) && d.year == y && DayOfYear(d) == n
    decreases 12 - m
  {
    DaysBeforeYearEnd(y);
    if m == 12 || n <= DaysBeforeMonth(y, m + 1) then Date(y, m, n - DaysBeforeMonth(y, m))
    else FindMonth(y, n, m + 1)
  }

  /** The date that is day `n` of year `y`. */
  function FromDayOfYear(y: int, n: int): (d: Date)
    requires 1 <= n <= DaysInYear(y)
    ensures ValidDate(d) && d.year == y && DayOfYear(d) == n
  {
    FindMonth(y, n, 1)
  }

  lemma {:induction false} FindMonthAt(y: int, n: int, m: int, month: int, day: int)
    requires 1 <= m <= month <= 12 && 1 <= day <= DaysInMonth(y, month)
    requires n == DaysBeforeMonth(y, month) + day && DaysBeforeMonth(y, m) < n <= DaysInYear(y)
    ensures FindMonth(y, n, m) == Date(y, month, day)
    decreases month - m
  {
    if m < month {
      if m + 1 < month {
        DaysBeforeGrows(y, m + 1, month);
      }
      assert DaysBeforeMonth(y, m + 1) < n;
      FindMonthAt(y, n, m + 1, month, day);
    } else if m < 12 {
      assert DaysBeforeMonth(y, m + 1) == DaysBeforeMonth(y, m) + DaysInMonth(y, m);
    }
  }

  lemma FindMonthOfDate(d: Date, m: int)
    requires ValidDate(d) && 1 <= m <= d.month && DaysBeforeMonth(d.year, m) < DayOfYear(d)
    ensures FindMonth(d.year, DayOfYear(d), m) == d
  {
    FindMonthAt(d.year, DayOfYear(d), m, d.month, d.day);
  }

  /** Every valid date is the date of its own day of the year. */
  lemma FromDayOfYearOfDate(d: Date)
    requires ValidDate(d)
    ensures FromDayOfYear(d.year, DayOfYear(d)) == d
  {
    FindMonthOfDate(d, 1);
  }

  predicate IsDigit(c: char)
  {
    '0' <= c <= '9'
  }

  predicate AllDigits(s: string)
  {
    forall i :: 0 <= i < |s| ==> IsDigit(s[i])
  }

  function Pow10(k: nat): nat
  {
    if k == 0 then 1 else 10 * Pow10(k - 1)
  }

  /** The number a string of decimal digits spells. */
  function DigitsValue(s: string): (v: nat)
    requires AllDigits(s)
    ensures v < Pow10(|s|)
  {
    if |s| == 0 then 0
    else DigitsValue(s[..|s| - 1]) * 10 + (s[|s| - 1] as int - '0' as int)
  }

  /** `n` written with exactly `width` digits, zero-padded on the left (the last `width` digits of `n`). */
  function Digits(n: nat, width: nat): (s: string)
    ensures |s| == width && AllDigits(s)
  {
    if width == 0 then "" else Digits(n / 10, width - 1) + [('0' as int + n % 10) as char]
  }

  lemma {:induction false} DigitsValueOfDigits(n: nat, width: nat)
    requires n < Pow10(width)
    ensures DigitsValue(Digits(n, width)) == n
    decreases width
  {
    if width > 0 {
      DigitsValueOfDigits(n / 10, width - 1);
      var s := Digits(n, width);
      assert s[..|s| - 1] == Digits(n / 10, width - 1);
    }
  }

  lemma {:induction false} DigitsOfDigitsValue(s: string)
    requires AllDigits(s)
    ensures Digits(DigitsValue(s), |s|) == s
    decreases |s|
  {
    if |s| > 0 {
      var init := s[..|s| - 1];
      DigitsOfDigitsValue(init);
      var v := DigitsValue(s);
      assert v / 10 == DigitsValue(init);
      assert s == init + [s[|s| - 1]];
    }
  }

  function DigitValue(c: char): int
  {
    c as int - '0' as int
  }

  lemma DigitsValueOfThree(s: string)
    requires |s| == 3 && AllDigits(s)
    ensures DigitsValue(s) == 100 * DigitValue(s[0]) + 10 * DigitValue(s[1]) + DigitValue(s[2])
  {
    assert s[..2][..1] == s[..1] && s[..1][..0] == [];
    assert DigitsValue(s[..1]) == DigitValue(s[0]);
    assert DigitsValue(s[..2]) == 10 * DigitValue(s[0]) + DigitValue(s[1]);
  }

  lemma DigitsValueOfFour(s: string)
    requires |s| == 4 && AllDigits(s)
    ensures DigitsValue(s) == 1000 * DigitValue(s[0]) + 100 * DigitValue(s[1]) + 10 * DigitValue(s[2]) + DigitValue(s[3])
  {
    DigitsValueOfThree(s[..3]);
  }

  /**
   * How `pd.to_datetime(s, format="%Y%j").date()` reads a text that is not one of the `NaT`
   * texts (those are handled by `ToDate`). `%Y` takes exactly four digits and `%j` one to
   * three digits naming a day from 1 to 366, and nothing may follow. Day 366 of a common year
   * is accepted and becomes 1 January of the next year, the way `date.fromordinal` counts on
   * from 1 January. Year 0 and dates outside the `Timestamp` range are rejected.
   */
  function ParseYearDay(s: string): (r: Result<Date, DateError>)
    ensures r.Ok? ==> ValidDate(r.value) && InTimestampRange(r.value)
    ensures r.Ok? ==> 5 <= |s| <= 7 && AllDigits(s)
  {
    if |s| < 5 || |s| > 7 || !AllDigits(s) then Err(Malformed)
    else
      var y := DigitsValue(s[..4]);
      var n := DigitsValue(s[4..]);
      if n < 1 || n > 366 then Err(Malformed)
      else if y < 1 then Err(OutOfRange)
      else
        var d := if n <= DaysInYear(y) then FromDayOfYear(y, n) else Date(y + 1, 1, 1);
        if InTimestampRange(d) then Ok(d) else Err(OutOfRange)
  }

  /** What `to_datetime(...).date()` gives: a day, or `NaT`, pandas' missing timestamp. */
  datatype Stamp = Day(date: Date) | NaT

  /** The texts pandas reads as `NaT` before it tries the format: the empty text and the spellings of `NaT` and `NaN`. */
  predicate IsNatText(s: string)
  {
    s == "" || s == "NaT" || s == "nat" || s == "NAT" || s == "nan" || s == "NaN" || s == "NAN"
  }

  /** No text of digits reads as `NaT`. */
  lemma DigitsAreNotNat(s: string)
    requires |s| >= 1 && AllDigits(s)
    ensures !IsNatText(s)
  {
    assert IsDigit(s[0]);
  }

  /**
   * `pd.to_datetime(s, format="%Y%j").date()`: `NaT` for the empty text and the `NaT`
   * spellings, otherwise the `%Y%j` reading of the text. The texts `now` and `today`, which
   * pandas reads as the clock's date, are read by `%Y%j` here like any other.
   */
  function ToDate(s: string): (r: Result<Stamp, DateError>)
    ensures r == Ok(NaT) <==> IsNatText(s)
    ensures r.Ok? && r.value.Day? ==> ValidDate(r.value.date) && InTimestampRange(r.value.date) && AllDigits(s)
    ensures !IsNatText(s) ==> (r.Err? <==> ParseYearDay(s).Err?)
  {
    if IsNatText(s) then Ok(NaT)
    else
      match ParseYearDay(s)
      case Ok(d) => Ok(Day(d))
      case Err(e) => Err(e)
  }

  /** `date.strftime("%Y%j")`: four digits of year (every year pandas can hold has four) and three of day. */
  function FormatYearDay(d: Date): (s: string)
    requires ValidDate(d) && InTimestampRange(d)
    ensures |s| == 7 && AllDigits(s)
  {
    Digits(d.year, 4) + Digits(DayOfYear(d), 3)
  }

  /** Reading back a formatted date gives the date. */
  lemma ParseFormatted(d: Date)
    requires ValidDate(d) && InTimestampRange(d)
    ensures ParseYearDay(FormatYearDay(d)) == Ok(d)
  {
    var s := FormatYearDay(d);
    var n := DayOfYear(d);
    assert s[..4] == Digits(d.year, 4) && s[4..] == Digits(n, 3);
    DigitsValueOfDigits(d.year, 4);
    DigitsValueOfDigits(n, 3);
    FromDayOfYearOfDate(d);
  }

  /** A formatted date reads back as that day. */
  lemma ToDateFormatted(d: Date)
    requires ValidDate(d) && InTimestampRange(d)
    ensures ToDate(FormatYearDay(d)) == Ok(Day(d))
  {
    DigitsAreNotNat(FormatYearDay(d));
    ParseFormatted(d);
  }

  /**
   * Formatting a date read from seven digits gives those digits back, whenever the day named is
   * a day of that year (1..365, or 1..366 in a leap year).
   */
  lemma FormatParsed(s: string)
    requires |s| == 7 && ParseYearDay(s).Ok?
    requires DigitsValue(s[4..]) <= DaysInYear(DigitsValue(s[..4]))
    ensures FormatYearDay(ParseYearDay(s).value) == s
  {
    var y, n := DigitsValue(s[..4]), DigitsValue(s[4..]);
    var d := ParseYearDay(s).value;
    assert d == FromDayOfYear(y, n);
    DigitsOfDigitsValue(s[..4]);
    DigitsOfDigitsValue(s[4..]);
    assert s == s[..4] + s[4..];
  }

  /**
   * Day 366 of a common year does not come back: it is read as 1 January of the next year, the
   * date the string for day 1 of that year also names (with "2021366" and "2022001", say).
   */
  lemma DayAfterYearEndRollsOver(y: int)
    requires !IsLeapYear(y) && 1678 <= y <= 2261
    ensures ParseYearDay(Digits(y, 4) + "366") == Ok(Date(y + 1, 1, 1))
    ensures ParseYearDay(Digits(y + 1, 4) + "001") == Ok(Date(y + 1, 1, 1))
  {
    Day366OfCommonYear(y);
    var d := Date(y + 1, 1, 1);
    assert DayOfYear(d) == 1;
    assert Digits(1, 3) == "001";
    ParseFormatted(d);
  }

  lemma Day366OfCommonYear(y: int)
    requires !IsLeapYear(y) && 1678 <= y <= 2261
    ensures ParseYearDay(Digits(y, 4) + "366") == Ok(Date(y + 1, 1, 1))
  {
    var s := Digits(y, 4) + "366";
    assert s[..4] == Digits(y, 4) && s[4..] == "366";
    DigitsValueOfDigits(y, 4);
    DigitsValueOfThree("366");
    assert DigitsValue(s[4..]) == 366 > DaysInYear(y);
  }

  /** The date key of the tiles in the examples of the source: "2021249" is 6 September 2021. */
  lemma ParseExample()
    ensures ParseYearDay("2021249") == Ok(Date(2021, 9, 6))
  {
    var s := "2021249";
    assert s[..4] == "2021" && s[4..] == "249";
    assert DigitsValue("2021") == 2021 by {
      DigitsValueOfFour("2021");
    }
    assert DigitsValue("249") == 249 by {
      DigitsValueOfThree("249");
    }
    assert DaysBeforeMonth(2021, 9) == 243;
    assert FromDayOfYear(2021, 249) == Date(2021, 9, 6) by {
      FromDayOfYearOfDate(Date(2021, 9, 6));
    }
  }
}
