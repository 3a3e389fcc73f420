/** Fiscal years that start in April, written the way the dashboard labels
    them. The date is given as its calendar year and its month index
    (0 for January), as `getFullYear()` and `getMonth()` return them. */
module Utils {
  import opened Strings

  /** The calendar year in which the fiscal year holding the given month
      starts: the month falls between April of that year and March of the
      next. */
  function FiscalStartYear(year: int, month: int): (s: int)
    requires 0 <= month <= 11
    ensures (s == year && month >= 3) || (s == year - 1 && month < 3)
  {
    if month >= 3 then year else year - 1
  }

  /** `getFiscalYear(dateString)` as written: `${start}-${end}` with its
      first two characters dropped. */
  function GetFiscalYear(year: int, month: int): (r: string)
    requires 0 <= month <= 11
  {
    Label(FiscalStartYear(year, month))
  }

  /** The label of the fiscal year starting in `start`, as written. */
  function Label(start: int): string {
    Drop(IntToString(start) + "-" + IntToString(start + 1), 2)
  }

  /** The two last digits of a four-digit year. */
  function TwoDigits(n: nat): (r: string)
    requires 1000 <= n <= 9999
    ensures |r| == 2
  {
    [Digit(n / 10 % 10), Digit(n % 10)]
  }

  /** For a fiscal year of four-digit years the label is the start year's
      last two digits, "-", and the whole end year: seven characters. */
  lemma FiscalYearShape(year: int, month: int)
    requires 0 <= month <= 11
    requires 1000 <= FiscalStartYear(year, month) <= 9998
    ensures var s := FiscalStartYear(year, month);
      && GetFiscalYear(year, month) == TwoDigits(s) + "-" + IntToString(s + 1)
      && |GetFiscalYear(year, month)| == 7
  {
    LabelShape(FiscalStartYear(year, month));
  }

  /** The label of a four-digit start year. */
  lemma LabelShape(s: int)
    requires 1000 <= s <= 9998
    ensures Label(s) == TwoDigits(s) + "-" + IntToString(s + 1)
    ensures |Label(s)| == 7
  {
    var a := IntToString(s);
    var b := IntToString(s + 1);
    assert |a| == 4 && a[2..] == TwoDigits(s) by {
      FourDigits(s);
    }
    assert |b| == 4 by {
      FourDigits(s + 1);
    }
    SliceOfConcat(a, "-" + b, 2);
    assert a + "-" + b == a + ("-" + b);
  }

  /** Every month from April of one year through March of the next has the
      same label. */
  lemma SameFiscalYear(year: int, month: int)
    requires 0 <= month <= 11
    ensures month >= 3 ==> GetFiscalYear(year, month) == GetFiscalYear(year, 3)
    ensures month < 3 ==> GetFiscalYear(year, month) == GetFiscalYear(year - 1, 3)
  {
  }

  /** A four-digit number is determined by its decimal text. */
  lemma FourDigitsInjective(m: nat, n: nat)
    requires 1000 <= m <= 9999 && 1000 <= n <= 9999
    requires IntToString(m) == IntToString(n)
    ensures m == n
  {
    FourDigits(m);
    FourDigits(n);
    var t := IntToString(m);
    assert t[0] == Digit(m / 1000) == Digit(n / 1000);
    assert t[1] == Digit(m / 100 % 10) == Digit(n / 100 % 10);
    assert t[2] == Digit(m / 10 % 10) == Digit(n / 10 % 10);
    assert t[3] == Digit(m % 10) == Digit(n % 10);
    DigitInjective(m / 1000, n / 1000);
    DigitInjective(m / 100 % 10, n / 100 % 10);
    DigitInjective(m / 10 % 10, n / 10 % 10);
    DigitInjective(m % 10, n % 10);
    LastDigit(m / 100);
    LastDigit(n / 100);
    assert (m / 100) / 10 == m / 1000 && (n / 100) / 10 == n / 1000;
    assert m / 100 == n / 100;
    LastDigit(m / 10);
    LastDigit(n / 10);
    assert (m / 10) / 10 == m / 100 && (n / 10) / 10 == n / 100;
    assert m / 10 == n / 10;
    LastDigit(m);
    LastDigit(n);
  }

  /** A number is ten times its quotient by ten plus its last digit. */
  lemma LastDigit(n: nat)
    ensures n == 10 * (n / 10) + n % 10
  {
  }

  /** Different digits are different characters. */
  lemma DigitInjective(d: nat, e: nat)
    requires d < 10 && e < 10 && Digit(d) == Digit(e)
    ensures d == e
  {
  }

  /** For four-digit years, two dates have the same label exactly when they
      fall in the same fiscal year. */
  lemma FiscalYearDistinguishes(year1: int, month1: int, year2: int, month2: int)
    requires 0 <= month1 <= 11 && 0 <= month2 <= 11
    requires 1000 <= FiscalStartYear(year1, month1) <= 9998
    requires 1000 <= FiscalStartYear(year2, month2) <= 9998
    ensures GetFiscalYear(year1, month1) == GetFiscalYear(year2, month2)
        <==> FiscalStartYear(year1, month1) == FiscalStartYear(year2, month2)
  {
    var s1 := FiscalStartYear(year1, month1);
    var s2 := FiscalStartYear(year2, month2);
    if Label(s1) == Label(s2) {
      LabelInjective(s1, s2);
    }
  }

  /** Two four-digit start years with the same label are the same year. */
  lemma LabelInjective(s1: int, s2: int)
    requires 1000 <= s1 <= 9998 && 1000 <= s2 <= 9998
    requires Label(s1) == Label(s2)
    ensures s1 == s2
  {
    var x1 := IntToString(s1 + 1);
    var x2 := IntToString(s2 + 1);
    LabelShape(s1);
    LabelShape(s2);
    assert (TwoDigits(s1) + "-" + x1)[3..] == x1;
    assert (TwoDigits(s2) + "-" + x2)[3..] == x2;
    FourDigitsInjective(s1 + 1, s2 + 1);
  }

  /** The comment above the code promises the "YY-YY" form, "25-26"; the
      code keeps the whole end year. */
  lemma FiscalYearAsWritten()
    ensures GetFiscalYear(2025, 3) == "25-2026"
    ensures GetFiscalYear(2026, 2) == "25-2026"
    ensures GetFiscalYear(2025, 3) != "25-26"
  {
    FiscalYearShape(2025, 3);
    FiscalYearShape(2026, 2);
    FourDigits(2026);
    assert TwoDigits(2025) == "25";
  }

  /** The "YY-YY" label the comment describes: the last two digits of the
      start year and of the end year. */
  function FiscalYearShort(year: int, month: int): (r: string)
    requires 0 <= month <= 11
  {
    var start := FiscalStartYear(year, month);
    Drop(IntToString(start), 2) + "-" + Drop(IntToString(start + 1), 2)
  }

  /** The corrected label has the promised form: five characters, the two
      last digits of the start year and of the end year. It tells fiscal
      years apart within a century. */
  lemma FiscalYearShortShape(year: int, month: int)
    requires 0 <= month <= 11
    requires 1000 <= FiscalStartYear(year, month) <= 9998
    ensures var s := FiscalStartYear(year, month);
      && FiscalYearShort(year, month) == TwoDigits(s) + "-" + TwoDigits(s + 1)
      && |FiscalYearShort(year, month)| == 5
  {
    var s := FiscalStartYear(year, month);
    FourDigits(s);
    FourDigits(s + 1);
  }

  /** Every month from April 2025 through March 2026 is labelled "25-26". */
  lemma FiscalYearShortExample(year: int, month: int)
    requires 0 <= month <= 11
    requires (year == 2025 && month >= 3) || (year == 2026 && month < 3)
    ensures FiscalYearShort(year, month) == "25-26"
  {
    var s := FiscalStartYear(year, month);
    assert s == 2025;
    FiscalYearShortShape(year, month);
    StartDigits(s);
  }

  /** The last two digits of 2025 and of 2026. */
  lemma StartDigits(s: nat)
    requires s == 2025
    ensures TwoDigits(s) + "-" + TwoDigits(s + 1) == "25-26"
  {
    assert s / 10 % 10 == 2 && s % 10 == 5 && (s + 1) / 10 % 10 == 2 && (s + 1) % 10 == 6;
    assert TwoDigits(s) == "25" && TwoDigits(s + 1) == "26";
  }
}
