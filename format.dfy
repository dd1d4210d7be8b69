/**
  `formatDate` (src/helpers/format.ts, copied unchanged into ListarGastos.jsx
  and ReporteGastos.jsx): a date shown as `dd/mm/yyyy` from its UTC components,
  and the `dd/MM/yyyy` reading of such text back into a date.
*/
module Format {
  import opened Calendar
  import opened Js

  /** `getUTCMonth()`: the month counted from 0. */
  function UtcMonth(d: CalendarDate): (m: nat)
    ensures m < 12
  {
    d.month - 1
  }

  /** `String(n).padStart(2, "0")`. */
  function Pad2(n: nat): string {
    PadStart(NatToString(n), 2, '0')
  }

  lemma Pad2Value(n: nat)
    requires n < 100
    ensures |Pad2(n)| == 2 && AllDigits(Pad2(n)) && DigitsValue(Pad2(n)) == n
  {
    assert Pow10(2) == 100;
    PadStartValue(n, 2);
  }

  /** `${day}/${month}/${year}` with day and month zero-padded to two digits and
      the year printed as `String(year)`. */
  function FormatDate(d: CalendarDate): (r: string)
    ensures |r| >= 7 && r[2] == '/' && r[5] == '/'
    ensures AllDigits(r[..2]) && DigitsValue(r[..2]) == d.day
    ensures AllDigits(r[3..5]) && DigitsValue(r[3..5]) == UtcMonth(d) + 1
    ensures 1 <= DigitsValue(r[3..5]) <= 12
    ensures ParseInt(r[6..]) == Some(d.year)
    ensures d.year >= 0 ==> AllDigits(r[6..]) && (r[6] == '0' ==> d.year == 0)  // the year is not padded
    ensures d.year < 0 ==> |r| >= 8 && r[6] == '-' && AllDigits(r[7..]) && r[7] != '0'
  {
    var day, month, year := Pad2(d.day), Pad2(UtcMonth(d) + 1), IntToString(d.year);
    Pad2Value(d.day);
    Pad2Value(UtcMonth(d) + 1);
    YearText(d.year);
    var r := day + "/" + month + "/" + year;
    assert r[..2] == day && r[3..5] == month && r[6..] == year;
    r
  }

  /** `String(year)`: it reads back as the year, and it carries no leading zero. */
  lemma YearText(y: int)
    ensures ParseInt(IntToString(y)) == Some(y)
    ensures y >= 0 ==> AllDigits(IntToString(y)) && (IntToString(y)[0] == '0' ==> y == 0)
    ensures y < 0 ==> |IntToString(y)| >= 2 && IntToString(y)[0] == '-'
                      && AllDigits(IntToString(y)[1..]) && IntToString(y)[1] != '0'
  {
    ParseIntOfIntToString(y);
    if y < 0 {
      assert IntToString(y)[1..] == NatToString(-y);
    }
  }

  /** A four-digit year gives exactly `dd/mm/yyyy`: ten characters, slashes at 2 and 5,
      the year's digits last. */
  lemma FormatDateFourDigitYear(d: CalendarDate)
    requires 1000 <= d.year <= 9999
    ensures var r := FormatDate(d);
      |r| == 10 && AllDigits(r[6..]) && DigitsValue(r[6..]) == d.year
  {
    var r := FormatDate(d);
    var y := NatToString(d.year);
    NatToStringLength(d.year, 4);
    NatToStringLengthAtLeast(d.year, 3);
    DigitsValueOfNatToString(d.year);
    Pad2Value(d.day);
    Pad2Value(UtcMonth(d) + 1);
    assert r == Pad2(d.day) + "/" + Pad2(UtcMonth(d) + 1) + "/" + y;
    assert r[6..] == y;
  }

  /** The shape `/^\d{2}\/\d{2}\/\d{4}$/`. */
  predicate FechaPattern(s: string) {
    |s| == 10 && s[2] == '/' && s[5] == '/'
    && AllDigits(s[..2]) && AllDigits(s[3..5]) && AllDigits(s[6..])
  }

  /** A day as date-fns accepts it: an existing calendar day in year 1 or later. */
  predicate IsParsableDate(d: Date) {
    IsCalendarDate(d) && d.year >= 1
  }

  /** `parse(s, "dd/MM/yyyy", …)` followed by `isValid`: the day, month and year read from
      text of the pattern's shape, or `None` (an invalid date) when they name no day. */
  function ParseDdMmYyyy(s: string): (r: Option<CalendarDate>)
    ensures r.Some? <==> FechaPattern(s)
                         && IsParsableDate(Date(DigitsValue(s[6..]), DigitsValue(s[3..5]), DigitsValue(s[..2])))
    ensures r.Some? ==> IsParsableDate(r.value)
    ensures r.Some? ==> r.value.day == DigitsValue(s[..2]) && r.value.month == DigitsValue(s[3..5])
                        && r.value.year == DigitsValue(s[6..])
  {
    if FechaPattern(s) then
      var d := Date(DigitsValue(s[6..]), DigitsValue(s[3..5]), DigitsValue(s[..2]));
      if IsParsableDate(d) then Some(d) else None
    else None
  }

  /** Reading `formatDate`'s output back as `dd/MM/yyyy` gives the same day, month and year. */
  lemma FormatDateReadsBack(d: CalendarDate)
    requires 1000 <= d.year <= 9999
    ensures ParseDdMmYyyy(FormatDate(d)) == Some(d)
  {
    FormatDateFourDigitYear(d);
  }

  /** Conversely, every accepted `dd/MM/yyyy` text whose year has no leading zero is
      exactly what `formatDate` prints for the date it denotes. */
  lemma ReadDateFormatsBack(s: string)
    requires ParseDdMmYyyy(s).Some? && s[6] != '0'
    ensures FormatDate(ParseDdMmYyyy(s).value) == s
  {
    var d := ParseDdMmYyyy(s).value;
    var r := FormatDate(d);
    assert 1000 <= d.year <= 9999 by {
      var y := s[6..];
      assert y == [y[0]] + y[1..];
      LeadingDigitValue(y);
    }
    FormatDateFourDigitYear(d);
    DigitsValueInjective(r[..2], s[..2]);
    DigitsValueInjective(r[3..5], s[3..5]);
    DigitsValueInjective(r[6..], s[6..]);
    assert r == r[..2] + "/" + r[3..5] + "/" + r[6..];
    assert s == s[..2] + "/" + s[3..5] + "/" + s[6..];
  }

  /** A four-digit string starting with a non-zero digit denotes a number of 1000 or more. */
  lemma LeadingDigitValue(y: string)
    requires |y| == 4 && AllDigits(y) && y[0] != '0'
    ensures 1000 <= DigitsValue(y)
  {
    assert DigitsValue(y) >= DigitsValue(y[..3]) * 10;
    assert y[..3][..2] == y[..2];
    assert DigitsValue(y[..3]) >= DigitsValue(y[..2]) * 10;
    assert y[..2][..1] == y[..1];
    assert DigitsValue(y[..2]) >= DigitsValue(y[..1]) * 10;
    assert y[..1][..0] == [];
    assert DigitsValue(y[..1]) >= 1;
  }
}
