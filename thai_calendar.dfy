/** Thai month names and Buddhist-era years, shared by the month and date
    formatters of the budget report, the shared utilities and the
    mentoring summaries.  A month string is `YYYY-MM`, as written by
    `DATE_FORMAT(..., '%Y-%m')` and stored in journal rows. */
module ThaiCalendar {
  import opened Common

  /** January to December. */
  const MonthNames: seq<string> := [
    "มกราคม", "กุมภาพันธ์", "มีนาคม", "เมษายน", "พฤษภาคม", "มิถุนายน",
    "กรกฎาคม", "สิงหาคม", "กันยายน", "ตุลาคม", "พฤศจิกายน", "ธันวาคม"
  ]

  /** The Buddhist-era year of a Gregorian year. */
  function BuddhistYear(y: int): (r: int)
    ensures r - y == 543
  {
    y + 543
  }

  /** A `YYYY-MM` string: four digits, a dash and two digits. */
  predicate IsYearMonth(s: string) {
    |s| == 7 && IsDigits(s[..4]) && s[4] == '-' && IsDigits(s[5..])
  }

  /** The two numbers of `s.split('-')`, read as decimals. */
  function YearOf(s: string): nat
    requires IsYearMonth(s)
  {
    DecimalValue(s[..4])
  }

  function MonthOf(s: string): nat
    requires IsYearMonth(s)
  {
    DecimalValue(s[5..])
  }

  /** The month string of a year and month, zero-padded. */
  function YearMonthString(y: nat, m: nat): (s: string)
    requires 1000 <= y <= 9999 && 1 <= m <= 12
  {
    PadNat(y, 4) + "-" + PadNat(m, 2)
  }

  /** Reading a month string back gives the year and month it was made from. */
  lemma YearMonthRoundTrip(y: nat, m: nat)
    requires 1000 <= y <= 9999 && 1 <= m <= 12
    ensures IsYearMonth(YearMonthString(y, m))
    ensures YearOf(YearMonthString(y, m)) == y && MonthOf(YearMonthString(y, m)) == m
  {
    assert Pow10(4) == 10000 by { assert Pow10(2) == 100; }
    assert Pow10(2) == 100;
    PadNatValue(y, 4);
    PadNatValue(m, 2);
    var s := YearMonthString(y, m);
    assert s[..4] == PadNat(y, 4);
    assert s[5..] == PadNat(m, 2);
  }
}
