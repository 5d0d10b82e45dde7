/**
  Calendar dates as pandas hands them to the scripts, the "+ 6 days" window
  end of the weekly products, and the two strftime formats used in output
  names and band descriptions: "%Y%m%d" and "%Y_%b" (C locale).
 */
module Calendar {
  import opened Text

  datatype Date = Date(year: nat, month: nat, day: nat)

  predicate IsLeapYear(y: nat) {
    y % 4 == 0 && (y % 100 != 0 || y % 400 == 0)
  }

  function DaysInMonth(y: nat, m: nat): (n: nat)
    requires 1 <= m <= 12
    ensures 28 <= n <= 31
  {
    if m == 2 then (if IsLeapYear(y) then 29 else 28)
    else if m == 4 || m == 6 || m == 9 || m == 11 then 30
    else 31
  }

  predicate ValidDate(d: Date) {
    1 <= d.month <= 12 && 1 <= d.day <= DaysInMonth(d.year, d.month)
  }

  predicate AllValid(ds: seq<Date>) {
    forall k :: 0 <= k < |ds| ==> ValidDate(ds[k])
  }

  /** Chronological order of dates. */
  predicate Before(a: Date, b: Date) {
    a.year < b.year
    || (a.year == b.year && (a.month < b.month || (a.month == b.month && a.day < b.day)))
  }

  function NextDay(d: Date): (e: Date)
    requires ValidDate(d)
    ensures ValidDate(e) && Before(d, e)
  {
    if d.day < DaysInMonth(d.year, d.month) then Date(d.year, d.month, d.day + 1)
    else if d.month < 12 then Date(d.year, d.month + 1, 1)
    else Date(d.year + 1, 1, 1)
  }

  /** date + pd.Timedelta(days = n) for a date at midnight. */
  function AddDays(d: Date, n: nat): (e: Date)
    requires ValidDate(d)
    ensures ValidDate(e)
    ensures n > 0 ==> Before(d, e)
    decreases n
  {
    if n == 0 then d else AddDays(NextDay(d), n - 1)
  }

  /** Inside a month, adding days only moves the day of the month. */
  lemma {:induction false} AddDaysWithinMonth(d: Date, n: nat)
    requires ValidDate(d) && d.day + n <= DaysInMonth(d.year, d.month)
    ensures AddDays(d, n) == Date(d.year, d.month, d.day + n)
    decreases n
  {
    if n > 0 {
      AddDaysWithinMonth(NextDay(d), n - 1);
    }
  }

  /** A weekly window that starts in the last days of December ends in January of the next year. */
  lemma WindowCrossesYear()
    ensures AddDays(Date(2024, 12, 28), 6) == Date(2025, 1, 3)
  {
  }

  /** strftime("%Y%m%d"). */
  function Ymd(d: Date): (s: string)
    requires ValidDate(d)
    ensures |s| >= 5 && AllDigits(s)
  {
    NatToString(d.year) + Pad2(d.month) + Pad2(d.day)
  }

  /** Reads a "%Y%m%d" string back: the last four digits are month and day, the rest the year. */
  function ParseYmd(s: string): Date
    requires |s| >= 5 && AllDigits(s)
  {
    Date(DecimalValue(s[..|s| - 4]), DecimalValue(s[|s| - 4..|s| - 2]), DecimalValue(s[|s| - 2..]))
  }

  lemma YmdRoundTrip(d: Date)
    requires ValidDate(d)
    ensures ParseYmd(Ymd(d)) == d
  {
    var s := Ymd(d);
    var y := NatToString(d.year);
    assert s[..|s| - 4] == y;
    assert s[|s| - 4..|s| - 2] == Pad2(d.month);
    assert s[|s| - 2..] == Pad2(d.day);
    NatToStringRoundTrip(d.year);
    Pad2RoundTrip(d.month);
    Pad2RoundTrip(d.day);
  }

  /** Different dates never print to the same "%Y%m%d" string. */
  lemma YmdInjective(a: Date, b: Date)
    requires ValidDate(a) && ValidDate(b) && Ymd(a) == Ymd(b)
    ensures a == b
  {
    YmdRoundTrip(a);
    YmdRoundTrip(b);
  }

  /** strftime("%b") in the C locale. */
  function MonthAbbrev(m: nat): (s: string)
    requires 1 <= m <= 12
    ensures |s| == 3
  {
    ["Jan", "Feb", "Mar", "Apr", "May", "Jun", "Jul", "Aug", "Sep", "Oct", "Nov", "Dec"][m - 1]
  }

  /** strftime("%Y_%b"), the description of a monthly band. */
  function YearMonthLabel(d: Date): string
    requires ValidDate(d)
  {
    NatToString(d.year) + "_" + MonthAbbrev(d.month)
  }

  /** Two monthly band labels agree only when year and month agree. */
  lemma YearMonthLabelInjective(a: Date, b: Date)
    requires ValidDate(a) && ValidDate(b) && YearMonthLabel(a) == YearMonthLabel(b)
    ensures a.year == b.year && a.month == b.month
  {
    var la, lb := YearMonthLabel(a), YearMonthLabel(b);
    assert MonthAbbrev(a.month) == la[|la| - 3..];
    assert MonthAbbrev(b.month) == lb[|lb| - 3..];
    assert NatToString(a.year) == la[..|la| - 4];
    assert NatToString(b.year) == lb[..|lb| - 4];
    NatToStringInjective(a.year, b.year);
  }
}
