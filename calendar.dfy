/** Proleptic Gregorian calendar dates as Python's `datetime.date` has them
    (years 1 to 9999), day arithmetic by `timedelta(days=n)`, and the
    `%Y-%m-%d` rendering. */
module Calendar {
  import opened Wrappers
  import opened Text

  datatype Date = Date(year: nat, month: nat, day: nat)

  const MinYear := 1
  const MaxYear := 9999

  predicate IsLeap(y: nat) {
    y % 4 == 0 && (y % 100 != 0 || y % 400 == 0)
  }

  function DaysInMonth(y: nat, m: nat): nat
    requires 1 <= m <= 12
  {
    if m == 2 then (if IsLeap(y) then 29 else 28)
    else if m == 4 || m == 6 || m == 9 || m == 11 then 30
    else 31
  }

  predicate Valid(d: Date) {
    MinYear <= d.year <= MaxYear && 1 <= d.month <= 12 && 1 <= d.day <= DaysInMonth(d.year, d.month)
  }

  /** Chronological order. */
  predicate Before(a: Date, b: Date) {
    a.year < b.year || (a.year == b.year && (a.month < b.month || (a.month == b.month && a.day < b.day)))
  }

  predicate NotAfter(a: Date, b: Date) {
    a == b || Before(a, b)
  }

  /** The day before, or None below 0001-01-01 (Python's OverflowError). */
  function PrevDay(d: Date): (r: Option<Date>)
    requires Valid(d)
    ensures r.Some? ==> Valid(r.value)
  {
    if d.day > 1 then Some(d.(day := d.day - 1))
    else if d.month > 1 then Some(Date(d.year, d.month - 1, DaysInMonth(d.year, d.month - 1)))
    else if d.year > MinYear then Some(Date(d.year - 1, 12, 31))
    else None
  }

  /** The day after, or None beyond 9999-12-31. */
  function NextDay(d: Date): Option<Date>
    requires Valid(d)
  {
    if d.day < DaysInMonth(d.year, d.month) then Some(d.(day := d.day + 1))
    else if d.month < 12 then Some(Date(d.year, d.month + 1, 1))
    else if d.year < MaxYear then Some(Date(d.year + 1, 1, 1))
    else None
  }

  /** `d - timedelta(days=n)`. */
  function MinusDays(d: Date, n: nat): Option<Date>
    requires Valid(d)
    decreases n
  {
    if n == 0 then Some(d)
    else match PrevDay(d)
      case None => None
      case Some(p) => MinusDays(p, n - 1)
  }

  /** `d + timedelta(days=n)`. */
  function PlusDays(d: Date, n: nat): Option<Date>
    requires Valid(d)
  {
    if n == 0 then Some(d)
    else match PlusDays(d, n - 1)
      case None => None
      case Some(q) => if Valid(q) then NextDay(q) else None
  }

  /** The `{"since": ..., "until": ...}` range the Graph API takes. */
  datatype TimeRange = TimeRange(since: string, until: string)

  /** `d.replace(day=1)`. */
  function MonthStart(d: Date): Date {
    d.(day := 1)
  }

  /** `d.strftime("%Y-%m-%d")`. */
  function Iso(d: Date): string {
    Dec(d.year) + "-" + Pad2(Dec(d.month)) + "-" + Pad2(Dec(d.day))
  }

  // ---------------------------------------------------------------------

  /** Stepping back a day stays a valid date, moves strictly earlier, and
      stepping forward again returns to where it started; only the first
      representable date has no day before it. */
  lemma PrevNext(d: Date)
    requires Valid(d)
    ensures PrevDay(d).None? <==> d == Date(MinYear, 1, 1)
    ensures PrevDay(d).Some? ==>
      var p := PrevDay(d).value;
      Valid(p) && Before(p, d) && NextDay(p) == Some(d)
  {
  }

  /** Stepping forward a day and then back returns to the start. */
  lemma NextPrev(d: Date)
    requires Valid(d)
    ensures NextDay(d).None? <==> d == Date(MaxYear, 12, 31)
    ensures NextDay(d).Some? ==>
      var q := NextDay(d).value;
      Valid(q) && Before(d, q) && PrevDay(q) == Some(d)
  {
  }

  lemma BeforeTransitive(a: Date, b: Date, c: Date)
    requires NotAfter(a, b) && NotAfter(b, c)
    ensures NotAfter(a, c)
  {
  }

  /** Subtracting n days gives a valid date no later than the start,
      from which adding n days comes back. */
  lemma {:induction false} MinusThenPlus(d: Date, n: nat)
    requires Valid(d) && MinusDays(d, n).Some?
    decreases n
    ensures var p := MinusDays(d, n).value;
      Valid(p) && NotAfter(p, d) && PlusDays(p, n) == Some(d)
  {
    if n > 0 {
      PrevNext(d);
      var prev := PrevDay(d).value;
      MinusThenPlus(prev, n - 1);
      var p := MinusDays(d, n).value;
      assert PlusDays(p, n - 1) == Some(prev);
      BeforeTransitive(p, prev, d);
    }
  }

  /** Going back at most 31 days never leaves the calendar when the year is
      at least 2 (or, in year 1, when it stays inside December). */
  lemma {:induction false} MinusDaysDefined(d: Date, n: nat)
    requires Valid(d) && n <= 31
    requires d.year >= 2 || (d.month == 12 && d.day > n)
    ensures MinusDays(d, n).Some?
    decreases n
  {
    if n > 0 {
      var p := PrevDay(d).value;
      PrevNext(d);
      MinusDaysDefined(p, n - 1);
    }
  }

  lemma MonthStartSpec(d: Date)
    requires Valid(d)
    ensures Valid(MonthStart(d)) && NotAfter(MonthStart(d), d)
    ensures MonthStart(d).year == d.year && MonthStart(d).month == d.month
  {
  }

  /** Two-digit rendering of a number below 100. */
  lemma Pad2Dec(n: nat)
    requires 1 <= n < 100
    ensures |Pad2(Dec(n))| == 2
    ensures n < 10 ==> Pad2(Dec(n)) == ['0', Digit(n)]
    ensures n >= 10 ==> Pad2(Dec(n)) == [Digit(n / 10), Digit(n % 10)]
  {
    if n >= 10 {
      assert Dec(n / 10) == [Digit(n / 10)];
    }
  }

  /** A four-digit year has a four-character rendering. */
  lemma Dec4(n: nat)
    requires 1000 <= n <= 9999
    ensures |Dec(n)| == 4
  {
    assert Dec(n / 1000) == [Digit(n / 1000)];
    assert n / 10 / 10 / 10 == n / 1000;
    assert |Dec(n / 100)| == 2;
    assert |Dec(n / 10)| == 3;
  }

  /** For four-digit years `%Y-%m-%d` is ten characters long. */
  lemma IsoLength(d: Date)
    requires Valid(d) && 1000 <= d.year
    ensures |Iso(d)| == 10
    ensures Iso(d)[4] == '-' && Iso(d)[7] == '-'
  {
    Dec4(d.year);
    Pad2Dec(d.month);
    Pad2Dec(d.day);
    var y, m := Dec(d.year), Pad2(Dec(d.month));
    var w := y + "-" + m + "-";
    assert Iso(d) == w + Pad2(Dec(d.day));
    assert w[4] == '-' && w[7] == '-';
  }
}
