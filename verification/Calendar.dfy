// Billing dates: calendar arithmetic in the Gregorian calendar, the iterates of
// a plan's interval, and the text timestamps are stored and compared in.
module Calendar {
  import Text

  const MS_PER_DAY := 86_400_000

  predicate IsLeap(year: int) {
    year % 4 == 0 && (year % 100 != 0 || year % 400 == 0)
  }

  predicate IsMonth(m: int) {
    1 <= m <= 12
  }

  function DaysIn(year: int, month: int): int
    requires IsMonth(month)
  {
    if month == 2 then (if IsLeap(year) then 29 else 28)
    else if month == 4 || month == 6 || month == 9 || month == 11 then 30
    else 31
  }

  // A point in time in UTC, to the millisecond.
  datatype Moment = Moment(year: int, month: int, day: int, ms: int)

  predicate Valid(t: Moment) {
    IsMonth(t.month) && 1 <= t.day <= DaysIn(t.year, t.month) && 0 <= t.ms < MS_PER_DAY
  }

  predicate Before(a: Moment, b: Moment) {
    || a.year < b.year
    || (a.year == b.year && a.month < b.month)
    || (a.year == b.year && a.month == b.month && a.day < b.day)
    || (a.year == b.year && a.month == b.month && a.day == b.day && a.ms < b.ms)
  }

  // ---- adding an interval ----

  function NextDay(t: Moment): Moment
    requires Valid(t)
  {
    if t.day < DaysIn(t.year, t.month) then t.(day := t.day + 1)
    else if t.month < 12 then t.(month := t.month + 1, day := 1)
    else t.(year := t.year + 1, month := 1, day := 1)
  }

  function AddDays(t: Moment, n: nat): (r: Moment)
    requires Valid(t)
    ensures Valid(r)
    decreases n
  {
    if n == 0 then t else AddDays(NextDay(t), n - 1)
  }

  // Months since year zero.
  function MonthIndex(t: Moment): int {
    12 * t.year + t.month - 1
  }

  // The day of the month is kept when it exists, and is the last one otherwise.
  function AddMonths(t: Moment, n: nat): Moment
    requires Valid(t)
  {
    var index := MonthIndex(t) + n;
    var year, month := index / 12, index % 12 + 1;
    t.(year := year, month := month, day := if t.day <= DaysIn(year, month) then t.day else DaysIn(year, month))
  }

  datatype Interval = Interval(unit: string, count: nat)

  // What plan creation and plan updates let through.
  predicate IsPlanInterval(i: Interval) {
    i.unit in {"day", "week", "month", "year"} && 1 <= i.count <= 365
  }

  function AddInterval(t: Moment, i: Interval): Moment
    requires Valid(t)
  {
    if i.unit == "day" then AddDays(t, i.count)
    else if i.unit == "week" then AddDays(t, 7 * i.count)
    else if i.unit == "month" then AddMonths(t, i.count)
    else if i.unit == "year" then AddMonths(t, 12 * i.count)
    else t
  }

  // ---- days are counted exactly ----

  function DaysBeforeMonth(year: int, month: int): int
    requires IsMonth(month)
  {
    if month == 1 then 0 else DaysBeforeMonth(year, month - 1) + DaysIn(year, month - 1)
  }

  function DaysBeforeYear(year: int): int {
    365 * (year - 1) + (year - 1) / 4 - (year - 1) / 100 + (year - 1) / 400
  }

  // The day's number in the calendar, in closed form.
  function DayNumber(t: Moment): int
    requires Valid(t)
  {
    DaysBeforeYear(t.year) + DaysBeforeMonth(t.year, t.month) + t.day
  }

  lemma YearLength(year: int)
    ensures DaysBeforeYear(year + 1) == DaysBeforeYear(year) + (if IsLeap(year) then 366 else 365)
  {
    FloorSteps(year);
    LeapParts(year);
    assert year + 1 - 1 == year;
  }

  lemma FloorSteps(n: int)
    ensures n / 4 == (n - 1) / 4 + if n % 4 == 0 then 1 else 0
    ensures n / 100 == (n - 1) / 100 + if n % 100 == 0 then 1 else 0
    ensures n / 400 == (n - 1) / 400 + if n % 400 == 0 then 1 else 0
  {
  }

  lemma LeapParts(n: int)
    ensures n % 100 == 0 ==> n % 4 == 0
    ensures n % 400 == 0 ==> n % 100 == 0
  {
  }

  lemma MonthsOfYear(year: int)
    ensures DaysBeforeMonth(year, 12) == if IsLeap(year) then 335 else 334
  {
    assert DaysBeforeMonth(year, 3) == DaysBeforeMonth(year, 1) + 31 + DaysIn(year, 2);
    assert DaysBeforeMonth(year, 5) == DaysBeforeMonth(year, 3) + 61;
    assert DaysBeforeMonth(year, 7) == DaysBeforeMonth(year, 5) + 61;
    assert DaysBeforeMonth(year, 9) == DaysBeforeMonth(year, 7) + 62;
    assert DaysBeforeMonth(year, 11) == DaysBeforeMonth(year, 9) + 61;
  }

  lemma NextDayCounts(t: Moment)
    requires Valid(t)
    ensures Valid(NextDay(t)) && DayNumber(NextDay(t)) == DayNumber(t) + 1
  {
    if t.day == DaysIn(t.year, t.month) && t.month == 12 {
      YearLength(t.year);
      MonthsOfYear(t.year);
    }
  }

  // Stepping from day to day counts the days of the calendar, across months and
  // leap years, and keeps the time of day.
  lemma {:induction false} AddDaysCounts(t: Moment, n: nat)
    requires Valid(t)
    ensures DayNumber(AddDays(t, n)) == DayNumber(t) + n && AddDays(t, n).ms == t.ms
    decreases n
  {
    if n > 0 {
      NextDayCounts(t);
      AddDaysCounts(NextDay(t), n - 1);
    }
  }

  // ---- an interval leads forward ----

  lemma BeforeTrans(a: Moment, b: Moment, c: Moment)
    requires Before(a, b) && (Before(b, c) || b == c)
    ensures Before(a, c) && a != c
  {
  }

  lemma {:induction false} AddDaysIsLater(t: Moment, n: nat)
    requires Valid(t) && n > 0
    ensures Before(t, AddDays(t, n))
    decreases n
  {
    if n > 1 {
      AddDaysIsLater(NextDay(t), n - 1);
      BeforeTrans(t, NextDay(t), AddDays(t, n));
    } else {
      assert AddDays(t, 1) == AddDays(NextDay(t), 0);
    }
  }

  // Adding months lands that many months on, on the same day of the month or, where
  // there is none, on the last one, at the same time of day.
  lemma AddMonthsLands(t: Moment, n: nat)
    requires Valid(t)
    ensures var r := AddMonths(t, n);
      && Valid(r) && MonthIndex(r) == MonthIndex(t) + n && r.ms == t.ms
      && (r.day == t.day || (r.day < t.day && r.day == DaysIn(r.year, r.month)))
      && (n > 0 ==> Before(t, r))
  {
    var index := MonthIndex(t) + n;
    assert index == 12 * (index / 12) + index % 12;
  }

  // Every plan interval leads to a valid, strictly later moment.
  lemma AddIntervalIsLater(t: Moment, i: Interval)
    requires Valid(t) && IsPlanInterval(i)
    ensures Valid(AddInterval(t, i)) && Before(t, AddInterval(t, i))
  {
    if i.unit == "day" {
      AddDaysIsLater(t, i.count);
    } else if i.unit == "week" {
      AddDaysIsLater(t, 7 * i.count);
    } else if i.unit == "month" {
      AddMonthsLands(t, i.count);
    } else {
      AddMonthsLands(t, 12 * i.count);
    }
  }

  // ---- the iterates of an interval ----

  type Instant = t: Moment | Valid(t) witness Moment(1970, 1, 1, 0)
  type PlanInterval = i: Interval | IsPlanInterval(i) witness Interval("month", 1)

  function PeriodEnd(start: Instant, i: PlanInterval): Instant {
    AddIntervalIsLater(start, i);
    AddInterval(start, i)
  }

  function Iterate(start: Instant, i: PlanInterval, n: nat): Instant {
    if n == 0 then start else PeriodEnd(Iterate(start, i, n - 1), i)
  }

  // Later iterates are strictly later, month-end clamping included.
  lemma {:induction false} IteratesIncrease(start: Instant, i: PlanInterval, m: nat, n: nat)
    requires m < n
    ensures Before(Iterate(start, i, m), Iterate(start, i, n))
    decreases n
  {
    var last := Iterate(start, i, n - 1);
    AddIntervalIsLater(last, i);
    if m < n - 1 {
      IteratesIncrease(start, i, m, n - 1);
      BeforeTrans(Iterate(start, i, m), last, Iterate(start, i, n));
    }
  }

  // How many months an interval spans.
  function MonthsOf(i: Interval): nat {
    if i.unit == "year" then 12 * i.count else i.count
  }

  // A monthly or yearly plan bills exactly one in so many months: no month is
  // skipped and none billed twice, whatever the day of the month.
  lemma {:induction false} MonthsAreNeverSkipped(start: Instant, i: PlanInterval, n: nat)
    requires i.unit in {"month", "year"}
    ensures MonthIndex(Iterate(start, i, n)) == MonthIndex(start) + n * MonthsOf(i)
    ensures Iterate(start, i, n).ms == start.ms
  {
    if n > 0 {
      MonthsAreNeverSkipped(start, i, n - 1);
      AddMonthsLands(Iterate(start, i, n - 1), MonthsOf(i));
      assert n * MonthsOf(i) == (n - 1) * MonthsOf(i) + MonthsOf(i);
    }
  }

  // A daily or weekly plan bills after exactly that many days.
  lemma {:induction false} DaysAreCounted(start: Instant, i: PlanInterval, n: nat)
    requires i.unit in {"day", "week"}
    ensures var step := if i.unit == "day" then i.count else 7 * i.count;
      DayNumber(Iterate(start, i, n)) == DayNumber(start) + n * step && Iterate(start, i, n).ms == start.ms
  {
    if n > 0 {
      var step := if i.unit == "day" then i.count else 7 * i.count;
      DaysAreCounted(start, i, n - 1);
      AddDaysCounts(Iterate(start, i, n - 1), step);
      assert n * step == (n - 1) * step + step;
    }
  }

  // The length of a month given by its index.
  function DaysInIndex(index: int): int {
    DaysIn(index / 12, index % 12 + 1)
  }

  // The length of the month the k-th iterate falls into; nothing but the month of
  // the start and the interval decides it.
  function VisitedMonth(start: Instant, i: PlanInterval, k: nat): int {
    DaysInIndex(MonthIndex(start) + k * MonthsOf(i))
  }

  // `day` is the least of the starting day and the lengths of the months visited.
  ghost predicate IsLeastDay(start: Instant, i: PlanInterval, n: nat, day: int) {
    && day <= start.day
    && (forall k :: 0 <= k <= n ==> day <= VisitedMonth(start, i, k))
    && (day == start.day || exists k :: 0 <= k <= n && day == VisitedMonth(start, i, k))
  }

  lemma IterateVisits(start: Instant, i: PlanInterval, n: nat)
    requires i.unit in {"month", "year"}
    ensures VisitedMonth(start, i, n) == DaysIn(Iterate(start, i, n).year, Iterate(start, i, n).month)
  {
    MonthsAreNeverSkipped(start, i, n);
    var t := Iterate(start, i, n);
    assert MonthIndex(t) / 12 == t.year && MonthIndex(t) % 12 == t.month - 1;
  }

  // Each period starts from the previous one, so a day of the month lost to a short
  // month stays lost: the n-th billing day is the least of the starting day and the
  // lengths of all the months visited so far.
  lemma {:induction false} BillingDayIsLeast(start: Instant, i: PlanInterval, n: nat)
    requires i.unit in {"month", "year"}
    ensures IsLeastDay(start, i, n, Iterate(start, i, n).day)
    decreases n
  {
    IterateVisits(start, i, n);
    if n > 0 {
      var last, t := Iterate(start, i, n - 1), Iterate(start, i, n);
      BillingDayIsLeast(start, i, n - 1);
      AddMonthsLands(last, MonthsOf(i));
      if t.day < last.day {
        assert t.day == VisitedMonth(start, i, n);
      } else if last.day < start.day {
        var k :| 0 <= k <= n - 1 && last.day == VisitedMonth(start, i, k);
        assert t.day == VisitedMonth(start, i, k);
      }
    }
  }

  // A monthly or yearly plan keeps its billing day up to the n-th period exactly when
  // every month it visits until then has that day.
  lemma BillingDayIsKept(start: Instant, i: PlanInterval, n: nat)
    requires i.unit in {"month", "year"}
    ensures Iterate(start, i, n).day == start.day <==> forall k :: 0 <= k <= n ==> start.day <= VisitedMonth(start, i, k)
  {
    BillingDayIsLeast(start, i, n);
  }

  // So the billing day never grows back, never falls below 28, and a start by the
  // 28th keeps its day for good.
  lemma BillingDayOnlyShrinks(start: Instant, i: PlanInterval, m: nat, n: nat)
    requires i.unit in {"month", "year"} && m <= n
    ensures Iterate(start, i, n).day <= Iterate(start, i, m).day
    ensures Iterate(start, i, n).day >= if start.day < 28 then start.day else 28
    ensures start.day <= 28 ==> Iterate(start, i, n).day == start.day
  {
    BillingDayIsLeast(start, i, m);
    BillingDayIsLeast(start, i, n);
    var day := Iterate(start, i, m).day;
    if day < start.day {
      var k :| 0 <= k <= m && day == VisitedMonth(start, i, k);
      assert Iterate(start, i, n).day <= VisitedMonth(start, i, k);
    }
  }

  // The drift is real: monthly billing from 31 January runs on the 28th from March on.
  lemma JanuaryPlanDrifts()
    ensures var start, monthly := Moment(2023, 1, 31, 0), Interval("month", 1);
      Iterate(start, monthly, 1) == Moment(2023, 2, 28, 0) && Iterate(start, monthly, 2) == Moment(2023, 3, 28, 0)
      && AddMonths(start, 2) == Moment(2023, 3, 31, 0)
  {
    var start, monthly := Moment(2023, 1, 31, 0), Interval("month", 1);
    assert Iterate(start, monthly, 0) == start;
    assert Iterate(start, monthly, 1) == AddMonths(start, 1);
  }

  // ---- timestamps as text ----

  function Pow10(width: nat): int {
    if width == 0 then 1 else 10 * Pow10(width - 1)
  }

  // `n` in exactly `width` digits.
  function Padded(n: int, width: nat): (s: string)
    requires 0 <= n < Pow10(width)
    ensures |s| == width
  {
    if width == 0 then "" else Padded(n / 10, width - 1) + [Text.Digit(n % 10)]
  }

  predicate Printable(t: Moment) {
    Valid(t) && 0 <= t.year < 10000
  }

  lemma Powers()
    ensures Pow10(2) == 100 && Pow10(3) == 1000 && Pow10(4) == 10000
  {
    assert Pow10(1) == 10;
  }

  // The order SQL compares stored timestamps in.
  predicate TextBefore(a: string, b: string) {
    if a == [] || b == [] then a == [] && b != []
    else a[0] < b[0] || (a[0] == b[0] && TextBefore(a[1..], b[1..]))
  }

  lemma {:induction false} TextBeforeIrreflexive(a: string)
    ensures !TextBefore(a, a)
  {
    if a != [] {
      TextBeforeIrreflexive(a[1..]);
    }
  }

  // Texts of equal length compare field by field.
  lemma {:induction false} TextBeforeSplits(a: string, b: string, c: string, d: string)
    requires |a| == |b|
    ensures TextBefore(a + c, b + d) <==> TextBefore(a, b) || (a == b && TextBefore(c, d))
    decreases |a|
  {
    if a == [] {
      assert a + c == c && b + d == d;
    } else {
      TextBeforeSplits(a[1..], b[1..], c, d);
      assert (a + c)[1..] == a[1..] + c && (b + d)[1..] == b[1..] + d;
      assert a == [a[0]] + a[1..] && b == [b[0]] + b[1..];
    }
  }

  // Fixed-width digits sort like their numbers.
  lemma {:induction false} PaddedOrder(m: int, n: int, width: nat)
    requires 0 <= m < Pow10(width) && 0 <= n < Pow10(width)
    ensures TextBefore(Padded(m, width), Padded(n, width)) <==> m < n
    ensures Padded(m, width) == Padded(n, width) <==> m == n
    decreases width
  {
    if width > 0 {
      PaddedOrder(m / 10, n / 10, width - 1);
      var p, q := Padded(m / 10, width - 1), Padded(n / 10, width - 1);
      TextBeforeSplits(p, q, [Text.Digit(m % 10)], [Text.Digit(n % 10)]);
      assert Padded(m, width)[..width - 1] == p && Padded(n, width)[..width - 1] == q;
      assert Padded(m, width)[width - 1] == Text.Digit(m % 10) && Padded(n, width)[width - 1] == Text.Digit(n % 10);
    }
  }

  // A separator after a field changes nothing.
  lemma FieldOrder(m: int, n: int, width: nat, mark: string, rest: string, rest': string)
    requires 0 <= m < Pow10(width) && 0 <= n < Pow10(width)
    ensures TextBefore(Padded(m, width) + (mark + rest), Padded(n, width) + (mark + rest'))
       <==> m < n || (m == n && TextBefore(rest, rest'))
  {
    PaddedOrder(m, n, width);
    TextBeforeSplits(Padded(m, width), Padded(n, width), mark + rest, mark + rest');
    TextBeforeSplits(mark, mark, rest, rest');
    TextBeforeIrreflexive(mark);
  }

  function IsoTime(ms: int): string
    requires 0 <= ms < MS_PER_DAY
  {
    Powers();
    Padded(ms / 3_600_000, 2) + (":" + (Padded(ms / 60_000 % 60, 2) + (":" + (Padded(ms / 1000 % 60, 2)
    + ("." + (Padded(ms % 1000, 3) + ("+00:00" + "")))))))
  }

  // A stored timestamp, e.g. 2025-03-31T09:30:00.000+00:00.
  function ToIso(t: Moment): string
    requires Printable(t)
  {
    Powers();
    Padded(t.year, 4) + ("-" + (Padded(t.month, 2) + ("-" + (Padded(t.day, 2) + ("T" + IsoTime(t.ms))))))
  }

  lemma IsoTimeOrder(a: int, b: int)
    requires 0 <= a < MS_PER_DAY && 0 <= b < MS_PER_DAY
    ensures TextBefore(IsoTime(a), IsoTime(b)) <==> a < b
  {
    Powers();
    var ms, ms' := Padded(a % 1000, 3) + ("+00:00" + ""), Padded(b % 1000, 3) + ("+00:00" + "");
    FieldOrder(a % 1000, b % 1000, 3, "+00:00", "", "");
    var s, s' := Padded(a / 1000 % 60, 2) + ("." + ms), Padded(b / 1000 % 60, 2) + ("." + ms');
    FieldOrder(a / 1000 % 60, b / 1000 % 60, 2, ".", ms, ms');
    var min, min' := Padded(a / 60_000 % 60, 2) + (":" + s), Padded(b / 60_000 % 60, 2) + (":" + s');
    FieldOrder(a / 60_000 % 60, b / 60_000 % 60, 2, ":", s, s');
    FieldOrder(a / 3_600_000, b / 3_600_000, 2, ":", min, min');
    ClockOrder(a, b);
  }

  // Hours, minutes, seconds and milliseconds order a day's times.
  lemma ClockOrder(a: int, b: int)
    requires 0 <= a < MS_PER_DAY && 0 <= b < MS_PER_DAY
    ensures a < b <==>
      || a / 3_600_000 < b / 3_600_000
      || (a / 3_600_000 == b / 3_600_000 && (a / 60_000 % 60 < b / 60_000 % 60
      || (a / 60_000 % 60 == b / 60_000 % 60 && (a / 1000 % 60 < b / 1000 % 60
      || (a / 1000 % 60 == b / 1000 % 60 && a % 1000 < b % 1000)))))
  {
    ClockFields(a);
    ClockFields(b);
  }

  lemma ClockFields(a: int)
    requires 0 <= a < MS_PER_DAY
    ensures a == a / 3_600_000 * 3_600_000 + a / 60_000 % 60 * 60_000 + a / 1000 % 60 * 1000 + a % 1000
  {
    assert a / 1000 / 60 == a / 60_000;
    assert a / 60_000 / 60 == a / 3_600_000;
  }

  lemma IsoFieldOrder(a: Moment, b: Moment)
    requires Printable(a) && Printable(b)
    ensures TextBefore(ToIso(a), ToIso(b)) <==> Before(a, b)
  {
    Powers();
    IsoTimeOrder(a.ms, b.ms);
    var day, day' := Padded(a.day, 2) + ("T" + IsoTime(a.ms)), Padded(b.day, 2) + ("T" + IsoTime(b.ms));
    FieldOrder(a.day, b.day, 2, "T", IsoTime(a.ms), IsoTime(b.ms));
    var month, month' := Padded(a.month, 2) + ("-" + day), Padded(b.month, 2) + ("-" + day');
    FieldOrder(a.month, b.month, 2, "-", day, day');
    FieldOrder(a.year, b.year, 4, "-", month, month');
  }

  // Comparing stored timestamps as text compares them in time, and no two moments
  // share a timestamp: SQL's `<=` and `=` on these columns mean what they say.
  lemma IsoOrder(a: Moment, b: Moment)
    requires Printable(a) && Printable(b)
    ensures TextBefore(ToIso(a), ToIso(b)) <==> Before(a, b)
    ensures ToIso(a) == ToIso(b) <==> a == b
  {
    IsoFieldOrder(a, b);
    IsoFieldOrder(b, a);
    if ToIso(a) == ToIso(b) {
      TextBeforeIrreflexive(ToIso(a));
    }
  }
}
