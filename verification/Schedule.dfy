/**
 Lifecycle dates, after src/bonds/engine/schedule.ts: month addition with end-of-month
 clamping, maturity, coupon periods and redemption checkpoints.
 */
module Schedule {
  import opened Calendar

  /** A 30-year monthly bond is 360 periods; the loop guard allows 400. */
  const MAX_PERIODS: nat := 400

  datatype CouponFrequency = Monthly | Quarterly | Semiannual | Annual | Zero

  datatype CouponPeriod = CouponPeriod(index: nat, start: Date, end: Date, payDate: Date)

  datatype Stage = TMinus90 | TMinus30 | TMinus7 | Maturity

  datatype StagePlan = StagePlan(stage: Stage, scheduledFor: int)

  function StepMonths(f: CouponFrequency): nat {
    match f
    case Monthly => 1
    case Quarterly => 3
    case Semiannual => 6
    case Annual => 12
    case Zero => 0
  }

  function Min(a: nat, b: nat): nat {
    if a < b then a else b
  }

  // ---- Month arithmetic ----

  /** `Date.UTC` reads the years 0 to 99 as 1900 to 1999. */
  function FullYear(y: nat): nat {
    if y <= 99 then 1900 + y else y
  }

  /** Months since 0000-01, after the reading above. */
  function MonthIndex(d: Date): (index: nat)
    requires d.Valid()
    ensures index >= 1200
  {
    12 * FullYear(d.year) + d.month - 1
  }

  function MonthLength(index: nat): (n: nat)
    ensures 28 <= n <= 31
  {
    DaysInMonth(index / 12, index % 12 + 1)
  }

  function InMonth(index: nat, day: nat): Date {
    Date(index / 12, index % 12 + 1, day)
  }

  lemma MonthFollows(index: nat)
    ensures InMonth(index + 1, 1).DayNumber() == InMonth(index, 1).DayNumber() + MonthLength(index)
  {
    if index % 12 == 11 {
      assert (index + 1) / 12 == index / 12 + 1 && (index + 1) % 12 == 0;
      YearIsTwelveMonths(index / 12);
    } else {
      assert (index + 1) / 12 == index / 12 && (index + 1) % 12 == index % 12 + 1;
    }
  }

  /** Days before the first of a month. */
  function FirstDay(index: nat): nat {
    if index == 0 then 0 else FirstDay(index - 1) + MonthLength(index - 1)
  }

  lemma FirstIsValid(index: nat)
    ensures InMonth(index, 1).Valid()
  {
  }

  lemma NextFirst(before: nat, index: nat)
    requires index == before + 1 && InMonth(before, 1).Valid() && InMonth(index, 1).Valid()
    requires InMonth(before, 1).DayNumber() == FirstDay(before)
    ensures InMonth(index, 1).DayNumber() == FirstDay(index)
  {
    MonthFollows(before);
  }

  lemma {:induction false} FirstDayIsDayNumber(index: nat)
    ensures InMonth(index, 1).Valid() && InMonth(index, 1).DayNumber() == FirstDay(index)
  {
    FirstIsValid(index);
    if index == 0 {
      assert InMonth(index, 1) == Date(0, 1, 1);
    } else {
      FirstDayIsDayNumber(index - 1);
      NextFirst(index - 1, index);
    }
  }

  /** `Date.UTC(year, month0, day)` as a day number: the month overflows into years, the day into months. */
  function DateUtc(year: nat, month0: nat, day: int): int {
    FirstDay(12 * FullYear(year) + month0) + day - 1
  }

  lemma InMonthIsValid(index: nat, day: nat)
    requires 1 <= day <= MonthLength(index)
    ensures InMonth(index, day).Valid()
    ensures InMonth(index, day).DayNumber() == InMonth(index, 1).DayNumber() + day - 1 >= 0
    ensures DateOf(InMonth(index, day).DayNumber()) == InMonth(index, day)
    ensures index >= 1200 ==> MonthIndex(InMonth(index, day)) == index && index / 12 >= 100
  {
    DateOfDayNumber(InMonth(index, day));
  }

  /** The day number of a day of a month reads back as that day. */
  lemma ReadBack(index: nat, day: nat)
    requires 1 <= day <= MonthLength(index)
    ensures DateOf(FirstDay(index) + day - 1) == InMonth(index, day)
  {
    FirstDayIsDayNumber(index);
    InMonthIsValid(index, day);
  }

  /** The date `months` later by the calendar: same day, or the last of a shorter month. */
  function Shifted(d: Date, months: nat): (r: Date)
    requires d.Valid()
    ensures r.Valid() && MonthIndex(r) == MonthIndex(d) + months
  {
    var index := MonthIndex(d) + months;
    InMonthIsValid(index, Min(d.day, MonthLength(index)));
    InMonth(index, Min(d.day, MonthLength(index)))
  }

  /** The month after a first of the month, as the code asks for it. */
  lemma NextMonthAsked(index: nat)
    requires index >= 1200
    ensures 12 * FullYear(InMonth(index, 1).year) + InMonth(index, 1).month == index + 1
  {
  }

  /** The day number for a year, a month counted on from it, and a day of that month. */
  method Utc(year: nat, month0: nat, day: int, ghost index: nat) returns (t: int)
    requires index == 12 * FullYear(year) + month0
    ensures t == FirstDay(index) + day - 1
  {
    t := DateUtc(year, month0, day);
  }

  lemma DayBeforeNextMonth(index: nat)
    ensures FirstDay(index + 1) - 1 == FirstDay(index) + MonthLength(index) - 1
  {
  }

  /** Day 0 of the month after is the last day of this one. */
  method LastDayOf(year: nat, month: nat, ghost index: nat) returns (lastDay: nat)
    requires 12 * FullYear(year) + month == index + 1
    ensures lastDay == MonthLength(index)
  {
    var last := Utc(year, month, 0, index + 1);
    DayBeforeNextMonth(index);
    ReadBack(index, MonthLength(index));
    lastDay := DateOf(last).day;
  }

  /**
   Add months, clamping to the end of the target month, by the code's arithmetic on time
   values: the first of the target month, day 0 of the month after it, then the day.
   */
  method AddMonths(d: Date, months: nat) returns (r: Date)
    requires d.Valid()
    ensures r == Shifted(d, months)
  {
    ghost var index := MonthIndex(d) + months;
    var target := Utc(d.year, d.month - 1 + months, 1, index);
    ReadBack(index, 1);
    var first := DateOf(target);
    NextMonthAsked(index);
    var lastDay := LastDayOf(first.year, first.month, index);
    ReadBack(index, Min(d.day, lastDay));
    r := DateOf(target + Min(d.day, lastDay) - 1);
  }

  datatype Dated = DatedOk(date: Date) | OutOfBounds

  method ComputeMaturity(issue: Date, tenor: int) returns (r: Dated)
    requires issue.Valid()
    ensures r == if tenor < 1 then OutOfBounds else DatedOk(Shifted(issue, tenor))
  {
    if tenor < 1 {
      return OutOfBounds;
    }
    var maturity := AddMonths(issue, tenor);
    return DatedOk(maturity);
  }

  // ---- Coupon periods ----

  /** The month the k-th boundary falls in. */
  function MonthAt(index: nat, step: nat, k: nat): (m: nat)
    ensures m >= index
  {
    if k == 0 then index else MonthAt(index, step, k - 1) + step
  }

  lemma {:induction false} MonthAtIsMultiple(index: nat, step: nat, k: nat)
    ensures MonthAt(index, step, k) == index + k * step
  {
    if k > 0 {
      MonthAtIsMultiple(index, step, k - 1);
      assert k * step == (k - 1) * step + step;
    }
  }

  /** The clamped day only ever falls: after k steps it is the least month length met so far. */
  function Ratchet(day: nat, index: nat, step: nat, k: nat): nat {
    if k == 0 then day else Min(Ratchet(day, index, step, k - 1), MonthLength(MonthAt(index, step, k)))
  }

  /** Every month a boundary falls in, from the first to the k-th, has at least `day` days. */
  predicate MonthsReach(day: nat, index: nat, step: nat, k: nat) {
    forall j :: 1 <= j <= k ==> MonthLength(MonthAt(index, step, j)) >= day
  }

  lemma {:induction false} RatchetBounds(day: nat, index: nat, step: nat, k: nat, t: nat)
    requires 1 <= day <= 31 && t <= day
    ensures 1 <= Ratchet(day, index, step, k) <= day
    ensures k > 0 ==> Ratchet(day, index, step, k) <= MonthLength(MonthAt(index, step, k))
    ensures Ratchet(day, index, step, k) >= Min(day, 28)
    ensures Ratchet(day, index, step, k) >= t <==> MonthsReach(t, index, step, k)
  {
    if k > 0 {
      RatchetBounds(day, index, step, k - 1, t);
      assert MonthsReach(t, index, step, k) <==>
             MonthsReach(t, index, step, k - 1) && MonthLength(MonthAt(index, step, k)) >= t;
    }
  }

  /** Where the k-th period boundary lies: k steps on from issue, on the ratcheted day. */
  function Boundary(issue: Date, step: nat, k: nat): (b: Date)
    requires issue.Valid()
    ensures b.Valid()
  {
    if k == 0 then issue
    else
      var index := MonthIndex(issue);
      RatchetBounds(issue.day, index, step, k, 0);
      InMonthIsValid(MonthAt(index, step, k), Ratchet(issue.day, index, step, k));
      InMonth(MonthAt(index, step, k), Ratchet(issue.day, index, step, k))
  }

  /** Adding one step to a boundary, clamped day and all, gives the next boundary. */
  lemma NextBoundary(issue: Date, step: nat, k: nat)
    requires issue.Valid()
    ensures Shifted(Boundary(issue, step, k), step) == Boundary(issue, step, k + 1)
    ensures MonthIndex(Boundary(issue, step, k)) == MonthAt(MonthIndex(issue), step, k)
  {
    var index := MonthIndex(issue);
    RatchetBounds(issue.day, index, step, k, 0);
    var b := Boundary(issue, step, k);
    if k > 0 {
      InMonthIsValid(MonthAt(index, step, k), Ratchet(issue.day, index, step, k));
    }
    assert MonthIndex(b) == MonthAt(index, step, k) && b.day == Ratchet(issue.day, index, step, k);
    assert MonthAt(index, step, k + 1) == MonthAt(index, step, k) + step;
    assert Ratchet(issue.day, index, step, k + 1) == Min(b.day, MonthLength(MonthAt(index, step, k + 1)));
  }

  /** Exactly the boundaries up to maturity, at most `MAX_PERIODS` of them. */
  ghost predicate IsSchedule(periods: seq<CouponPeriod>, issue: Date, maturity: Date, step: nat)
    requires issue.Valid() && maturity.Valid()
  {
    && |periods| <= MAX_PERIODS
    && (forall k :: 0 <= k < |periods| ==> IsPeriod(periods[k], issue, maturity, step, k))
    && (|periods| < MAX_PERIODS ==> Boundary(issue, step, |periods| + 1).DayNumber() > maturity.DayNumber())
  }

  ghost predicate IsPeriod(p: CouponPeriod, issue: Date, maturity: Date, step: nat, k: nat)
    requires issue.Valid() && maturity.Valid()
  {
    var end := Boundary(issue, step, k + 1);
    p == CouponPeriod(k, Boundary(issue, step, k), end, end) && end.DayNumber() <= maturity.DayNumber()
  }

  /** Coupon periods from issue to maturity; a shorter trailing stub is dropped. */
  method BuildCouponSchedule(issue: Date, maturity: Date, frequency: CouponFrequency) returns (periods: seq<CouponPeriod>)
    requires issue.Valid() && maturity.Valid()
    ensures frequency.Zero? ==> periods == []
    ensures !frequency.Zero? ==> IsSchedule(periods, issue, maturity, StepMonths(frequency))
  {
    var step := StepMonths(frequency);
    if step == 0 {
      return [];
    }
    periods := [];
    var start := issue;
    while |periods| < MAX_PERIODS
      invariant |periods| <= MAX_PERIODS
      invariant start == Boundary(issue, step, |periods|)
      invariant forall k :: 0 <= k < |periods| ==> IsPeriod(periods[k], issue, maturity, step, k)
      decreases MAX_PERIODS - |periods|
    {
      var periodEnd := AddMonths(start, step);
      NextBoundary(issue, step, |periods|);
      if periodEnd.DayNumber() > maturity.DayNumber() {
        break;
      }
      periods := periods + [CouponPeriod(|periods|, start, periodEnd, periodEnd)];
      start := periodEnd;
    }
  }

  /** Dates in months from year 100 on: ordered by month, then by day. */
  lemma InMonthOrder(i: nat, a: nat, j: nat, b: nat)
    requires 1 <= a <= MonthLength(i) && 1 <= b <= MonthLength(j)
    ensures InMonth(i, a).Valid() && InMonth(j, b).Valid()
    ensures i < j ==> InMonth(i, a).DayNumber() < InMonth(j, b).DayNumber()
    ensures i == j ==> InMonth(j, b).DayNumber() - InMonth(i, a).DayNumber() == b - a
  {
    InMonthIsValid(i, a);
    InMonthIsValid(j, b);
    if i < j {
      assert i / 12 < j / 12 || (i / 12 == j / 12 && i % 12 < j % 12);
      EarlierDateSmallerNumber(InMonth(i, a), InMonth(j, b));
    }
  }

  /** Compared with the maturity date: earlier months first, then the ratcheted day. */
  lemma BoundaryAgainstMaturity(issue: Date, step: nat, tenor: nat, k: nat)
    requires issue.Valid() && k > 0
    ensures k * step < tenor ==> Boundary(issue, step, k).DayNumber() < Shifted(issue, tenor).DayNumber()
    ensures k * step > tenor ==> Boundary(issue, step, k).DayNumber() > Shifted(issue, tenor).DayNumber()
    ensures k * step == tenor ==>
              Shifted(issue, tenor).DayNumber() - Boundary(issue, step, k).DayNumber()
              == Shifted(issue, tenor).day - Ratchet(issue.day, MonthIndex(issue), step, k)
  {
    var index := MonthIndex(issue);
    RatchetBounds(issue.day, index, step, k, 0);
    MonthAtIsMultiple(index, step, k);
    var m, b := index + tenor, MonthAt(index, step, k);
    var mDay, bDay := Min(issue.day, MonthLength(m)), Ratchet(issue.day, index, step, k);
    InMonthOrder(m, mDay, b, bDay);
    InMonthOrder(b, bDay, m, mDay);
  }

  lemma BoundariesIncrease(issue: Date, step: nat, k: nat)
    requires issue.Valid() && step > 0
    ensures Boundary(issue, step, k).DayNumber() < Boundary(issue, step, k + 1).DayNumber()
  {
    var index := MonthIndex(issue);
    RatchetBounds(issue.day, index, step, k, 0);
    RatchetBounds(issue.day, index, step, k + 1, 0);
    var later, laterDay := MonthAt(index, step, k + 1), Ratchet(issue.day, index, step, k + 1);
    InMonthIsValid(later, laterDay);
    if k == 0 {
      DayNumberOrder(issue, InMonth(later, laterDay));
    } else {
      InMonthOrder(MonthAt(index, step, k), Ratchet(issue.day, index, step, k), later, laterDay);
    }
  }

  lemma WholeSteps(tenor: nat, step: nat, n: nat)
    requires step > 0 && n * step <= tenor < (n + 1) * step
    ensures tenor / step == n
  {
    var q := tenor / step;
    assert q * step <= tenor < (q + 1) * step by {
      assert tenor == q * step + tenor % step;
      assert (q + 1) * step == q * step + step;
    }
    if q < n {
      MulMonotone(q + 1, n, step);
    } else if n < q {
      MulMonotone(n + 1, q, step);
    }
  }

  lemma MulMonotone(a: nat, b: nat, step: nat)
    requires a <= b
    ensures a * step <= b * step
  {
  }

  /**
   With the computed maturity and a tenor the bond table admits, the schedule has exactly
   one period for every whole step of the tenor: contiguous, strictly increasing, from the
   issue date to no later than maturity, and never cut short by the loop guard.
   */
  lemma ScheduleFillsTenor(periods: seq<CouponPeriod>, issue: Date, maturity: Date, tenor: nat, step: nat)
    requires issue.Valid() && 1 <= tenor <= 360 && step > 0
    requires maturity == Shifted(issue, tenor)
    requires IsSchedule(periods, issue, maturity, step)
    ensures |periods| == tenor / step < MAX_PERIODS
    ensures periods != [] ==> periods[0].start == issue
    ensures forall k :: 0 <= k < |periods| - 1 ==> periods[k].end == periods[k + 1].start
    ensures forall k :: 0 <= k < |periods| ==>
              && periods[k].start.Valid() && periods[k].end.Valid() && periods[k].payDate == periods[k].end
              && periods[k].start.DayNumber() < periods[k].end.DayNumber() <= maturity.DayNumber()
  {
    var n := |periods|;
    forall k | 0 <= k < n
      ensures periods[k].start.DayNumber() < periods[k].end.DayNumber()
    {
      BoundariesIncrease(issue, step, k);
    }
    assert n > 0 ==> IsPeriod(periods[n - 1], issue, maturity, step, n - 1);
    PeriodCount(issue, tenor, step, n);
  }

  lemma PeriodCount(issue: Date, tenor: nat, step: nat, n: nat)
    requires issue.Valid() && 1 <= tenor <= 360 && step > 0 && n <= MAX_PERIODS
    requires n > 0 ==> Boundary(issue, step, n).DayNumber() <= Shifted(issue, tenor).DayNumber()
    requires n < MAX_PERIODS ==> Boundary(issue, step, n + 1).DayNumber() > Shifted(issue, tenor).DayNumber()
    ensures n == tenor / step < MAX_PERIODS
  {
    if n > 0 {
      BoundaryAgainstMaturity(issue, step, tenor, n);
      MulMonotone(1, step, n);
    }
    assert n <= n * step <= tenor;
    BoundaryAgainstMaturity(issue, step, tenor, n + 1);
    if (n + 1) * step == tenor {
      RatchetBounds(issue.day, MonthIndex(issue), step, n + 1, 0);
      MonthAtIsMultiple(MonthIndex(issue), step, n + 1);
    }
    WholeSteps(tenor, step, n);
  }

  /** Over a year a bond pays twelve monthly coupons, four quarterly, two half-yearly or one annual. */
  lemma CouponsAYear(periods: seq<CouponPeriod>, issue: Date, f: CouponFrequency)
    requires issue.Valid() && f != Zero && IsSchedule(periods, issue, Shifted(issue, 12), StepMonths(f))
    ensures |periods| == match f case Monthly => 12 case Quarterly => 4 case Semiannual => 2 case Annual => 1
  {
    var step := StepMonths(f);
    if |periods| > 0 {
      assert IsPeriod(periods[|periods| - 1], issue, Shifted(issue, 12), step, |periods| - 1);
    }
    PeriodCount(issue, 12, step, |periods|);
  }

  /** Days between the n-th boundary and maturity. */
  function TailAfter(issue: Date, tenor: nat, step: nat, n: nat): int
    requires issue.Valid()
  {
    Shifted(issue, tenor).DayNumber() - Boundary(issue, step, n).DayNumber()
  }

  /**
   When the step divides the tenor the days left without a coupon are at most three, and
   there are none exactly when every month a boundary falls in is at least as long as the
   maturity day. An issue day of 28 or less always leaves none.
   */
  lemma TailOfWholeTenor(issue: Date, tenor: nat, step: nat, n: nat)
    requires issue.Valid() && step > 0 && n > 0 && tenor == n * step
    ensures tenor / step == n
    ensures 0 <= TailAfter(issue, tenor, step, n) <= 3
    ensures TailAfter(issue, tenor, step, n) == 0 <==>
            MonthsReach(Shifted(issue, tenor).day, MonthIndex(issue), step, n)
    ensures issue.day <= 28 ==> TailAfter(issue, tenor, step, n) == 0
  {
    var index := MonthIndex(issue);
    MulMonotone(1, n, step);
    MulMonotone(n, n + 1, step);
    assert (n + 1) * step == n * step + step;
    WholeSteps(tenor, step, n);
    BoundaryAgainstMaturity(issue, step, tenor, n);
    MonthAtIsMultiple(index, step, n);
    RatchetBounds(issue.day, index, step, n, Shifted(issue, tenor).day);
  }

  lemma {:induction false} FirstDayGrows(b: nat, m: nat)
    requires b < m
    ensures FirstDay(m) >= FirstDay(b) + MonthLength(b)
    decreases m
  {
    if b < m - 1 {
      FirstDayGrows(b, m - 1);
    }
  }

  /** The first of a later month is at least the length of this month away. */
  lemma LaterMonthStarts(b: nat, m: nat)
    requires b < m
    ensures InMonth(b, 1).Valid() && InMonth(m, 1).Valid()
    ensures InMonth(m, 1).DayNumber() >= InMonth(b, 1).DayNumber() + MonthLength(b)
  {
    FirstDayIsDayNumber(b);
    FirstDayIsDayNumber(m);
    FirstDayGrows(b, m);
  }

  /** The issue date lies in the month the code reads it as, or, in the first century, long before it. */
  lemma FirstBoundary(issue: Date)
    requires issue.Valid()
    ensures InMonth(MonthIndex(issue), 1).Valid()
    ensures var first := InMonth(MonthIndex(issue), 1).DayNumber();
            && issue.DayNumber() < first + issue.day
            && (issue.day <= MonthLength(MonthIndex(issue)) || issue.DayNumber() + 300 <= first)
  {
    var index := MonthIndex(issue);
    InMonthIsValid(index, 1);
    assert index / 12 == FullYear(issue.year) && index % 12 + 1 == issue.month;
    DayNumberOrder(issue.(day := 1), InMonth(index, 1));
    if issue.day > MonthLength(index) {
      assert issue.month == 2 && issue.year < FullYear(issue.year);
      YearStartGrows(issue.year, FullYear(issue.year));
    }
  }

  /** The n-th boundary, from the first of its month. */
  lemma BoundaryInMonth(issue: Date, step: nat, n: nat)
    requires issue.Valid()
    ensures var index := MonthIndex(issue);
            var b, day := MonthAt(index, step, n), Ratchet(issue.day, index, step, n);
            && InMonth(b, 1).Valid() && day <= issue.day
            && Boundary(issue, step, n).DayNumber() < InMonth(b, 1).DayNumber() + day
            && (day <= MonthLength(b) || Boundary(issue, step, n).DayNumber() + 300 <= InMonth(b, 1).DayNumber())
  {
    var index := MonthIndex(issue);
    RatchetBounds(issue.day, index, step, n, 0);
    if n == 0 {
      FirstBoundary(issue);
    } else {
      InMonthIsValid(MonthAt(index, step, n), Ratchet(issue.day, index, step, n));
    }
  }

  /** Months left over are at least four weeks, whatever the clamping did. */
  lemma MonthsLeftOver(issue: Date, tenor: nat, step: nat, n: nat)
    requires issue.Valid() && n * step < tenor
    ensures TailAfter(issue, tenor, step, n) >= 28
  {
    var index := MonthIndex(issue);
    MonthAtIsMultiple(index, step, n);
    BoundaryInMonth(issue, step, n);
    LaterMonthStarts(MonthAt(index, step, n), index + tenor);
    InMonthIsValid(index + tenor, Min(issue.day, MonthLength(index + tenor)));
  }

  /**
   The days no coupon covers, for every tenor and frequency. There are none exactly when the
   step divides the tenor and every month a boundary falls in reaches the maturity day; at
   most three when it divides it; and otherwise the stub is at least four weeks.
   */
  lemma TailExactly(issue: Date, tenor: nat, step: nat)
    requires issue.Valid() && tenor >= 1 && step > 0
    ensures var n := tenor / step;
            && (TailAfter(issue, tenor, step, n) == 0 <==>
                  tenor % step == 0 && MonthsReach(Shifted(issue, tenor).day, MonthIndex(issue), step, n))
            && (tenor % step == 0 ==> 0 <= TailAfter(issue, tenor, step, n) <= 3)
            && (tenor % step != 0 ==> TailAfter(issue, tenor, step, n) >= 28)
  {
    var n := tenor / step;
    assert tenor == n * step + tenor % step;
    if tenor % step == 0 {
      TailOfWholeTenor(issue, tenor, step, n);
    } else {
      MonthsLeftOver(issue, tenor, step, n);
    }
  }

  /** How many whole steps a tenor holds. */
  function StepsIn(tenor: nat, step: nat): nat
    requires step > 0
  {
    tenor / step
  }

  /** The n periods between the first boundaries. */
  function PeriodsOf(issue: Date, step: nat, n: nat): (periods: seq<CouponPeriod>)
    requires issue.Valid()
    ensures |periods| == n
  {
    seq(n, k requires 0 <= k < n => CouponPeriod(k, Boundary(issue, step, k), Boundary(issue, step, k + 1), Boundary(issue, step, k + 1)))
  }

  lemma WholeStepIsPeriod(issue: Date, tenor: nat, step: nat, n: nat, k: nat)
    requires issue.Valid() && step > 0 && k < n && n * step <= tenor
    ensures IsPeriod(PeriodsOf(issue, step, n)[k], issue, Shifted(issue, tenor), step, k)
  {
    MulMonotone(k + 1, n, step);
    WholeStepInTime(issue, tenor, step, k + 1);
  }

  lemma WholeStepsAreSchedule(issue: Date, tenor: nat, step: nat, n: nat)
    requires issue.Valid() && 1 <= tenor <= 360 && step > 0 && n * step <= tenor < (n + 1) * step
    ensures n < MAX_PERIODS && IsSchedule(PeriodsOf(issue, step, n), issue, Shifted(issue, tenor), step)
  {
    MulMonotone(1, step, n);
    BoundaryAgainstMaturity(issue, step, tenor, n + 1);
    forall k | 0 <= k < n
      ensures IsPeriod(PeriodsOf(issue, step, n)[k], issue, Shifted(issue, tenor), step, k)
    {
      WholeStepIsPeriod(issue, tenor, step, n, k);
    }
  }

  lemma ScheduleIsUnique(periods: seq<CouponPeriod>, issue: Date, tenor: nat, step: nat)
    requires issue.Valid() && 1 <= tenor <= 360 && step > 0 && IsSchedule(periods, issue, Shifted(issue, tenor), step)
    ensures periods == PeriodsOf(issue, step, StepsIn(tenor, step))
  {
    ScheduleFillsTenor(periods, issue, Shifted(issue, tenor), tenor, step);
    var whole := PeriodsOf(issue, step, StepsIn(tenor, step));
    forall k | 0 <= k < |periods|
      ensures periods[k] == whole[k]
    {
      assert IsPeriod(periods[k], issue, Shifted(issue, tenor), step, k);
    }
  }

  /** A bond's schedule is exactly its whole steps: they are one, and there is no other. */
  lemma ScheduleIsWholeSteps(periods: seq<CouponPeriod>, issue: Date, tenor: nat, step: nat)
    requires issue.Valid() && 1 <= tenor <= 360 && step > 0
    ensures IsSchedule(periods, issue, Shifted(issue, tenor), step) <==> periods == PeriodsOf(issue, step, StepsIn(tenor, step))
  {
    var n := tenor / step;
    assert n * step <= tenor < (n + 1) * step by {
      assert tenor == n * step + tenor % step && (n + 1) * step == n * step + step;
    }
    WholeStepsAreSchedule(issue, tenor, step, n);
    if IsSchedule(periods, issue, Shifted(issue, tenor), step) {
      ScheduleIsUnique(periods, issue, tenor, step);
    }
  }

  lemma WholeStepInTime(issue: Date, tenor: nat, step: nat, k: nat)
    requires issue.Valid() && step > 0 && k > 0 && k * step <= tenor
    ensures Boundary(issue, step, k).DayNumber() <= Shifted(issue, tenor).DayNumber()
  {
    if k * step < tenor {
      BoundaryAgainstMaturity(issue, step, tenor, k);
    } else {
      TailOfWholeTenor(issue, tenor, step, k);
    }
  }

  /** Thirty months at annual coupons, issued 15 January 2025: the last half-year, 181 days, earns nothing. */
  lemma HalfYearStub(issue: Date, tenor: nat, step: nat)
    requires issue.year == 2025 && issue.month == 1 && issue.day == 15 && tenor == 30 && step == StepMonths(Annual)
    ensures issue.Valid() && tenor / step == 2 && TailAfter(issue, tenor, step, tenor / step) == 181
  {
    var index := MonthIndex(issue);
    assert index == 24300;
    assert (index + tenor) / 12 == 2027 && (index + tenor) % 12 == 6;
    MonthAtIsMultiple(index, step, 2);
    assert MonthAt(index, step, 2) == 24324;
    RatchetBounds(issue.day, index, step, 2, 15);
    var end, maturity := Date(2027, 1, 15), Date(2027, 7, 15);
    assert Shifted(issue, tenor) == maturity;
    assert Boundary(issue, step, 2) == end;
    SixMonths(2027);
  }

  lemma SixMonths(y: nat)
    requires !IsLeap(y)
    ensures MonthStart(y, 7) == MonthStart(y, 1) + 181
  {
    assert MonthStart(y, 2) == 31;
    assert MonthStart(y, 3) == 59;
    assert MonthStart(y, 4) == 90;
    assert MonthStart(y, 5) == 120;
    assert MonthStart(y, 6) == 151;
  }

  /** A bond that sets out on day 31 and meets a 28-day month loses three days against a 31-day maturity month. */
  lemma MonthEndIssueLeavesTail(issue: Date, n: nat)
    requires issue.Valid() && issue.day == 31 && n > 0
    requires MonthLength(MonthIndex(issue) + 1) == 28 && MonthLength(MonthIndex(issue) + n) == 31
    ensures TailAfter(issue, n, 1, n) == 3
  {
    var index := MonthIndex(issue);
    assert MonthAt(index, 1, 1) == index + 1;
    RatchetBounds(issue.day, index, 1, n, 29);
    assert !MonthsReach(29, index, 1, n);
    BoundaryAgainstMaturity(issue, 1, n, n);
  }

  /** 31 January 2025 is such a date, with twelve monthly periods. */
  lemma JanuaryIssueLeavesTail(issue: Date, n: nat)
    requires issue.year == 2025 && issue.month == 1 && issue.day == 31 && n == 12
    ensures issue.Valid() && TailAfter(issue, n, 1, n) == 3
  {
    var index := MonthIndex(issue);
    assert index == 24300;
    assert (index + 1) / 12 == 2025 && (index + 1) % 12 == 1;
    assert (index + n) / 12 == 2026 && (index + n) % 12 == 0;
    MonthEndIssueLeavesTail(issue, n);
  }

  // ---- Redemption checkpoints ----

  /** Checkpoints counting back from maturity, by day number. */
  function BuildRedemptionStages(maturity: Date): seq<StagePlan>
    requires maturity.Valid()
  {
    var day := maturity.DayNumber();
    [StagePlan(TMinus90, day - 90), StagePlan(TMinus30, day - 30),
     StagePlan(TMinus7, day - 7), StagePlan(Maturity, day)]
  }
}
