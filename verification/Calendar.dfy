/**
 The proleptic Gregorian calendar behind the engine's UTC dates: day numbers, the
 YYYY-MM-DD form, and the month arithmetic of src/bonds/engine/schedule.ts.
 */
module Calendar {

  /** A civil date; day numbers count from 0000-01-01. */
  datatype Date = Date(year: nat, month: nat, day: nat) {
    predicate Valid() {
      1 <= month <= 12 && 1 <= day <= DaysInMonth(year, month)
    }

    function DayNumber(): int
      requires Valid()
    {
      YearStart(year) + MonthStart(year, month) + day - 1
    }

    predicate Before(that: Date) {
      || year < that.year
      || (year == that.year && month < that.month)
      || (year == that.year && month == that.month && day < that.day)
    }
  }

  predicate IsLeap(y: nat) {
    y % 4 == 0 && (y % 100 != 0 || y % 400 == 0)
  }

  function DaysInMonth(y: nat, m: nat): nat
    requires 1 <= m <= 12
  {
    if m == 2 then (if IsLeap(y) then 29 else 28)
    else if m == 4 || m == 6 || m == 9 || m == 11 then 30
    else 31
  }

  function YearLength(y: nat): nat {
    if IsLeap(y) then 366 else 365
  }

  /** Days before 1 January of `y`. */
  function YearStart(y: nat): nat {
    if y == 0 then 0 else YearStart(y - 1) + YearLength(y - 1)
  }

  lemma NextFourth(n: nat)
    ensures (n + 4) / 4 == (n + 3) / 4 + if n % 4 == 0 then 1 else 0
  {
  }

  lemma NextHundredth(n: nat)
    ensures (n + 100) / 100 == (n + 99) / 100 + if n % 100 == 0 then 1 else 0
  {
  }

  lemma NextFourHundredth(n: nat)
    ensures (n + 400) / 400 == (n + 399) / 400 + if n % 400 == 0 then 1 else 0
  {
  }

  lemma HundredthIsFourth(n: nat)
    ensures n % 100 == 0 ==> n % 4 == 0
  {
    assert n % 100 == 0 ==> n == 4 * (25 * (n / 100));
  }

  lemma FourHundredthIsHundredth(n: nat)
    ensures n % 400 == 0 ==> n % 100 == 0
  {
    assert n % 400 == 0 ==> n == 100 * (4 * (n / 400));
  }

  /** Every fourth year has a day more, but not every hundredth, but every four hundredth. */
  lemma {:induction false} YearStartInNumbers(y: nat)
    ensures YearStart(y) == 365 * y + (y + 3) / 4 - (y + 99) / 100 + (y + 399) / 400
  {
    if y > 0 {
      var n := y - 1;
      YearStartInNumbers(n);
      NextFourth(n);
      NextHundredth(n);
      NextFourHundredth(n);
      HundredthIsFourth(n);
      FourHundredthIsHundredth(n);
    }
  }

  /** Days of year `y` before the first of month `m`. */
  function MonthStart(y: nat, m: nat): nat
    requires 1 <= m <= 12
  {
    if m == 1 then 0 else MonthStart(y, m - 1) + DaysInMonth(y, m - 1)
  }

  lemma {:induction false} YearStartGrows(a: nat, b: nat)
    requires a < b
    ensures YearStart(a) + YearLength(a) <= YearStart(b)
    decreases b - a
  {
    if a + 1 < b {
      YearStartGrows(a, b - 1);
    }
  }

  lemma {:induction false} MonthStartGrows(y: nat, a: nat, b: nat)
    requires 1 <= a < b <= 12
    ensures MonthStart(y, a) + DaysInMonth(y, a) <= MonthStart(y, b)
    decreases b - a
  {
    if a + 1 < b {
      MonthStartGrows(y, a, b - 1);
    }
  }

  lemma YearIsTwelveMonths(y: nat)
    ensures MonthStart(y, 12) + DaysInMonth(y, 12) == YearLength(y)
  {
    assert MonthStart(y, 3) == MonthStart(y, 2) + DaysInMonth(y, 2);
    assert MonthStart(y, 6) == MonthStart(y, 5) + DaysInMonth(y, 5) && MonthStart(y, 5) == MonthStart(y, 4) + 30;
    assert MonthStart(y, 9) == MonthStart(y, 8) + DaysInMonth(y, 8) && MonthStart(y, 8) == MonthStart(y, 7) + 31;
    assert MonthStart(y, 12) == MonthStart(y, 11) + DaysInMonth(y, 11) && MonthStart(y, 11) == MonthStart(y, 10) + 31;
  }

  /** The days of the year before each month, one more from March on in a leap year. */
  lemma MonthStartInNumbers(y: nat)
    ensures var leap := if IsLeap(y) then 1 else 0;
            && MonthStart(y, 2) == 31 && MonthStart(y, 3) == 59 + leap && MonthStart(y, 4) == 90 + leap
            && MonthStart(y, 5) == 120 + leap && MonthStart(y, 6) == 151 + leap && MonthStart(y, 7) == 181 + leap
            && MonthStart(y, 8) == 212 + leap && MonthStart(y, 9) == 243 + leap && MonthStart(y, 10) == 273 + leap
            && MonthStart(y, 11) == 304 + leap && MonthStart(y, 12) == 334 + leap
  {
    assert MonthStart(y, 3) == MonthStart(y, 2) + DaysInMonth(y, 2);
    assert MonthStart(y, 5) == MonthStart(y, 4) + 30 && MonthStart(y, 6) == MonthStart(y, 5) + 31;
    assert MonthStart(y, 8) == MonthStart(y, 7) + 31 && MonthStart(y, 9) == MonthStart(y, 8) + 31;
    assert MonthStart(y, 11) == MonthStart(y, 10) + 31;
  }

  lemma DayWithinYear(d: Date)
    requires d.Valid()
    ensures YearStart(d.year) <= d.DayNumber() < YearStart(d.year) + YearLength(d.year)
  {
    YearIsTwelveMonths(d.year);
    if d.month < 12 {
      MonthStartGrows(d.year, d.month, 12);
    }
  }

  lemma EarlierDateSmallerNumber(a: Date, b: Date)
    requires a.Valid() && b.Valid() && a.Before(b)
    ensures a.DayNumber() < b.DayNumber()
  {
    DayWithinYear(a);
    DayWithinYear(b);
    if a.year < b.year {
      YearStartGrows(a.year, b.year);
    } else if a.month < b.month {
      MonthStartGrows(a.year, a.month, b.month);
    }
  }

  /** Day numbers order dates as the calendar does, and tell any two dates apart. */
  lemma DayNumberOrder(a: Date, b: Date)
    requires a.Valid() && b.Valid()
    ensures a.Before(b) <==> a.DayNumber() < b.DayNumber()
    ensures a == b <==> a.DayNumber() == b.DayNumber()
  {
    if a.Before(b) {
      EarlierDateSmallerNumber(a, b);
    } else if b.Before(a) {
      EarlierDateSmallerNumber(b, a);
    }
  }

  // ---- From day numbers back to dates ----

  function MonthAndDay(y: nat, m: nat, rest: nat): (d: Date)
    requires 1 <= m <= 12 && MonthStart(y, m) + rest < YearLength(y)
    ensures d.Valid() && d.year == y
    ensures MonthStart(y, d.month) + d.day - 1 == MonthStart(y, m) + rest
    decreases 12 - m
  {
    if rest < DaysInMonth(y, m) then Date(y, m, rest + 1)
    else
      YearIsTwelveMonths(y);
      MonthAndDay(y, m + 1, rest - DaysInMonth(y, m))
  }

  function DateFrom(y: nat, rest: nat): (d: Date)
    ensures d.Valid() && d.DayNumber() == YearStart(y) + rest
    decreases rest
  {
    if rest < YearLength(y) then MonthAndDay(y, 1, rest)
    else DateFrom(y + 1, rest - YearLength(y))
  }

  /** The date with a given day number: what a JavaScript Date reads off its time value. */
  function DateOf(n: nat): (d: Date)
    ensures d.Valid() && d.DayNumber() == n
  {
    DateFrom(0, n)
  }

  lemma DateOfDayNumber(d: Date)
    requires d.Valid()
    ensures d.DayNumber() >= 0 && DateOf(d.DayNumber()) == d
  {
    DayWithinYear(d);
    DayNumberOrder(DateOf(d.DayNumber()), d);
  }

  // ---- YYYY-MM-DD ----

  function Digit(n: nat): char
    requires n < 10
  {
    '0' + n as char
  }

  function Two(n: nat): string
    requires n < 100
  {
    [Digit(n / 10), Digit(n % 10)]
  }

  function Four(n: nat): string
    requires n < 10000
  {
    Two(n / 100) + Two(n % 100)
  }

  /** `toISOString().slice(0, 10)` for years that have four digits. */
  function ToDateOnly(d: Date): string
    requires d.Valid() && d.year < 10000
  {
    Four(d.year) + ("-" + (Two(d.month) + ("-" + Two(d.day))))
  }

  /** String comparison, character by character. */
  predicate LexLess(a: string, b: string) {
    if b == [] then false
    else if a == [] then true
    else a[0] < b[0] || (a[0] == b[0] && LexLess(a[1..], b[1..]))
  }

  lemma {:induction false} LexLessByFields(a: string, b: string, x: string, y: string)
    requires |a| == |b|
    ensures LexLess(a + x, b + y) <==> LexLess(a, b) || (a == b && LexLess(x, y))
  {
    if a == [] {
      assert a + x == x && b + y == y;
    } else {
      assert (a + x)[1..] == a[1..] + x && (b + y)[1..] == b[1..] + y;
      LexLessByFields(a[1..], b[1..], x, y);
      assert a == [a[0]] + a[1..] && b == [b[0]] + b[1..];
    }
  }

  lemma TwoOrder(m: nat, n: nat)
    requires m < 100 && n < 100
    ensures LexLess(Two(m), Two(n)) <==> m < n
    ensures Two(m) == Two(n) <==> m == n
  {
    assert Two(m) == [Digit(m / 10)] + [Digit(m % 10)] && Two(n) == [Digit(n / 10)] + [Digit(n % 10)];
    LexLessByFields([Digit(m / 10)], [Digit(n / 10)], [Digit(m % 10)], [Digit(n % 10)]);
    OneCharacter(Digit(m / 10), Digit(n / 10));
    OneCharacter(Digit(m % 10), Digit(n % 10));
    assert Two(m)[0] == Digit(m / 10) && Two(n)[0] == Digit(n / 10);
    assert Two(m)[1] == Digit(m % 10) && Two(n)[1] == Digit(n % 10);
  }

  lemma OneCharacter(a: char, b: char)
    ensures LexLess([a], [b]) <==> a < b
  {
    assert [a][1..] == [] && [b][1..] == [];
  }

  lemma FourOrder(m: nat, n: nat)
    requires m < 10000 && n < 10000
    ensures LexLess(Four(m), Four(n)) <==> m < n
    ensures Four(m) == Four(n) <==> m == n
  {
    TwoOrder(m / 100, n / 100);
    TwoOrder(m % 100, n % 100);
    LexLessByFields(Two(m / 100), Two(n / 100), Two(m % 100), Two(n % 100));
    assert Four(m)[..2] == Two(m / 100) && Four(m)[2..] == Two(m % 100);
    assert Four(n)[..2] == Two(n / 100) && Four(n)[2..] == Two(n % 100);
  }

  /**
   Comparing YYYY-MM-DD strings is comparing day numbers, so sorting, filtering and
   matching on the strings is sorting, filtering and matching on days.
   */
  lemma DateStringsOrderAsDays(a: Date, b: Date)
    requires a.Valid() && b.Valid() && a.year < 10000 && b.year < 10000
    ensures LexLess(ToDateOnly(a), ToDateOnly(b)) <==> a.DayNumber() < b.DayNumber()
    ensures ToDateOnly(a) == ToDateOnly(b) <==> a.DayNumber() == b.DayNumber()
  {
    FourOrder(a.year, b.year);
    TwoOrder(a.month, b.month);
    TwoOrder(a.day, b.day);
    var restA, restB := Two(a.month) + ("-" + Two(a.day)), Two(b.month) + ("-" + Two(b.day));
    LexLessByFields(Four(a.year), Four(b.year), "-" + restA, "-" + restB);
    LexLessByFields("-", "-", restA, restB);
    LexLessByFields(Two(a.month), Two(b.month), "-" + Two(a.day), "-" + Two(b.day));
    LexLessByFields("-", "-", Two(a.day), Two(b.day));
    OneCharacter('-', '-');
    DayNumberOrder(a, b);
    FieldsOf(a);
    FieldsOf(b);
  }

  /** The fields can be read back at fixed positions. */
  lemma FieldsOf(d: Date)
    requires d.Valid() && d.year < 10000
    ensures var s := ToDateOnly(d);
            |s| == 10 && s[..4] == Four(d.year) && s[5..7] == Two(d.month) && s[8..] == Two(d.day)
  {
  }
}
