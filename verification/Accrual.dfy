/**
 Part-period coupon accrual, after src/bonds/engine/accrual.ts.

 The specification is the day-by-day reading: a holder earns, for every day of the
 period, the units they held at the end of that day. The code never looks at single
 days; it unwinds today's register to the start of the period and sweeps the position
 changes in date order. `AccruePeriod` is that sweep, proved to give the day-by-day sum.

 Days are day numbers; Calendar.dfy proves that they are ordered as the YYYY-MM-DD
 strings are.
 */
module Accrual {
  import opened Sums
  import opened Money

  type UserId = nat

  /** A change in one holder's position, applied at the start of `day`. */
  datatype HoldingDelta = HoldingDelta(day: int, user: UserId, amount: int)

  datatype HolderAccrual = HolderAccrual(
    user: UserId, unitDays: int, daysHeld: int, closing: int, gross: int, wht: int, net: int)

  function Positive(x: int): nat {
    if x > 0 then x else 0
  }

  function After(u: UserId, day: int): HoldingDelta -> int {
    (d: HoldingDelta) => if d.user == u && d.day > day then d.amount else 0
  }

  function UpTo(u: UserId, day: int): HoldingDelta -> int {
    (d: HoldingDelta) => if d.user == u && d.day <= day then d.amount else 0
  }

  function Of(u: UserId): HoldingDelta -> int {
    (d: HoldingDelta) => if d.user == u then d.amount else 0
  }

  /** Gross from the weight, rounded down once, and the tax on it. */
  function Price(u: UserId, unitDays: nat, daysHeld: int, closing: int, rateBps: nat): HolderAccrual {
    var coupon := ApplyWithholdingTax(unitDays * rateBps / (BPS * DAY_COUNT_BASIS)).value;
    HolderAccrual(u, unitDays, daysHeld, closing, coupon.gross, coupon.wht, coupon.net)
  }

  /** Today's register and every dated change that led to it. */
  datatype History = History(register: map<UserId, int>, deltas: seq<HoldingDelta>) {

    /** Units of `u` at the end of `day`: today's units less everything dated later. */
    function BalanceOn(u: UserId, day: int): int {
      Get(register, u) - SumBy(deltas, After(u, day))
    }

    /** Sum over the days from `start` up to but excluding `end` of the units held. */
    function UnitDays(u: UserId, start: int, end: int): nat
      decreases end - start
    {
      if end <= start then 0
      else UnitDays(u, start, end - 1) + Positive(BalanceOn(u, end - 1))
    }

    function DaysHeld(u: UserId, start: int, end: int): nat
      decreases end - start
    {
      if end <= start then 0
      else DaysHeld(u, start, end - 1) + if BalanceOn(u, end - 1) > 0 then 1 else 0
    }

    /** What `u` is owed for the period: one rounding for the gross, one for the tax. */
    function Accrued(u: UserId, start: int, end: int, rateBps: nat): HolderAccrual {
      Price(u, UnitDays(u, start, end), DaysHeld(u, start, end), BalanceOn(u, end - 1), rateBps)
    }

    function Users(): set<UserId> {
      register.Keys + set d | d in deltas :: d.user
    }

    /** Everyone with a positive weight in the period. */
    function Payees(start: int, end: int): set<UserId> {
      set u | u in Users() && UnitDays(u, start, end) > 0
    }

    /** The rows owed for a period, in user order. */
    function Accruals(start: int, end: int, rateBps: nat): seq<HolderAccrual> {
      var users := InOrder(Payees(start, end));
      seq(|users|, i requires 0 <= i < |users| => Accrued(users[i], start, end, rateBps))
    }
  }

  // ---- Users in ascending order ----

  lemma {:induction false} LeastBelow(s: set<UserId>, m: UserId)
    requires m in s
    ensures exists k :: k in s && forall x :: x in s ==> k <= x
    decreases m
  {
    if x :| x in s && x < m {
      LeastBelow(s, x);
    }
  }

  function Least(s: set<UserId>): (m: UserId)
    requires s != {}
    ensures m in s && forall x :: x in s ==> m <= x
  {
    assert exists k :: k in s && forall x :: x in s ==> k <= x by {
      var k :| k in s;
      LeastBelow(s, k);
    }
    var m :| m in s && forall x :: x in s ==> m <= x;
    m
  }

  function InOrder(s: set<UserId>): (r: seq<UserId>)
    ensures forall u :: u in r <==> u in s
    ensures forall i, j :: 0 <= i < j < |r| ==> r[i] < r[j]
    decreases |s|
  {
    if s == {} then []
    else
      var m := Least(s);
      [m] + InOrder(s - {m})
  }

  // ---- Facts about balances and their sums ----

  /** Constant balance over a stretch of days: the weight is balance times days. */
  lemma {:induction false} ConstantStretch(h: History, u: UserId, start: int, mid: int, end: int, b: int)
    requires start <= mid <= end
    requires forall t :: mid <= t < end ==> h.BalanceOn(u, t) == b
    ensures h.UnitDays(u, start, end) == h.UnitDays(u, start, mid) + Positive(b) * (end - mid)
    ensures h.DaysHeld(u, start, end) == h.DaysHeld(u, start, mid) + if b > 0 then end - mid else 0
    decreases end - mid
  {
    if mid < end {
      ConstantStretch(h, u, start, mid, end - 1, b);
      assert Positive(b) * (end - mid) == Positive(b) * (end - 1 - mid) + Positive(b);
    }
  }

  /** Splitting a period into adjacent periods loses no unit-days. */
  lemma {:induction false} PeriodsAdd(h: History, u: UserId, start: int, mid: int, end: int)
    requires start <= mid <= end
    ensures h.UnitDays(u, start, end) == h.UnitDays(u, start, mid) + h.UnitDays(u, mid, end)
    ensures h.DaysHeld(u, start, end) == h.DaysHeld(u, start, mid) + h.DaysHeld(u, mid, end)
    decreases end - mid
  {
    if mid < end {
      PeriodsAdd(h, u, start, mid, end - 1);
    }
  }

  lemma {:induction false} SameBalancesSameWeight(g: History, h: History, u: UserId, start: int, end: int)
    requires forall t :: start <= t < end ==> g.BalanceOn(u, t) == h.BalanceOn(u, t)
    ensures g.UnitDays(u, start, end) == h.UnitDays(u, start, end)
    ensures g.DaysHeld(u, start, end) == h.DaysHeld(u, start, end)
    decreases end - start
  {
    if start < end {
      SameBalancesSameWeight(g, h, u, start, end - 1);
    }
  }

  /** Someone neither on the register nor in any delta never weighs anything. */
  lemma {:induction false} StrangersWeighNothing(h: History, u: UserId, start: int, end: int)
    requires u !in h.Users()
    ensures h.UnitDays(u, start, end) == 0
    decreases end - start
  {
    if start < end {
      StrangersWeighNothing(h, u, start, end - 1);
      forall i | 0 <= i < |h.deltas|
        ensures h.deltas[i].user != u
      {
        assert h.deltas[i] in h.deltas;
      }
      SumByZero(h.deltas, After(u, end - 1));
    }
  }

  // ---- What the rows say ----

  /** The rows are exactly one per user with a positive weight, ascending, each the day-by-day amount. */
  ghost predicate Settles(rows: seq<HolderAccrual>, h: History, start: int, end: int, rateBps: nat) {
    && (forall i, j :: 0 <= i < j < |rows| ==> rows[i].user < rows[j].user)
    && (forall i :: 0 <= i < |rows| ==>
          rows[i] == h.Accrued(rows[i].user, start, end, rateBps) && rows[i].unitDays > 0)
    && (forall u :: h.UnitDays(u, start, end) > 0 ==> exists i :: 0 <= i < |rows| && rows[i].user == u)
  }

  lemma AccrualsSettle(h: History, start: int, end: int, rateBps: nat)
    ensures Settles(h.Accruals(start, end, rateBps), h, start, end, rateBps)
  {
    var rows := h.Accruals(start, end, rateBps);
    var users := InOrder(h.Payees(start, end));
    forall u | h.UnitDays(u, start, end) > 0
      ensures exists i :: 0 <= i < |rows| && rows[i].user == u
    {
      if u !in h.Users() {
        StrangersWeighNothing(h, u, start, end);
      }
      assert u in users;
      var i :| 0 <= i < |users| && users[i] == u;
      assert rows[i].user == u;
    }
    forall i | 0 <= i < |rows|
      ensures rows[i].unitDays > 0
    {
      assert users[i] in users;
    }
  }

  /** Same weights for everyone, same closing units: the same rows, amount by amount. */
  lemma SameWeightsSameRows(g: History, h: History, start: int, end: int, rateBps: nat)
    requires start < end
    requires forall u, t :: start <= t < end ==> g.BalanceOn(u, t) == h.BalanceOn(u, t)
    ensures g.Accruals(start, end, rateBps) == h.Accruals(start, end, rateBps)
  {
    forall u
      ensures g.UnitDays(u, start, end) == h.UnitDays(u, start, end)
      ensures g.Accrued(u, start, end, rateBps) == h.Accrued(u, start, end, rateBps)
    {
      SameBalancesSameWeight(g, h, u, start, end);
    }
    forall u
      ensures u in g.Payees(start, end) <==> u in h.Payees(start, end)
    {
      if u !in g.Users() {
        StrangersWeighNothing(g, u, start, end);
      }
      if u !in h.Users() {
        StrangersWeighNothing(h, u, start, end);
      }
    }
    assert g.Payees(start, end) == h.Payees(start, end);
  }

  /** The order in which the deltas are listed does not change one row. */
  lemma DeltaOrderIrrelevant(g: History, h: History, start: int, end: int, rateBps: nat)
    requires start < end
    requires g.register == h.register && multiset(g.deltas) == multiset(h.deltas)
    ensures g.Accruals(start, end, rateBps) == h.Accruals(start, end, rateBps)
  {
    forall u, t | start <= t < end
      ensures g.BalanceOn(u, t) == h.BalanceOn(u, t)
    {
      SumByPermutation(g.deltas, h.deltas, After(u, t));
    }
    SameWeightsSameRows(g, h, start, end, rateBps);
  }

  /**
   A finished period is settled for good: position changes dated on or after its end,
   once they are both in the register and in the history, change no row of it.
   */
  lemma FinishedPeriodIsSettled(h: History, later: History, more: seq<HoldingDelta>,
                                start: int, end: int, rateBps: nat)
    requires start < end
    requires forall i :: 0 <= i < |more| ==> more[i].day >= end
    requires later.deltas == h.deltas + more
    requires forall u :: Get(later.register, u) == Get(h.register, u) + SumBy(more, Of(u))
    ensures later.Accruals(start, end, rateBps) == h.Accruals(start, end, rateBps)
  {
    forall u, t | start <= t < end
      ensures later.BalanceOn(u, t) == h.BalanceOn(u, t)
    {
      SumByConcat(h.deltas, more, After(u, t));
      SumByAgree(more, After(u, t), Of(u));
    }
    SameWeightsSameRows(later, h, start, end, rateBps);
  }

  /** A holder who never moves earns exactly the single-holding coupon. */
  lemma ConstantHolderGetsCouponFor(h: History, u: UserId, start: int, end: int, units: nat, rateBps: nat)
    requires start <= end <= start + 3660 && RateInBounds(rateBps)
    requires forall t :: start <= t < end ==> h.BalanceOn(u, t) == units
    ensures CouponFor(units, rateBps, end - start).Ok?
    ensures var c := CouponFor(units, rateBps, end - start).value;
            var a := h.Accrued(u, start, end, rateBps);
            a.gross == c.gross && a.wht == c.wht && a.net == c.net
  {
    ConstantStretch(h, u, start, start, end, units);
    SameProduct(units, rateBps, end - start);
  }

  /** Units held for 365 days earn exactly the rate on them, rounded down. */
  lemma HeldForAYear(h: History, u: UserId, start: int, units: nat, rateBps: nat)
    requires forall t :: start <= t < start + 365 ==> h.BalanceOn(u, t) == units
    ensures var a := h.Accrued(u, start, start + 365, rateBps);
            && a.gross == units * rateBps / 10000
            && a.unitDays == 365 * units && a.daysHeld == (if units > 0 then 365 else 0) && a.closing == units
  {
    ConstantStretch(h, u, start, start, start + 365, units);
    YearPaysTheRate(units, rateBps);
  }

  lemma SameProduct(units: nat, rateBps: nat, days: nat)
    ensures units * rateBps * days == units * days * rateBps >= 0
  {
  }

  function UnitDaysOf(): HolderAccrual -> int { (a: HolderAccrual) => a.unitDays }
  function GrossOf(): HolderAccrual -> int { (a: HolderAccrual) => a.gross }
  function NetOf(): HolderAccrual -> int { (a: HolderAccrual) => a.net }
  function WhtOf(): HolderAccrual -> int { (a: HolderAccrual) => a.wht }

  /** Rows whose gross is the rounded coupon on their own weight. */
  ghost predicate Rounded(rows: seq<HolderAccrual>, rateBps: nat) {
    forall i :: 0 <= i < |rows| ==>
      && rows[i].unitDays >= 0
      && rows[i].gross == Gross(rows[i].unitDays, rateBps)
      && rows[i].net + rows[i].wht == rows[i].gross
  }

  /**
   Splitting the coupon between holders never pays more than the coupon on the whole
   weight, and falls short of it by less than one minor unit per holder.
   */
  lemma {:induction false} RoundingLoss(rows: seq<HolderAccrual>, rateBps: nat)
    requires Rounded(rows, rateBps)
    ensures SumBy(rows, UnitDaysOf()) >= 0
    ensures SumBy(rows, GrossOf()) <= Gross(SumBy(rows, UnitDaysOf()), rateBps)
    ensures rows != [] ==>
              Gross(SumBy(rows, UnitDaysOf()), rateBps) <= SumBy(rows, GrossOf()) + |rows| - 1
    ensures SumBy(rows, NetOf()) + SumBy(rows, WhtOf()) == SumBy(rows, GrossOf())
  {
    if rows != [] {
      var init := rows[..|rows| - 1];
      var last := rows[|rows| - 1];
      RoundingLoss(init, rateBps);
      GrossOfSum(SumBy(init, UnitDaysOf()), last.unitDays, rateBps);
    }
  }

  // ---- The sweep ----

  /** Changes dated inside the period, in the order found. */
  function Within(ds: seq<HoldingDelta>, start: int, end: int): seq<HoldingDelta> {
    if ds == [] then []
    else
      var last := ds[|ds| - 1];
      Within(ds[..|ds| - 1], start, end) + if start <= last.day < end then [last] else []
  }

  ghost predicate ByDay(ds: seq<HoldingDelta>) {
    forall i, j :: 0 <= i < j < |ds| ==> ds[i].day <= ds[j].day
  }

  function InsertByDay(ds: seq<HoldingDelta>, d: HoldingDelta): (r: seq<HoldingDelta>)
    requires ByDay(ds)
    ensures ByDay(r) && r != [] && multiset(r) == multiset(ds) + multiset{d}
    ensures r[|r| - 1] == if ds == [] || ds[|ds| - 1].day <= d.day then d else ds[|ds| - 1]
  {
    if ds == [] || ds[|ds| - 1].day <= d.day then ds + [d]
    else
      var init, last := ds[..|ds| - 1], ds[|ds| - 1];
      assert ds == init + [last];
      InsertByDay(init, d) + [last]
  }

  /** Stable sort by day (`Array.prototype.sort` with a three-way comparison). */
  function SortByDay(ds: seq<HoldingDelta>): (r: seq<HoldingDelta>)
    ensures ByDay(r) && multiset(r) == multiset(ds)
  {
    if ds == [] then []
    else
      assert ds == ds[..|ds| - 1] + [ds[|ds| - 1]];
      InsertByDay(SortByDay(ds[..|ds| - 1]), ds[|ds| - 1])
  }

  lemma {:induction false} WithinSum(ds: seq<HoldingDelta>, u: UserId, start: int, end: int, t: int)
    requires start - 1 <= t < end
    ensures SumBy(Within(ds, start, end), UpTo(u, t)) == SumBy(ds, After(u, start - 1)) - SumBy(ds, After(u, t))
  {
    if ds != [] {
      var init, last := ds[..|ds| - 1], ds[|ds| - 1];
      WithinSum(init, u, start, end, t);
      if start <= last.day < end {
        SumByPush(Within(init, start, end), last, UpTo(u, t));
      } else {
        assert Within(ds, start, end) == Within(init, start, end);
      }
    }
  }

  lemma {:induction false} WithinDays(ds: seq<HoldingDelta>, start: int, end: int)
    ensures forall i :: 0 <= i < |Within(ds, start, end)| ==> start <= Within(ds, start, end)[i].day < end
  {
    if ds != [] {
      WithinDays(ds[..|ds| - 1], start, end);
    }
  }

  lemma SumsSplit(done: seq<HoldingDelta>, todo: seq<HoldingDelta>, u: UserId, t: int)
    requires forall k :: 0 <= k < |done| ==> done[k].day <= t
    requires forall k :: 0 <= k < |todo| ==> todo[k].day > t
    ensures SumBy(done + todo, UpTo(u, t)) == SumBy(done, Of(u))
  {
    SumByConcat(done, todo, UpTo(u, t));
    SumByAgree(done, UpTo(u, t), Of(u));
    SumByZero(todo, UpTo(u, t));
  }

  /** The balance the sweep carries while `t` runs between two event days is the balance on `t`. */
  lemma SweptBalance(h: History, events: seq<HoldingDelta>, i: nat, u: UserId, start: int, end: int, t: int)
    requires multiset(events) == multiset(Within(h.deltas, start, end))
    requires i <= |events| && start - 1 <= t < end
    requires forall k :: 0 <= k < i ==> events[k].day <= t
    requires forall k :: i <= k < |events| ==> events[k].day > t
    ensures h.BalanceOn(u, t) == h.BalanceOn(u, start - 1) + SumBy(events[..i], Of(u))
  {
    var within := Within(h.deltas, start, end);
    assert SumBy(events, UpTo(u, t)) == SumBy(within, UpTo(u, t)) by {
      SumByPermutation(events, within, UpTo(u, t));
    }
    assert SumBy(events, UpTo(u, t)) == SumBy(events[..i], Of(u)) by {
      SumsSplit(events[..i], events[i..], u, t);
      assert events == events[..i] + events[i..];
    }
    WithinSum(h.deltas, u, start, end, t);
  }

  /** The mutable state of one sweep: balances carried, weights collected, day reached. */
  class Sweep {
    var balances: map<UserId, int>
    var unitDays: map<UserId, int>
    var daysHeld: map<UserId, int>
    var cursor: int

    constructor (register: map<UserId, int>, start: int)
      ensures balances == register && unitDays == map[] && daysHeld == map[] && cursor == start
    {
      balances := register;
      unitDays := map[];
      daysHeld := map[];
      cursor := start;
    }

    /** Move one holder's carried balance. */
    method Shift(u: UserId, amount: int)
      modifies this`balances
      ensures balances.Keys == old(balances).Keys + {u}
      ensures forall v :: Get(balances, v) == Get(old(balances), v) + if v == u then amount else 0
    {
      balances := balances[u := Get(balances, u) + amount];
    }

    /** Credit every positive balance with the days between the cursor and `upTo`. */
    method AccrueUntil(upTo: int)
      modifies this`unitDays, this`daysHeld, this`cursor
      ensures cursor == upTo
      ensures forall u :: Get(unitDays, u) == Get(old(unitDays), u)
                            + if old(cursor) < upTo then Positive(Get(balances, u)) * (upTo - old(cursor)) else 0
      ensures forall u :: Get(daysHeld, u) == Get(old(daysHeld), u)
                            + if old(cursor) < upTo && Get(balances, u) > 0 then upTo - old(cursor) else 0
    {
      var days := upTo - cursor;
      if days > 0 {
        var todo := balances.Keys;
        while todo != {}
          invariant todo <= balances.Keys
          invariant forall u :: Get(unitDays, u) == Get(old(unitDays), u)
                                  + if u in balances && u !in todo then Positive(balances[u]) * days else 0
          invariant forall u :: Get(daysHeld, u) == Get(old(daysHeld), u)
                                  + if u in balances && u !in todo && balances[u] > 0 then days else 0
          decreases |todo|
        {
          var u :| u in todo;
          todo := todo - {u};
          if balances[u] > 0 {
            unitDays := unitDays[u := Get(unitDays, u) + balances[u] * days];
            daysHeld := daysHeld[u := Get(daysHeld, u) + days];
          }
        }
      }
      cursor := upTo;
    }
  }

  /** Unwind every change dated on or after the start of the period. */
  method Unwind(h: History, start: int, sweep: Sweep)
    requires sweep.balances == h.register
    modifies sweep`balances
    ensures forall u :: Get(sweep.balances, u) == h.BalanceOn(u, start - 1)
  {
    var i := 0;
    while i < |h.deltas|
      invariant 0 <= i <= |h.deltas|
      invariant forall u :: Get(sweep.balances, u) == Get(h.register, u) - SumBy(h.deltas[..i], After(u, start - 1))
    {
      var d := h.deltas[i];
      assert h.deltas[..i + 1] == h.deltas[..i] + [d];
      forall u {
        SumByPush(h.deltas[..i], d, After(u, start - 1));
      }
      if d.day >= start {
        sweep.Shift(d.user, -d.amount);
      }
      i := i + 1;
    }
    assert h.deltas[..i] == h.deltas;
  }

  /** The balances carried after the first `i` events are the opening balances plus those events. */
  ghost predicate Carried(h: History, start: int, applied: seq<HoldingDelta>, balances: map<UserId, int>) {
    forall u :: Get(balances, u) == h.BalanceOn(u, start - 1) + SumBy(applied, Of(u))
  }

  /** The weights collected are the day-by-day weights up to the cursor. */
  ghost predicate Weighed(h: History, start: int, cursor: int, unitDays: map<UserId, int>, daysHeld: map<UserId, int>) {
    && (forall u :: Get(unitDays, u) == h.UnitDays(u, start, cursor))
    && (forall u :: Get(daysHeld, u) == h.DaysHeld(u, start, cursor))
  }

  lemma WeighedFurther(h: History, events: seq<HoldingDelta>, i: nat, start: int, end: int, from: int, upTo: int,
                       balances: map<UserId, int>, u: UserId)
    requires multiset(events) == multiset(Within(h.deltas, start, end))
    requires i <= |events| && start <= from <= upTo <= end
    requires forall k :: 0 <= k < i ==> events[k].day <= from
    requires forall k :: i <= k < |events| ==> events[k].day >= upTo
    requires Carried(h, start, events[..i], balances)
    ensures h.UnitDays(u, start, upTo) == h.UnitDays(u, start, from) + Positive(Get(balances, u)) * (upTo - from)
    ensures h.DaysHeld(u, start, upTo) == h.DaysHeld(u, start, from) + if Get(balances, u) > 0 then upTo - from else 0
  {
    forall t | from <= t < upTo
      ensures h.BalanceOn(u, t) == Get(balances, u)
    {
      SweptBalance(h, events, i, u, start, end, t);
    }
    ConstantStretch(h, u, start, from, upTo, Get(balances, u));
  }

  /** Accrue up to `upTo` when no event lies strictly between the cursor and it. */
  method Advance(h: History, ghost events: seq<HoldingDelta>, ghost i: nat, ghost start: int, ghost end: int, upTo: int, sweep: Sweep)
    requires multiset(events) == multiset(Within(h.deltas, start, end))
    requires i <= |events| && start <= sweep.cursor <= upTo <= end
    requires forall k :: 0 <= k < i ==> events[k].day <= sweep.cursor
    requires forall k :: i <= k < |events| ==> events[k].day >= upTo
    requires Carried(h, start, events[..i], sweep.balances)
    requires Weighed(h, start, sweep.cursor, sweep.unitDays, sweep.daysHeld)
    modifies sweep`unitDays, sweep`daysHeld, sweep`cursor
    ensures sweep.cursor == upTo
    ensures Weighed(h, start, upTo, sweep.unitDays, sweep.daysHeld)
  {
    forall u {
      WeighedFurther(h, events, i, start, end, sweep.cursor, upTo, sweep.balances, u);
    }
    sweep.AccrueUntil(upTo);
  }

  /** Apply every event of the day that starts at index `i`; returns the index after them. */
  method ApplyDay(h: History, ghost start: int, events: seq<HoldingDelta>, i: nat, sweep: Sweep) returns (next: nat)
    requires i < |events| && ByDay(events)
    requires Carried(h, start, events[..i], sweep.balances)
    modifies sweep`balances
    ensures i < next <= |events|
    ensures forall k :: i <= k < next ==> events[k].day == events[i].day
    ensures forall k :: next <= k < |events| ==> events[k].day > events[i].day
    ensures Carried(h, start, events[..next], sweep.balances)
  {
    var at := events[i].day;
    next := i;
    while next < |events| && events[next].day == at
      invariant i <= next <= |events|
      invariant forall k :: i <= k < next ==> events[k].day == at
      invariant Carried(h, start, events[..next], sweep.balances)
    {
      var d := events[next];
      assert events[..next + 1] == events[..next] + [d];
      forall u {
        SumByPush(events[..next], d, Of(u));
      }
      sweep.Shift(d.user, d.amount);
      next := next + 1;
    }
  }

  function PositiveKeys(weights: map<UserId, int>): set<UserId> {
    set u | u in weights && weights[u] > 0
  }

  lemma PayeesCollected(h: History, start: int, end: int, unitDays: map<UserId, int>)
    requires forall u :: Get(unitDays, u) == h.UnitDays(u, start, end)
    ensures PositiveKeys(unitDays) == h.Payees(start, end)
  {
    forall u
      ensures u in PositiveKeys(unitDays) <==> u in h.Payees(start, end)
    {
      if u !in h.Users() {
        StrangersWeighNothing(h, u, start, end);
      }
      assert Get(unitDays, u) == h.UnitDays(u, start, end);
    }
  }

  lemma ClosingBalances(h: History, events: seq<HoldingDelta>, start: int, end: int, balances: map<UserId, int>)
    requires multiset(events) == multiset(Within(h.deltas, start, end)) && start < end
    requires forall k :: 0 <= k < |events| ==> start <= events[k].day < end
    requires Carried(h, start, events[..|events|], balances)
    ensures forall u :: Get(balances, u) == h.BalanceOn(u, end - 1)
  {
    forall u
      ensures Get(balances, u) == h.BalanceOn(u, end - 1)
    {
      SweptBalance(h, events, |events|, u, start, end, end - 1);
    }
  }

  /** Turn the collected weights into rows, ascending by user. */
  method CollectRows(h: History, start: int, end: int, rateBps: nat, sweep: Sweep) returns (rows: seq<HolderAccrual>)
    requires start < end
    requires forall u :: Get(sweep.balances, u) == h.BalanceOn(u, end - 1)
    requires Weighed(h, start, end, sweep.unitDays, sweep.daysHeld)
    ensures rows == h.Accruals(start, end, rateBps)
  {
    var users := InOrder(PositiveKeys(sweep.unitDays));
    PayeesCollected(h, start, end, sweep.unitDays);
    rows := [];
    for i := 0 to |users|
      invariant |rows| == i
      invariant forall k :: 0 <= k < i ==> rows[k] == h.Accrued(users[k], start, end, rateBps)
    {
      var u := users[i];
      assert u in users;
      rows := rows + [Price(u, sweep.unitDays[u], Get(sweep.daysHeld, u), Get(sweep.balances, u), rateBps)];
    }
    ghost var owed := h.Accruals(start, end, rateBps);
    assert |owed| == |users| && forall k :: 0 <= k < |users| ==> owed[k] == h.Accrued(users[k], start, end, rateBps);
  }

  /** The changes of the period in date order, each dated inside it. */
  function EventsOf(h: History, start: int, end: int): (events: seq<HoldingDelta>)
    ensures ByDay(events) && multiset(events) == multiset(Within(h.deltas, start, end))
    ensures forall k :: 0 <= k < |events| ==> start <= events[k].day < end
  {
    var within := Within(h.deltas, start, end);
    var events := SortByDay(within);
    WithinDays(h.deltas, start, end);
    assert forall k :: 0 <= k < |events| ==> events[k] in multiset(events) && events[k] in within;
    events
  }

  /** The sweep proper: accrue up to each event day, apply that day's events, and accrue to the end. */
  method SweepEvents(h: History, events: seq<HoldingDelta>, start: int, end: int, sweep: Sweep)
    requires start < end && ByDay(events) && multiset(events) == multiset(Within(h.deltas, start, end))
    requires forall k :: 0 <= k < |events| ==> start <= events[k].day < end
    requires sweep.cursor == start
    requires Carried(h, start, events[..0], sweep.balances)
    requires Weighed(h, start, start, sweep.unitDays, sweep.daysHeld)
    modifies sweep
    ensures Carried(h, start, events[..|events|], sweep.balances)
    ensures Weighed(h, start, end, sweep.unitDays, sweep.daysHeld)
  {
    var i := 0;
    while i < |events|
      invariant 0 <= i <= |events|
      invariant start <= sweep.cursor < end
      invariant forall k :: 0 <= k < i ==> events[k].day <= sweep.cursor
      invariant forall k :: i <= k < |events| ==> events[k].day >= sweep.cursor
      invariant Carried(h, start, events[..i], sweep.balances)
      invariant Weighed(h, start, sweep.cursor, sweep.unitDays, sweep.daysHeld)
    {
      Advance(h, events, i, start, end, events[i].day, sweep);
      i := ApplyDay(h, start, events, i, sweep);
    }
    Advance(h, events, i, start, end, end, sweep);
  }

  /**
   Split one coupon period across everyone who held the bond during it. A rate outside
   the bounds is refused; an empty or reversed period pays nobody.
   */
  method AccruePeriod(h: History, start: int, end: int, rateBps: int) returns (r: Priced<seq<HolderAccrual>>)
    ensures r.Ok? <==> 0 <= rateBps <= 5000
    ensures r.Ok? && end <= start ==> r.value == []
    ensures r.Ok? && start < end ==> r.value == h.Accruals(start, end, rateBps)
    ensures r.Ok? ==> forall k :: 0 <= k < |r.value| ==>
              && 3650000 * r.value[k].gross <= r.value[k].unitDays * rateBps < 3650000 * (r.value[k].gross + 1)
              && 10 * r.value[k].wht <= r.value[k].gross < 10 * r.value[k].wht + 10
              && r.value[k].net == r.value[k].gross - r.value[k].wht
  {
    if rateBps < 0 || rateBps > 5000 {
      return Rejected("rate out of bounds");
    }
    if end - start <= 0 {
      return Ok([]);
    }
    var sweep := new Sweep(h.register, start);
    Unwind(h, start, sweep);
    var events := EventsOf(h, start, end);
    SweepEvents(h, events, start, end, sweep);
    ClosingBalances(h, events, start, end, sweep.balances);
    var rows := CollectRows(h, start, end, rateBps, sweep);
    forall k | 0 <= k < |rows| {
      GrossInNumbers(rows[k].unitDays, rateBps);
    }
    r := Ok(rows);
  }
}
