/**
 Default: declared exactly when the funding check finds an active bond unfunded, and from
 then on no coupon of the bond is ever credited again.
 */
module EngineDefault {
  import opened Sums
  import opened Accrual
  import opened Register
  import opened Schedule
  import opened CouponRun
  import opened Redemption
  import opened BookSteps
  import opened Engine
  import opened EngineRuns
  import opened EngineGuarantees
  import EngineOutcomes
  import Escrow

  // ---- Which rows a pass credits ----

  /** What a pass credits was outstanding when the pass began. */
  ghost predicate CreditsOutstanding(d: Desk, e: Desk) {
    && d.credits <= e.credits
    && (forall k :: |d.credits| <= k < |e.credits| ==>
          e.credits[k].payment < |d.payments| && Outstanding(d.payments[e.credits[k].payment]))
  }

  lemma {:induction false} AttemptsCreditOutstanding(d: Desk, turns: seq<Turn>)
    requires DeskInv(d)
    ensures CreditsOutstanding(d, AttemptAll(d, turns))
  {
    if turns != [] {
      var init := turns[..|turns| - 1];
      AttemptsCreditOutstanding(d, init);
      AttemptsKeepInv(d, init);
    }
  }

  /** Rows are created on active bonds only. */
  lemma {:induction false} MaterialisedOnActive(ps: seq<Payment>, schedules: seq<ScheduleRow>, bonds: seq<Bond>, due: seq<nat>, today: int)
    requires forall k :: 0 <= k < |due| ==> due[k] in DueSchedules(schedules, bonds, today)
    ensures var qs := MaterialiseAll(ps, schedules, bonds, due);
            ps <= qs && forall i :: |ps| <= i < |qs| ==> qs[i].bond < |bonds| && bonds[qs[i].bond].book.status == Active
  {
    if due != [] {
      var init, k := due[..|due| - 1], due[|due| - 1];
      MaterialisedOnActive(ps, schedules, bonds, init, today);
      var mid := MaterialiseAll(ps, schedules, bonds, init);
      var owed := OwedOn(schedules[k], bonds[schedules[k].bond]);
      AddRowsPrefix(mid, k, schedules[k].bond, owed);
      forall i | |mid| <= i < |AddRows(mid, k, schedules[k].bond, owed)|
        ensures AddRows(mid, k, schedules[k].bond, owed)[i].bond == schedules[k].bond
      {
        AddedRows(mid, k, schedules[k].bond, owed, i);
      }
    }
  }

  // ---- Frozen bonds ----

  /** No coupon row of the bond is outstanding. */
  predicate NothingOutstanding(payments: seq<Payment>, bond: nat) {
    forall i :: 0 <= i < |payments| && payments[i].bond == bond ==> !Outstanding(payments[i])
  }

  /** Activated once, no longer active, and nothing outstanding on it. */
  predicate Frozen(s: State, bond: nat) {
    && bond < |s.platform.issues|
    && Started(s.platform.issues[bond].book.status) && s.platform.issues[bond].book.status != Active
    && NothingOutstanding(s.payments, bond)
  }

  /** Credits are only added, none of them for a row of this bond; rows keep their bond. */
  ghost predicate NoCouponOn(s: State, t: State, bond: nat) {
    && s.credits <= t.credits && |s.payments| <= |t.payments|
    && (forall i :: 0 <= i < |s.payments| ==> t.payments[i].bond == s.payments[i].bond)
    && (forall k :: |s.credits| <= k < |t.credits| ==>
          t.credits[k].payment < |t.payments| && t.payments[t.credits[k].payment].bond != bond)
  }

  lemma NoCouponTransitive(s: State, t: State, u: State, bond: nat)
    requires NoCouponOn(s, t, bond) && NoCouponOn(t, u, bond)
    ensures NoCouponOn(s, u, bond)
  {
    forall k | |s.credits| <= k < |u.credits|
      ensures u.credits[k].payment < |u.payments| && u.payments[u.credits[k].payment].bond != bond
    {
      if k < |t.credits| {
        assert u.credits[k] == t.credits[k];
      }
    }
  }

  /** No started bond becomes active again. */
  predicate NoneRevived(issues: seq<Escrow.Issue>, after: seq<Escrow.Issue>) {
    && |after| == |issues|
    && (forall b :: 0 <= b < |issues| && Started(issues[b].book.status) ==>
          Started(after[b].book.status) && (after[b].book.status == Active ==> issues[b].book.status == Active))
  }

  lemma SetStatusRevivesNone(p: Escrow.Platform, bond: nat, to: BondStatus, now: int)
    ensures NoneRevived(p.issues, SetStatus(p, bond, to, now).issues)
  {
    SetStatusEffect(p, bond, to, now);
  }

  lemma CheckedRevivesNone(s: State, e: nat, now: int)
    ensures NoneRevived(s.platform.issues, Checked(s, e, now).platform.issues)
  {
    if e < |s.events| {
      SetStatusRevivesNone(s.platform, s.events[e].bond, Defaulted, now);
    }
  }

  lemma {:induction false} CheckAllRevivesNone(s: State, order: seq<nat>, now: int)
    ensures NoneRevived(s.platform.issues, CheckAll(s, order, now).platform.issues)
  {
    if order != [] {
      CheckAllRevivesNone(s, order[..|order| - 1], now);
      CheckedRevivesNone(CheckAll(s, order[..|order| - 1], now), order[|order| - 1], now);
    }
  }

  lemma PaidOutRevivesNone(s: State, day: Payday, now: int)
    ensures NoneRevived(s.platform.issues, PaidOut(s, day, now).platform.issues)
  {
    if day.event < |s.events| && s.events[day.event].bond < |s.platform.issues| {
      var v := RepaidVault(s, s.events[day.event].bond, day.holders);
      SetStatusRevivesNone(s.platform.(bank := v.bank), s.events[day.event].bond, Matured, now);
    }
  }

  lemma {:induction false} PayAllRevivesNone(s: State, order: seq<Payday>, now: int)
    ensures NoneRevived(s.platform.issues, PayAll(s, order, now).platform.issues)
  {
    if order != [] {
      PayAllRevivesNone(s, order[..|order| - 1], now);
      PaidOutRevivesNone(PayAll(s, order[..|order| - 1], now), order[|order| - 1], now);
    }
  }

  lemma StepRevivesNone(s: State, step: Step, now: int)
    requires Escrow.PlatformInv(s.platform, now)
    ensures NoneRevived(s.platform.issues, Engine.After(s, step, now).platform.issues)
  {
    match step
    case User(st) =>
      TakeIsPlatformStep(s.platform, st, now);
      StartedStays(s.platform, Escrow.Take(s.platform, st, now), now);
    case DepositPrincipal(bond, amount) =>
    case CloseWindow(bond) =>
      SetStatusRevivesNone(s.platform, bond, Subscribed, now);
      SetStatusRevivesNone(s.platform, bond, Closed, now);
    case Activate(bond, periods) => SetStatusRevivesNone(s.platform, bond, Active, now);
    case Checks(order) => CheckAllRevivesNone(s, order, now);
    case Coupons(due, turns, page) =>
    case PayPrincipal(paydays) => PayAllRevivesNone(s, paydays, now);
  }

  // ---- A frozen bond stays frozen ----

  lemma SettledRowsStay(ps: seq<Payment>, qs: seq<Payment>, bond: nat)
    requires Later(ps, qs) && |qs| == |ps| && NothingOutstanding(ps, bond)
    ensures NothingOutstanding(qs, bond)
  {
  }

  lemma MadeNothingOutstanding(s: State, due: seq<nat>, now: int, bond: nat)
    requires Frozen(s, bond)
    requires forall k :: 0 <= k < |due| ==> due[k] in DueSchedules(s.schedules, Bonds(s.platform.issues, s.terms), Day(now))
    ensures s.payments <= Materialised(s, due) && NothingOutstanding(Materialised(s, due), bond)
  {
    MaterialisedOnActive(s.payments, s.schedules, Bonds(s.platform.issues, s.terms), due, Day(now));
  }

  /** A pass that begins with nothing outstanding on a bond ends so, and credits nothing on it. */
  lemma PassLeavesBond(d: Desk, turns: seq<Turn>, bond: nat)
    requires DeskInv(d) && NothingOutstanding(d.payments, bond)
    ensures var e := AttemptAll(d, turns);
            && |e.payments| == |d.payments| && NothingOutstanding(e.payments, bond) && d.credits <= e.credits
            && (forall i :: 0 <= i < |d.payments| ==> e.payments[i].bond == d.payments[i].bond)
            && (forall k :: |d.credits| <= k < |e.credits| ==>
                  e.credits[k].payment < |e.payments| && e.payments[e.credits[k].payment].bond != bond)
  {
    AttemptsKeepInv(d, turns);
    AttemptsCreditOutstanding(d, turns);
    SettledRowsStay(d.payments, AttemptAll(d, turns).payments, bond);
  }

  lemma CouponsLeaveFrozen(s: State, due: seq<nat>, turns: seq<Turn>, page: seq<nat>, now: int, bond: nat)
    requires DeskInv(DeskOf(s)) && CouponPages(s, due, turns, page, now) && Frozen(s, bond)
    ensures NothingOutstanding(CouponsRun(s, due, turns, page).payments, bond)
    ensures NoCouponOn(s, CouponsRun(s, due, turns, page), bond)
  {
    MadeNothingOutstanding(s, due, now, bond);
    MaterialiseKeepsDesk(DeskOf(s), s.schedules, Bonds(s.platform.issues, s.terms), due);
    PassLeavesBond(DeskOf(s).(payments := Materialised(s, due)), turns, bond);
  }

  lemma {:induction false} CheckAllLeavesCredits(s: State, order: seq<nat>, now: int)
    ensures CheckAll(s, order, now).credits == s.credits
  {
    if order != [] {
      CheckAllLeavesCredits(s, order[..|order| - 1], now);
    }
  }

  lemma {:induction false} CheckAllKeepsCount(s: State, order: seq<nat>, now: int)
    ensures |CheckAll(s, order, now).payments| == |s.payments|
  {
    if order != [] {
      CheckAllKeepsCount(s, order[..|order| - 1], now);
    }
  }

  lemma ChecksLeaveFrozen(s: State, order: seq<nat>, now: int, bond: nat)
    requires DeskInv(DeskOf(s)) && NothingOutstanding(s.payments, bond)
    ensures NothingOutstanding(CheckAll(s, order, now).payments, bond)
    ensures NoCouponOn(s, CheckAll(s, order, now), bond)
  {
    CheckAllLeavesCredits(s, order, now);
    CheckAllKeepsCount(s, order, now);
    EngineOutcomes.CheckAllLater(s, order, now);
    SettledRowsStay(s.payments, CheckAll(s, order, now).payments, bond);
  }

  lemma StepLeavesBond(s: State, step: Step, now: int, bond: nat)
    requires DeskInv(DeskOf(s)) && Proper(s, step, now) && Frozen(s, bond)
    ensures var t := Engine.After(s, step, now); NothingOutstanding(t.payments, bond) && NoCouponOn(s, t, bond)
  {
    match step
    case Checks(order) => ChecksLeaveFrozen(s, order, now, bond);
    case Coupons(due, turns, page) => CouponsLeaveFrozen(s, due, turns, page, now, bond);
    case PayPrincipal(paydays) => EngineOutcomes.PayAllLeavesCoupons(s, paydays, now);
    case _ =>
  }

  lemma FrozenStays(s: State, m: Moment, t: State, bond: nat)
    requires Escrow.PlatformInv(s.platform, m.at) && DeskInv(DeskOf(s)) && Follows(s, m, t) && Frozen(s, bond)
    ensures Frozen(t, bond) && NoCouponOn(s, t, bond)
  {
    StepRevivesNone(s, m.step, m.at);
    StepLeavesBond(s, m.step, m.at, bond);
  }

  lemma SoundParts(r: Run, k: nat)
    requires Real(r) && k < |r.moments|
    ensures Escrow.PlatformInv(r.states[k].platform, r.moments[k].at) && DeskInv(DeskOf(r.states[k]))
  {
    SoundWhenTaken(r, k);
  }

  lemma {:induction false} FrozenForGood(r: Run, k: nat, n: nat, bond: nat)
    requires Real(r) && k <= n <= |r.moments| && Frozen(r.states[k], bond)
    ensures Frozen(r.states[n], bond) && NoCouponOn(r.states[k], r.states[n], bond)
    decreases n
  {
    if k < n {
      FrozenForGood(r, k, n - 1, bond);
      SoundParts(r, n - 1);
      assert Happens(r, n - 1);
      FrozenStays(r.states[n - 1], r.moments[n - 1], r.states[n], bond);
      NoCouponTransitive(r.states[k], r.states[n - 1], r.states[n], bond);
    }
  }

  // ---- Declaring default ----

  /** The event is the funding check of this bond. */
  predicate IsFundingCheck(events: seq<EventRow>, e: nat, bond: nat) {
    e < |events| && events[e].bond == bond && events[e].stage == TMinus30
  }

  lemma CheckedEvents(s: State, e: nat, now: int)
    ensures |Checked(s, e, now).events| == |s.events| && Checked(s, e, now).escrow == s.escrow
    ensures forall f :: 0 <= f < |s.events| && f != e ==> Checked(s, e, now).events[f] == s.events[f]
  {
  }

  lemma {:induction false} CheckAllEvents(s: State, order: seq<nat>, now: int)
    ensures var t := CheckAll(s, order, now);
            && |t.events| == |s.events| && t.escrow == s.escrow
            && forall f :: 0 <= f < |s.events| && f !in order ==> t.events[f] == s.events[f]
  {
    if order != [] {
      var init, last := order[..|order| - 1], order[|order| - 1];
      CheckAllEvents(s, init, now);
      CheckedEvents(CheckAll(s, init, now), last, now);
      assert forall f :: f in init || f == last ==> f in order;
    }
  }

  /** One check puts an active bond in default exactly when it is the bond's funding check, due, and the bond is unfunded. */
  lemma CheckedDefaults(s: State, e: nat, now: int, bond: nat)
    requires bond < |s.platform.issues| && s.platform.issues[bond].book.status == Active
    requires e < |s.events| && EventDue(s.events[e], now)
    ensures var t := Checked(s, e, now);
            && |t.platform.issues| == |s.platform.issues|
            && t.platform.issues[bond].book.status ==
               (if IsFundingCheck(s.events, e, bond) && Unfunded(s, bond) then Defaulted else Active)
            && (t.platform.issues[bond].book.status == Defaulted ==> NothingOutstanding(t.payments, bond))
  {
    SetStatusEffect(s.platform, s.events[e].bond, Defaulted, now);
  }

  /** Some check of the pass is the bond's funding check. */
  predicate Examined(events: seq<EventRow>, order: seq<nat>, bond: nat) {
    exists k :: 0 <= k < |order| && IsFundingCheck(events, order[k], bond)
  }

  lemma ExaminedSnoc(events: seq<EventRow>, init: seq<nat>, last: nat, bond: nat)
    ensures Examined(events, init + [last], bond) <==> Examined(events, init, bond) || IsFundingCheck(events, last, bond)
  {
    var order := init + [last];
    assert order[|init|] == last;
    if Examined(events, init, bond) {
      var k :| 0 <= k < |init| && IsFundingCheck(events, init[k], bond);
      assert order[k] == init[k];
    }
  }

  /**
   The checks put an active bond in default exactly when they include its funding check and
   its principal escrow is short of its size; the bond is then frozen.
   */
  lemma {:induction false} DefaultExactlyWhenUnfunded(s: State, order: seq<nat>, now: int, bond: nat)
    requires DeskInv(DeskOf(s)) && bond < |s.platform.issues| && s.platform.issues[bond].book.status == Active
    requires Distinct(order) && forall k :: 0 <= k < |order| ==> order[k] < |s.events| && EventDue(s.events[order[k]], now)
    ensures var t := CheckAll(s, order, now);
            && |t.platform.issues| == |s.platform.issues|
            && t.platform.issues[bond].book.status ==
               (if Examined(s.events, order, bond) && Get(s.escrow, bond) < s.platform.issues[bond].book.total then Defaulted else Active)
            && (t.platform.issues[bond].book.status == Defaulted ==> Frozen(t, bond))
  {
    if order != [] {
      var init, last := order[..|order| - 1], order[|order| - 1];
      var mid := CheckAll(s, init, now);
      DefaultExactlyWhenUnfunded(s, init, now, bond);
      assert order == init + [last] && last !in init;
      ExaminedSnoc(s.events, init, last, bond);
      SameCheckLater(s, init, last, now, bond);
      if mid.platform.issues[bond].book.status == Active {
        CheckedDefaults(mid, last, now, bond);
      } else {
        FrozenUnderCheck(mid, last, now, bond);
      }
    }
  }

  /** Checking other events changes nothing a check of this one looks at. */
  lemma SameCheckLater(s: State, init: seq<nat>, last: nat, now: int, bond: nat)
    requires DeskInv(DeskOf(s)) && bond < |s.platform.issues| && last !in init && last < |s.events|
    ensures var mid := CheckAll(s, init, now);
            && DeskInv(DeskOf(mid)) && |mid.platform.issues| == |s.platform.issues|
            && |mid.events| == |s.events| && mid.events[last] == s.events[last]
            && (Unfunded(mid, bond) <==> Unfunded(s, bond))
  {
    CheckAllEvents(s, init, now);
    CheckAllSameUnits(s, init, now);
    EngineOutcomes.CheckAllLater(s, init, now);
  }

  lemma FrozenUnderCheck(s: State, e: nat, now: int, bond: nat)
    requires DeskInv(DeskOf(s)) && Frozen(s, bond) && s.platform.issues[bond].book.status == Defaulted
    ensures Frozen(Checked(s, e, now), bond) && Checked(s, e, now).platform.issues[bond].book.status == Defaulted
  {
    if e < |s.events| {
      SetStatusEffect(s.platform, s.events[e].bond, Defaulted, now);
    }
  }

  /**
   Once the checks have put a bond in default, no coupon of it is credited any more: not in
   the rest of that tick and not in any later step, even after the bond is closed.
   */
  lemma DefaultStopsCoupons(r: Run, k: nat, n: nat, bond: nat)
    requires Real(r) && k < n <= |r.moments| && r.moments[k].step.Checks?
    requires bond < |r.states[k].platform.issues| && r.states[k].platform.issues[bond].book.status == Active
    requires bond < |r.states[k + 1].platform.issues| && r.states[k + 1].platform.issues[bond].book.status == Defaulted
    ensures bond < |r.states[n].platform.issues| && r.states[n].platform.issues[bond].book.status != Active
    ensures NoCouponOn(r.states[k + 1], r.states[n], bond) && r.states[k + 1].credits == r.states[k].credits
  {
    SoundParts(r, k);
    assert Happens(r, k);
    var s, order, now := r.states[k], r.moments[k].step.order, r.moments[k].at;
    ChecksFreeze(s, order, now, bond);
    CheckAllLeavesCredits(s, order, now);
    FrozenForGood(r, k + 1, n, bond);
  }

  lemma ChecksFreeze(s: State, order: seq<nat>, now: int, bond: nat)
    requires DeskInv(DeskOf(s)) && Everything(order, DueEvents(s.events, now, false))
    requires bond < |s.platform.issues| && s.platform.issues[bond].book.status == Active
    requires var t := CheckAll(s, order, now); bond < |t.platform.issues| && t.platform.issues[bond].book.status == Defaulted
    ensures Frozen(CheckAll(s, order, now), bond)
  {
    DefaultExactlyWhenUnfunded(s, order, now, bond);
  }

  // ---- A default by hand does not ----

  /** The status page's move to `to`. */
  function ByHand(s: State, bond: nat, to: BondStatus, now: int): State {
    Engine.After(s, User(Escrow.OnRegister(bond, OpStatus(to))), now)
  }

  lemma AfterHands(s: State, bond: nat, now: int, later: int)
    requires bond < |s.platform.issues| && s.platform.issues[bond].book.status == Active
    ensures var t := ByHand(s, bond, Defaulted, now);
            var u := ByHand(t, bond, Closed, later);
            && t.payments == s.payments && u.payments == s.payments && u.credits == s.credits
            && |t.platform.issues| == |s.platform.issues| && t.platform.issues[bond].book.status == Defaulted
            && |u.platform.issues| == |s.platform.issues| && u.platform.issues[bond].book.status == Closed
  {
    SetStatusEffect(s.platform, bond, Defaulted, now);
    SetStatusEffect(SetStatus(s.platform, bond, Defaulted, now), bond, Closed, later);
  }

  /** Some row of the bond can be picked up by a coupon run. */
  ghost predicate SomePayable(s: State, bond: nat) {
    exists i :: i in PayableRows(s.payments, Bonds(s.platform.issues, s.terms)) && s.payments[i].bond == bond
  }

  /**
   A status change by hand suspends nothing. An active bond moved to defaulted by hand has no
   payable row while it is in default, and once it is closed it has one exactly when a row
   was outstanding when the hand moved it.
   */
  lemma HandDefaultPayableExactlyWhen(s: State, bond: nat, now: int, later: int)
    requires DeskInv(DeskOf(s)) && bond < |s.platform.issues| && s.platform.issues[bond].book.status == Active
    ensures var t := ByHand(s, bond, Defaulted, now);
            !SomePayable(t, bond) && (SomePayable(ByHand(t, bond, Closed, later), bond) <==> !NothingOutstanding(s.payments, bond))
  {
    AfterHands(s, bond, now, later);
    var u := ByHand(ByHand(s, bond, Defaulted, now), bond, Closed, later);
    if !NothingOutstanding(s.payments, bond) {
      var i :| 0 <= i < |s.payments| && s.payments[i].bond == bond && Outstanding(s.payments[i]);
      assert RowValid(s.payments[i]);
      assert i in PayableRows(u.payments, Bonds(u.platform.issues, u.terms));
    }
  }

  /** With nothing outstanding, a default by hand is as good as a declared one: no coupon is credited any more. */
  lemma HandDefaultStopsCoupons(r: Run, k: nat, n: nat, bond: nat)
    requires Real(r) && k < n <= |r.moments|
    requires bond < |r.states[k].platform.issues| && r.states[k].platform.issues[bond].book.status == Active
    requires r.moments[k].step == User(Escrow.OnRegister(bond, OpStatus(Defaulted)))
    requires NothingOutstanding(r.states[k].payments, bond)
    ensures bond < |r.states[n].platform.issues| && r.states[n].platform.issues[bond].book.status != Active
    ensures NoCouponOn(r.states[k], r.states[n], bond)
  {
    assert Happens(r, k);
    HandFreezes(r.states[k], bond, r.moments[k].at);
    FrozenForGood(r, k + 1, n, bond);
  }

  lemma HandFreezes(s: State, bond: nat, now: int)
    requires bond < |s.platform.issues| && s.platform.issues[bond].book.status == Active && NothingOutstanding(s.payments, bond)
    ensures var t := ByHand(s, bond, Defaulted, now);
            Frozen(t, bond) && t.credits == s.credits && t.payments == s.payments
  {
    SetStatusEffect(s.platform, bond, Defaulted, now);
  }
}
