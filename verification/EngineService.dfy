/**
 The engine as it runs: the tables as fields, and the passes of
 src/bonds/engine/activation.service.ts, redemption-runner.service.ts,
 coupon-runner.service.ts and engine.tick.ts as loops over the rows their queries return.
 Each pass is proved to be the engine step whose guarantees the other modules state.
 */
module EngineService {
  import opened Sums
  import opened Money
  import opened Calendar
  import opened Schedule
  import opened Accrual
  import opened Register
  import opened PositionHistory
  import opened CouponRun
  import opened Redemption
  import opened Engine
  import opened EngineRuns
  import Escrow
  import Wallet

  /** What the payment adapter answers. */
  datatype Disbursement = Disbursed | Declined | Unreachable

  // ---- Transitions as folds ----

  function CloseWindows(s: State, expiring: seq<nat>, now: int): State {
    if expiring == [] then s
    else WindowClosed(CloseWindows(s, expiring[..|expiring| - 1], now), expiring[|expiring| - 1], now)
  }

  function ActivateAll(s: State, pending: seq<nat>, plans: seq<seq<CouponPeriod>>, now: int): State
    requires |plans| == |pending|
  {
    if pending == [] then s
    else
      var last := |pending| - 1;
      Activated(ActivateAll(s, pending[..last], plans[..last], now), pending[last], plans[last], now)
  }

  predicate Activatable(s: State, bond: nat, now: int) {
    && bond < |s.platform.issues| && bond < |s.terms| && s.terms[bond].tenor >= 1
    && s.platform.issues[bond].book.status == Subscribed && Day(now) >= 0
  }

  /** Each plan is the one the engine builds for its bond, wherever the bond can be activated at all. */
  ghost predicate PlansFit(s: State, pending: seq<nat>, plans: seq<seq<CouponPeriod>>, now: int)
    requires |plans| == |pending|
  {
    pending != [] ==>
      var last := |pending| - 1;
      var before := ActivateAll(s, pending[..last], plans[..last], now);
      && PlansFit(s, pending[..last], plans[..last], now)
      && (Activatable(before, pending[last], now) ==> Planned(before.terms[pending[last]], plans[last], now))
  }

  lemma BuiltPeriodsValid(periods: seq<CouponPeriod>, issue: Date, maturity: Date, step: nat)
    requires issue.Valid() && maturity.Valid() && IsSchedule(periods, issue, maturity, step)
    ensures AllValid(periods)
  {
    assert forall k :: 0 <= k < |periods| ==> IsPeriod(periods[k], issue, maturity, step, k);
  }

  lemma {:induction false} AttemptAllSnoc(d: Desk, turns: seq<Turn>, k: nat)
    requires k < |turns|
    ensures AttemptAll(d, turns[..k + 1]) == Attempt(AttemptAll(d, turns[..k]), turns[k])
  {
    assert turns[..k + 1][..k] == turns[..k];
  }

  class BondEngine {
    var platform: Escrow.Platform
    var terms: seq<Terms>
    var escrow: map<nat, int>
    var schedules: seq<ScheduleRow>
    var events: seq<EventRow>
    var payments: seq<Payment>
    var taxes: seq<Tax>
    var credits: seq<Credit>
    var returned: map<(nat, UserId), ReturnRow>
    var principal: seq<Principal>

    function View(): State
      reads this
    {
      State(platform, terms, escrow, schedules, events, payments, taxes, credits, returned, principal)
    }

    constructor (s: State)
      ensures View() == s
    {
      platform, terms, escrow, schedules, events := s.platform, s.terms, s.escrow, s.schedules, s.events;
      payments, taxes, credits, returned, principal := s.payments, s.taxes, s.credits, s.returned, s.principal;
    }

    // ---- The money rail ----

    /** Credits the wallet and says so, declines, or throws: money moves only in the first case. */
    method Disburse(user: UserId, amount: nat, rail: Rail) returns (answer: Disbursement)
      modifies this`platform
      ensures answer == Disbursed <==> rail.Ok?
      ensures platform == if rail.Ok?
                          then old(platform).(bank := Wallet.Credit(old(platform).bank, user, amount, Wallet.Payout, rail.reference))
                          else old(platform)
    {
      match rail
      case Ok(reference) =>
        platform := platform.(bank := Wallet.Credit(platform.bank, user, amount, Wallet.Payout, reference));
        answer := Disbursed;
      case Fails => answer := Declined;
      case Throws => answer := Unreachable;
    }

    // ---- Transitions ----

    method CloseWindow(bond: nat, now: int)
      modifies this`platform
      ensures View() == WindowClosed(old(View()), bond, now)
      ensures bond < |platform.issues| && old(platform).issues[bond].book.status == Open ==>
                platform.issues[bond].book.status ==
                if now <= old(platform).issues[bond].book.closeAt then Open
                else if old(platform).issues[bond].book.raised > 0 then Subscribed else Closed
    {
      if bond < |platform.issues| {
        var book := platform.issues[bond].book;
        if book.status == Open && book.closeAt < now {
          var to := if book.raised > 0 then Subscribed else Closed;
          platform := SetStatus(platform, bond, to, now);
        }
      }
    }

    method WriteSchedules(bond: nat, periods: seq<CouponPeriod>)
      requires AllValid(periods)
      modifies this`schedules
      ensures schedules == old(schedules) + ScheduleRows(bond, periods)
    {
      for k := 0 to |periods|
        invariant schedules == old(schedules) + ScheduleRows(bond, periods)[..k]
      {
        var p := periods[k];
        schedules := schedules + [ScheduleRow(bond, p.index, p.start.DayNumber(), p.end.DayNumber(), p.payDate.DayNumber(), false)];
      }
    }

    method WriteStages(bond: nat, maturity: Date)
      requires maturity.Valid()
      modifies this`events
      ensures events == old(events) + EventRows(bond, maturity.DayNumber())
    {
      var stages := BuildRedemptionStages(maturity);
      for k := 0 to |stages|
        invariant events == old(events) + EventRows(bond, maturity.DayNumber())[..k]
      {
        events := events + [EventRow(bond, stages[k].stage, stages[k].scheduledFor, false)];
      }
    }

    /** Today's dates and the coupon periods between them; none if the bond cannot be activated. */
    method PlanBond(bond: nat, now: int) returns (plan: Option<Date>, periods: seq<CouponPeriod>)
      ensures plan.Some? <==> Activatable(View(), bond, now)
      ensures plan.Some? ==>
                && plan.value.Valid() && plan.value == Shifted(DateOf(Day(now)), terms[bond].tenor)
                && Planned(terms[bond], periods, now) && AllValid(periods)
    {
      plan, periods := None, [];
      if bond >= |platform.issues| || bond >= |terms| || platform.issues[bond].book.status != Subscribed || Day(now) < 0 {
        return;
      }
      var issue := DateOf(Day(now));
      var maturity := ComputeMaturity(issue, terms[bond].tenor);
      if maturity.OutOfBounds? {
        return;
      }
      plan := Some(maturity.date);
      periods := BuildCouponSchedule(issue, maturity.date, terms[bond].frequency);
      if !terms[bond].frequency.Zero? {
        BuiltPeriodsValid(periods, issue, maturity.date, StepMonths(terms[bond].frequency));
      }
    }

    /** Stamp the dates, make the bond active and write its schedule and checkpoints. */
    method ActivateBond(bond: nat, now: int) returns (periods: seq<CouponPeriod>)
      modifies this`platform, this`schedules, this`events
      ensures Activatable(old(View()), bond, now) ==> Planned(old(terms)[bond], periods, now) && AllValid(periods)
      ensures View() == Activated(old(View()), bond, periods, now)
      ensures Activatable(old(View()), bond, now) ==>
                var maturity := Shifted(DateOf(Day(now)), old(terms)[bond].tenor).DayNumber();
                events == old(events) + [EventRow(bond, TMinus90, maturity - 90, false), EventRow(bond, TMinus30, maturity - 30, false),
                                         EventRow(bond, TMinus7, maturity - 7, false), EventRow(bond, Maturity, maturity, false)]
    {
      var plan;
      plan, periods := PlanBond(bond, now);
      if plan.Some? {
        platform := SetStatus(platform, bond, Active, now);
        WriteSchedules(bond, periods);
        WriteStages(bond, plan.value);
      }
    }

    /** Close the windows that have passed, then activate every subscribed bond. */
    method RunTransitions(expiring: seq<nat>, pending: seq<nat>, now: int) returns (plans: seq<seq<CouponPeriod>>)
      modifies this
      ensures |plans| == |pending|
      ensures PlansFit(CloseWindows(old(View()), expiring, now), pending, plans, now)
      ensures View() == ActivateAll(CloseWindows(old(View()), expiring, now), pending, plans, now)
    {
      for i := 0 to |expiring|
        invariant View() == CloseWindows(old(View()), expiring[..i], now)
      {
        CloseWindow(expiring[i], now);
        assert expiring[..i + 1][..i] == expiring[..i];
      }
      assert expiring[..|expiring|] == expiring;
      plans := [];
      for j := 0 to |pending|
        invariant |plans| == j
        invariant PlansFit(CloseWindows(old(View()), expiring, now), pending[..j], plans, now)
        invariant View() == ActivateAll(CloseWindows(old(View()), expiring, now), pending[..j], plans, now)
      {
        var plan := ActivateBond(pending[j], now);
        assert pending[..j + 1][..j] == pending[..j] && (plans + [plan])[..j] == plans;
        plans := plans + [plan];
      }
      assert pending[..|pending|] == pending;
    }

    // ---- Checkpoints ----

    method DeclareDefault(bond: nat, now: int)
      requires bond < |platform.issues|
      modifies this`platform, this`payments
      ensures View() == DefaultDeclared(old(View()), bond, now)
    {
      if platform.issues[bond].book.status == Active {
        platform := SetStatus(platform, bond, Defaulted, now);
      }
      ghost var before := payments;
      var after: seq<Payment> := [];
      for i := 0 to |payments|
        invariant after == SuspendAll(payments, bond)[..i]
      {
        var p := payments[i];
        after := after + [if p.bond == bond && Outstanding(p) then p.(status := Escalated) else p];
      }
      payments := after;
    }

    method RunChecks(order: seq<nat>, now: int)
      modifies this
      ensures View() == CheckAll(old(View()), order, now)
    {
      for i := 0 to |order|
        invariant View() == CheckAll(old(View()), order[..i], now)
      {
        CheckEvent(order[i], now);
        assert order[..i + 1][..i] == order[..i];
      }
      assert order[..|order|] == order;
    }

    method CheckEvent(e: nat, now: int)
      modifies this
      ensures View() == Checked(old(View()), e, now)
    {
      if e < |events| && events[e].bond < |platform.issues| && EventDue(events[e], now) && events[e].stage != Maturity {
        var bond := events[e].bond;
        if events[e].stage == TMinus30 && Get(escrow, bond) < platform.issues[bond].book.total {
          DeclareDefault(bond, now);
        }
        events := events[e := events[e].(executed := true)];
      }
    }

    // ---- Coupons ----

    /** What one schedule owes, from the rebuilt history of its bond. */
    method AccrueSchedule(s: ScheduleRow) returns (owed: seq<HolderAccrual>)
      requires TermsValid(terms, platform.issues) && s.bond < |platform.issues|
      ensures owed == OwedOn(s, Bonds(platform.issues, terms)[s.bond])
    {
      var h := LoadPositionHistory(platform.issues[s.bond].book);
      var accruals := AccruePeriod(h, s.start, s.end, terms[s.bond].rateBps);
      owed := accruals.value;
    }

    /** Create the rows one due schedule owes, skipping those that exist. */
    method MaterialiseSchedule(k: nat)
      requires TermsValid(terms, platform.issues)
      modifies this`payments
      ensures payments == MaterialiseOne(old(payments), schedules, Bonds(platform.issues, terms), k)
      ensures |payments| >= |old(payments)|
    {
      if k >= |schedules| || schedules[k].bond >= |platform.issues| {
        return;
      }
      var s := schedules[k];
      var owed := AccrueSchedule(s);
      ghost var before := payments;
      for j := 0 to |owed|
        invariant payments == AddRows(before, k, s.bond, owed[..j]) && |payments| >= |before|
      {
        var a := owed[j];
        assert owed[..j + 1][..j] == owed[..j];
        if a.gross > 0 {
          var known := Recorded(payments, k, a.user);
          if !known {
            payments := payments + [Payment(k, s.bond, a, PaymentStatus.Pending, 0)];
          }
        }
      }
      assert owed[..|owed|] == owed;
    }

    method MaterialiseDue(due: seq<nat>) returns (created: nat)
      requires TermsValid(terms, platform.issues)
      modifies this`payments
      ensures payments == Materialised(old(View()), due)
      ensures |payments| == |old(payments)| + created
    {
      var before := |payments|;
      for i := 0 to |due|
        invariant payments == MaterialiseAll(old(payments), schedules, Bonds(platform.issues, terms), due[..i])
        invariant |payments| >= before
      {
        MaterialiseSchedule(due[i]);
        assert due[..i + 1][..i] == due[..i];
      }
      assert due[..|due|] == due;
      created := |payments| - before;
    }

    /** The optimistic claim: one statement that raises the attempts if the row is as it was read. */
    method ClaimRow(i: nat, read: nat) returns (won: bool)
      requires i < |payments|
      modifies this`payments
      ensures won <==> Outstanding(old(payments)[i]) && old(payments)[i].attempts == read
      ensures payments == if won then old(payments)[i := old(payments)[i].(attempts := read + 1)] else old(payments)
    {
      won := Outstanding(payments[i]) && payments[i].attempts == read;
      if won {
        payments := payments[i := payments[i].(attempts := read + 1)];
      }
    }

    /** Claim one row, try to pay it, and write down what happened. */
    method AttemptRow(turn: Turn) returns (paid: bool)
      requires CouponRun.RowsValid(payments)
      modifies this`payments, this`taxes, this`credits, this`platform
      ensures Desk(payments, taxes, credits, platform.bank) == Attempt(DeskOf(old(View())), turn)
      ensures turn.payment < |old(payments)| && Claimable(old(payments)[turn.payment], turn) ==>
                && payments[turn.payment].attempts == turn.read + 1
                && payments[turn.payment].status == if turn.rail.Ok? then Paid else if turn.read + 1 < 3 then Retry else Escalated
      ensures platform == old(platform).(bank := platform.bank)
      ensures |credits| == |old(credits)| + if paid then 1 else 0
    {
      paid := false;
      var i := turn.payment;
      if i >= |payments| {
        return;
      }
      assert CouponRun.RowValid(payments[i]);
      var won := ClaimRow(i, turn.read);
      if won {
        var p := payments[i];
        var answer := Disburse(p.due.user, p.due.net, turn.rail);
        if answer == Disbursed {
          payments := payments[i := p.(status := Paid)];
          taxes := taxes + [Tax(i, p.due.user, p.due.gross, p.due.wht)];
          credits := credits + [Credit(i, p.due.user, p.due.net)];
          paid := true;
        } else {
          var terminal := turn.read + 1 >= MAX_ATTEMPTS;
          payments := payments[i := p.(status := if terminal then Escalated else Retry)];
        }
      }
    }

    method AttemptOutstanding(turns: seq<Turn>) returns (paid: nat)
      requires DeskInv(DeskOf(View()))
      modifies this`payments, this`taxes, this`credits, this`platform
      ensures Desk(payments, taxes, credits, platform.bank) == AttemptAll(DeskOf(old(View())), turns)
      ensures platform == old(platform).(bank := platform.bank)
      ensures |credits| == |old(credits)| + paid
    {
      paid := 0;
      for k := 0 to |turns|
        invariant Desk(payments, taxes, credits, platform.bank) == AttemptAll(DeskOf(old(View())), turns[..k])
        invariant platform == old(platform).(bank := platform.bank)
        invariant |credits| == |old(credits)| + paid
      {
        AttemptsKeepInv(DeskOf(old(View())), turns[..k]);
        AttemptAllSnoc(DeskOf(old(View())), turns, k);
        var one := AttemptRow(turns[k]);
        paid := paid + if one then 1 else 0;
      }
      assert turns[..|turns|] == turns;
    }

    method CloseSettledSchedules(page: seq<nat>)
      modifies this`schedules
      ensures schedules == CloseAll(old(schedules), payments, page)
    {
      for i := 0 to |page|
        invariant schedules == CloseAll(old(schedules), payments, page[..i])
      {
        assert page[..i + 1][..i] == page[..i];
        if page[i] < |schedules| {
          var owing := Owing(payments, page[i]);
          if !owing {
            schedules := schedules[page[i] := schedules[page[i]].(processed := true)];
          }
        }
      }
      assert page[..|page|] == page;
    }

    /** The three passes of a coupon run, in order. */
    method RunCoupons(due: seq<nat>, turns: seq<Turn>, page: seq<nat>) returns (created: nat, paid: nat)
      requires TermsValid(terms, platform.issues) && DeskInv(DeskOf(View()))
      modifies this
      ensures View() == CouponsRun(old(View()), due, turns, page)
      ensures |payments| == |old(payments)| + created && |credits| == |old(credits)| + paid
    {
      created := MaterialiseDue(due);
      assert DeskInv(DeskOf(View())) by {
        MaterialiseKeepsDesk(DeskOf(old(View())), schedules, Bonds(platform.issues, terms), due);
      }
      paid := AttemptOutstanding(turns);
      CountKept(DeskOf(old(View())).(payments := Materialised(old(View()), due)), turns);
      CloseSettledSchedules(page);
    }

    // ---- Principal ----

    method RepayHolder(bond: nat, units: nat, turn: Repayment)
      modifies this`returned, this`principal, this`platform
      ensures Vault(returned, principal, platform.bank) == Repay(VaultOf(old(View())), bond, units, turn)
      ensures platform == old(platform).(bank := platform.bank)
    {
      var key := (bond, turn.user);
      if key !in returned {
        returned := returned[key := ReturnRow(units, PaymentStatus.Pending, 0)];
      }
      var row := returned[key];
      if row.status != Paid {
        var answer := Disburse(turn.user, units, turn.rail);
        if answer == Disbursed {
          returned := returned[key := row.(status := Paid)];
          principal := principal + [Principal(bond, turn.user, units)];
        } else {
          returned := returned[key := row.(status := Retry, attempts := row.attempts + 1)];
        }
      }
    }

    /** Return principal to every holder met, then mark the bond matured if no return row is still owed. */
    method Redeem(bond: nat, holders: seq<Repayment>, now: int)
      requires bond < |platform.issues|
      modifies this
      ensures View() == Redeemed(old(View()), bond, holders, now)
    {
      if platform.issues[bond].book.status != Active {
        return;
      }
      var holdings := platform.issues[bond].book.holdings;
      for i := 0 to |holders|
        invariant Vault(returned, principal, platform.bank) == RepayAll(VaultOf(old(View())), bond, holdings, holders[..i])
        invariant View() == old(View()).(returned := returned, principal := principal,
                                         platform := old(platform).(bank := platform.bank))
      {
        assert holders[..i + 1][..i] == holders[..i];
        RepayHolder(bond, UnitsOf(holdings, holders[i].user), holders[i]);
      }
      assert holders[..|holders|] == holders;
      if AllReturned(returned, bond) {
        platform := SetStatus(platform, bond, Matured, now);
      }
    }

    method PayMaturity(day: Payday, now: int)
      modifies this
      ensures View() == PaidOut(old(View()), day, now)
    {
      var e := day.event;
      if e < |events| && events[e].bond < |platform.issues| && EventDue(events[e], now) && events[e].stage == Maturity {
        Redeem(events[e].bond, day.holders, now);
        events := events[e := events[e].(executed := true)];
      }
    }

    method RunMaturity(paydays: seq<Payday>, now: int)
      modifies this
      ensures View() == PayAll(old(View()), paydays, now)
    {
      for i := 0 to |paydays|
        invariant View() == PayAll(old(View()), paydays[..i], now)
      {
        PayMaturity(paydays[i], now);
        assert paydays[..i + 1][..i] == paydays[..i];
      }
      assert paydays[..|paydays|] == paydays;
    }

    // ---- The tick ----

    /**
     Transitions first, so that bonds activated now are processed now; the checks before
     the coupons, so that a bond found in default today pays no coupon today; the maturity
     payout after them, so that the final coupon is paid before the bond closes.
     */
    method Tick(expiring: seq<nat>, pending: seq<nat>, order: seq<nat>,
                due: seq<nat>, turns: seq<Turn>, page: seq<nat>, paydays: seq<Payday>, now: int)
      returns (plans: seq<seq<CouponPeriod>>)
      requires EngineInv(View(), now)
      modifies this
      ensures |plans| == |pending|
      ensures var checked := CheckAll(ActivateAll(CloseWindows(old(View()), expiring, now), pending, plans, now), order, now);
              CouponPages(checked, due, turns, page, now) ==> EngineInv(View(), now)
      ensures var started := ActivateAll(CloseWindows(old(View()), expiring, now), pending, plans, now);
              var checked := CheckAll(started, order, now);
              View() == PayAll(CouponsRun(checked, due, turns, page), paydays, now)
    {
      plans := RunTransitions(expiring, pending, now);
      TransitionsKeepInv(old(View()), expiring, pending, plans, now);
      ghost var started := View();
      RunChecks(order, now);
      CheckAllKeepsInv(started, order, now);
      ghost var checked := View();
      var created, paid := RunCoupons(due, turns, page);
      RunMaturity(paydays, now);
      LaterPassesKeepInv(checked, due, turns, page, paydays, now);
    }
  }

  // ---- What the earlier passes leave for the later ones ----

  lemma CountKept(d: Desk, turns: seq<Turn>)
    requires DeskInv(d)
    ensures |AttemptAll(d, turns).payments| == |d.payments|
  {
    AttemptsKeepInv(d, turns);
  }

  lemma ActivatedKeepsInv(s: State, bond: nat, periods: seq<CouponPeriod>, now: int)
    requires EngineInv(s, now) && (Activatable(s, bond, now) ==> Planned(s.terms[bond], periods, now))
    ensures EngineInv(Activated(s, bond, periods, now), now)
  {
    if Activatable(s, bond, now) {
      ActivateKeepsInv(s, bond, periods, now);
    }
  }

  lemma {:induction false} CloseWindowsKeepInv(s: State, expiring: seq<nat>, now: int)
    requires EngineInv(s, now)
    ensures EngineInv(CloseWindows(s, expiring, now), now)
  {
    if expiring != [] {
      CloseWindowsKeepInv(s, expiring[..|expiring| - 1], now);
      CloseWindowKeepsInv(CloseWindows(s, expiring[..|expiring| - 1], now), expiring[|expiring| - 1], now);
    }
  }

  lemma {:induction false} ActivateAllKeepsInv(s: State, pending: seq<nat>, plans: seq<seq<CouponPeriod>>, now: int)
    requires |plans| == |pending| && EngineInv(s, now) && PlansFit(s, pending, plans, now)
    ensures EngineInv(ActivateAll(s, pending, plans, now), now)
  {
    if pending != [] {
      var last := |pending| - 1;
      ActivateAllKeepsInv(s, pending[..last], plans[..last], now);
      ActivatedKeepsInv(ActivateAll(s, pending[..last], plans[..last], now), pending[last], plans[last], now);
    }
  }

  lemma TransitionsKeepInv(s: State, expiring: seq<nat>, pending: seq<nat>, plans: seq<seq<CouponPeriod>>, now: int)
    requires |plans| == |pending| && EngineInv(s, now)
    requires PlansFit(CloseWindows(s, expiring, now), pending, plans, now)
    ensures EngineInv(ActivateAll(CloseWindows(s, expiring, now), pending, plans, now), now)
  {
    CloseWindowsKeepInv(s, expiring, now);
    ActivateAllKeepsInv(CloseWindows(s, expiring, now), pending, plans, now);
  }

  lemma LaterPassesKeepInv(s: State, due: seq<nat>, turns: seq<Turn>, page: seq<nat>, paydays: seq<Payday>, now: int)
    requires EngineInv(s, now)
    ensures CouponPages(s, due, turns, page, now) ==> EngineInv(PayAll(CouponsRun(s, due, turns, page), paydays, now), now)
  {
    if CouponPages(s, due, turns, page, now) {
      CouponsKeepInv(s, due, turns, page, now);
      PayAllKeepsInv(CouponsRun(s, due, turns, page), paydays, now);
    }
  }
}
