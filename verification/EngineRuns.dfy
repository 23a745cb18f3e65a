/**
 Every run of the engine keeps its invariant: activation, checkpoints, coupon runs and
 payouts one by one, and then any sequence of steps.
 */
module EngineRuns {
  import opened Sums
  import opened Calendar
  import opened Schedule
  import opened Accrual
  import opened Register
  import opened PositionHistory
  import opened CouponRun
  import opened Redemption
  import opened BookSteps
  import opened Engine
  import Escrow

  // ---- Activation ----

  lemma PlannedRowsSound(terms: Terms, periods: seq<CouponPeriod>, bond: nat, now: int)
    requires Day(now) >= 0 && 1 <= terms.tenor <= 360 && Planned(terms, periods, now) && AllValid(periods)
    ensures forall k :: 0 <= k < |periods| ==>
              var row := ScheduleRows(bond, periods)[k]; row.bond == bond && row.start < row.end == row.payDay
  {
    var step := StepMonths(terms.frequency);
    if step > 0 {
      ScheduleFillsTenor(periods, DateOf(Day(now)), Shifted(DateOf(Day(now)), terms.tenor), terms.tenor, step);
    }
  }

  lemma MoreSchedulesSound(schedules: seq<ScheduleRow>, rows: seq<ScheduleRow>, bond: nat, issues: seq<Escrow.Issue>,
                           payments: seq<Payment>, bonds: seq<Bond>, today: int)
    requires SchedulesSound(schedules, issues) && RowsOwedTruly(payments, schedules, bonds) && RowsDue(payments, schedules, today)
    requires bond < |issues| && Started(issues[bond].book.status)
    requires forall k :: 0 <= k < |rows| ==> rows[k].bond == bond && rows[k].start < rows[k].end == rows[k].payDay
    ensures var more := schedules + rows;
            SchedulesSound(more, issues) && RowsOwedTruly(payments, more, bonds) && RowsDue(payments, more, today)
  {
    var more := schedules + rows;
    forall i | 0 <= i < |payments|
      ensures OwedTruly(payments[i], more[payments[i].schedule], bonds[payments[i].bond])
    {
      assert OwedTruly(payments[i], schedules[payments[i].schedule], bonds[payments[i].bond]);
    }
  }

  lemma MoreSchedules(s: State, rows: seq<ScheduleRow>, bond: nat, now: int)
    requires EngineInv(s, now) && bond < |s.platform.issues| && s.platform.issues[bond].book.status == Active
    requires forall k :: 0 <= k < |rows| ==> rows[k].bond == bond && rows[k].start < rows[k].end == rows[k].payDay
    ensures EngineInv(s.(schedules := s.schedules + rows), now)
  {
    MoreSchedulesSound(s.schedules, rows, bond, s.platform.issues, s.payments, Bonds(s.platform.issues, s.terms), Day(now));
  }

  /** The four events of one bond stand in a fixed order behind the events of the others. */
  lemma MoreEventsSound(events: seq<EventRow>, rows: seq<EventRow>, bond: nat, maturity: int, issues: seq<Escrow.Issue>)
    requires EventsSound(events, issues) && rows == EventRows(bond, maturity)
    requires bond < |issues| && Started(issues[bond].book.status)
    requires forall e :: 0 <= e < |events| ==> events[e].bond != bond
    ensures EventsSound(events + rows, issues)
  {
    var n := |events|;
    var more := events + rows;
    forall e, f | 0 <= e < f < |more|
      ensures more[e].bond != more[f].bond || more[e].stage != more[f].stage
    {
      if n <= e {
        assert more[e] == rows[e - n] && more[f] == rows[f - n];
      }
    }
    forall e | Matures(more, e)
      ensures e >= 2 && more[e - 2] == EventRow(more[e].bond, TMinus30, more[e].day - 30, more[e - 2].executed)
    {
      if n <= e {
        assert more[e] == rows[e - n];
        assert e - n == 3 && more[e - 2] == rows[1];
      } else {
        assert Matures(events, e) && more[e - 2] == events[e - 2];
      }
    }
  }

  lemma MoreEventsFunded(events: seq<EventRow>, rows: seq<EventRow>, bond: nat, maturity: int, escrow: map<nat, int>,
                         returned: map<(nat, UserId), ReturnRow>, issues: seq<Escrow.Issue>)
    requires CheckedMeansFunded(events, escrow, issues) && ReturnsSound(events, returned, issues)
    requires rows == EventRows(bond, maturity) && NoReturns(returned, bond)
    ensures CheckedMeansFunded(events + rows, escrow, issues) && ReturnsSound(events + rows, returned, issues)
  {
    var more := events + rows;
    forall e | 0 <= e < |more|
      ensures e < |events| ==> more[e] == events[e]
      ensures e >= |events| ==> more[e].bond == bond && !more[e].executed
    {
    }
  }

  lemma MoreEvents(s: State, bond: nat, maturity: int, now: int)
    requires EngineInv(s, now) && bond < |s.platform.issues| && s.platform.issues[bond].book.status == Active
    requires NoReturns(s.returned, bond) && forall e :: 0 <= e < |s.events| ==> s.events[e].bond != bond
    ensures EngineInv(s.(events := s.events + EventRows(bond, maturity)), now)
  {
    MoreEventsSound(s.events, EventRows(bond, maturity), bond, maturity, s.platform.issues);
    MoreEventsFunded(s.events, EventRows(bond, maturity), bond, maturity, s.escrow, s.returned, s.platform.issues);
  }

  /** A bond that is still subscribed has no events and no return rows yet. */
  lemma SubscribedIsBare(s: State, bond: nat)
    requires EventsSound(s.events, s.platform.issues) && ReturnsSound(s.events, s.returned, s.platform.issues)
    requires bond < |s.platform.issues| && s.platform.issues[bond].book.status == Subscribed
    ensures NoReturns(s.returned, bond) && forall e :: 0 <= e < |s.events| ==> s.events[e].bond != bond
  {
  }

  lemma ActivateKeepsInv(s: State, bond: nat, periods: seq<CouponPeriod>, now: int)
    requires EngineInv(s, now) && Proper(s, Activate(bond, periods), now)
    ensures EngineInv(Activated(s, bond, periods, now), now)
  {
    if Activated(s, bond, periods, now) != s {
      SubscribedIsBare(s, bond);
      SetStatusKeepsInv(s, bond, Active, now);
      SetStatusEffect(s.platform, bond, Active, now);
      PlannedRowsSound(s.terms[bond], periods, bond, now);
      var s1 := s.(platform := SetStatus(s.platform, bond, Active, now));
      StampKeepsInv(s1, bond, MaturityDay(s.terms[bond], now), ScheduleRows(bond, periods), now);
    }
  }

  lemma StampKeepsInv(s: State, bond: nat, maturity: int, rows: seq<ScheduleRow>, now: int)
    requires EngineInv(s, now) && bond < |s.platform.issues| && s.platform.issues[bond].book.status == Active
    requires NoReturns(s.returned, bond) && forall e :: 0 <= e < |s.events| ==> s.events[e].bond != bond
    requires forall k :: 0 <= k < |rows| ==> rows[k].bond == bond && rows[k].start < rows[k].end == rows[k].payDay
    ensures EngineInv(s.(schedules := s.schedules + rows, events := s.events + EventRows(bond, maturity)), now)
  {
    var s1 := s.(events := s.events + EventRows(bond, maturity));
    MoreEvents(s, bond, maturity, now);
    MoreSchedules(s1, rows, bond, now);
  }

  // ---- Checkpoints ----

  lemma SuspendKeepsDesk(d: Desk, bond: nat)
    requires DeskInv(d)
    ensures DeskInv(d.(payments := SuspendAll(d.payments, bond)))
    ensures Later(d.payments, SuspendAll(d.payments, bond))
  {
    var qs := SuspendAll(d.payments, bond);
    assert forall i :: 0 <= i < |qs| ==> RowValid(d.payments[i]);
    SumByParallel(d.payments, qs, PaidGross(), PaidGross());
  }

  lemma SuspendKeepsOwed(payments: seq<Payment>, schedules: seq<ScheduleRow>, bonds: seq<Bond>, bond: nat, today: int)
    requires RowsOwedTruly(payments, schedules, bonds) && RowsDue(payments, schedules, today)
    ensures RowsOwedTruly(SuspendAll(payments, bond), schedules, bonds) && RowsDue(SuspendAll(payments, bond), schedules, today)
  {
    forall i | 0 <= i < |payments|
      ensures OwedTruly(SuspendAll(payments, bond)[i], schedules[payments[i].schedule], bonds[payments[i].bond])
    {
      assert OwedTruly(payments[i], schedules[payments[i].schedule], bonds[payments[i].bond]);
    }
  }

  lemma DefaultKeepsInv(s: State, bond: nat, now: int)
    requires EngineInv(s, now) && bond < |s.platform.issues|
    ensures EngineInv(DefaultDeclared(s, bond, now), now)
    ensures DefaultDeclared(s, bond, now).platform.issues[bond].book.status != Active
  {
    SuspendKeepsDesk(DeskOf(s), bond);
    SuspendKeepsOwed(s.payments, s.schedules, Bonds(s.platform.issues, s.terms), bond, Day(now));
    var s1 := s.(payments := SuspendAll(s.payments, bond));
    if s.platform.issues[bond].book.status == Active {
      SetStatusEffect(s1.platform, bond, Defaulted, now);
      SetStatusKeepsInv(s1, bond, Defaulted, now);
    }
  }

  lemma MarkedEventsSound(events: seq<EventRow>, e: nat, escrow: map<nat, int>, returned: map<(nat, UserId), ReturnRow>,
                          issues: seq<Escrow.Issue>)
    requires e < |events| && EventsSound(events, issues) && CheckedMeansFunded(events, escrow, issues) && ReturnsSound(events, returned, issues)
    requires events[e].stage == TMinus30 && issues[events[e].bond].book.status == Active ==>
               Get(escrow, events[e].bond) >= issues[events[e].bond].book.total
    ensures var marked := events[e := events[e].(executed := true)];
            EventsSound(marked, issues) && CheckedMeansFunded(marked, escrow, issues) && ReturnsSound(marked, returned, issues)
  {
    var marked := events[e := events[e].(executed := true)];
    forall f | Matures(marked, f)
      ensures f >= 2 && marked[f - 2] == EventRow(marked[f].bond, TMinus30, marked[f].day - 30, marked[f - 2].executed)
    {
      assert Matures(events, f);
    }
  }

  /** A check may be marked as run once a funded bond, or one no longer active, has been seen by it. */
  lemma MarkKeepsInv(s: State, e: nat, now: int)
    requires EngineInv(s, now) && e < |s.events|
    requires s.events[e].stage == TMinus30 ==>
               s.platform.issues[s.events[e].bond].book.status == Active ==> !Unfunded(s, s.events[e].bond)
    ensures EngineInv(MarkExecuted(s, e), now)
  {
    MarkedEventsSound(s.events, e, s.escrow, s.returned, s.platform.issues);
  }

  lemma CheckedKeepsInv(s: State, e: nat, now: int)
    requires EngineInv(s, now)
    ensures EngineInv(Checked(s, e, now), now)
  {
    if Checked(s, e, now) != s {
      var bond := s.events[e].bond;
      if s.events[e].stage == TMinus30 && Unfunded(s, bond) {
        DefaultKeepsInv(s, bond, now);
        MarkKeepsInv(DefaultDeclared(s, bond, now), e, now);
      } else {
        MarkKeepsInv(s, e, now);
      }
    }
  }

  lemma {:induction false} CheckAllKeepsInv(s: State, order: seq<nat>, now: int)
    requires EngineInv(s, now)
    ensures EngineInv(CheckAll(s, order, now), now)
  {
    if order != [] {
      CheckAllKeepsInv(s, order[..|order| - 1], now);
      CheckedKeepsInv(CheckAll(s, order[..|order| - 1], now), order[|order| - 1], now);
    }
  }

  // ---- Coupons ----

  /** Attempting rows pays out of thin air only what is accounted for. */
  lemma AttemptPays(p: Escrow.Platform, d: Desk, turn: Turn, principal: seq<Principal>, now: int)
    requires Escrow.PlatformInv(p.(bank := d.bank), now) && PayoutsAccounted(d.bank.ledger, d.credits, principal)
    ensures var e := Attempt(d, turn);
            Escrow.PlatformInv(p.(bank := e.bank), now) && PayoutsAccounted(e.bank.ledger, e.credits, principal)
  {
    if turn.payment < |d.payments| && Pays(d.payments[turn.payment], turn) {
      var due := d.payments[turn.payment].due;
      PayoutKeepsInv(p.(bank := d.bank), due.user, due.net, turn.rail.reference, now);
      CreditIsPayout(d.bank, due.user, due.net, turn.rail.reference);
      SumByPush(d.credits, CreditFor(turn.payment, d.payments[turn.payment]), CreditAmount());
    }
  }

  lemma {:induction false} AttemptsPay(p: Escrow.Platform, d: Desk, turns: seq<Turn>, principal: seq<Principal>, now: int)
    requires Escrow.PlatformInv(p.(bank := d.bank), now) && PayoutsAccounted(d.bank.ledger, d.credits, principal)
    ensures var e := AttemptAll(d, turns);
            Escrow.PlatformInv(p.(bank := e.bank), now) && PayoutsAccounted(e.bank.ledger, e.credits, principal)
  {
    if turns != [] {
      var init := turns[..|turns| - 1];
      AttemptsPay(p, d, init, principal, now);
      AttemptPays(p, AttemptAll(d, init), turns[|turns| - 1], principal, now);
    }
  }

  lemma LaterKeepsOwed(ps: seq<Payment>, qs: seq<Payment>, schedules: seq<ScheduleRow>, bonds: seq<Bond>)
    requires RowsOwedTruly(ps, schedules, bonds) && Later(ps, qs) && |qs| == |ps|
    ensures RowsOwedTruly(qs, schedules, bonds)
  {
    forall i | 0 <= i < |qs|
      ensures OwedTruly(qs[i], schedules[qs[i].schedule], bonds[qs[i].bond])
    {
      assert OwedTruly(ps[i], schedules[ps[i].schedule], bonds[ps[i].bond]);
    }
  }

  /** Rows come only from schedules that are due. */
  lemma {:induction false} MaterialisedRowsDue(ps: seq<Payment>, schedules: seq<ScheduleRow>, bonds: seq<Bond>, due: seq<nat>, today: int)
    requires RowsDue(ps, schedules, today)
    requires forall k :: 0 <= k < |due| ==> due[k] < |schedules| && schedules[due[k]].payDay <= today
    ensures RowsDue(MaterialiseAll(ps, schedules, bonds, due), schedules, today)
  {
    if due != [] {
      var init, k := due[..|due| - 1], due[|due| - 1];
      MaterialisedRowsDue(ps, schedules, bonds, init, today);
      var mid := MaterialiseAll(ps, schedules, bonds, init);
      if schedules[k].bond < |bonds| {
        var owed := OwedOn(schedules[k], bonds[schedules[k].bond]);
        AddRowsPrefix(mid, k, schedules[k].bond, owed);
        var qs := AddRows(mid, k, schedules[k].bond, owed);
        forall i | 0 <= i < |qs|
          ensures qs[i].schedule < |schedules| && schedules[qs[i].schedule].payDay <= today
        {
          if i < |mid| {
            assert qs[i] == mid[i];
          } else {
            AddedRows(mid, k, schedules[k].bond, owed, i);
          }
        }
      }
    }
  }

  /** Closing only marks schedules as processed. */
  lemma ClosingKeepsRest(schedules: seq<ScheduleRow>, payments: seq<Payment>, page: seq<nat>)
    ensures forall k :: 0 <= k < |schedules| ==>
              CloseAll(schedules, payments, page)[k] == schedules[k].(processed := CloseAll(schedules, payments, page)[k].processed)
  {
    forall k | 0 <= k < |schedules| {
      ClosedExactlyWhen(schedules, payments, page, k);
    }
  }

  lemma ProcessedIrrelevant(payments: seq<Payment>, schedules: seq<ScheduleRow>, schedules': seq<ScheduleRow>, issues: seq<Escrow.Issue>,
                            bonds: seq<Bond>, today: int)
    requires |schedules'| == |schedules|
    requires forall k :: 0 <= k < |schedules| ==> schedules'[k] == schedules[k].(processed := schedules'[k].processed)
    requires SchedulesSound(schedules, issues) && RowsOwedTruly(payments, schedules, bonds) && RowsDue(payments, schedules, today)
    ensures SchedulesSound(schedules', issues) && RowsOwedTruly(payments, schedules', bonds) && RowsDue(payments, schedules', today)
  {
    forall i | 0 <= i < |payments|
      ensures OwedTruly(payments[i], schedules'[payments[i].schedule], bonds[payments[i].bond])
    {
      assert OwedTruly(payments[i], schedules[payments[i].schedule], bonds[payments[i].bond]);
    }
  }

  lemma CouponDeskSound(s: State, due: seq<nat>, turns: seq<Turn>)
    requires DeskInv(DeskOf(s))
    ensures var d := DeskAfter(s, due, turns);
            && DeskInv(d) && |d.payments| == |Materialised(s, due)|
            && Later(s.payments, Materialised(s, due)) && Later(Materialised(s, due), d.payments)
  {
    var bonds := Bonds(s.platform.issues, s.terms);
    MaterialiseKeepsDesk(DeskOf(s), s.schedules, bonds, due);
    MaterialiseKeeps(s.payments, s.schedules, bonds, due);
    AttemptsKeepInv(DeskOf(s).(payments := Materialised(s, due)), turns);
  }

  lemma CouponRowsSound(s: State, due: seq<nat>, turns: seq<Turn>, today: int)
    requires DeskInv(DeskOf(s)) && RowsDue(s.payments, s.schedules, today)
    requires RowsOwedTruly(s.payments, s.schedules, Bonds(s.platform.issues, s.terms))
    requires forall k :: 0 <= k < |due| ==> due[k] < |s.schedules| && s.schedules[due[k]].payDay <= today
    ensures var d := DeskAfter(s, due, turns);
            RowsOwedTruly(d.payments, s.schedules, Bonds(s.platform.issues, s.terms)) && RowsDue(d.payments, s.schedules, today)
  {
    var bonds := Bonds(s.platform.issues, s.terms);
    CouponDeskSound(s, due, turns);
    MaterialiseOwesTruly(s.payments, s.schedules, bonds, due);
    MaterialisedRowsDue(s.payments, s.schedules, bonds, due, today);
    LaterKeepsOwed(Materialised(s, due), DeskAfter(s, due, turns).payments, s.schedules, bonds);
  }

  lemma CouponsKeepRows(s: State, due: seq<nat>, turns: seq<Turn>, page: seq<nat>, now: int)
    requires CouponsSound(s, now) && SchedulesSound(s.schedules, s.platform.issues)
    requires forall k :: 0 <= k < |due| ==> due[k] < |s.schedules| && s.schedules[due[k]].payDay <= Day(now)
    ensures var after := CouponsRun(s, due, turns, page);
            CouponsSound(after, now) && SchedulesSound(after.schedules, after.platform.issues)
  {
    var d := DeskAfter(s, due, turns);
    CouponDeskSound(s, due, turns);
    CouponRowsSound(s, due, turns, Day(now));
    ClosingKeepsRest(s.schedules, d.payments, page);
    ProcessedIrrelevant(d.payments, s.schedules, CloseAll(s.schedules, d.payments, page), s.platform.issues,
                        Bonds(s.platform.issues, s.terms), Day(now));
  }

  lemma CouponsKeepMoney(s: State, due: seq<nat>, turns: seq<Turn>, page: seq<nat>, now: int)
    requires Escrow.PlatformInv(s.platform, now) && PayoutsAccounted(s.platform.bank.ledger, s.credits, s.principal)
    ensures var after := CouponsRun(s, due, turns, page);
            Escrow.PlatformInv(after.platform, now) && PayoutsAccounted(after.platform.bank.ledger, after.credits, after.principal)
  {
    assert s.platform.(bank := s.platform.bank) == s.platform;
    AttemptsPay(s.platform, DeskOf(s).(payments := Materialised(s, due)), turns, s.principal, now);
  }

  lemma CouponsKeepInv(s: State, due: seq<nat>, turns: seq<Turn>, page: seq<nat>, now: int)
    requires EngineInv(s, now) && CouponPages(s, due, turns, page, now)
    ensures EngineInv(CouponsRun(s, due, turns, page), now)
  {
    CouponsKeepRows(s, due, turns, page, now);
    CouponsKeepMoney(s, due, turns, page, now);
  }

  // ---- Principal ----

  lemma RepayPays(p: Escrow.Platform, v: Vault, bond: nat, units: nat, turn: Repayment, credits: seq<Credit>, now: int)
    requires Escrow.PlatformInv(p.(bank := v.bank), now) && PayoutsAccounted(v.bank.ledger, credits, v.principal)
    ensures var w := Repay(v, bond, units, turn);
            Escrow.PlatformInv(p.(bank := w.bank), now) && PayoutsAccounted(w.bank.ledger, credits, w.principal)
  {
    if ReturnFor(v, bond, turn.user, units).status != Paid && turn.rail.Ok? {
      PayoutKeepsInv(p.(bank := v.bank), turn.user, units, turn.rail.reference, now);
      CreditIsPayout(v.bank, turn.user, units, turn.rail.reference);
      SumByPush(v.principal, Principal(bond, turn.user, units), PrincipalAmount());
    }
  }

  lemma {:induction false} RepayAllPays(p: Escrow.Platform, v: Vault, bond: nat, holdings: map<UserId, int>,
                                        turns: seq<Repayment>, credits: seq<Credit>, now: int)
    requires Escrow.PlatformInv(p.(bank := v.bank), now) && PayoutsAccounted(v.bank.ledger, credits, v.principal)
    ensures var w := RepayAll(v, bond, holdings, turns);
            Escrow.PlatformInv(p.(bank := w.bank), now) && PayoutsAccounted(w.bank.ledger, credits, w.principal)
  {
    if turns != [] {
      var init, last := turns[..|turns| - 1], turns[|turns| - 1];
      RepayAllPays(p, v, bond, holdings, init, credits, now);
      RepayPays(p, RepayAll(v, bond, holdings, init), bond, UnitsOf(holdings, last.user), last, credits, now);
    }
  }

  /** A payout touches return rows of its own bond only. */
  lemma RepayTouchesOneBond(v: Vault, bond: nat, holdings: map<UserId, int>, turns: seq<Repayment>)
    ensures forall key: (nat, UserId) :: key in RepayAll(v, bond, holdings, turns).returned && key !in v.returned ==> key.0 == bond
  {
    forall key: (nat, UserId) | key in RepayAll(v, bond, holdings, turns).returned && key !in v.returned
      ensures key.0 == bond
    {
      if key.0 != bond {
        OtherReturnsUntouched(v, bond, holdings, turns, key);
      }
    }
  }

  lemma ReturnsStaySound(events: seq<EventRow>, e: nat, returned: map<(nat, UserId), ReturnRow>,
                         after: map<(nat, UserId), ReturnRow>, issues: seq<Escrow.Issue>)
    requires EventsSound(events, issues) && ReturnsSound(events, returned, issues)
    requires e < |events| && events[e].stage == Maturity
    requires forall key :: key in after && key !in returned ==> key.0 == events[e].bond
    ensures ReturnsSound(events[e := events[e].(executed := true)], after, issues)
  {
    var marked := events[e := events[e].(executed := true)];
    forall f | 0 <= f < |marked| && marked[f].stage == Maturity && !marked[f].executed
      ensures NoReturns(after, marked[f].bond)
    {
      assert marked[f] == events[f] && events[f].bond != events[e].bond;
    }
  }

  /** The state between paying the holders and marking the bond matured. */
  function Settled(s: State, e: nat, holders: seq<Repayment>): State
    requires e < |s.events| && s.events[e].bond < |s.platform.issues|
  {
    var v := RepaidVault(s, s.events[e].bond, holders);
    s.(returned := v.returned, principal := v.principal, platform := s.platform.(bank := v.bank),
       events := s.events[e := s.events[e].(executed := true)])
  }

  /** Paying a bond's principal and marking its maturity event. */
  lemma VaultReplaced(s: State, e: nat, holders: seq<Repayment>, now: int)
    requires EngineInv(s, now) && e < |s.events| && s.events[e].stage == Maturity
    ensures EngineInv(Settled(s, e, holders), now)
  {
    var bond := s.events[e].bond;
    var holdings := s.platform.issues[bond].book.holdings;
    var v := RepaidVault(s, bond, holders);
    assert s.platform.(bank := s.platform.bank) == s.platform;
    RepayAllPays(s.platform, VaultOf(s), bond, holdings, holders, s.credits, now);
    RepayAllKeepsReturned(VaultOf(s), bond, holdings, holders);
    RepayTouchesOneBond(VaultOf(s), bond, holdings, holders);
    MarkedEventsSound(s.events, e, s.escrow, s.returned, s.platform.issues);
    ReturnsStaySound(s.events, e, s.returned, v.returned, s.platform.issues);
  }

  /** What paying out an active bond at its maturity comes to. */
  lemma PaidOutActive(s: State, day: Payday, now: int)
    requires day.event < |s.events| && s.events[day.event].bond < |s.platform.issues|
    requires EventDue(s.events[day.event], now) && s.events[day.event].stage == Maturity
    requires s.platform.issues[s.events[day.event].bond].book.status == Active
    ensures var bond := s.events[day.event].bond;
            var mid := Settled(s, day.event, day.holders);
            PaidOut(s, day, now) ==
            if AllReturned(mid.returned, bond) then mid.(platform := SetStatus(mid.platform, bond, Matured, now)) else mid
  {
  }

  lemma PaidOutKeepsInv(s: State, day: Payday, now: int)
    requires EngineInv(s, now)
    ensures EngineInv(PaidOut(s, day, now), now)
  {
    if PaidOut(s, day, now) != s {
      var e := day.event;
      var bond := s.events[e].bond;
      if s.platform.issues[bond].book.status != Active {
        MarkKeepsInv(s, e, now);
      } else {
        VaultReplaced(s, e, day.holders, now);
        PaidOutActive(s, day, now);
        SetStatusKeepsInv(Settled(s, e, day.holders), bond, Matured, now);
      }
    }
  }

  lemma {:induction false} PayAllKeepsInv(s: State, order: seq<Payday>, now: int)
    requires EngineInv(s, now)
    ensures EngineInv(PayAll(s, order, now), now)
  {
    if order != [] {
      PayAllKeepsInv(s, order[..|order| - 1], now);
      PaidOutKeepsInv(PayAll(s, order[..|order| - 1], now), order[|order| - 1], now);
    }
  }

  // ---- Runs ----

  lemma StepKeepsEngineInv(s: State, step: Step, now: int)
    requires EngineInv(s, now) && Proper(s, step, now)
    ensures EngineInv(Engine.After(s, step, now), now)
  {
    match step
    case User(st) => UserKeepsInv(s, st, now);
    case DepositPrincipal(bond, amount) => DepositKeepsInv(s, bond, amount, now, Engine.After(s, step, now));
    case CloseWindow(bond) => CloseWindowKeepsInv(s, bond, now);
    case Activate(bond, periods) => ActivateKeepsInv(s, bond, periods, now);
    case Checks(order) => CheckAllKeepsInv(s, order, now);
    case Coupons(due, turns, page) => CouponsKeepInv(s, due, turns, page, now);
    case PayPrincipal(paydays) => PayAllKeepsInv(s, paydays, now);
  }

  datatype Moment = Moment(step: Step, at: int)

  /** A run: the steps taken, and the states between them. */
  datatype Run = Run(states: seq<State>, moments: seq<Moment>)

  /** The moment's step is a proper one in `s`, and leads to `t`. */
  ghost predicate Follows(s: State, m: Moment, t: State) {
    Proper(s, m.step, m.at) && t == Engine.After(s, m.step, m.at)
  }

  /** The k-th step follows from its state, no earlier than the step before it. */
  ghost predicate Happens(r: Run, k: nat)
    requires k < |r.moments| && |r.states| == |r.moments| + 1
  {
    Clock(r, k) <= r.moments[k].at && Follows(r.states[k], r.moments[k], r.states[k + 1])
  }

  ghost predicate Real(r: Run) {
    && |r.states| == |r.moments| + 1 && Start(r.states[0])
    && (forall k :: 0 <= k < |r.moments| ==> Happens(r, k))
  }

  /** When the k-th state was reached. */
  function Clock(r: Run, k: nat): int
    requires k <= |r.moments|
  {
    if k > 0 then r.moments[k - 1].at else if r.moments != [] then r.moments[0].at else 0
  }

  /** Empty wallets, bonds with nothing raised, nothing scheduled, nothing paid. */
  predicate Start(s: State) {
    && Escrow.Opening(s.platform) && TermsValid(s.terms, s.platform.issues)
    && s.schedules == [] && s.events == [] && s.payments == [] && s.taxes == [] && s.credits == []
    && s.returned == map[] && s.principal == []
  }

  lemma EmptySound(s: State, now: int)
    requires s.schedules == [] && s.events == [] && s.payments == [] && s.taxes == [] && s.credits == []
    requires s.returned == map[] && s.principal == []
    ensures CouponsSound(s, now) && RedemptionSound(s) && SchedulesSound(s.schedules, s.platform.issues)
  {
    forall b: nat, u: UserId
      ensures !HasPrincipal(s.principal, b, u)
    {
    }
  }

  lemma StartPlatform(p: Escrow.Platform, now: int)
    requires Escrow.Opening(p)
    ensures Escrow.PlatformInv(p, now)
  {
    var steps: seq<Escrow.TimedStep> := [];
    assert Escrow.RunSteps(p, steps) == p;
    Escrow.EveryRunKeepsPlatformInv(p, steps, now);
  }

  lemma StartPayouts(s: State)
    requires Start(s)
    ensures PayoutsAccounted(s.platform.bank.ledger, s.credits, s.principal)
  {
    var ledger := s.platform.bank.ledger;
    assert ledger == [];
  }

  lemma StartSound(s: State, now: int)
    requires Start(s)
    ensures CouponsSound(s, now) && RedemptionSound(s) && SchedulesSound(s.schedules, s.platform.issues)
  {
    EmptySound(s, now);
  }

  lemma StartHoldsInv(s: State, now: int)
    requires Start(s)
    ensures EngineInv(s, now)
  {
    StartPlatform(s.platform, now);
    StartPayouts(s);
    StartSound(s, now);
  }

  lemma TimeKeepsEngineInv(s: State, now: int, later: int)
    requires EngineInv(s, now) && now <= later
    ensures EngineInv(s, later)
  {
    Escrow.TimeKeepsPlatformInv(s.platform, now, later);
    assert Day(now) <= Day(later);
  }

  lemma FollowsSound(s: State, before: int, m: Moment, t: State)
    requires EngineInv(s, before) && before <= m.at && Follows(s, m, t)
    ensures EngineInv(s, m.at) && EngineInv(t, m.at)
  {
    TimeKeepsEngineInv(s, before, m.at);
    StepKeepsEngineInv(s, m.step, m.at);
  }

  /** Every state any run of the engine reaches satisfies the invariant. */
  lemma {:induction false} EveryStateSound(r: Run, k: nat)
    requires Real(r) && k <= |r.moments|
    ensures EngineInv(r.states[k], Clock(r, k))
  {
    if k == 0 {
      StartHoldsInv(r.states[0], Clock(r, 0));
    } else {
      EveryStateSound(r, k - 1);
      assert Happens(r, k - 1);
      FollowsSound(r.states[k - 1], Clock(r, k - 1), r.moments[k - 1], r.states[k]);
    }
  }

  /** And still does when the next step is taken. */
  lemma SoundWhenTaken(r: Run, k: nat)
    requires Real(r) && k < |r.moments|
    ensures EngineInv(r.states[k], r.moments[k].at) && Follows(r.states[k], r.moments[k], r.states[k + 1])
  {
    EveryStateSound(r, k);
    assert Happens(r, k);
    TimeKeepsEngineInv(r.states[k], Clock(r, k), r.moments[k].at);
  }
}
