/**
 The dates of a bond in a run: everything follows from the day it was activated. Its
 maturity is that day shifted by the tenor, its checkpoints stand 90, 30 and 7 days before
 it, and its coupon periods are the whole steps from that day.
 */
module EngineDates {
  import opened Calendar
  import opened Schedule
  import opened Accrual
  import opened Register
  import opened CouponRun
  import opened Redemption
  import opened Engine
  import opened EngineRuns
  import Escrow

  /** How many days before maturity a checkpoint stands. */
  function Notice(stage: Stage): nat {
    match stage
    case TMinus90 => 90
    case TMinus30 => 30
    case TMinus7 => 7
    case Maturity => 0
  }

  predicate EventFrom(event: EventRow, issue: Date, tenor: nat)
    requires issue.Valid()
  {
    event.day == Shifted(issue, tenor).DayNumber() - Notice(event.stage)
  }

  predicate RowFrom(row: ScheduleRow, issue: Date, tenor: nat, step: nat)
    requires issue.Valid()
  {
    && step > 0 && row.index < tenor / step
    && row.start == Boundary(issue, step, row.index).DayNumber()
    && row.end == row.payDay == Boundary(issue, step, row.index + 1).DayNumber()
  }

  predicate EventsFrom(events: seq<EventRow>, bond: nat, issue: Date, tenor: nat)
    requires issue.Valid()
  {
    forall e :: 0 <= e < |events| && events[e].bond == bond ==> EventFrom(events[e], issue, tenor)
  }

  predicate RowsFrom(schedules: seq<ScheduleRow>, bond: nat, issue: Date, tenor: nat, step: nat)
    requires issue.Valid()
  {
    forall k :: 0 <= k < |schedules| && schedules[k].bond == bond ==> RowFrom(schedules[k], issue, tenor, step)
  }

  predicate HasPeriod(schedules: seq<ScheduleRow>, bond: nat, n: nat) {
    exists k :: 0 <= k < |schedules| && schedules[k].bond == bond && schedules[k].index == n
  }

  /** Every event and every coupon period of the bond, and every whole step of its tenor has one. */
  ghost predicate DatedFrom(s: State, bond: nat, issue: Date) {
    && issue.Valid() && bond < |s.terms|
    && var tenor, step := s.terms[bond].tenor, StepMonths(s.terms[bond].frequency);
       && EventsFrom(s.events, bond, issue, tenor) && RowsFrom(s.schedules, bond, issue, tenor, step)
       && (step > 0 ==> forall n :: 0 <= n < tenor / step ==> HasPeriod(s.schedules, bond, n))
  }

  predicate NoDates(s: State, bond: nat) {
    && (forall e :: 0 <= e < |s.events| ==> s.events[e].bond != bond)
    && (forall k :: 0 <= k < |s.schedules| ==> s.schedules[k].bond != bond)
  }

  // ---- Activation ----

  lemma CheckpointsOf(bond: nat, maturity: int)
    ensures EventRows(bond, maturity)
            == [EventRow(bond, TMinus90, maturity - 90, false), EventRow(bond, TMinus30, maturity - 30, false),
                EventRow(bond, TMinus7, maturity - 7, false), EventRow(bond, Maturity, maturity, false)]
  {
  }

  lemma ActivationWrites(s: State, bond: nat, periods: seq<CouponPeriod>, now: int, t: State, maturity: int)
    requires t == Activated(s, bond, periods, now) && AllValid(periods)
    requires bond < |s.platform.issues| && bond < |s.terms| && s.terms[bond].tenor >= 1
    requires s.platform.issues[bond].book.status == Subscribed && Day(now) >= 0
    requires maturity == MaturityDay(s.terms[bond], now)
    ensures t.events == s.events + EventRows(bond, maturity)
    ensures t.schedules == s.schedules + ScheduleRows(bond, periods) && t.terms == s.terms
  {
  }

  /** The checkpoints an activation writes: 90, 30, 7 and no days before its day shifted by the tenor. */
  lemma ActivationDates(s: State, bond: nat, periods: seq<CouponPeriod>, now: int, t: State, maturity: int)
    requires t == Activated(s, bond, periods, now) && AllValid(periods)
    requires bond < |s.platform.issues| && bond < |s.terms| && s.terms[bond].tenor >= 1
    requires s.platform.issues[bond].book.status == Subscribed && Day(now) >= 0
    requires maturity == Shifted(DateOf(Day(now)), s.terms[bond].tenor).DayNumber()
    ensures t.events == s.events + [EventRow(bond, TMinus90, maturity - 90, false), EventRow(bond, TMinus30, maturity - 30, false),
                                    EventRow(bond, TMinus7, maturity - 7, false), EventRow(bond, Maturity, maturity, false)]
    ensures t.schedules == s.schedules + ScheduleRows(bond, periods) && t.terms == s.terms
  {
    ActivationWrites(s, bond, periods, now, t, maturity);
    CheckpointsOf(bond, maturity);
  }

  /** The rows of whole steps. */
  lemma StepsFrom(rows: seq<ScheduleRow>, periods: seq<CouponPeriod>, bond: nat, issue: Date, tenor: nat, step: nat)
    requires issue.Valid() && step > 0 && periods == PeriodsOf(issue, step, tenor / step) && AllValid(periods)
    requires rows == ScheduleRows(bond, periods)
    ensures RowsFrom(rows, bond, issue, tenor, step)
    ensures forall n :: 0 <= n < tenor / step ==> HasPeriod(rows, bond, n)
  {
    forall n | 0 <= n < tenor / step
      ensures HasPeriod(rows, bond, n)
    {
      assert rows[n].index == n && rows[n].bond == bond;
    }
  }

  lemma HasPeriodBehind(before: seq<ScheduleRow>, rows: seq<ScheduleRow>, bond: nat, n: nat)
    requires HasPeriod(rows, bond, n)
    ensures HasPeriod(before + rows, bond, n)
  {
    var k :| 0 <= k < |rows| && rows[k].bond == bond && rows[k].index == n;
    assert (before + rows)[|before| + k] == rows[k];
  }

  lemma ActivatedIsDated(s: State, bond: nat, periods: seq<CouponPeriod>, now: int, t: State, issue: Date)
    requires t == Activated(s, bond, periods, now) && NoDates(s, bond) && AllValid(periods)
    requires bond < |s.platform.issues| && bond < |s.terms| && 1 <= s.terms[bond].tenor <= 360
    requires s.platform.issues[bond].book.status == Subscribed && Day(now) >= 0 && issue == DateOf(Day(now))
    requires Planned(s.terms[bond], periods, now)
    ensures DatedFrom(t, bond, issue)
  {
    ActivationDates(s, bond, periods, now, t, Shifted(issue, s.terms[bond].tenor).DayNumber());
    var tenor, step := s.terms[bond].tenor, StepMonths(s.terms[bond].frequency);
    if step > 0 {
      ScheduleIsWholeSteps(periods, issue, tenor, step);
      var rows := ScheduleRows(bond, periods);
      StepsFrom(rows, periods, bond, issue, tenor, step);
      forall n | 0 <= n < tenor / step
        ensures HasPeriod(t.schedules, bond, n)
      {
        HasPeriodBehind(s.schedules, rows, bond, n);
      }
    }
  }

  // ---- Dates stay ----

  /** Nothing dated of this bond is changed or added. */
  predicate DatesStay(s: State, t: State, bond: nat) {
    && t.terms == s.terms && |s.events| <= |t.events| && |s.schedules| <= |t.schedules|
    && (forall e :: 0 <= e < |s.events| ==> t.events[e] == s.events[e].(executed := t.events[e].executed))
    && (forall e :: |s.events| <= e < |t.events| ==> t.events[e].bond != bond)
    && (forall k :: 0 <= k < |s.schedules| ==> t.schedules[k] == s.schedules[k].(processed := t.schedules[k].processed))
    && (forall k :: |s.schedules| <= k < |t.schedules| ==> t.schedules[k].bond != bond)
  }

  lemma DatesKept(s: State, t: State, bond: nat, issue: Date)
    requires DatesStay(s, t, bond) && DatedFrom(s, bond, issue)
    ensures DatedFrom(t, bond, issue)
  {
    var tenor, step := s.terms[bond].tenor, StepMonths(s.terms[bond].frequency);
    if step > 0 {
      forall n | 0 <= n < tenor / step
        ensures HasPeriod(t.schedules, bond, n)
      {
        assert HasPeriod(s.schedules, bond, n);
        var k :| 0 <= k < |s.schedules| && s.schedules[k].bond == bond && s.schedules[k].index == n;
        assert t.schedules[k].index == n;
      }
    }
  }

  lemma DatesStayTransitive(s: State, t: State, u: State, bond: nat)
    requires DatesStay(s, t, bond) && DatesStay(t, u, bond)
    ensures DatesStay(s, u, bond)
  {
  }

  lemma CheckedDates(s: State, e: nat, now: int, bond: nat)
    ensures DatesStay(s, Checked(s, e, now), bond)
  {
  }

  lemma {:induction false} CheckAllDates(s: State, order: seq<nat>, now: int, bond: nat)
    ensures DatesStay(s, CheckAll(s, order, now), bond)
  {
    if order != [] {
      var mid := CheckAll(s, order[..|order| - 1], now);
      CheckAllDates(s, order[..|order| - 1], now, bond);
      CheckedDates(mid, order[|order| - 1], now, bond);
      DatesStayTransitive(s, mid, CheckAll(s, order, now), bond);
    }
  }

  lemma PaidOutDates(s: State, day: Payday, now: int, bond: nat)
    ensures DatesStay(s, PaidOut(s, day, now), bond)
  {
  }

  lemma {:induction false} PayAllDates(s: State, order: seq<Payday>, now: int, bond: nat)
    ensures DatesStay(s, PayAll(s, order, now), bond)
  {
    if order != [] {
      var mid := PayAll(s, order[..|order| - 1], now);
      PayAllDates(s, order[..|order| - 1], now, bond);
      PaidOutDates(mid, order[|order| - 1], now, bond);
      DatesStayTransitive(s, mid, PayAll(s, order, now), bond);
    }
  }

  lemma CouponsDates(s: State, due: seq<nat>, turns: seq<Turn>, page: seq<nat>, bond: nat)
    ensures DatesStay(s, CouponsRun(s, due, turns, page), bond)
  {
    forall k | 0 <= k < |s.schedules|
      ensures var after := CouponsRun(s, due, turns, page).schedules;
              after[k] == s.schedules[k].(processed := after[k].processed)
    {
      ClosedExactlyWhen(s.schedules, DeskAfter(s, due, turns).payments, page, k);
    }
  }

  /** Does the step activate this bond? */
  predicate Activates(s: State, m: Moment, bond: nat) {
    && m.step.Activate? && m.step.bond == bond && bond < |s.platform.issues| && bond < |s.terms| && s.terms[bond].tenor >= 1
    && s.platform.issues[bond].book.status == Subscribed && Day(m.at) >= 0 && AllValid(m.step.periods)
  }

  lemma OtherActivationDates(s: State, b: nat, periods: seq<CouponPeriod>, now: int, bond: nat, t: State)
    requires t == Activated(s, b, periods, now) && (b != bond || t == s)
    ensures DatesStay(s, t, bond)
  {
  }

  lemma StepDates(s: State, m: Moment, t: State, bond: nat)
    requires t == Engine.After(s, m.step, m.at) && !Activates(s, m, bond)
    ensures DatesStay(s, t, bond)
  {
    match m.step
    case Checks(order) => CheckAllDates(s, order, m.at, bond);
    case Coupons(due, turns, page) => CouponsDates(s, due, turns, page, bond);
    case PayPrincipal(paydays) => PayAllDates(s, paydays, m.at, bond);
    case Activate(b, periods) => OtherActivationDates(s, b, periods, m.at, bond, t);
    case _ =>
  }

  lemma NotYetDated(s: State, now: int, bond: nat)
    requires EngineInv(s, now) && bond < |s.platform.issues| && s.platform.issues[bond].book.status == Subscribed
    ensures NoDates(s, bond) && |s.terms| == |s.platform.issues| && 1 <= s.terms[bond].tenor <= 360
  {
  }

  // ---- Runs ----

  /** The bond has no dates yet, or it was activated by step `j` and all its dates follow from that day. */
  ghost predicate DatedByActivation(r: Run, n: nat, bond: nat)
    requires |r.states| == |r.moments| + 1 && n <= |r.moments|
  {
    || NoDates(r.states[n], bond)
    || exists j :: 0 <= j < n && Activates(r.states[j], r.moments[j], bond)
                   && DatedFrom(r.states[n], bond, DateOf(Day(r.moments[j].at)))
  }

  lemma ActivatesDated(s: State, m: Moment, t: State, bond: nat, issue: Date)
    requires Activates(s, m, bond) && t == Activated(s, bond, m.step.periods, m.at) && issue == DateOf(Day(m.at))
    requires NoDates(s, bond) && s.terms[bond].tenor <= 360 && Planned(s.terms[bond], m.step.periods, m.at)
    ensures DatedFrom(t, bond, issue)
  {
    ActivatedIsDated(s, bond, m.step.periods, m.at, t, issue);
  }

  lemma PlannedStep(s: State, m: Moment, t: State, bond: nat)
    requires Follows(s, m, t) && Activates(s, m, bond)
    ensures t == Activated(s, bond, m.step.periods, m.at) && Planned(s.terms[bond], m.step.periods, m.at)
  {
  }

  lemma ActivationStep(r: Run, n: nat, bond: nat)
    requires Real(r) && n < |r.moments| && Activates(r.states[n], r.moments[n], bond)
    ensures DatedFrom(r.states[n + 1], bond, DateOf(Day(r.moments[n].at)))
  {
    SoundWhenTaken(r, n);
    var s, m, t := r.states[n], r.moments[n], r.states[n + 1];
    NotYetDated(s, m.at, bond);
    PlannedStep(s, m, t, bond);
    ActivatesDated(s, m, t, bond, DateOf(Day(m.at)));
  }

  lemma OtherStep(r: Run, n: nat, bond: nat)
    requires Real(r) && n < |r.moments| && !Activates(r.states[n], r.moments[n], bond)
    ensures DatesStay(r.states[n], r.states[n + 1], bond)
  {
    assert Happens(r, n);
    StepDates(r.states[n], r.moments[n], r.states[n + 1], bond);
  }

  lemma DatesCarried(r: Run, n: nat, bond: nat)
    requires |r.states| == |r.moments| + 1 && n < |r.moments|
    requires DatesStay(r.states[n], r.states[n + 1], bond) && DatedByActivation(r, n, bond)
    ensures DatedByActivation(r, n + 1, bond)
  {
    if !NoDates(r.states[n], bond) {
      var j :| 0 <= j < n && Activates(r.states[j], r.moments[j], bond)
               && DatedFrom(r.states[n], bond, DateOf(Day(r.moments[j].at)));
      DatesKept(r.states[n], r.states[n + 1], bond, DateOf(Day(r.moments[j].at)));
    }
  }

  /** In every state of every run, the dates of a bond all follow from the day it was activated. */
  lemma {:induction false} DatesFollowActivation(r: Run, n: nat, bond: nat)
    requires Real(r) && n <= |r.moments|
    ensures DatedByActivation(r, n, bond)
  {
    if n > 0 {
      DatesFollowActivation(r, n - 1, bond);
      if Activates(r.states[n - 1], r.moments[n - 1], bond) {
        ActivationStep(r, n - 1, bond);
      } else {
        OtherStep(r, n - 1, bond);
        DatesCarried(r, n - 1, bond);
      }
    }
  }

  /** Row `k` is the last coupon period of its bond. */
  predicate LastRow(schedules: seq<ScheduleRow>, k: nat) {
    && k < |schedules|
    && forall j :: 0 <= j < |schedules| && schedules[j].bond == schedules[k].bond ==> schedules[j].index <= schedules[k].index
  }

  lemma LastRowIsLastStep(s: State, k: nat, issue: Date)
    requires LastRow(s.schedules, k) && DatedFrom(s, s.schedules[k].bond, issue)
    ensures var terms := s.terms[s.schedules[k].bond];
            var step := StepMonths(terms.frequency);
            && step > 0 && s.schedules[k].index + 1 == terms.tenor / step
            && s.schedules[k].end == Boundary(issue, step, terms.tenor / step).DayNumber()
  {
    var bond := s.schedules[k].bond;
    var tenor, step := s.terms[bond].tenor, StepMonths(s.terms[bond].frequency);
    assert RowFrom(s.schedules[k], issue, tenor, step);
    assert HasPeriod(s.schedules, bond, tenor / step - 1);
  }

  /**
   Maturity is the issue date shifted by the tenor, and lies the tail of the tenor behind the
   end of the last coupon period: on the same day when the coupon step divides the tenor and
   the issue day is up to 28.
   */
  predicate TailBehind(terms: Terms, issue: Date, maturity: int, lastEnd: int) {
    issue.Valid() && StepMonths(terms.frequency) > 0 && TailOf(terms.tenor, StepMonths(terms.frequency), issue, maturity, lastEnd)
  }

  predicate TailOf(tenor: nat, step: nat, issue: Date, maturity: int, lastEnd: int)
    requires issue.Valid() && step > 0
  {
    && maturity == Shifted(issue, tenor).DayNumber()
    && maturity - lastEnd == TailAfter(issue, tenor, step, StepsIn(tenor, step)) >= 0
    && (tenor % step == 0 && issue.day <= 28 ==> maturity == lastEnd)
  }

  lemma MaturityBehindLastCoupon(s: State, e: nat, k: nat, issue: Date)
    requires LastRow(s.schedules, k) && DatedFrom(s, s.schedules[k].bond, issue) && s.terms[s.schedules[k].bond].tenor >= 1
    requires e < |s.events| && s.events[e].bond == s.schedules[k].bond && s.events[e].stage == Maturity
    ensures TailBehind(s.terms[s.schedules[k].bond], issue, s.events[e].day, s.schedules[k].end)
  {
    LastRowIsLastStep(s, k, issue);
    var bond := s.schedules[k].bond;
    var tenor, step := s.terms[bond].tenor, StepMonths(s.terms[bond].frequency);
    assert EventFrom(s.events[e], issue, tenor);
    TailExactly(issue, tenor, step);
    if tenor % step == 0 {
      TailOfWholeTenor(issue, tenor, step, tenor / step);
    }
  }

  /**
   In every run: a bond with a maturity event was activated by some step, and the event and
   its checkpoints are counted from the date of that day shifted by the tenor.
   */
  lemma MaturityFollowsActivation(r: Run, n: nat, e: nat) returns (j: nat)
    requires Real(r) && n <= |r.moments| && e < |r.states[n].events|
    ensures j < n && r.moments[j].step.Activate? && r.moments[j].step.bond == r.states[n].events[e].bond
    ensures var bond := r.states[n].events[e].bond;
            && Day(r.moments[j].at) >= 0 && DatedFrom(r.states[n], bond, DateOf(Day(r.moments[j].at)))
            && r.states[n].events[e].day
               == Shifted(DateOf(Day(r.moments[j].at)), r.states[n].terms[bond].tenor).DayNumber()
                  - (match r.states[n].events[e].stage case TMinus90 => 90 case TMinus30 => 30 case TMinus7 => 7 case Maturity => 0)
  {
    var bond := r.states[n].events[e].bond;
    DatesFollowActivation(r, n, bond);
    j :| 0 <= j < n && Activates(r.states[j], r.moments[j], bond) && DatedFrom(r.states[n], bond, DateOf(Day(r.moments[j].at)));
    assert EventFrom(r.states[n].events[e], DateOf(Day(r.moments[j].at)), r.states[n].terms[bond].tenor);
  }

  /** And so, in every run, the maturity event of a bond lies the tail of its tenor behind its last coupon period. */
  lemma MaturityMeetsLastCoupon(r: Run, n: nat, e: nat, k: nat, s: State) returns (j: nat)
    requires Real(r) && n <= |r.moments| && s == r.states[n] && e < |s.events| && LastRow(s.schedules, k)
    requires s.events[e].bond == s.schedules[k].bond && s.events[e].stage == Maturity
    ensures j < n && r.moments[j].step.Activate? && r.moments[j].step.bond == s.events[e].bond && Day(r.moments[j].at) >= 0
    ensures s.events[e].bond < |s.terms|
    ensures TailBehind(s.terms[s.events[e].bond], DateOf(Day(r.moments[j].at)), s.events[e].day, s.schedules[k].end)
  {
    j := MaturityFollowsActivation(r, n, e);
    EveryStateSound(r, n);
    MaturityBehindLastCoupon(s, e, k, DateOf(Day(r.moments[j].at)));
  }
}
