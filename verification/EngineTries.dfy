/**
 How often a coupon is tried: a row is given up only after its third attempt, unless its
 bond was found short of funds, and every attempt it is entitled to is made.
 */
module EngineTries {
  import opened Sums
  import opened Accrual
  import opened Register
  import opened Schedule
  import opened CouponRun
  import opened Engine
  import opened EngineRuns
  import opened EngineDefault
  import opened EngineGuarantees
  import EngineOutcomes
  import Escrow

  /** The attempts behind each status. */
  predicate TriesTaken(p: Payment) {
    match p.status
    case Pending => p.attempts == 0
    case Retry => p.attempts == 1 || p.attempts == 2
    case Paid => 1 <= p.attempts <= 3
    case Escalated => p.attempts == 3
  }

  // ---- A coupon pass ----

  lemma {:induction false} AttemptsTaken(d: Desk, turns: seq<Turn>, i: nat)
    requires i < |d.payments|
    ensures var e := AttemptAll(d, turns);
            && |e.payments| == |d.payments| && e.payments[i].bond == d.payments[i].bond
            && (TriesTaken(d.payments[i]) ==> TriesTaken(e.payments[i]))
            && (d.payments[i].status == Escalated ==> e.payments[i] == d.payments[i])
  {
    if turns != [] {
      AttemptsTaken(d, turns[..|turns| - 1], i);
    }
  }

  lemma CouponsTaken(s: State, due: seq<nat>, turns: seq<Turn>, i: nat)
    requires i < |DeskAfter(s, due, turns).payments|
    ensures |s.payments| <= |DeskAfter(s, due, turns).payments|
    ensures var p := DeskAfter(s, due, turns).payments[i];
            && (i >= |s.payments| ==> TriesTaken(p))
            && (i < |s.payments| ==> p.bond == s.payments[i].bond && (TriesTaken(s.payments[i]) ==> TriesTaken(p)))
            && (i < |s.payments| && s.payments[i].status == Escalated ==> p == s.payments[i])
  {
    var made := Materialised(s, due);
    var d := DeskOf(s).(payments := made);
    MaterialisedAwaitPayment(s.payments, s.schedules, Bonds(s.platform.issues, s.terms), due);
    AttemptsSameLength(d, turns);
    AttemptsTaken(d, turns, i);
  }

  lemma {:induction false} AttemptsSameLength(d: Desk, turns: seq<Turn>)
    ensures |AttemptAll(d, turns).payments| == |d.payments|
  {
    if turns != [] {
      AttemptsSameLength(d, turns[..|turns| - 1]);
    }
  }

  // ---- The checks ----

  /** The bond's funding check is due and has not run, and its escrow is short of its size. */
  predicate FoundShort(s: State, bond: nat, now: int) {
    && bond < |s.platform.issues| && Get(s.escrow, bond) < s.platform.issues[bond].book.total
    && exists e :: 0 <= e < |s.events| && s.events[e].bond == bond && s.events[e].stage == TMinus30
                   && !s.events[e].executed && s.events[e].day <= Day(now)
  }

  lemma CheckedRow(s: State, e: nat, now: int, i: nat)
    requires i < |s.payments|
    ensures var t, bond := Checked(s, e, now), s.payments[i].bond;
            && |t.payments| == |s.payments|
            && (t.payments[i] == s.payments[i]
                || (&& t.payments[i] == s.payments[i].(status := Escalated)
                    && IsFundingCheck(s.events, e, bond) && EventDue(s.events[e], now)
                    && bond < |s.platform.issues| && Get(s.escrow, bond) < s.platform.issues[bond].book.total))
  {
  }

  /** What the checks may do to a row: nothing, or suspend it because its bond was found short. */
  ghost predicate LeftOrSuspended(s: State, now: int, p: Payment, q: Payment) {
    q == p || (q == p.(status := Escalated) && FoundShort(s, p.bond, now))
  }

  lemma {:induction false} CheckAllRow(s: State, order: seq<nat>, now: int, i: nat)
    requires DeskInv(DeskOf(s)) && i < |s.payments|
    requires Distinct(order) && forall k :: 0 <= k < |order| ==> order[k] < |s.events| && EventDue(s.events[order[k]], now)
    ensures |CheckAll(s, order, now).payments| == |s.payments|
    ensures LeftOrSuspended(s, now, s.payments[i], CheckAll(s, order, now).payments[i])
  {
    if order != [] {
      var init, last := order[..|order| - 1], order[|order| - 1];
      CheckAllRow(s, init, now, i);
      assert last !in init;
      CheckAllEvents(s, init, now);
      CheckAllSameUnits(s, init, now);
      CheckedRow(CheckAll(s, init, now), last, now, i);
    }
  }

  // ---- Any step ----

  /** Row `i` before and after a step. */
  ghost predicate StepTries(s: State, m: Moment, t: State, i: nat) {
    && |s.payments| <= |t.payments|
    && (|s.payments| <= i < |t.payments| ==> TriesTaken(t.payments[i]))
    && (i < |s.payments| ==>
          && t.payments[i].bond == s.payments[i].bond
          && (s.payments[i].status == Escalated ==> t.payments[i] == s.payments[i])
          && (TriesTaken(s.payments[i]) ==>
                || TriesTaken(t.payments[i])
                || (t.payments[i].status == Escalated && m.step.Checks? && FoundShort(s, s.payments[i].bond, m.at))))
  }

  lemma ChecksTries(s: State, order: seq<nat>, now: int, i: nat)
    requires DeskInv(DeskOf(s)) && Everything(order, DueEvents(s.events, now, false))
    ensures StepTries(s, Moment(Checks(order), now), CheckAll(s, order, now), i)
  {
    ChecksSameLength(s, order, now);
    if i < |s.payments| {
      CheckAllRow(s, order, now, i);
    }
  }

  lemma {:induction false} ChecksSameLength(s: State, order: seq<nat>, now: int)
    ensures |CheckAll(s, order, now).payments| == |s.payments|
  {
    if order != [] {
      ChecksSameLength(s, order[..|order| - 1], now);
    }
  }

  lemma CouponsTries(s: State, due: seq<nat>, turns: seq<Turn>, page: seq<nat>, now: int, i: nat)
    ensures StepTries(s, Moment(Coupons(due, turns, page), now), CouponsRun(s, due, turns, page), i)
  {
    MaterialisedAwaitPayment(s.payments, s.schedules, Bonds(s.platform.issues, s.terms), due);
    AttemptsSameLength(DeskOf(s).(payments := Materialised(s, due)), turns);
    if i < |DeskAfter(s, due, turns).payments| {
      CouponsTaken(s, due, turns, i);
    }
  }

  lemma FollowsTries(s: State, m: Moment, t: State, i: nat)
    requires DeskInv(DeskOf(s)) && Follows(s, m, t)
    ensures StepTries(s, m, t, i)
  {
    match m.step
    case Checks(order) => ChecksTries(s, order, m.at, i);
    case Coupons(due, turns, page) => CouponsTries(s, due, turns, page, m.at, i);
    case PayPrincipal(paydays) => EngineOutcomes.PayAllLeavesCoupons(s, paydays, m.at);
    case _ =>
  }

  // ---- Runs ----

  /** Some checks step before state `n` found the bond short. */
  ghost predicate FoundShortBefore(r: Run, n: nat, bond: nat)
    requires |r.states| == |r.moments| + 1 && n <= |r.moments|
  {
    exists j :: 0 <= j < n && r.moments[j].step.Checks? && FoundShort(r.states[j], bond, r.moments[j].at)
  }

  /** The row has taken its tries, or was suspended. */
  ghost predicate TriedOrSuspended(r: Run, n: nat, i: nat)
    requires |r.states| == |r.moments| + 1 && n <= |r.moments|
  {
    i < |r.states[n].payments| ==>
      || TriesTaken(r.states[n].payments[i])
      || (r.states[n].payments[i].status == Escalated && FoundShortBefore(r, n, r.states[n].payments[i].bond))
  }

  lemma OneStepTries(r: Run, n: nat, i: nat)
    requires Real(r) && n < |r.moments|
    ensures StepTries(r.states[n], r.moments[n], r.states[n + 1], i)
  {
    SoundParts(r, n);
    assert Happens(r, n);
    FollowsTries(r.states[n], r.moments[n], r.states[n + 1], i);
  }

  lemma {:induction false} EveryRowTried(r: Run, n: nat, i: nat)
    requires Real(r) && n <= |r.moments|
    ensures TriedOrSuspended(r, n, i)
  {
    if n > 0 {
      EveryRowTried(r, n - 1, i);
      OneStepTries(r, n - 1, i);
    }
  }

  /**
   In every run: a coupon that is given up, on a bond never found short of funds, has been
   tried three times; one still to be retried has been tried once or twice; and no coupon
   is tried more than three times.
   */
  lemma GivenUpAfterThreeTries(r: Run, n: nat, i: nat)
    requires Real(r) && n <= |r.moments| && i < |r.states[n].payments|
    ensures var p := r.states[n].payments[i];
            && (p.status == Escalated && !FoundShortBefore(r, n, p.bond) ==> p.attempts == 3)
            && (p.status == PaymentStatus.Pending ==> p.attempts == 0)
            && (p.status == Retry ==> p.attempts == 1 || p.attempts == 2)
            && (p.status == Paid ==> 1 <= p.attempts <= 3)
  {
    EveryRowTried(r, n, i);
  }

  // ---- No run passes a coupon over ----

  /** A coupon run that can take every payable row tries each outstanding row of a bond not in default once. */
  lemma OutstandingIsTried(s: State, step: Step, now: int, i: nat)
    requires DeskInv(DeskOf(s)) && step.Coupons? && Proper(s, step, now) && i < |s.payments|
    requires s.payments[i].status == PaymentStatus.Pending || s.payments[i].status == Retry
    requires s.payments[i].bond < |s.platform.issues| && s.platform.issues[s.payments[i].bond].book.status != Defaulted
    requires |PayableRows(Materialised(s, step.due), Bonds(s.platform.issues, s.terms))| <= 500
    ensures var t := Engine.After(s, step, now);
            i < |t.payments| && t.payments[i].attempts == s.payments[i].attempts + 1
  {
    var bonds := Bonds(s.platform.issues, s.terms);
    var made := Materialised(s, step.due);
    MaterialiseKeeps(s.payments, s.schedules, bonds, step.due);
    assert made[i] == s.payments[i] && RowValid(made[i]);
    assert i in PayableRows(made, bonds);
    PageIsWhole(Ids(step.turns), PayableRows(made, bonds), 500);
    var k :| 0 <= k < |step.turns| && Ids(step.turns)[k] == i;
    EachAttemptedOnce(DeskOf(s).(payments := made), step.turns, k);
  }

  /** A coupon run that can take every due schedule leaves a row for everyone owed something for one. */
  lemma DueIsRecorded(s: State, step: Step, now: int, k: nat, u: UserId, bond: Bond)
    requires DeskInv(DeskOf(s)) && step.Coupons? && Proper(s, step, now)
    requires k < |s.schedules| && s.schedules[k].payDay <= Day(now) && !s.schedules[k].processed
    requires s.schedules[k].start < s.schedules[k].end && s.schedules[k].bond < |s.platform.issues|
    requires bond == Bonds(s.platform.issues, s.terms)[s.schedules[k].bond] && bond.book.status == Active
    requires EngineOutcomes.Entitlement(s.schedules[k], bond, u).gross > 0
    requires |DueSchedules(s.schedules, Bonds(s.platform.issues, s.terms), Day(now))| <= 50
    ensures Recorded(Engine.After(s, step, now).payments, k, u)
  {
    var bonds := Bonds(s.platform.issues, s.terms);
    var made := Materialised(s, step.due);
    assert k in DueSchedules(s.schedules, bonds, Day(now));
    PageIsWhole(step.due, DueSchedules(s.schedules, bonds, Day(now)), 50);
    MaterialiseKeeps(s.payments, s.schedules, bonds, step.due);
    assert AllRecorded(made, k, s.schedules[k], bond);
    CouponDeskSound(s, step.due, step.turns);
    RecordedThroughout(made, DeskAfter(s, step.due, step.turns).payments, k, s.schedules[k], bond);
  }
}
