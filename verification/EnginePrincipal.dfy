/**
 Principal: a bond is marked matured exactly when every holder has been credited their
 units, once, out of an escrow that was checked to hold them.
 */
module EnginePrincipal {
  import opened Sums
  import opened Accrual
  import opened Register
  import opened Schedule
  import opened CouponRun
  import opened Redemption
  import opened BookSteps
  import opened Engine
  import opened EngineRuns
  import opened EngineGuarantees
  import EngineDefault
  import Escrow

  predicate RailTookAll(holders: seq<Repayment>) {
    forall i :: 0 <= i < |holders| ==> holders[i].rail.Ok?
  }

  predicate IsMaturity(s: State, e: nat, now: int) {
    e < |s.events| && EventDue(s.events[e], now) && s.events[e].stage == Maturity && s.events[e].bond < |s.platform.issues|
  }

  lemma NobodyReturnedYet(s: State, e: nat, now: int)
    requires ReturnsSound(s.events, s.returned, s.platform.issues) && IsMaturity(s, e, now)
    ensures NoReturns(s.returned, s.events[e].bond)
  {
  }

  lemma BookOfSound(s: State, bond: nat, now: int)
    requires Escrow.PlatformInv(s.platform, now) && bond < |s.platform.issues|
    ensures Register.Inv(s.platform.issues[bond].book, now)
  {
    assert Escrow.IssueValid(s.platform.issues[bond], now);
  }

  /**
   The payout of an active bond marks it matured exactly when the rail took every payment.
   Then every holder was credited exactly their units, once, and the total is what was
   raised, which is at most the size of the bond.
   */
  lemma MaturedMeansEveryoneRepaid(s: State, day: Payday, now: int, book: Book)
    requires EngineInv(s, now) && IsMaturity(s, day.event, now)
    requires book == s.platform.issues[s.events[day.event].bond].book && book.status == Active
    requires Everyone(day.holders, book.holdings)
    ensures var bond := s.events[day.event].bond;
            var t := PaidOut(s, day, now);
            && |t.platform.issues| == |s.platform.issues|
            && t.platform.issues[bond].book.status == (if RailTookAll(day.holders) then Matured else Active)
            && (RailTookAll(day.holders) ==> t.principal == s.principal + Shares(bond, book.holdings, day.holders))
            && SumBy(Shares(bond, book.holdings, day.holders), PrincipalAmount()) == book.raised <= book.total
  {
    var bond := s.events[day.event].bond;
    NobodyReturnedYet(s, day.event, now);
    FullPayout(VaultOf(s), bond, book.holdings, day.holders);
    BookOfSound(s, bond, now);
    SharesAddUpToRaised(book, bond, day.holders, now);
    PaidOutActive(s, day, now);
    SetStatusEffect(Settled(s, day.event, day.holders).platform, bond, Matured, now);
  }

  /** Over a whole run nobody is credited principal of one bond twice, and a return row is paid exactly when it was. */
  lemma PrincipalReturnedOnce(r: Run, n: nat)
    requires Real(r) && n <= |r.moments|
    ensures ReturnedOnce(r.states[n].returned, r.states[n].principal)
  {
    EveryStateSound(r, n);
  }

  // ---- The funding check comes first ----

  predicate ChecksDone(events: seq<EventRow>, now: int) {
    forall e :: 0 <= e < |events| && events[e].stage == TMinus30 && events[e].day <= Day(now) ==> events[e].executed
  }

  lemma CheckedExecutes(s: State, e: nat, now: int)
    requires e < |s.events| && s.events[e].bond < |s.platform.issues| && s.events[e].stage != Maturity
    ensures |Checked(s, e, now).events| == |s.events|
    ensures s.events[e].day <= Day(now) ==> Checked(s, e, now).events[e] == s.events[e].(executed := true)
  {
  }

  lemma CheckedKeepsExecuted(s: State, e: nat, now: int)
    ensures var t := Checked(s, e, now);
            && |t.events| == |s.events| && |t.platform.issues| == |s.platform.issues|
            && forall f :: 0 <= f < |s.events| ==>
                 t.events[f] == s.events[f].(executed := t.events[f].executed) && (s.events[f].executed ==> t.events[f].executed)
  {
    CheckedSameUnits(s, e, now);
  }

  lemma {:induction false} CheckAllExecutes(s: State, order: seq<nat>, now: int)
    requires forall k :: 0 <= k < |order| ==> order[k] in DueEvents(s.events, now, false)
    requires forall e :: 0 <= e < |s.events| ==> s.events[e].bond < |s.platform.issues|
    ensures var t := CheckAll(s, order, now);
            && |t.events| == |s.events| && |t.platform.issues| == |s.platform.issues|
            && (forall f :: 0 <= f < |s.events| ==>
                  t.events[f] == s.events[f].(executed := t.events[f].executed) && (s.events[f].executed ==> t.events[f].executed))
            && (forall k :: 0 <= k < |order| ==> order[k] < |t.events| && t.events[order[k]].executed)
  {
    if order != [] {
      var init, last := order[..|order| - 1], order[|order| - 1];
      CheckAllExecutes(s, init, now);
      CheckedKeepsExecuted(CheckAll(s, init, now), last, now);
      CheckedExecutes(CheckAll(s, init, now), last, now);
    }
  }

  lemma ChecksAreDone(s: State, order: seq<nat>, now: int)
    requires Everything(order, DueEvents(s.events, now, false))
    requires forall e :: 0 <= e < |s.events| ==> s.events[e].bond < |s.platform.issues|
    ensures ChecksDone(CheckAll(s, order, now).events, now)
  {
    CheckAllExecutes(s, order, now);
    var t := CheckAll(s, order, now);
    forall e | 0 <= e < |t.events| && t.events[e].stage == TMinus30 && t.events[e].day <= Day(now)
      ensures t.events[e].executed
    {
      if !s.events[e].executed {
        assert e in DueEvents(s.events, now, false) && e in order;
      }
    }
  }

  lemma PaidOutKeepsEvents(s: State, day: Payday, now: int)
    ensures var t := PaidOut(s, day, now);
            && |t.events| == |s.events| && t.escrow == s.escrow
            && forall f :: 0 <= f < |s.events| ==>
                 t.events[f] == s.events[f].(executed := t.events[f].executed)
                 && (f != day.event || s.events[f].stage != Maturity ==> t.events[f] == s.events[f])
  {
  }

  lemma {:induction false} PayAllKeepsEvents(s: State, order: seq<Payday>, now: int)
    ensures var t := PayAll(s, order, now);
            && |t.events| == |s.events| && t.escrow == s.escrow
            && forall f :: 0 <= f < |s.events| ==>
                 t.events[f] == s.events[f].(executed := t.events[f].executed)
                 && (f !in MaturitiesOf(order) || s.events[f].stage != Maturity ==> t.events[f] == s.events[f])
  {
    if order != [] {
      var init, last := order[..|order| - 1], order[|order| - 1];
      PayAllKeepsEvents(s, init, now);
      PaidOutKeepsEvents(PayAll(s, init, now), last, now);
      assert MaturitiesOf(order) == MaturitiesOf(init) + [last.event];
    }
  }

  /** The funding check that belongs to this maturity event has run. */
  predicate FundingChecked(events: seq<EventRow>, e: nat) {
    2 <= e < |events| && events[e - 2].executed
  }

  /** At its maturity event a bond still active whose funding check has run is funded. */
  lemma ActiveAtMaturityIsFunded(s: State, e: nat, now: int)
    requires EventsSound(s.events, s.platform.issues) && CheckedMeansFunded(s.events, s.escrow, s.platform.issues)
    requires FundingChecked(s.events, e) && IsMaturity(s, e, now)
    requires s.platform.issues[s.events[e].bond].book.status == Active
    ensures !Unfunded(s, s.events[e].bond)
  {
    assert Matures(s.events, e);
  }

  /** Paying out earlier bonds leaves a later payday's event, every funding check and every holding alone. */
  lemma EarlierPaydays(s: State, paydays: seq<Payday>, k: nat, now: int)
    requires k < |paydays| && Distinct(MaturitiesOf(paydays)) && paydays[k].event < |s.events|
    ensures var t := PayAll(s, paydays[..k], now);
            && |t.events| == |s.events| && t.escrow == s.escrow
            && t.events[paydays[k].event] == s.events[paydays[k].event]
            && (forall e :: 0 <= e < |s.events| && s.events[e].stage != Maturity ==> t.events[e] == s.events[e])
            && (forall e :: 0 <= e < |s.events| ==> t.events[e].stage == s.events[e].stage)
  {
    PayAllKeepsEvents(s, paydays[..k], now);
    forall j | 0 <= j < k
      ensures MaturitiesOf(paydays[..k])[j] != paydays[k].event
    {
      assert MaturitiesOf(paydays)[j] != MaturitiesOf(paydays)[k];
    }
  }

  lemma SameHolders(s: State, t: State, day: Payday)
    requires SameUnits(s.platform.issues, t.platform.issues) && Holders(s, day)
    requires |t.events| == |s.events| && t.events[day.event] == s.events[day.event]
    ensures Holders(t, day)
  {
  }

  /** The k-th payday of a pass, in the state the pass has reached by then. */
  lemma PaydayReached(s: State, paydays: seq<Payday>, k: nat, now: int)
    requires Proper(s, PayPrincipal(paydays), now) && k < |paydays| && FundingChecked(s.events, paydays[k].event)
    requires EventsSound(s.events, s.platform.issues)
    ensures var t := PayAll(s, paydays[..k], now);
            IsMaturity(t, paydays[k].event, now) && FundingChecked(t.events, paydays[k].event) && Holders(t, paydays[k])
  {
    var e := paydays[k].event;
    assert MaturitiesOf(paydays)[k] == e && e in DueEvents(s.events, now, true);
    assert Matures(s.events, e);
    EarlierPaydays(s, paydays, k, now);
    PayAllSameUnits(s, paydays[..k], now);
    assert Holders(s, paydays[k]);
    SameHolders(s, PayAll(s, paydays[..k], now), paydays[k]);
  }

  /**
   The payday takes state `t` to `u`: the bond is matured exactly when the rail took every
   payment, and then everyone was credited their units, in total the raise, which the size
   and the principal escrow cover.
   */
  predicate PaidFromFunds(t: State, day: Payday, u: State) {
    && day.event < |t.events| && t.events[day.event].bond < |t.platform.issues|
    && u.escrow == t.escrow && |u.platform.issues| == |t.platform.issues|
    && var bond := t.events[day.event].bond;
       var book := t.platform.issues[bond].book;
       && (u.platform.issues[bond].book.status == Matured <==> RailTookAll(day.holders))
       && (RailTookAll(day.holders) ==>
             && u.principal == t.principal + Shares(bond, book.holdings, day.holders)
             && SumBy(Shares(bond, book.holdings, day.holders), PrincipalAmount()) == book.raised
             && book.raised <= book.total <= Get(u.escrow, bond))
  }

  lemma DueIsChecked(s: State, paydays: seq<Payday>, k: nat, now: int)
    requires ChecksDone(s.events, now) && EventsSound(s.events, s.platform.issues)
    requires Proper(s, PayPrincipal(paydays), now) && k < |paydays|
    ensures FundingChecked(s.events, paydays[k].event)
  {
    var e := paydays[k].event;
    assert MaturitiesOf(paydays)[k] == e && e in DueEvents(s.events, now, true);
    assert Matures(s.events, e);
  }

  /**
   In every tick: a bond the payout pass marks matured was funded when its checks ran; its
   principal escrow covers its whole size, and so everything that was paid out for it.
   */
  lemma TickMaturesOnlyFunded(s: State, order: seq<nat>, due: seq<nat>, turns: seq<Turn>, page: seq<nat>,
                              paydays: seq<Payday>, k: nat, now: int)
    requires EngineInv(s, now) && Proper(s, Checks(order), now)
    requires Proper(CheckAll(s, order, now), Coupons(due, turns, page), now)
    requires var paid := CouponsRun(CheckAll(s, order, now), due, turns, page);
             && k < |paydays| && Proper(paid, PayPrincipal(paydays), now)
             && StillActive(PayAll(paid, paydays[..k], now), paydays[k])
    ensures var paid := CouponsRun(CheckAll(s, order, now), due, turns, page);
            var t := PayAll(paid, paydays[..k], now);
            PaidFromFunds(t, paydays[k], PaidOut(t, paydays[k], now))
  {
    var checked := CheckAll(s, order, now);
    var paid := CouponsRun(checked, due, turns, page);
    CheckAllKeepsInv(s, order, now);
    CouponsKeepInv(checked, due, turns, page, now);
    ChecksAreDone(s, order, now);
    DueIsChecked(paid, paydays, k, now);
    FundedPayday(paid, paydays, k, now);
  }

  lemma PaydayOutcome(t: State, day: Payday, now: int)
    requires EngineInv(t, now) && IsMaturity(t, day.event, now) && FundingChecked(t.events, day.event) && Holders(t, day)
    requires t.platform.issues[t.events[day.event].bond].book.status == Active
    ensures PaidFromFunds(t, day, PaidOut(t, day, now))
  {
    var bond := t.events[day.event].bond;
    MaturedMeansEveryoneRepaid(t, day, now, t.platform.issues[bond].book);
    ActiveAtMaturityIsFunded(t, day.event, now);
    PaidOutKeepsEvents(t, day, now);
  }

  // ---- In any run ----

  /** Events are only added and marked, and the principal escrow of no bond shrinks. */
  ghost predicate Forward(s: State, t: State) {
    && |s.events| <= |t.events|
    && (forall f :: 0 <= f < |s.events| ==>
          t.events[f] == s.events[f].(executed := t.events[f].executed) && (s.events[f].executed ==> t.events[f].executed))
    && (forall b: nat :: Get(s.escrow, b) <= Get(t.escrow, b))
  }

  lemma ForwardTransitive(s: State, t: State, u: State)
    requires Forward(s, t) && Forward(t, u)
    ensures Forward(s, u)
  {
  }

  lemma CheckedForward(s: State, e: nat, now: int)
    ensures Forward(s, Checked(s, e, now))
  {
    CheckedKeepsExecuted(s, e, now);
  }

  lemma {:induction false} CheckAllForward(s: State, order: seq<nat>, now: int)
    ensures Forward(s, CheckAll(s, order, now))
  {
    if order != [] {
      var mid := CheckAll(s, order[..|order| - 1], now);
      CheckAllForward(s, order[..|order| - 1], now);
      CheckedForward(mid, order[|order| - 1], now);
      ForwardTransitive(s, mid, CheckAll(s, order, now));
    }
  }

  lemma PaidOutForward(s: State, day: Payday, now: int)
    ensures Forward(s, PaidOut(s, day, now))
  {
  }

  lemma {:induction false} PayAllForward(s: State, order: seq<Payday>, now: int)
    ensures Forward(s, PayAll(s, order, now))
  {
    if order != [] {
      var mid := PayAll(s, order[..|order| - 1], now);
      PayAllForward(s, order[..|order| - 1], now);
      PaidOutForward(mid, order[|order| - 1], now);
      ForwardTransitive(s, mid, PayAll(s, order, now));
    }
  }

  lemma StepForward(s: State, step: Step, now: int)
    ensures Forward(s, Engine.After(s, step, now))
  {
    match step
    case Checks(order) => CheckAllForward(s, order, now);
    case PayPrincipal(paydays) => PayAllForward(s, paydays, now);
    case _ =>
  }

  /** Over any stretch of any run events persist, executed ones stay executed, and escrow never shrinks. */
  lemma {:induction false} RunForward(r: Run, j: nat, k: nat)
    requires Real(r) && j <= k <= |r.moments|
    ensures Forward(r.states[j], r.states[k])
    decreases k
  {
    if j < k {
      RunForward(r, j, k - 1);
      assert Happens(r, k - 1);
      StepForward(r.states[k - 1], r.moments[k - 1].step, r.moments[k - 1].at);
      ForwardTransitive(r.states[j], r.states[k - 1], r.states[k]);
    }
  }

  /** What a step pays into the principal escrow of a bond. */
  function DepositsTo(bond: nat): Moment -> int {
    (m: Moment) => if m.step.DepositPrincipal? && m.step.bond == bond then m.step.amount else 0
  }

  lemma StepEscrow(s: State, m: Moment, bond: nat)
    requires bond < |s.platform.issues|
    ensures Get(Engine.After(s, m.step, m.at).escrow, bond) == Get(s.escrow, bond) + DepositsTo(bond)(m)
  {
    match m.step
    case Checks(order) => CheckAllEscrow(s, order, m.at);
    case PayPrincipal(paydays) => PayAllKeepsEvents(s, paydays, m.at);
    case _ =>
  }

  lemma {:induction false} CheckAllEscrow(s: State, order: seq<nat>, now: int)
    ensures CheckAll(s, order, now).escrow == s.escrow
  {
    if order != [] {
      CheckAllEscrow(s, order[..|order| - 1], now);
    }
  }

  lemma BondsStay(r: Run, k: nat)
    requires Real(r) && k < |r.moments|
    ensures |r.states[k + 1].platform.issues| == |r.states[k].platform.issues|
  {
    SoundWhenTaken(r, k);
    assert Happens(r, k);
    EngineDefault.StepRevivesNone(r.states[k], r.moments[k].step, r.moments[k].at);
  }

  lemma EscrowAtStep(r: Run, k: nat, bond: nat)
    requires Real(r) && k < |r.moments| && bond < |r.states[k].platform.issues|
    ensures bond < |r.states[k + 1].platform.issues|
    ensures Get(r.states[k + 1].escrow, bond) == Get(r.states[k].escrow, bond) + DepositsTo(bond)(r.moments[k])
    ensures DepositsTo(bond)(r.moments[k]) >= 0
  {
    BondsStay(r, k);
    assert Happens(r, k);
    StepEscrow(r.states[k], r.moments[k], bond);
  }

  /** Over any stretch of any run the escrow of a bond changes by exactly what was deposited, so it never shrinks. */
  lemma {:induction false} EscrowIsWhatWasDeposited(r: Run, j: nat, k: nat, bond: nat)
    requires Real(r) && j <= k <= |r.moments| && bond < |r.states[j].platform.issues|
    ensures bond < |r.states[k].platform.issues|
    ensures Get(r.states[k].escrow, bond) == Get(r.states[j].escrow, bond) + SumBy(r.moments[j..k], DepositsTo(bond))
    ensures Get(r.states[j].escrow, bond) <= Get(r.states[k].escrow, bond)
    decreases k
  {
    if j < k {
      EscrowIsWhatWasDeposited(r, j, k - 1, bond);
      EscrowAtStep(r, k - 1, bond);
      assert r.moments[j..k] == r.moments[j..k - 1] + [r.moments[k - 1]];
      SumByPush(r.moments[j..k - 1], r.moments[k - 1], DepositsTo(bond));
    }
  }

  /** The funding check at index `e` was due in some checks step of the run before state `k`. */
  predicate CheckRanBefore(r: Run, j: nat, k: nat, e: nat)
    requires |r.states| == |r.moments| + 1
  {
    && j < k <= |r.moments| && r.moments[j].step.Checks?
    && e < |r.states[j].events| && r.states[j].events[e].stage == TMinus30
    && r.states[j].events[e].day <= Day(r.moments[j].at)
  }

  lemma CheckRanIsExecuted(r: Run, j: nat, k: nat, e: nat)
    requires Real(r) && CheckRanBefore(r, j, k, e)
    ensures e < |r.states[k].events| && r.states[k].events[e].executed && r.states[k].events[e].stage == TMinus30
    ensures r.states[k].events[e].bond == r.states[j].events[e].bond
  {
    ChecksStepDone(r, j);
    RunForward(r, j, j + 1);
    RunForward(r, j + 1, k);
  }

  lemma ChecksStepDone(r: Run, j: nat)
    requires Real(r) && j < |r.moments| && r.moments[j].step.Checks?
    ensures ChecksDone(r.states[j + 1].events, r.moments[j].at)
  {
    SoundEvents(r, j);
    assert Happens(r, j);
    ChecksAreDone(r.states[j], r.moments[j].step.order, r.moments[j].at);
  }

  lemma SoundEvents(r: Run, k: nat)
    requires Real(r) && k <= |r.moments|
    ensures var s := r.states[k];
            EventsSound(s.events, s.platform.issues) && CheckedMeansFunded(s.events, s.escrow, s.platform.issues)
  {
    EveryStateSound(r, k);
  }

  /**
   In any run, whatever users, clocks and other passes do in between: once the funding check
   of a bond has come due in some tick, the bond is never active again without its whole
   size in the principal escrow.
   */
  lemma ActiveAfterCheckIsFunded(r: Run, j: nat, k: nat, e: nat)
    requires Real(r) && CheckRanBefore(r, j, k, e)
    ensures var s := r.states[k];
            var bond := r.states[j].events[e].bond;
            && bond < |s.platform.issues|
            && (s.platform.issues[bond].book.status == Active ==> Get(s.escrow, bond) >= s.platform.issues[bond].book.total)
  {
    CheckRanIsExecuted(r, j, k, e);
    SoundEvents(r, k);
  }

  /** The payday's bond has not stopped being active before its turn. */
  predicate StillActive(t: State, day: Payday) {
    && day.event < |t.events| && t.events[day.event].bond < |t.platform.issues|
    && t.platform.issues[t.events[day.event].bond].book.status == Active
  }

  lemma FundedPayday(s: State, paydays: seq<Payday>, k: nat, now: int)
    requires EngineInv(s, now) && Proper(s, PayPrincipal(paydays), now) && k < |paydays|
    requires FundingChecked(s.events, paydays[k].event)
    requires StillActive(PayAll(s, paydays[..k], now), paydays[k])
    ensures var t := PayAll(s, paydays[..k], now); PaidFromFunds(t, paydays[k], PaidOut(t, paydays[k], now))
  {
    PayAllKeepsInv(s, paydays[..k], now);
    PaydayReached(s, paydays, k, now);
    PaydayOutcome(PayAll(s, paydays[..k], now), paydays[k], now);
  }

  lemma PayStepSound(r: Run, n: nat, paydays: seq<Payday>)
    requires Real(r) && n < |r.moments| && r.moments[n].step == PayPrincipal(paydays)
    ensures EngineInv(r.states[n], r.moments[n].at) && Proper(r.states[n], PayPrincipal(paydays), r.moments[n].at)
  {
    SoundWhenTaken(r, n);
  }

  lemma PayStepFunded(r: Run, n: nat, paydays: seq<Payday>, k: nat, s: State, now: int)
    requires Real(r) && n < |r.moments| && r.moments[n] == Moment(PayPrincipal(paydays), now) && k < |paydays| && s == r.states[n]
    requires FundingChecked(s.events, paydays[k].event) && StillActive(PayAll(s, paydays[..k], now), paydays[k])
    ensures var t := PayAll(s, paydays[..k], now); PaidFromFunds(t, paydays[k], PaidOut(t, paydays[k], now))
  {
    PayStepSound(r, n, paydays);
    FundedPayday(s, paydays, k, now);
  }

  /** And so every payout of principal, in any run, is out of funds that were checked. */
  lemma PayoutIsFunded(r: Run, j: nat, n: nat, paydays: seq<Payday>, k: nat)
    requires Real(r) && n < |r.moments| && r.moments[n].step == PayPrincipal(paydays) && k < |paydays|
    requires paydays[k].event >= 2 && CheckRanBefore(r, j, n, paydays[k].event - 2)
    requires paydays[k].event < |r.states[n].events|
    requires StillActive(PayAll(r.states[n], paydays[..k], r.moments[n].at), paydays[k])
    ensures var t := PayAll(r.states[n], paydays[..k], r.moments[n].at);
            PaidFromFunds(t, paydays[k], PaidOut(t, paydays[k], r.moments[n].at))
  {
    CheckRanIsExecuted(r, j, n, paydays[k].event - 2);
    PayStepFunded(r, n, paydays, k, r.states[n], r.moments[n].at);
  }
}
