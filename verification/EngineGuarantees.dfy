/**
 What the engine promises over whole runs: coupons follow true positions, money adds up,
 every row is settled, nothing is paid on a bond in default, and principal is returned
 once, in full, from funds that were checked.
 */
module EngineGuarantees {
  import opened Sums
  import opened Money
  import opened Accrual
  import opened Register
  import opened Schedule
  import opened PositionHistory
  import opened CouponRun
  import opened Redemption
  import opened BookSteps
  import opened Engine
  import opened EngineRuns
  import Escrow
  import Wallet

  // ---- Coupons follow the positions truly held ----

  /** Nothing but statuses changes. */
  ghost predicate SameUnits(issues: seq<Escrow.Issue>, after: seq<Escrow.Issue>) {
    |after| == |issues| && forall b :: 0 <= b < |issues| ==> after[b].book == issues[b].book.(status := after[b].book.status)
  }

  lemma SetStatusSameUnits(p: Escrow.Platform, bond: nat, to: BondStatus, now: int)
    ensures SameUnits(p.issues, SetStatus(p, bond, to, now).issues)
  {
    SetStatusEffect(p, bond, to, now);
  }

  lemma CheckedSameUnits(s: State, e: nat, now: int)
    ensures SameUnits(s.platform.issues, Checked(s, e, now).platform.issues)
  {
    if e < |s.events| {
      SetStatusSameUnits(s.platform, s.events[e].bond, Defaulted, now);
    }
  }

  lemma {:induction false} CheckAllSameUnits(s: State, order: seq<nat>, now: int)
    ensures SameUnits(s.platform.issues, CheckAll(s, order, now).platform.issues)
  {
    if order != [] {
      CheckAllSameUnits(s, order[..|order| - 1], now);
      CheckedSameUnits(CheckAll(s, order[..|order| - 1], now), order[|order| - 1], now);
    }
  }

  lemma PaidOutSameUnits(s: State, day: Payday, now: int)
    ensures SameUnits(s.platform.issues, PaidOut(s, day, now).platform.issues)
  {
    if day.event < |s.events| && s.events[day.event].bond < |s.platform.issues| {
      var v := RepaidVault(s, s.events[day.event].bond, day.holders);
      SetStatusSameUnits(s.platform.(bank := v.bank), s.events[day.event].bond, Matured, now);
    }
  }

  lemma {:induction false} PayAllSameUnits(s: State, order: seq<Payday>, now: int)
    ensures SameUnits(s.platform.issues, PayAll(s, order, now).platform.issues)
  {
    if order != [] {
      PayAllSameUnits(s, order[..|order| - 1], now);
      PaidOutSameUnits(PayAll(s, order[..|order| - 1], now), order[|order| - 1], now);
    }
  }

  lemma EngineMovesNoUnits(s: State, step: Step, now: int)
    requires !step.User?
    ensures SameUnits(s.platform.issues, Engine.After(s, step, now).platform.issues)
  {
    match step
    case DepositPrincipal(bond, amount) =>
    case CloseWindow(bond) =>
      SetStatusSameUnits(s.platform, bond, Subscribed, now);
      SetStatusSameUnits(s.platform, bond, Closed, now);
    case Activate(bond, periods) => SetStatusSameUnits(s.platform, bond, Active, now);
    case Checks(order) => CheckAllSameUnits(s, order, now);
    case Coupons(due, turns, page) =>
    case PayPrincipal(paydays) => PayAllSameUnits(s, paydays, now);
  }

  /** No step changes what the register says about an earlier day. */
  lemma StepKeepsPast(s: State, step: Step, now: int, bond: nat, u: UserId, day: int)
    requires EngineInv(s, now) && bond < |s.platform.issues| && day < Day(now)
    ensures var after := Engine.After(s, step, now).platform.issues;
            |after| == |s.platform.issues| &&
            HistoryOf(after[bond].book).BalanceOn(u, day) == HistoryOf(s.platform.issues[bond].book).BalanceOn(u, day)
  {
    if step.User? {
      TakeIsPlatformStep(s.platform, step.step, now);
      assert BookStep(s.platform.issues[bond].book, Engine.After(s, step, now).platform.issues[bond].book, now);
    } else {
      EngineMovesNoUnits(s, step, now);
      assert HistoryOf(Engine.After(s, step, now).platform.issues[bond].book) == HistoryOf(s.platform.issues[bond].book);
    }
  }

  /** The units `u` held of a bond at the end of a day, in the first `n` steps of a run as it really went. */
  function HeldOn(r: Run, n: nat, bond: nat, u: UserId, day: int): int
    requires |r.states| == |r.moments| + 1 && n <= |r.moments|
  {
    if n == 0 || Day(r.moments[n - 1].at) <= day then
      if bond < |r.states[n].platform.issues| then Get(r.states[n].platform.issues[bond].book.holdings, u) else 0
    else HeldOn(r, n - 1, bond, u, day)
  }

  lemma BalanceToday(b: Book, now: int, u: UserId, day: int)
    requires Register.Inv(b, now) && Day(now) <= day
    ensures HistoryOf(b).BalanceOn(u, day) == Get(b.holdings, u)
  {
    NothingMovedAfterToday(b, now, u, day);
    BalanceFromRows(b, u, day);
  }

  lemma HeldToday(t: State, now: int, bond: nat, u: UserId, day: int)
    requires EngineInv(t, now) && bond < |t.platform.issues| && Day(now) <= day
    ensures HistoryOf(t.platform.issues[bond].book).BalanceOn(u, day) == Get(t.platform.issues[bond].book.holdings, u)
  {
    assert Escrow.IssueValid(t.platform.issues[bond], now);
    BalanceToday(t.platform.issues[bond].book, now, u, day);
  }

  lemma EmptyHistory(b: Book, u: UserId, day: int)
    requires Fresh(b)
    ensures HistoryOf(b).BalanceOn(u, day) == Get(b.holdings, u)
  {
    FreshHoldsInv(b, day * SECONDS_PER_DAY);
    BalanceToday(b, day * SECONDS_PER_DAY, u, day);
  }

  /** The same bonds, and no bond's register says anything else about a day before today. */
  ghost predicate PastKept(s: State, t: State, now: int) {
    && |t.platform.issues| == |s.platform.issues|
    && (forall b, u: UserId, day: int :: 0 <= b < |s.platform.issues| && day < Day(now) ==>
          HistoryOf(t.platform.issues[b].book).BalanceOn(u, day) == HistoryOf(s.platform.issues[b].book).BalanceOn(u, day))
  }

  lemma FollowsKeepsPast(s: State, m: Moment, t: State)
    requires EngineInv(s, m.at) && Follows(s, m, t)
    ensures PastKept(s, t, m.at)
  {
    if m.step.User? {
      TakeIsPlatformStep(s.platform, m.step.step, m.at);
    } else {
      EngineMovesNoUnits(s, m.step, m.at);
    }
    forall b, u: UserId, day: int | 0 <= b < |s.platform.issues| && day < Day(m.at)
      ensures HistoryOf(t.platform.issues[b].book).BalanceOn(u, day) == HistoryOf(s.platform.issues[b].book).BalanceOn(u, day)
    {
      StepKeepsPast(s, m.step, m.at, b, u, day);
    }
  }

  lemma EveryStepKeepsPast(r: Run, k: nat)
    requires Real(r) && k < |r.moments|
    ensures PastKept(r.states[k], r.states[k + 1], r.moments[k].at)
  {
    SoundWhenTaken(r, k);
    FollowsKeepsPast(r.states[k], r.moments[k], r.states[k + 1]);
  }

  lemma {:induction false} RebuiltIsHeld(r: Run, n: nat, bond: nat, u: UserId, day: int)
    requires Real(r) && n <= |r.moments| && bond < |r.states[n].platform.issues|
    ensures HistoryOf(r.states[n].platform.issues[bond].book).BalanceOn(u, day) == HeldOn(r, n, bond, u, day)
  {
    if n == 0 {
      EmptyHistory(r.states[0].platform.issues[bond].book, u, day);
    } else if Day(r.moments[n - 1].at) <= day {
      EveryStateSound(r, n);
      HeldToday(r.states[n], r.moments[n - 1].at, bond, u, day);
    } else {
      EveryStepKeepsPast(r, n - 1);
      RebuiltIsHeld(r, n - 1, bond, u, day);
    }
  }

  /** Sum over the days of a period of the units held at the end of each. */
  function HeldDays(r: Run, n: nat, bond: nat, u: UserId, start: int, end: int): int
    requires |r.states| == |r.moments| + 1 && n <= |r.moments|
    decreases end - start
  {
    if end <= start then 0
    else HeldDays(r, n, bond, u, start, end - 1) + Accrual.Positive(HeldOn(r, n, bond, u, end - 1))
  }

  lemma {:induction false} UnitDaysAreHeldDays(r: Run, n: nat, bond: nat, u: UserId, start: int, end: int)
    requires Real(r) && n <= |r.moments| && bond < |r.states[n].platform.issues|
    ensures HistoryOf(r.states[n].platform.issues[bond].book).UnitDays(u, start, end) == HeldDays(r, n, bond, u, start, end)
    decreases end - start
  {
    if start < end {
      RebuiltIsHeld(r, n, bond, u, end - 1);
      UnitDaysAreHeldDays(r, n, bond, u, start, end - 1);
    }
  }

  /** What a row of a sound desk says of its schedule and bond. */
  lemma RowIsOwed(t: State, now: int, i: nat)
    requires EngineInv(t, now) && i < |t.payments|
    ensures var p := t.payments[i];
            && p.schedule < |t.schedules| && t.schedules[p.schedule].bond == p.bond < |t.terms|
            && |t.terms| == |t.platform.issues|
            && var row := t.schedules[p.schedule];
               && row.start < row.end && p.due.unitDays > 0 && p.due.gross > 0
               && p.due == HistoryOf(t.platform.issues[p.bond].book).Accrued(p.due.user, row.start, row.end, t.terms[p.bond].rateBps)
  {
    var p := t.payments[i];
    assert OwedTruly(p, t.schedules[p.schedule], Bonds(t.platform.issues, t.terms)[p.bond]);
  }

  lemma AccruedPositions(h: History, u: UserId, start: int, end: int, rateBps: nat)
    ensures h.Accrued(u, start, end, rateBps).unitDays == h.UnitDays(u, start, end)
    ensures h.Accrued(u, start, end, rateBps).closing == h.BalanceOn(u, end - 1)
  {
  }

  /** Where a row of a sound state belongs, and the positions its register says it pays for. */
  lemma RowPositions(t: State, now: int, i: nat)
    requires EngineInv(t, now) && i < |t.payments|
    ensures var p := t.payments[i];
            && p.schedule < |t.schedules| && t.schedules[p.schedule].bond == p.bond < |t.platform.issues|
            && var row, h := t.schedules[p.schedule], HistoryOf(t.platform.issues[p.bond].book);
               p.due.unitDays == h.UnitDays(p.due.user, row.start, row.end) > 0 && p.due.closing == h.BalanceOn(p.due.user, row.end - 1)
  {
    var p := t.payments[i];
    RowIsOwed(t, now, i);
    var row := t.schedules[p.schedule];
    AccruedPositions(HistoryOf(t.platform.issues[p.bond].book), p.due.user, row.start, row.end, t.terms[p.bond].rateBps);
  }

  lemma RowPositionsIn(r: Run, n: nat, i: nat)
    requires Real(r) && n <= |r.moments| && i < |r.states[n].payments|
    ensures var t := r.states[n];
            var p := t.payments[i];
            && p.schedule < |t.schedules| && t.schedules[p.schedule].bond == p.bond < |t.platform.issues|
            && var row, h := t.schedules[p.schedule], HistoryOf(t.platform.issues[p.bond].book);
               p.due.unitDays == h.UnitDays(p.due.user, row.start, row.end) > 0 && p.due.closing == h.BalanceOn(p.due.user, row.end - 1)
  {
    EveryStateSound(r, n);
    RowPositions(r.states[n], Clock(r, n), i);
  }

  /** The row weighs the units truly held, day by day, and closes on the units of the last day. */
  ghost predicate FollowsPositions(r: Run, n: nat, bond: nat, due: HolderAccrual, row: ScheduleRow)
    requires |r.states| == |r.moments| + 1 && n <= |r.moments|
  {
    && due.unitDays == HeldDays(r, n, bond, due.user, row.start, row.end) > 0
    && due.closing == HeldOn(r, n, bond, due.user, row.end - 1)
  }

  /**
   Every coupon row the engine ever makes, whenever it was made and whatever the register
   did since, is for the units its holder truly held in its period, day by day.
   */
  lemma CouponsFollowTruePositions(r: Run, n: nat, i: nat)
    requires Real(r) && n <= |r.moments| && i < |r.states[n].payments|
    ensures var t := r.states[n];
            var p := t.payments[i];
            && p.schedule < |t.schedules| && t.schedules[p.schedule].bond == p.bond
            && FollowsPositions(r, n, p.bond, p.due, t.schedules[p.schedule])
  {
    var t := r.states[n];
    var p := t.payments[i];
    RowPositionsIn(r, n, i);
    var row := t.schedules[p.schedule];
    UnitDaysAreHeldDays(r, n, p.bond, p.due.user, row.start, row.end);
    RebuiltIsHeld(r, n, p.bond, p.due.user, row.end - 1);
  }

  lemma RowIsPriced(t: State, now: int, i: nat)
    requires EngineInv(t, now) && i < |t.payments|
    ensures var due := t.payments[i].due;
            && t.payments[i].bond < |t.terms|
            && due.gross > 0
            && 3650000 * due.gross <= due.unitDays * t.terms[t.payments[i].bond].rateBps < 3650000 * (due.gross + 1)
            && 10 * due.wht <= due.gross < 10 * due.wht + 10
            && due.net == due.gross - due.wht
  {
    RowIsOwed(t, now, i);
    GrossInNumbers(t.payments[i].due.unitDays, t.terms[t.payments[i].bond].rateBps);
  }

  /**
   And its amounts follow from those unit-days: the rate is in ten-thousandths for 365 days,
   a tenth is tax, and each is rounded down once.
   */
  lemma CouponsArePriced(r: Run, n: nat, i: nat)
    requires Real(r) && n <= |r.moments| && i < |r.states[n].payments|
    ensures var t := r.states[n];
            var due := t.payments[i].due;
            && t.payments[i].bond < |t.terms|
            && due.gross > 0
            && 3650000 * due.gross <= due.unitDays * t.terms[t.payments[i].bond].rateBps < 3650000 * (due.gross + 1)
            && 10 * due.wht <= due.gross < 10 * due.wht + 10
            && due.net == due.gross - due.wht
  {
    EveryStateSound(r, n);
    RowIsPriced(r.states[n], Clock(r, n), i);
  }

  // ---- Money ----

  /** Completed deposits less withdrawals not failed. */
  function BankedOf(): Wallet.Txn -> int {
    (t: Wallet.Txn) => if t.kind == Wallet.Deposit || t.kind == Wallet.Withdrawal then Wallet.Worth(t) else 0
  }

  lemma {:induction false} ExternalSplits(ledger: seq<Wallet.Txn>)
    ensures SumBy(ledger, Escrow.ExternalOf()) == SumBy(ledger, BankedOf()) + SumBy(ledger, PayoutOf())
  {
    if ledger != [] {
      ExternalSplits(ledger[..|ledger| - 1]);
    }
  }

  /**
   At every moment of every run: what wallets hold, what is invested or on its way into or
   out of an investment, is what users paid in and did not take out, plus every coupon and
   every principal the engine credited; and the gross of all paid coupons is what was
   credited for them plus the tax recorded.
   */
  lemma AllMoneyAccounted(r: Run, n: nat)
    requires Real(r) && n <= |r.moments|
    ensures var t := r.states[n];
            var p := t.platform;
            && SumMap(p.bank.balances) + SumBy(p.issues, Escrow.Live()) + SumBy(p.holds, Escrow.UnplacedOf())
               + SumBy(p.issues, Escrow.Unrefunded())
               == SumBy(p.bank.ledger, BankedOf()) + SumBy(t.credits, CreditAmount()) + SumBy(t.principal, PrincipalAmount())
            && SumBy(t.payments, PaidGross()) == SumBy(t.credits, CreditAmount()) + SumBy(t.taxes, TaxAmount())
  {
    EveryStateSound(r, n);
    var t := r.states[n];
    Escrow.InvConservesMoney(t.platform, Clock(r, n));
    ExternalSplits(t.platform.bank.ledger);
  }

  /** Every coupon row is credited at most once, exactly when it is paid, with exactly one tax record. */
  lemma CouponsPaidExactlyOnce(r: Run, n: nat, i: nat)
    requires Real(r) && n <= |r.moments| && i < |r.states[n].payments|
    ensures var t := r.states[n];
            && (t.payments[i].status == Paid <==> HasCredit(t.credits, i))
            && (forall k, m :: 0 <= k < m < |t.credits| ==> t.credits[k].payment != t.credits[m].payment)
            && |t.taxes| == |t.credits|
            && (forall k :: 0 <= k < |t.credits| && t.credits[k].payment == i ==>
                  var due := t.payments[i].due;
                  t.credits[k] == Credit(i, due.user, due.net) && t.taxes[k] == Tax(i, due.user, due.gross, due.wht))
  {
    EveryStateSound(r, n);
  }
}
