/**
 Runs that can be named: every run can go on, one that leaves a coupon outstanding exists,
 and a bond in it that is put in default by hand and closed has that coupon paid after all.
 */
module EngineReachable {
  import opened Sums
  import opened Money
  import opened Calendar
  import opened Schedule
  import opened Accrual
  import opened Register
  import opened PositionHistory
  import opened CouponRun
  import opened Engine
  import opened EngineRuns
  import opened EngineDefault
  import EngineGuarantees
  import Escrow
  import Wallet

  // ---- Pages exist ----

  function Cut(page: seq<nat>, limit: nat): (cut: seq<nat>)
    ensures |cut| <= limit && cut <= page && (|cut| == limit || cut == page)
  {
    if |page| <= limit then page else page[..limit]
  }

  function AnyPage(eligible: set<nat>, limit: nat): seq<nat> {
    Cut(InOrder(eligible), limit)
  }

  /** A page that starts with `x`. */
  function PageWith(eligible: set<nat>, limit: nat, x: nat): seq<nat>
    requires limit > 0
  {
    [x] + Cut(InOrder(eligible - {x}), limit - 1)
  }

  lemma AnyPageIsPage(eligible: set<nat>, limit: nat)
    ensures IsPage(AnyPage(eligible, limit), eligible, limit)
  {
    var all, page := InOrder(eligible), AnyPage(eligible, limit);
    forall i | 0 <= i < |page|
      ensures page[i] == all[i] && page[i] in eligible
    {
      assert all[i] in all;
    }
  }

  lemma PrependIsPage(eligible: set<nat>, rest: seq<nat>, page: seq<nat>, limit: nat, x: nat)
    requires x in eligible && IsPage(rest, eligible - {x}, limit) && page == [x] + rest
    ensures IsPage(page, eligible, limit + 1) && x in page
  {
    forall i, j | 0 <= i < j < |page|
      ensures page[i] != page[j]
    {
      assert page[j] == rest[j - 1] && rest[j - 1] in eligible - {x};
    }
    forall i | 0 <= i < |page|
      ensures page[i] in eligible
    {
      assert i > 0 ==> page[i] == rest[i - 1];
    }
    assert page[0] == x;
    forall k | k in eligible && |rest| < limit
      ensures k in page
    {
      assert k != x ==> k in eligible - {x};
    }
  }

  lemma PageWithIsPage(eligible: set<nat>, limit: nat, x: nat)
    requires limit > 0 && x in eligible
    ensures IsPage(PageWith(eligible, limit, x), eligible, limit) && x in PageWith(eligible, limit, x)
  {
    AnyPageIsPage(eligible - {x}, limit - 1);
    PrependIsPage(eligible, AnyPage(eligible - {x}, limit - 1), PageWith(eligible, limit, x), limit - 1, x);
  }

  /** Each row of the page as it is read, all with one answer from the rail. */
  function TurnsOf(payments: seq<Payment>, page: seq<nat>, rail: Rail): (turns: seq<Turn>)
    requires forall k :: 0 <= k < |page| ==> page[k] < |payments|
    ensures Ids(turns) == page && ReadFrom(turns, payments)
    ensures forall k :: 0 <= k < |turns| ==> turns[k] == Turn(page[k], payments[page[k]].attempts, rail)
  {
    var turns := seq(|page|, k requires 0 <= k < |page| => Turn(page[k], payments[page[k]].attempts, rail));
    assert Ids(turns) == page;
    turns
  }

  // ---- A coupon run that reaches a chosen row ----

  /** The rows of a coupon run, if every bond's due schedules are on the page `due`. */
  ghost predicate Reaches(s: State, step: Step, i: nat, rail: Rail) {
    && step.Coupons?
    && i < |Materialised(s, step.due)|
    && exists k :: 0 <= k < |step.turns| && step.turns[k] == Turn(i, Materialised(s, step.due)[i].attempts, rail)
  }

  /** From any state there is a proper coupon run over a given page of due schedules that reaches a given payable row. */
  lemma ReachingRun(s: State, due: seq<nat>, i: nat, rail: Rail, now: int) returns (step: Step)
    requires IsPage(due, DueSchedules(s.schedules, Bonds(s.platform.issues, s.terms), Day(now)), SCHEDULE_PAGE)
    requires i in PayableRows(Materialised(s, due), Bonds(s.platform.issues, s.terms))
    ensures step.Coupons? && step.due == due && Proper(s, step, now) && Reaches(s, step, i, rail)
  {
    var made := Materialised(s, due);
    var payable := PayableRows(made, Bonds(s.platform.issues, s.terms));
    var page := PageWith(payable, PAYMENT_PAGE, i);
    PageWithIsPage(payable, PAYMENT_PAGE, i);
    var closing := OpenSchedules(s.schedules, Day(now));
    AnyPageIsPage(closing, SCHEDULE_PAGE);
    var turns := TurnsOf(made, page, rail);
    assert turns[0] == Turn(i, made[i].attempts, rail);
    step := Coupons(due, turns, AnyPage(closing, SCHEDULE_PAGE));
  }

  /** Such a run attempts the row once. */
  lemma ReachedRow(s: State, step: Step, i: nat, rail: Rail, now: int)
    requires DeskInv(DeskOf(s)) && Proper(s, step, now) && Reaches(s, step, i, rail)
    requires Payable(Materialised(s, step.due)[i], Bonds(s.platform.issues, s.terms))
    ensures var p := Materialised(s, step.due)[i];
            var t := Engine.After(s, step, now);
            i < |t.payments| && t.payments[i] == Attempted(p, Turn(i, p.attempts, rail)) && p.due.net >= 0
  {
    var made := Materialised(s, step.due);
    var k :| 0 <= k < |step.turns| && step.turns[k] == Turn(i, made[i].attempts, rail);
    EachAttemptedOnce(DeskOf(s).(payments := made), step.turns, k);
    MaterialiseKeepsDesk(DeskOf(s), s.schedules, Bonds(s.platform.issues, s.terms), step.due);
    assert RowValid(made[i]);
  }

  // ---- Runs go on ----

  lemma Extended(r: Run, step: Step, at: int) returns (q: Run)
    requires Real(r) && Clock(r, |r.moments|) <= at && Proper(r.states[|r.moments|], step, at)
    ensures Real(q) && q.moments == r.moments + [Moment(step, at)]
    ensures q.states == r.states + [Engine.After(r.states[|r.moments|], step, at)]
  {
    var n := |r.moments|;
    q := Run(r.states + [Engine.After(r.states[n], step, at)], r.moments + [Moment(step, at)]);
    forall k | 0 <= k < |q.moments|
      ensures Happens(q, k)
    {
      if k < n {
        assert Happens(r, k);
      }
    }
  }

  // ---- A default by hand, closed, pays after all ----

  lemma DeskSoundAtEnd(r: Run)
    requires Real(r)
    ensures DeskInv(DeskOf(r.states[|r.moments|]))
  {
    EveryStateSound(r, |r.moments|);
  }

  /** Two status changes by hand, at the end of a run. */
  lemma HandMoves(r: Run, bond: nat, now: int) returns (q: Run)
    requires Real(r) && Clock(r, |r.moments|) <= now
    requires bond < |r.states[|r.moments|].platform.issues| && r.states[|r.moments|].platform.issues[bond].book.status == Active
    ensures Real(q)
    ensures q.moments == r.moments + [Moment(User(Escrow.OnRegister(bond, OpStatus(Defaulted))), now),
                                      Moment(User(Escrow.OnRegister(bond, OpStatus(Closed))), now)]
    ensures |q.states| == |r.states| + 2 && q.states[..|r.states|] == r.states
    ensures var s, u := r.states[|r.moments|], q.states[|q.moments|];
            && u.payments == s.payments && u.credits == s.credits
            && |u.platform.issues| == |s.platform.issues| && u.platform.issues[bond].book.status == Closed
  {
    var s := r.states[|r.moments|];
    AfterHands(s, bond, now, now);
    var mid := Extended(r, User(Escrow.OnRegister(bond, OpStatus(Defaulted))), now);
    q := Extended(mid, User(Escrow.OnRegister(bond, OpStatus(Closed))), now);
  }

  /** A proper coupon run at the end of a run pays a given payable row. */
  lemma RowIsPaid(r: Run, i: nat, now: int) returns (q: Run)
    requires Real(r) && Clock(r, |r.moments|) <= now
    requires var s := r.states[|r.moments|];
             i < |s.payments| && Payable(s.payments[i], Bonds(s.platform.issues, s.terms))
    ensures Real(q) && |q.moments| == |r.moments| + 1 && q.moments[..|r.moments|] == r.moments && q.states[..|r.states|] == r.states
    ensures q.moments[|r.moments|].step.Coupons?
    ensures |q.states| == |r.states| + 1
    ensures !HasCredit(r.states[|r.moments|].credits, i) && HasCredit(q.states[|r.states|].credits, i)
  {
    var s := r.states[|r.moments|];
    var bonds := Bonds(s.platform.issues, s.terms);
    DeskSoundAtEnd(r);
    var due := AnyPage(DueSchedules(s.schedules, bonds, Day(now)), SCHEDULE_PAGE);
    AnyPageIsPage(DueSchedules(s.schedules, bonds, Day(now)), SCHEDULE_PAGE);
    OldRowsKept(s, due, i);
    var step := ReachingRun(s, due, i, Rail.Ok(0), now);
    ReachedRow(s, step, i, Rail.Ok(0), now);
    q := Extended(r, step, now);
    DeskSoundAtEnd(q);
    var t := q.states[|r.states|];
    assert PaidMeansCredited(t.payments, t.credits) && t.payments[i].status == Paid;
  }

  lemma OldRowsKept(s: State, due: seq<nat>, i: nat)
    requires DeskInv(DeskOf(s)) && i < |s.payments|
    ensures i < |Materialised(s, due)| && Materialised(s, due)[i] == s.payments[i]
  {
    MaterialiseKeeps(s.payments, s.schedules, Bonds(s.platform.issues, s.terms), due);
  }

  /**
   In any run that leaves a coupon of an active bond outstanding, the bond can be put in
   default by hand, then closed, and the next coupon run pays the coupon.
   */
  lemma HandDefaultedRowIsPaid(r: Run, i: nat, bond: nat, now: int) returns (q: Run)
    requires Real(r) && Clock(r, |r.moments|) <= now
    requires var s := r.states[|r.moments|];
             && i < |s.payments| && s.payments[i].bond == bond < |s.platform.issues| && Outstanding(s.payments[i])
             && s.platform.issues[bond].book.status == Active
    ensures Real(q) && |q.moments| == |r.moments| + 3
    ensures q.moments[|r.moments|].step == User(Escrow.OnRegister(bond, OpStatus(Defaulted)))
    ensures q.moments[|r.moments| + 1].step == User(Escrow.OnRegister(bond, OpStatus(Closed)))
    ensures q.moments[|r.moments| + 2].step.Coupons?
    ensures q.states[|r.moments|] == r.states[|r.moments|]
    ensures !HasCredit(q.states[|r.moments| + 2].credits, i) && HasCredit(q.states[|r.moments| + 3].credits, i)
  {
    DeskSoundAtEnd(r);
    assert RowValid(r.states[|r.moments|].payments[i]);
    var mid := HandMoves(r, bond, now);
    q := RowIsPaid(mid, i, now);
  }

  // ---- A run that leaves a coupon outstanding ----

  /** One open bond of `units` units, at half the rate the table admits per year. */
  function OpenBook(units: nat): Book {
    Book(units, 10000, 0, 0, Open, map[], [], [], [])
  }

  function Deposited(u: UserId, units: nat, status: Wallet.TxnStatus): Wallet.Txn {
    Wallet.Txn(u, Wallet.Deposit, status, units, true, 1)
  }

  function Invested(u: UserId, units: nat): Wallet.Txn {
    Wallet.Txn(u, Wallet.Investment, Wallet.Completed, units, false, 2)
  }

  function Request(u: UserId, units: nat, now: int): Subscription {
    Subscription(u, units, SubscriptionStatus.Pending, now + COOLING_OFF_SECONDS, None, None)
  }

  function WithBook(bank: Wallet.Bank, book: Book, behind: seq<nat>, holds: seq<Escrow.Hold>): Escrow.Platform {
    Escrow.Platform(bank, [Escrow.Issue(book, behind, map[], map[])], holds)
  }

  function Empty(units: nat): Escrow.Platform {
    WithBook(Wallet.Bank(map[], []), OpenBook(units), [], [])
  }

  function DepositOpened(u: UserId, units: nat): Escrow.Platform {
    WithBook(Wallet.Bank(map[], [Deposited(u, units, Wallet.Awaiting)]), OpenBook(units), [], [])
  }

  function DepositSettled(u: UserId, units: nat): Escrow.Platform {
    WithBook(Wallet.Bank(map[u := units], [Deposited(u, units, Wallet.Completed)]), OpenBook(units), [], [])
  }

  function AllSpent(u: UserId, units: nat): Wallet.Bank {
    Wallet.Bank(map[u := 0], [Deposited(u, units, Wallet.Completed), Invested(u, units)])
  }

  function FundsHeld(u: UserId, units: nat): Escrow.Platform {
    WithBook(AllSpent(u, units), OpenBook(units), [], [Escrow.Hold(0, u, units, 1, None)])
  }

  function Placed(u: UserId, units: nat, now: int): Escrow.Platform {
    WithBook(AllSpent(u, units), OpenBook(units).(subs := [Request(u, units, now)]), [0], [Escrow.Hold(0, u, units, 1, Some(0))])
  }

  function FullBook(u: UserId, units: nat, now: int): Book {
    OpenBook(units).(holdings := map[u := units], raised := units, status := Subscribed,
                     subs := [Request(u, units, now).(status := Allocated, allocatedAt := Some(now))])
  }

  function Filled(u: UserId, units: nat, now: int): Escrow.Platform {
    WithBook(AllSpent(u, units), FullBook(u, units, now), [0], [Escrow.Hold(0, u, units, 1, Some(0))])
  }

  predicate Sized(units: nat) {
    1000 <= units <= 1000000000
  }

  lemma DepositOpens(u: UserId, units: nat, now: int)
    requires Sized(units)
    ensures Escrow.Take(Empty(units), Escrow.OpenDeposit(u, units, 1), now) == DepositOpened(u, units)
    ensures Escrow.Proper(Empty(units), Escrow.OpenDeposit(u, units, 1))
  {
  }

  lemma LocateOnly(ledger: seq<Wallet.Txn>, row: Wallet.Txn, reference: nat)
    requires ledger == [row] && row.paystack && row.reference == reference
    ensures Wallet.Locate(ledger, reference, false) == 0
  {
    assert ledger[..0] == [];
  }

  lemma DepositSettles(u: UserId, units: nat, now: int, result: Wallet.Result)
    requires Sized(units) && result == Wallet.DepositResult(1, true, units)
    ensures Escrow.Take(DepositOpened(u, units), Escrow.Settle(result), now) == DepositSettled(u, units)
    ensures Escrow.Proper(DepositOpened(u, units), Escrow.Settle(result))
  {
    var p := DepositOpened(u, units);
    LocateOnly(p.bank.ledger, Deposited(u, units, Wallet.Awaiting), 1);
    assert Wallet.Deliver(p.bank, result) == DepositSettled(u, units).bank;
  }

  lemma FundsAreHeld(u: UserId, units: nat, now: int)
    requires Sized(units)
    ensures Escrow.Take(DepositSettled(u, units), Escrow.HoldFunds(0, u, units, 2), now) == FundsHeld(u, units)
  {
    var p := DepositSettled(u, units);
    assert Wallet.DebitForEscrow(p.bank, u, units, 2) == Wallet.Changed(AllSpent(u, units));
  }

  lemma RowIsPlaced(u: UserId, units: nat, now: int)
    requires Sized(units)
    ensures Escrow.Take(FundsHeld(u, units), Escrow.PlaceSubscription(0), now) == Placed(u, units, now)
  {
    var p := FundsHeld(u, units);
    var placed := Escrow.PlacedIssue(p.issues[0], u, units, 0, now);
    assert placed.book.subs == [Request(u, units, now)] && placed.behind == [0];
    assert placed == Placed(u, units, now).issues[0];
    assert p.issues[0 := placed] == [placed];
    assert p.holds[0 := p.holds[0].(sub := Some(0))] == Placed(u, units, now).holds;
  }

  lemma BondFills(u: UserId, units: nat, now: int)
    requires Sized(units)
    ensures Escrow.Take(Placed(u, units, now), Escrow.OnRegister(0, OpAllocate(0)), now) == Filled(u, units, now)
  {
    var book := Placed(u, units, now).issues[0].book;
    assert ConcentrationCap(units, 10000) == units;
    assert book.subs[0 := Request(u, units, now).(status := Allocated, allocatedAt := Some(now))] == FullBook(u, units, now).subs;
    assert book.holdings[u := 0 + units] == map[u := units];
    assert Allocate(book, 0, now).Done?;
    assert Allocate(book, 0, now) == Done(FullBook(u, units, now));
    var p := Placed(u, units, now);
    assert p.issues[0 := p.issues[0].(book := FullBook(u, units, now))] == Filled(u, units, now).issues;
  }

  /** The platform with one monthly bond of one month, and nothing scheduled or paid. */
  function At(p: Escrow.Platform): State {
    State(p, [Terms(5000, 1, Monthly)], map[], [], [], [], [], [], map[], [])
  }

  function Last(r: Run): State
    requires |r.states| == |r.moments| + 1
  {
    r.states[|r.moments|]
  }

  lemma Begin(units: nat) returns (r: Run)
    requires Sized(units)
    ensures Real(r) && r.moments == [] && Last(r) == At(Empty(units))
  {
    r := Run([At(Empty(units))], []);
  }

  lemma UserStep(r: Run, st: Escrow.Step, p: Escrow.Platform, q: Escrow.Platform, now: int) returns (next: Run)
    requires Real(r) && Last(r) == At(p) && (r.moments != [] ==> Clock(r, |r.moments|) == now)
    requires Escrow.Take(p, st, now) == q && Escrow.Proper(p, st) && !st.PayOut?
    requires !(st.OnRegister? && st.op == OpStatus(Active))
    ensures Real(next) && Last(next) == At(q) && next.moments == r.moments + [Moment(User(st), now)]
  {
    if r.moments == [] {
      next := Run(r.states + [Engine.After(At(p), User(st), now)], [Moment(User(st), now)]);
      assert Happens(next, 0);
    } else {
      next := Extended(r, User(st), now);
    }
  }

  /** Money in, and debited for a subscription. */
  lemma FundedRun(u: UserId, units: nat, now: int) returns (r: Run)
    requires Sized(units)
    ensures Real(r) && |r.moments| == 3 && Last(r) == At(FundsHeld(u, units)) && Clock(r, |r.moments|) == now
  {
    var settled := Wallet.DepositResult(1, true, units);
    r := Begin(units);
    DepositOpens(u, units, now);
    r := UserStep(r, Escrow.OpenDeposit(u, units, 1), Empty(units), DepositOpened(u, units), now);
    DepositSettles(u, units, now, settled);
    r := UserStep(r, Escrow.Settle(settled), DepositOpened(u, units), DepositSettled(u, units), now);
    FundsAreHeld(u, units, now);
    r := UserStep(r, Escrow.HoldFunds(0, u, units, 2), DepositSettled(u, units), FundsHeld(u, units), now);
  }

  /** The subscription placed and allocated, and the bond full. */
  lemma FilledRun(u: UserId, units: nat, now: int) returns (r: Run)
    requires Sized(units)
    ensures Real(r) && |r.moments| == 5 && Last(r) == At(Filled(u, units, now)) && Clock(r, |r.moments|) == now
  {
    r := FundedRun(u, units, now);
    RowIsPlaced(u, units, now);
    r := UserStep(r, Escrow.PlaceSubscription(0), FundsHeld(u, units), Placed(u, units, now), now);
    BondFills(u, units, now);
    r := UserStep(r, Escrow.OnRegister(0, OpAllocate(0)), Placed(u, units, now), Filled(u, units, now), now);
  }

  /** Midnight of a date. */
  function Midnight(d: Date): int
    requires d.Valid()
  {
    d.DayNumber() * SECONDS_PER_DAY
  }

  lemma MidnightIsDate(d: Date)
    requires d.Valid()
    ensures Day(Midnight(d)) == d.DayNumber() >= 0 && DateOf(Day(Midnight(d))) == d
  {
    DateOfDayNumber(d);
  }

  lemma OneMonthPlan(terms: Terms, issue: Date, periods: seq<CouponPeriod>, now: int)
    requires issue.Valid() && now == Midnight(issue) && terms.tenor == 1 && StepMonths(terms.frequency) == 1
    requires periods == PeriodsOf(issue, 1, 1)
    ensures Day(now) >= 0 && Planned(terms, periods, now) && AllValid(periods)
  {
    MidnightIsDate(issue);
    ScheduleIsWholeSteps(periods, issue, terms.tenor, 1);
  }

  /** The bond active, its one coupon period before it. */
  predicate Running(s: State, u: UserId, units: nat, now: int, end: int) {
    && |s.platform.issues| == 1 && s.platform.issues[0].book == FullBook(u, units, now).(status := Active)
    && s.terms == [Terms(5000, 1, Monthly)] && s.payments == [] && s.credits == []
    && s.schedules == [ScheduleRow(0, 0, Day(now), end, end, false)] && Day(now) < end
  }

  /** Activating the filled bond with a one-period plan. */
  lemma FilledActivates(s: State, u: UserId, units: nat, now: int, periods: seq<CouponPeriod>, end: int)
    requires s == At(Filled(u, units, now)) && Day(now) >= 0 && AllValid(periods)
    requires |periods| == 1 && periods == [CouponPeriod(0, DateOf(Day(now)), periods[0].end, periods[0].end)]
    requires periods[0].start.DayNumber() == Day(now) < end == periods[0].end.DayNumber()
    ensures Running(Engine.After(s, Activate(0, periods), now), u, units, now, end)
  {
    SetStatusEffect(s.platform, 0, Active, now);
    assert ScheduleRows(0, periods) == [ScheduleRow(0, 0, Day(now), end, end, false)];
  }

  lemma OnePeriod(issue: Date, periods: seq<CouponPeriod>, now: int)
    requires issue.Valid() && now == Midnight(issue) && periods == PeriodsOf(issue, 1, 1)
    ensures |periods| == 1 && periods == [CouponPeriod(0, DateOf(Day(now)), periods[0].end, periods[0].end)]
    ensures periods[0].start.Valid() && periods[0].end.Valid() && periods[0].start.DayNumber() == Day(now) < periods[0].end.DayNumber()
  {
    MidnightIsDate(issue);
    BoundariesIncrease(issue, 1, 0);
  }

  lemma ActiveRun(u: UserId, units: nat, issue: Date) returns (r: Run, end: int)
    requires Sized(units) && issue.Valid()
    ensures Real(r) && Running(Last(r), u, units, Midnight(issue), end) && Clock(r, |r.moments|) == Midnight(issue)
  {
    var now := Midnight(issue);
    var periods := PeriodsOf(issue, 1, 1);
    r := FilledRun(u, units, now);
    var s := Last(r);
    OneMonthPlan(s.terms[0], issue, periods, now);
    OnePeriod(issue, periods, now);
    end := periods[0].end.DayNumber();
    FilledActivates(s, u, units, now, periods, end);
    r := Extended(r, Activate(0, periods), now);
  }

  // ---- Its coupon ----

  lemma CouponPositive(units: nat, days: nat, rateBps: nat)
    requires Sized(units) && days >= 1 && rateBps == 5000
    ensures Gross(units * days, rateBps) > 0
  {
    assert units * days >= 1000;
  }

  /** The one holder has held everything for the whole period. */
  lemma HolderIsOwed(book: Book, u: UserId, units: nat, now: int, end: int, rateBps: nat)
    requires Register.Inv(book, now) && Get(book.holdings, u) == units && Sized(units) && Day(now) < end && rateBps == 5000
    ensures HistoryOf(book).Accrued(u, Day(now), end, rateBps).gross > 0
  {
    var h := HistoryOf(book);
    forall t | Day(now) <= t < end
      ensures h.BalanceOn(u, t) == units
    {
      EngineGuarantees.BalanceToday(book, now, u, t);
    }
    ConstantStretch(h, u, Day(now), Day(now), end, units);
    CouponPositive(units, end - Day(now), rateBps);
  }

  lemma BookSoundAtEnd(r: Run)
    requires Real(r) && |Last(r).platform.issues| == 1
    ensures Register.Inv(Last(r).platform.issues[0].book, Clock(r, |r.moments|))
  {
    EveryStateSound(r, |r.moments|);
    assert Escrow.IssueValid(Last(r).platform.issues[0], Clock(r, |r.moments|));
  }

  /** Over a desk without rows the rows made are the holders' own, awaiting their first attempt. */
  lemma FirstRow(schedules: seq<ScheduleRow>, bonds: seq<Bond>, due: seq<nat>, u: UserId, made: seq<Payment>) returns (i: nat)
    requires |bonds| == 1 && |schedules| == 1 && schedules[0].bond == 0 && schedules[0].start < schedules[0].end && 0 in due
    requires HistoryOf(bonds[0].book).Accrued(u, schedules[0].start, schedules[0].end, bonds[0].rateBps).gross > 0
    requires made == MaterialiseAll([], schedules, bonds, due)
    ensures i < |made| && made[i].bond == 0 && made[i].attempts == 0 && Outstanding(made[i])
  {
    MaterialiseKeeps([], schedules, bonds, due);
    assert AllRecorded(made, 0, schedules[0], bonds[0]);
    assert Recorded(made, 0, u);
    i :| 0 <= i < |made| && made[i].schedule == 0 && made[i].due.user == u;
    MaterialisedAwaitPayment([], schedules, bonds, due);
    MaterialiseOwesTruly([], schedules, bonds, due);
  }

  /** Once the period is over a coupon run makes a payable row for the holder. */
  lemma RowIsMade(s: State, u: UserId, units: nat, now: int, end: int, due: seq<nat>, bonds: seq<Bond>) returns (i: nat)
    requires Running(s, u, units, now, end) && Sized(units) && Register.Inv(s.platform.issues[0].book, now)
    requires bonds == Bonds(s.platform.issues, s.terms) && 0 in due
    ensures i in PayableRows(Materialised(s, due), bonds)
    ensures i < |Materialised(s, due)| && Materialised(s, due)[i].bond == 0 && Materialised(s, due)[i].attempts == 0
  {
    HolderIsOwed(s.platform.issues[0].book, u, units, now, end, bonds[0].rateBps);
    i := FirstRow(s.schedules, bonds, due, u, Materialised(s, due));
  }

  /** A coupon run in which the holder's row is made and its one attempt fails. */
  lemma FailingCoupon(s: State, u: UserId, units: nat, now: int, end: int, at: int) returns (step: Step, i: nat)
    requires Running(s, u, units, now, end) && Sized(units) && DeskInv(DeskOf(s)) && Day(at) == end
    requires Register.Inv(s.platform.issues[0].book, now)
    ensures step.Coupons? && Proper(s, step, at)
    ensures var t := Engine.After(s, step, at);
            && i < |t.payments| && t.payments[i].bond == 0 && Outstanding(t.payments[i]) && t.platform.issues == s.platform.issues
  {
    var bonds := Bonds(s.platform.issues, s.terms);
    var dueNow := DueSchedules(s.schedules, bonds, Day(at));
    var due := PageWith(dueNow, SCHEDULE_PAGE, 0);
    PageWithIsPage(dueNow, SCHEDULE_PAGE, 0);
    i := RowIsMade(s, u, units, now, end, due, bonds);
    step := ReachingRun(s, due, i, Fails, at);
    ReachedRow(s, step, i, Fails, at);
  }

  /** A real run of the engine that ends with a coupon of an active bond outstanding. */
  lemma OutstandingRun(u: UserId, units: nat, issue: Date) returns (r: Run, i: nat)
    requires Sized(units) && issue.Valid()
    ensures Real(r)
    ensures var s := Last(r);
            && i < |s.payments| && s.payments[i].bond == 0 && Outstanding(s.payments[i])
            && 0 < |s.platform.issues| && s.platform.issues[0].book.status == Active
  {
    var before, end := ActiveRun(u, units, issue);
    BookSoundAtEnd(before);
    DeskSoundAtEnd(before);
    LaterThanMidnight(issue, end);
    var at := end * SECONDS_PER_DAY;
    var step;
    step, i := FailingCoupon(Last(before), u, units, Midnight(issue), end, at);
    r := Extended(before, step, at);
  }

  lemma LaterThanMidnight(issue: Date, end: int)
    requires issue.Valid() && Day(Midnight(issue)) < end
    ensures Midnight(issue) <= end * SECONDS_PER_DAY && Day(end * SECONDS_PER_DAY) == end
  {
    MidnightIsDate(issue);
  }

  /**
   The failing input, reached: for any first date, holder and size there is a real run in
   which a bond goes from active to defaulted by hand, is closed, and is then paid a coupon.
   */
  lemma HandDefaultedBondIsPaid(u: UserId, units: nat, issue: Date) returns (q: Run, n: nat, i: nat)
    requires Sized(units) && issue.Valid()
    ensures Real(q) && |q.moments| == n + 3
    ensures 0 < |q.states[n].platform.issues| && q.states[n].platform.issues[0].book.status == Active
    ensures i < |q.states[n].payments| && q.states[n].payments[i].bond == 0
    ensures q.moments[n].step == User(Escrow.OnRegister(0, OpStatus(Defaulted)))
    ensures q.moments[n + 1].step == User(Escrow.OnRegister(0, OpStatus(Closed)))
    ensures q.moments[n + 2].step.Coupons?
    ensures !HasCredit(q.states[n + 2].credits, i) && HasCredit(q.states[n + 3].credits, i)
  {
    var r;
    r, i := OutstandingRun(u, units, issue);
    n := |r.moments|;
    q := HandDefaultedRowIsPaid(r, i, 0, Clock(r, n));
  }
}
