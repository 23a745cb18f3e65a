/**
 The bond engine on top of the platform: windows close, bonds are activated, checkpoints
 run, coupons are paid and principal is returned, after src/bonds/engine/engine.tick.ts
 and the services it calls. Anything users, trustees and admins do may come between.

 Clock seconds and day numbers share the calendar's origin, 0000-01-01.
 */
module Engine {
  import opened Sums
  import opened Calendar
  import opened Schedule
  import opened Accrual
  import opened Register
  import opened PositionHistory
  import opened CouponRun
  import opened Redemption
  import opened BookSteps
  import Escrow
  import Wallet

  datatype Terms = Terms(rateBps: nat, tenor: nat, frequency: CouponFrequency)

  datatype EventRow = EventRow(bond: nat, stage: Stage, day: int, executed: bool)

  /** `escrow` is the principal escrow account of each bond. */
  datatype State = State(
    platform: Escrow.Platform, terms: seq<Terms>, escrow: map<nat, int>,
    schedules: seq<ScheduleRow>, events: seq<EventRow>,
    payments: seq<Payment>, taxes: seq<Tax>, credits: seq<Credit>,
    returned: map<(nat, UserId), ReturnRow>, principal: seq<Principal>)

  /** A maturity event in the order met, with the holders as met. */
  datatype Payday = Payday(event: nat, holders: seq<Repayment>)

  datatype Step =
    | User(step: Escrow.Step)
    | DepositPrincipal(bond: nat, amount: nat)
    | CloseWindow(bond: nat)
    | Activate(bond: nat, periods: seq<CouponPeriod>)
    | Checks(order: seq<nat>)
    | Coupons(due: seq<nat>, turns: seq<Turn>, page: seq<nat>)
    | PayPrincipal(paydays: seq<Payday>)

  // ---- Views ----

  function Bonds(issues: seq<Escrow.Issue>, terms: seq<Terms>): (bonds: seq<Bond>)
    ensures |bonds| == |issues|
    ensures forall b :: 0 <= b < |bonds| ==>
              bonds[b] == Bond(issues[b].book, if b < |terms| then terms[b].rateBps else 0)
  {
    seq(|issues|, b requires 0 <= b < |issues| => Bond(issues[b].book, if b < |terms| then terms[b].rateBps else 0))
  }

  function DeskOf(s: State): Desk {
    Desk(s.payments, s.taxes, s.credits, s.platform.bank)
  }

  function VaultOf(s: State): Vault {
    Vault(s.returned, s.principal, s.platform.bank)
  }

  function SetStatus(p: Escrow.Platform, bond: nat, to: BondStatus, now: int): Escrow.Platform {
    Escrow.Take(p, Escrow.OnRegister(bond, OpStatus(to)), now)
  }

  // ---- Windows and activation ----

  function WindowClosed(s: State, bond: nat, now: int): State {
    if bond >= |s.platform.issues| then s
    else
      var book := s.platform.issues[bond].book;
      if book.status != Open || book.closeAt >= now then s
      else s.(platform := SetStatus(s.platform, bond, if book.raised > 0 then Subscribed else Closed, now))
  }

  predicate AllValid(periods: seq<CouponPeriod>) {
    forall k :: 0 <= k < |periods| ==> periods[k].start.Valid() && periods[k].end.Valid() && periods[k].payDate.Valid()
  }

  function ScheduleRows(bond: nat, periods: seq<CouponPeriod>): (rows: seq<ScheduleRow>)
    requires AllValid(periods)
    ensures |rows| == |periods|
  {
    seq(|periods|, k requires 0 <= k < |periods| =>
      ScheduleRow(bond, periods[k].index, periods[k].start.DayNumber(), periods[k].end.DayNumber(),
                  periods[k].payDate.DayNumber(), false))
  }

  function EventRows(bond: nat, maturity: int): seq<EventRow> {
    [EventRow(bond, TMinus90, maturity - 90, false), EventRow(bond, TMinus30, maturity - 30, false),
     EventRow(bond, TMinus7, maturity - 7, false), EventRow(bond, Maturity, maturity, false)]
  }

  /** Issued today, maturing after the tenor. */
  function MaturityDay(terms: Terms, now: int): (day: int)
    requires Day(now) >= 0
  {
    var issue := DateOf(Day(now));
    Shifted(issue, terms.tenor).DayNumber()
  }

  function Activated(s: State, bond: nat, periods: seq<CouponPeriod>, now: int): State {
    if bond >= |s.platform.issues| || bond >= |s.terms| || s.terms[bond].tenor < 1 then s
    else if s.platform.issues[bond].book.status != Subscribed || Day(now) < 0 || !AllValid(periods) then s
    else
      s.(platform := SetStatus(s.platform, bond, Active, now),
         schedules := s.schedules + ScheduleRows(bond, periods),
         events := s.events + EventRows(bond, MaturityDay(s.terms[bond], now)))
  }

  // ---- Checkpoints and default ----

  function Suspended(p: Payment, bond: nat): Payment {
    if p.bond == bond && Outstanding(p) then p.(status := Escalated) else p
  }

  function SuspendAll(payments: seq<Payment>, bond: nat): (after: seq<Payment>)
    ensures |after| == |payments|
    ensures forall i :: 0 <= i < |payments| ==> after[i] == Suspended(payments[i], bond)
  {
    seq(|payments|, i requires 0 <= i < |payments| => Suspended(payments[i], bond))
  }

  predicate Unfunded(s: State, bond: nat)
    requires bond < |s.platform.issues|
  {
    Get(s.escrow, bond) < s.platform.issues[bond].book.total
  }

  /** Freeze the bond if it is active, and suspend every coupon row still outstanding on it. */
  function DefaultDeclared(s: State, bond: nat, now: int): State
    requires bond < |s.platform.issues|
  {
    s.(platform := if s.platform.issues[bond].book.status == Active then SetStatus(s.platform, bond, Defaulted, now) else s.platform,
       payments := SuspendAll(s.payments, bond))
  }

  predicate EventDue(e: EventRow, now: int) {
    e.day <= Day(now) && !e.executed
  }

  function MarkExecuted(s: State, e: nat): State
    requires e < |s.events|
  {
    s.(events := s.events[e := s.events[e].(executed := true)])
  }

  function Checked(s: State, e: nat, now: int): State {
    if e >= |s.events| || s.events[e].bond >= |s.platform.issues| then s
    else if !EventDue(s.events[e], now) || s.events[e].stage == Maturity then s
    else
      var bond := s.events[e].bond;
      MarkExecuted(if s.events[e].stage == TMinus30 && Unfunded(s, bond) then DefaultDeclared(s, bond, now) else s, e)
  }

  function CheckAll(s: State, order: seq<nat>, now: int): State {
    if order == [] then s else Checked(CheckAll(s, order[..|order| - 1], now), order[|order| - 1], now)
  }

  // ---- Coupons ----

  function Materialised(s: State, due: seq<nat>): seq<Payment> {
    MaterialiseAll(s.payments, s.schedules, Bonds(s.platform.issues, s.terms), due)
  }

  function DeskAfter(s: State, due: seq<nat>, turns: seq<Turn>): Desk {
    AttemptAll(DeskOf(s).(payments := Materialised(s, due)), turns)
  }

  function CouponsRun(s: State, due: seq<nat>, turns: seq<Turn>, page: seq<nat>): State {
    var d := DeskAfter(s, due, turns);
    s.(payments := d.payments, taxes := d.taxes, credits := d.credits,
       platform := s.platform.(bank := d.bank),
       schedules := CloseAll(s.schedules, d.payments, page))
  }

  // ---- Principal ----

  function RepaidVault(s: State, bond: nat, holders: seq<Repayment>): Vault
    requires bond < |s.platform.issues|
  {
    RepayAll(VaultOf(s), bond, s.platform.issues[bond].book.holdings, holders)
  }

  /** Return principal to every holder of an active bond, then mark it matured if nothing is left owing. */
  function Redeemed(s: State, bond: nat, holders: seq<Repayment>, now: int): State
    requires bond < |s.platform.issues|
  {
    if s.platform.issues[bond].book.status != Active then s
    else
      var v := RepaidVault(s, bond, holders);
      var p := s.platform.(bank := v.bank);
      s.(returned := v.returned, principal := v.principal,
         platform := if AllReturned(v.returned, bond) then SetStatus(p, bond, Matured, now) else p)
  }

  function PaidOut(s: State, day: Payday, now: int): State {
    if day.event >= |s.events| || s.events[day.event].bond >= |s.platform.issues| then s
    else if !EventDue(s.events[day.event], now) || s.events[day.event].stage != Maturity then s
    else MarkExecuted(Redeemed(s, s.events[day.event].bond, day.holders, now), day.event)
  }

  function PayAll(s: State, order: seq<Payday>, now: int): State {
    if order == [] then s else PaidOut(PayAll(s, order[..|order| - 1], now), order[|order| - 1], now)
  }

  // ---- Steps ----

  function After(s: State, step: Step, now: int): State {
    match step
    case User(st) => s.(platform := Escrow.Take(s.platform, st, now))
    case DepositPrincipal(bond, amount) =>
      if bond >= |s.platform.issues| then s else s.(escrow := s.escrow[bond := Get(s.escrow, bond) + amount])
    case CloseWindow(bond) => WindowClosed(s, bond, now)
    case Activate(bond, periods) => Activated(s, bond, periods, now)
    case Checks(order) => CheckAll(s, order, now)
    case Coupons(due, turns, page) => CouponsRun(s, due, turns, page)
    case PayPrincipal(paydays) => PayAll(s, paydays, now)
  }

  /** The schedule is the one the engine builds from today's date and the bond's terms. */
  ghost predicate Planned(terms: Terms, periods: seq<CouponPeriod>, now: int)
    requires Day(now) >= 0
  {
    var issue := DateOf(Day(now));
    var step := StepMonths(terms.frequency);
    if step == 0 then periods == [] else IsSchedule(periods, issue, Shifted(issue, terms.tenor), step)
  }

  function DueEvents(events: seq<EventRow>, now: int, maturity: bool): set<nat> {
    set e | 0 <= e < |events| && EventDue(events[e], now) && (events[e].stage == Maturity <==> maturity)
  }

  predicate Everything(order: seq<nat>, all: set<nat>) {
    && Distinct(order) && (forall i :: 0 <= i < |order| ==> order[i] in all) && (forall e :: e in all ==> e in order)
  }

  function MaturitiesOf(order: seq<Payday>): (ids: seq<nat>)
    ensures |ids| == |order| && forall i :: 0 <= i < |order| ==> ids[i] == order[i].event
  {
    seq(|order|, i requires 0 <= i < |order| => order[i].event)
  }

  predicate CouponPages(s: State, due: seq<nat>, turns: seq<Turn>, page: seq<nat>, now: int) {
    var bonds := Bonds(s.platform.issues, s.terms);
    var made := Materialised(s, due);
    && IsPage(due, DueSchedules(s.schedules, bonds, Day(now)), SCHEDULE_PAGE)
    && ReadFrom(turns, made) && IsPage(Ids(turns), PayableRows(made, bonds), PAYMENT_PAGE)
    && IsPage(page, OpenSchedules(s.schedules, Day(now)), SCHEDULE_PAGE)
  }

  predicate Holders(s: State, day: Payday) {
    && day.event < |s.events|
    && (s.events[day.event].bond < |s.platform.issues| ==>
          Everyone(day.holders, s.platform.issues[s.events[day.event].bond].book.holdings))
  }

  /**
   Queries return what they ask for, references are new, schedules are built by the engine,
   and only the engine pays out or makes a bond active.
   */
  ghost predicate Proper(s: State, step: Step, now: int) {
    match step
    case User(st) =>
      Escrow.Proper(s.platform, st) && !st.PayOut? && !(st.OnRegister? && st.op == OpStatus(Active))
    case Activate(bond, periods) => bond < |s.terms| && Day(now) >= 0 ==> Planned(s.terms[bond], periods, now)
    case Checks(order) => Everything(order, DueEvents(s.events, now, false))
    case Coupons(due, turns, page) => CouponPages(s, due, turns, page, now)
    case PayPrincipal(paydays) =>
      && Everything(MaturitiesOf(paydays), DueEvents(s.events, now, true))
      && forall i :: 0 <= i < |paydays| ==> Holders(s, paydays[i])
    case _ => true
  }

  // ---- What every reachable state keeps ----

  /** Statuses a bond has once it has been activated, or was closed without ever being. */
  predicate Started(status: BondStatus) {
    status == Active || status == Matured || status == Defaulted || status == Closed
  }

  predicate TermsValid(terms: seq<Terms>, issues: seq<Escrow.Issue>) {
    |terms| == |issues| && forall b :: 0 <= b < |terms| ==> terms[b].rateBps <= 5000 && 1 <= terms[b].tenor <= 360
  }

  predicate SchedulesSound(schedules: seq<ScheduleRow>, issues: seq<Escrow.Issue>) {
    forall k :: 0 <= k < |schedules| ==>
      && schedules[k].bond < |issues| && Started(issues[schedules[k].bond].book.status)
      && schedules[k].start < schedules[k].end == schedules[k].payDay
  }

  /** Rows are only made once their schedule is due. */
  predicate RowsDue(payments: seq<Payment>, schedules: seq<ScheduleRow>, today: int) {
    forall i :: 0 <= i < |payments| ==>
      payments[i].schedule < |schedules| && schedules[payments[i].schedule].payDay <= today
  }

  predicate Matures(events: seq<EventRow>, e: int) {
    0 <= e < |events| && events[e].stage == Maturity
  }

  /** One event per bond and stage, and the funding check of a bond comes 30 days before its maturity. */
  predicate EventsSound(events: seq<EventRow>, issues: seq<Escrow.Issue>) {
    && (forall e :: 0 <= e < |events| ==>
          events[e].bond < |issues| && Started(issues[events[e].bond].book.status))
    && (forall e, f :: 0 <= e < f < |events| ==> events[e].bond != events[f].bond || events[e].stage != events[f].stage)
    && (forall e {:trigger Matures(events, e)} :: 0 <= e < |events| && Matures(events, e) ==>
          e >= 2 && events[e - 2] == EventRow(events[e].bond, TMinus30, events[e].day - 30, events[e - 2].executed))
  }

  /** A bond that passed its funding check and is still active is funded. */
  predicate CheckedMeansFunded(events: seq<EventRow>, escrow: map<nat, int>, issues: seq<Escrow.Issue>) {
    forall e :: 0 <= e < |events| && events[e].stage == TMinus30 && events[e].executed && events[e].bond < |issues|
                && issues[events[e].bond].book.status == Active ==>
      Get(escrow, events[e].bond) >= issues[events[e].bond].book.total
  }

  /** Nobody has a return row before the bond's payout has run. */
  ghost predicate ReturnsSound(events: seq<EventRow>, returned: map<(nat, UserId), ReturnRow>, issues: seq<Escrow.Issue>) {
    && (forall key :: key in returned ==> key.0 < |issues| && Started(issues[key.0].book.status))
    && (forall e :: 0 <= e < |events| && events[e].stage == Maturity && !events[e].executed ==>
          NoReturns(returned, events[e].bond))
  }

  /** Every payout in the wallet ledger is a coupon or principal the engine accounted for. */
  predicate PayoutsAccounted(ledger: seq<Wallet.Txn>, credits: seq<Credit>, principal: seq<Principal>) {
    SumBy(ledger, PayoutOf()) == SumBy(credits, CreditAmount()) + SumBy(principal, PrincipalAmount())
  }

  ghost predicate CouponsSound(s: State, now: int) {
    && DeskInv(DeskOf(s))
    && RowsOwedTruly(s.payments, s.schedules, Bonds(s.platform.issues, s.terms))
    && RowsDue(s.payments, s.schedules, Day(now))
  }

  ghost predicate RedemptionSound(s: State) {
    && EventsSound(s.events, s.platform.issues)
    && CheckedMeansFunded(s.events, s.escrow, s.platform.issues)
    && ReturnsSound(s.events, s.returned, s.platform.issues)
    && ReturnedOnce(s.returned, s.principal)
  }

  ghost predicate EngineInv(s: State, now: int) {
    && Escrow.PlatformInv(s.platform, now) && TermsValid(s.terms, s.platform.issues)
    && SchedulesSound(s.schedules, s.platform.issues)
    && CouponsSound(s, now) && RedemptionSound(s)
    && PayoutsAccounted(s.platform.bank.ledger, s.credits, s.principal)
  }

  // ---- Steps that touch only the platform ----

  lemma StartedStays(p: Escrow.Platform, q: Escrow.Platform, now: int)
    requires PlatformStep(p, q, now)
    ensures forall b :: 0 <= b < |p.issues| && Started(p.issues[b].book.status) ==> Started(q.issues[b].book.status)
    ensures forall b :: 0 <= b < |p.issues| && Started(p.issues[b].book.status) && q.issues[b].book.status == Active ==>
              p.issues[b].book.status == Active
  {
    forall b | 0 <= b < |p.issues|
      ensures LegalMove(p.issues[b].book.status, q.issues[b].book.status)
    {
      assert BookStep(p.issues[b].book, q.issues[b].book, now);
    }
  }

  /** Rows for finished periods stay what the register owes, whatever happens to the register. */
  lemma RowsStayOwed(payments: seq<Payment>, schedules: seq<ScheduleRow>, terms: seq<Terms>,
                     p: Escrow.Platform, q: Escrow.Platform, now: int)
    requires PlatformStep(p, q, now) && SchedulesSound(schedules, p.issues)
    requires RowsDue(payments, schedules, Day(now)) && RowsOwedTruly(payments, schedules, Bonds(p.issues, terms))
    ensures RowsOwedTruly(payments, schedules, Bonds(q.issues, terms))
  {
    forall i | 0 <= i < |payments|
      ensures schedules[payments[i].schedule].bond == payments[i].bond < |Bonds(q.issues, terms)|
      ensures OwedTruly(payments[i], schedules[payments[i].schedule], Bonds(q.issues, terms)[payments[i].bond])
    {
      var s := schedules[payments[i].schedule];
      var b := payments[i].bond;
      assert OwedTruly(payments[i], s, Bonds(p.issues, terms)[b]);
      assert BookStep(p.issues[b].book, q.issues[b].book, now);
      FinishedRowStays(p.issues[b].book, q.issues[b].book, now, payments[i].due.user, s.start, s.end, Bonds(p.issues, terms)[b].rateBps);
    }
  }

  lemma SchedulesStaySound(schedules: seq<ScheduleRow>, p: Escrow.Platform, q: Escrow.Platform, now: int)
    requires PlatformStep(p, q, now) && SchedulesSound(schedules, p.issues)
    ensures SchedulesSound(schedules, q.issues)
  {
    StartedStays(p, q, now);
  }

  lemma RedemptionStaysSound(s: State, q: Escrow.Platform, now: int)
    requires PlatformStep(s.platform, q, now) && RedemptionSound(s)
    ensures RedemptionSound(s.(platform := q))
  {
    StartedStays(s.platform, q, now);
    forall e | 0 <= e < |s.events|
      ensures s.events[e].bond < |q.issues| && q.issues[s.events[e].bond].book.total == s.platform.issues[s.events[e].bond].book.total
    {
      assert BookStep(s.platform.issues[s.events[e].bond].book, q.issues[s.events[e].bond].book, now);
    }
  }

  /** Replacing the platform by a step of its own that pays nothing out. */
  lemma PlatformStepKeepsInv(s: State, q: Escrow.Platform, now: int)
    requires EngineInv(s, now) && Escrow.PlatformInv(q, now) && PlatformStep(s.platform, q, now)
    requires SumBy(q.bank.ledger, PayoutOf()) == SumBy(s.platform.bank.ledger, PayoutOf())
    ensures EngineInv(s.(platform := q), now)
  {
    SchedulesStaySound(s.schedules, s.platform, q, now);
    RowsStayOwed(s.payments, s.schedules, s.terms, s.platform, q, now);
    RedemptionStaysSound(s, q, now);
  }

  lemma UserKeepsInv(s: State, st: Escrow.Step, now: int)
    requires EngineInv(s, now) && Proper(s, User(st), now)
    ensures EngineInv(After(s, User(st), now), now)
  {
    Escrow.StepKeepsPlatformInv(s.platform, st, now);
    TakeIsPlatformStep(s.platform, st, now);
    TakeLeavesPayouts(s.platform, st, now);
    PlatformStepKeepsInv(s, Escrow.Take(s.platform, st, now), now);
  }

  /** Only the one status changes, and only along the trigger's table. */
  lemma SetStatusEffect(p: Escrow.Platform, bond: nat, to: BondStatus, now: int)
    ensures var q := SetStatus(p, bond, to, now);
            && q.bank == p.bank && |q.issues| == |p.issues|
            && (forall b :: 0 <= b < |p.issues| && b != bond ==> q.issues[b] == p.issues[b])
            && (bond < |p.issues| ==>
                  q.issues[bond].book == p.issues[bond].book.(status :=
                    if LegalMove(p.issues[bond].book.status, to) then to else p.issues[bond].book.status))
  {
  }

  lemma SetStatusKeepsPlatform(p: Escrow.Platform, bond: nat, to: BondStatus, now: int)
    requires Escrow.PlatformInv(p, now)
    ensures Escrow.PlatformInv(SetStatus(p, bond, to, now), now) && PlatformStep(p, SetStatus(p, bond, to, now), now)
  {
    assert SetStatus(p, bond, to, now) == Escrow.MoveRegister(p, bond, OpStatus(to), now);
    Escrow.RegisterKeepsInv(p, bond, OpStatus(to), now);
    RegisterIsPlatformStep(p, bond, OpStatus(to), now);
  }

  lemma SetStatusKeepsInv(s: State, bond: nat, to: BondStatus, now: int)
    requires EngineInv(s, now)
    ensures EngineInv(s.(platform := SetStatus(s.platform, bond, to, now)), now)
  {
    SetStatusEffect(s.platform, bond, to, now);
    SetStatusKeepsPlatform(s.platform, bond, to, now);
    PlatformStepKeepsInv(s, SetStatus(s.platform, bond, to, now), now);
  }

  lemma CloseWindowKeepsInv(s: State, bond: nat, now: int)
    requires EngineInv(s, now)
    ensures EngineInv(WindowClosed(s, bond, now), now)
  {
    if WindowClosed(s, bond, now) != s {
      var to := if s.platform.issues[bond].book.raised > 0 then Subscribed else Closed;
      SetStatusKeepsInv(s, bond, to, now);
      assert WindowClosed(s, bond, now) == s.(platform := SetStatus(s.platform, bond, to, now));
    }
  }

  /** One bond's escrow is larger by the amount, the others' are the same. */
  ghost predicate GrownBy(escrow: map<nat, int>, after: map<nat, int>, bond: nat, amount: nat) {
    forall b: nat :: Get(after, b) == Get(escrow, b) + (if b == bond then amount else 0)
  }

  lemma DepositGrows(s: State, bond: nat, amount: nat, now: int, t: State)
    requires t == After(s, DepositPrincipal(bond, amount), now)
    ensures t == s.(escrow := t.escrow)
    ensures GrownBy(s.escrow, t.escrow, bond, if bond < |s.platform.issues| then amount else 0)
  {
  }

  /** More escrow unfunds nothing. */
  lemma MoreEscrowKeepsInv(s: State, t: State, bond: nat, amount: nat, now: int)
    requires EngineInv(s, now) && t == s.(escrow := t.escrow) && GrownBy(s.escrow, t.escrow, bond, amount)
    ensures EngineInv(t, now)
  {
  }

  lemma DepositKeepsInv(s: State, bond: nat, amount: nat, now: int, t: State)
    requires EngineInv(s, now) && t == After(s, DepositPrincipal(bond, amount), now)
    ensures EngineInv(t, now) && t == s.(escrow := t.escrow)
    ensures GrownBy(s.escrow, t.escrow, bond, if bond < |s.platform.issues| then amount else 0)
  {
    DepositGrows(s, bond, amount, now, t);
    MoreEscrowKeepsInv(s, t, bond, if bond < |s.platform.issues| then amount else 0, now);
  }
}
