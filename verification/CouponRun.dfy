/**
 The coupon run, after src/bonds/engine/coupon-runner.service.ts: rows are created for
 every schedule that has come due, every outstanding row is attempted, and a schedule is
 closed once nothing on it is outstanding.

 Queries without an order are modelled by the page they happen to return; the rail's
 answer to each attempt is a parameter. A page of rows is worked off before the next run
 starts (Claims.dfy drops that).
 */
module CouponRun {
  import opened Sums
  import opened Money
  import opened Accrual
  import opened Register
  import opened PositionHistory
  import Wallet

  const MAX_ATTEMPTS: nat := 3
  const PAYMENT_PAGE: nat := 500
  const SCHEDULE_PAGE: nat := 50

  datatype PaymentStatus = Pending | Paid | Retry | Escalated

  datatype Payment = Payment(schedule: nat, bond: nat, due: HolderAccrual, status: PaymentStatus, attempts: nat)

  datatype ScheduleRow = ScheduleRow(bond: nat, index: nat, start: int, end: int, payDay: int, processed: bool)

  datatype Tax = Tax(payment: nat, user: UserId, gross: int, wht: int)

  /** A wallet credit the rail made for a coupon row. */
  datatype Credit = Credit(payment: nat, user: UserId, amount: int)

  datatype Bond = Bond(book: Book, rateBps: nat)

  /** What one attempt reads and writes. */
  datatype Desk = Desk(payments: seq<Payment>, taxes: seq<Tax>, credits: seq<Credit>, bank: Wallet.Bank)

  /** Credits once and says so, or fails or throws without a credit. */
  datatype Rail = Ok(reference: nat) | Fails | Throws

  /** One entry of the page read at the start of the pass: a row, its attempts then, and the rail's answer. */
  datatype Turn = Turn(payment: nat, read: nat, rail: Rail)

  predicate Outstanding(p: Payment) {
    p.status == PaymentStatus.Pending || p.status == Retry
  }

  // ---- Pages ----

  predicate Distinct(page: seq<nat>) {
    forall i, j :: 0 <= i < j < |page| ==> page[i] != page[j]
  }

  /** Up to `limit` of the eligible rows, each once, in any order; all of them if they fit. */
  predicate IsPage(page: seq<nat>, eligible: set<nat>, limit: nat) {
    && Distinct(page) && |page| <= limit
    && (forall i :: 0 <= i < |page| ==> page[i] in eligible)
    && (|page| == limit || forall k :: k in eligible ==> k in page)
  }

  function Elements(page: seq<nat>): (s: set<nat>)
    ensures forall k: nat :: k in s <==> k in page
  {
    if page == [] then {} else Elements(page[..|page| - 1]) + {page[|page| - 1]}
  }

  lemma {:induction false} DistinctCount(page: seq<nat>)
    requires Distinct(page)
    ensures |Elements(page)| == |page|
  {
    if page != [] {
      var init, last := page[..|page| - 1], page[|page| - 1];
      DistinctCount(init);
      assert last !in init;
    }
  }

  lemma SubsetOfSameSize(a: set<nat>, b: set<nat>)
    requires a <= b && |b| <= |a|
    ensures a == b
  {
    if x :| x in b && x !in a {
      SubsetSize(a, b - {x});
    }
  }

  lemma {:induction false} SubsetSize(a: set<nat>, b: set<nat>)
    requires a <= b
    ensures |a| <= |b|
    decreases |a|
  {
    if x :| x in a {
      SubsetSize(a - {x}, b - {x});
    }
  }

  /** When everything eligible fits, the page holds all of it. */
  lemma PageIsWhole(page: seq<nat>, eligible: set<nat>, limit: nat)
    requires IsPage(page, eligible, limit) && |eligible| <= limit
    ensures forall k :: k in eligible ==> k in page
  {
    if |page| == limit {
      DistinctCount(page);
      SubsetOfSameSize(Elements(page), eligible);
    }
  }

  // ---- Pass 1: create rows ----

  predicate Due(s: ScheduleRow, bonds: seq<Bond>, today: int) {
    s.payDay <= today && !s.processed && s.bond < |bonds| && bonds[s.bond].book.status == Active
  }

  function DueSchedules(schedules: seq<ScheduleRow>, bonds: seq<Bond>, today: int): set<nat> {
    set k | 0 <= k < |schedules| && Due(schedules[k], bonds, today)
  }

  function OwedOn(s: ScheduleRow, bond: Bond): seq<HolderAccrual> {
    if s.end <= s.start then [] else Owed(bond.book, s.start, s.end, bond.rateBps)
  }

  predicate Recorded(payments: seq<Payment>, schedule: nat, user: UserId) {
    exists i :: 0 <= i < |payments| && payments[i].schedule == schedule && payments[i].due.user == user
  }

  /** Rows worth nothing are left out and existing rows are never overwritten. */
  function AddRow(payments: seq<Payment>, schedule: nat, bond: nat, due: HolderAccrual): seq<Payment> {
    if due.gross > 0 && !Recorded(payments, schedule, due.user)
    then payments + [Payment(schedule, bond, due, PaymentStatus.Pending, 0)]
    else payments
  }

  function AddRows(payments: seq<Payment>, schedule: nat, bond: nat, owed: seq<HolderAccrual>): seq<Payment> {
    if owed == [] then payments
    else AddRow(AddRows(payments, schedule, bond, owed[..|owed| - 1]), schedule, bond, owed[|owed| - 1])
  }

  function MaterialiseOne(payments: seq<Payment>, schedules: seq<ScheduleRow>, bonds: seq<Bond>, k: nat): seq<Payment> {
    if k < |schedules| && schedules[k].bond < |bonds|
    then AddRows(payments, k, schedules[k].bond, OwedOn(schedules[k], bonds[schedules[k].bond]))
    else payments
  }

  function MaterialiseAll(payments: seq<Payment>, schedules: seq<ScheduleRow>, bonds: seq<Bond>, due: seq<nat>): seq<Payment> {
    if due == [] then payments
    else MaterialiseOne(MaterialiseAll(payments, schedules, bonds, due[..|due| - 1]), schedules, bonds, due[|due| - 1])
  }

  // ---- Pass 2: attempt ----

  predicate Payable(p: Payment, bonds: seq<Bond>) {
    Outstanding(p) && p.attempts < MAX_ATTEMPTS && p.bond < |bonds| && bonds[p.bond].book.status != Defaulted
  }

  function PayableRows(payments: seq<Payment>, bonds: seq<Bond>): set<nat> {
    set i | 0 <= i < |payments| && Payable(payments[i], bonds)
  }

  function Ids(turns: seq<Turn>): (ids: seq<nat>)
    ensures |ids| == |turns| && forall i :: 0 <= i < |turns| ==> ids[i] == turns[i].payment
  {
    seq(|turns|, i requires 0 <= i < |turns| => turns[i].payment)
  }

  /** The rows as the query reads them, with the attempts it reads. */
  predicate ReadFrom(turns: seq<Turn>, payments: seq<Payment>) {
    forall k :: 0 <= k < |turns| ==> turns[k].payment < |payments| && turns[k].read == payments[turns[k].payment].attempts
  }

  function Failed(p: Payment, attempt: nat): Payment {
    p.(attempts := attempt, status := if attempt >= MAX_ATTEMPTS then Escalated else Retry)
  }

  function CreditFor(i: nat, p: Payment): Credit {
    Credit(i, p.due.user, p.due.net)
  }

  function TaxFor(i: nat, p: Payment): Tax {
    Tax(i, p.due.user, p.due.gross, p.due.wht)
  }

  /** Does the claim win: is the row still outstanding, with the attempts that were read? */
  predicate Claimable(p: Payment, turn: Turn) {
    Outstanding(p) && p.attempts == turn.read
  }

  predicate Pays(p: Payment, turn: Turn) {
    Claimable(p, turn) && turn.rail.Ok? && p.due.net >= 0
  }

  /** The row as one attempt leaves it. */
  function Attempted(p: Payment, turn: Turn): Payment {
    if !Claimable(p, turn) then p
    else if Pays(p, turn) then p.(attempts := turn.read + 1, status := Paid)
    else Failed(p, turn.read + 1)
  }

  function Attempt(d: Desk, turn: Turn): Desk {
    if turn.payment >= |d.payments| then d
    else
      var p := d.payments[turn.payment];
      if !Pays(p, turn) then d.(payments := d.payments[turn.payment := Attempted(p, turn)])
      else
        Desk(d.payments[turn.payment := Attempted(p, turn)],
             d.taxes + [TaxFor(turn.payment, p)],
             d.credits + [CreditFor(turn.payment, p)],
             Wallet.Credit(d.bank, p.due.user, p.due.net, Wallet.Payout, turn.rail.reference))
  }

  function AttemptAll(d: Desk, turns: seq<Turn>): Desk {
    if turns == [] then d else Attempt(AttemptAll(d, turns[..|turns| - 1]), turns[|turns| - 1])
  }

  // ---- Pass 3: close ----

  predicate Owing(payments: seq<Payment>, schedule: nat) {
    exists i :: 0 <= i < |payments| && payments[i].schedule == schedule && Outstanding(payments[i])
  }

  function OpenSchedules(schedules: seq<ScheduleRow>, today: int): set<nat> {
    set k | 0 <= k < |schedules| && schedules[k].payDay <= today && !schedules[k].processed
  }

  function CloseOne(schedules: seq<ScheduleRow>, payments: seq<Payment>, k: nat): seq<ScheduleRow> {
    if k >= |schedules| || Owing(payments, k) then schedules
    else schedules[k := schedules[k].(processed := true)]
  }

  function CloseAll(schedules: seq<ScheduleRow>, payments: seq<Payment>, page: seq<nat>): (after: seq<ScheduleRow>)
    ensures |after| == |schedules|
  {
    if page == [] then schedules
    else CloseOne(CloseAll(schedules, payments, page[..|page| - 1]), payments, page[|page| - 1])
  }

  // ---- What every desk keeps ----

  /** Rows as the engine writes them: positive gross, split into net and tax, attempts within the limit. */
  predicate RowValid(p: Payment) {
    && p.due.gross > 0 && p.due.net >= 0 && p.due.wht >= 0 && p.due.net + p.due.wht == p.due.gross
    && p.attempts <= MAX_ATTEMPTS
    && (Outstanding(p) ==> p.attempts < MAX_ATTEMPTS)
  }

  ghost predicate RowsValid(payments: seq<Payment>) {
    forall i :: 0 <= i < |payments| ==> RowValid(payments[i])
  }

  /** One row per schedule and holder. */
  ghost predicate OneRowEach(payments: seq<Payment>) {
    forall i, j :: 0 <= i < j < |payments| ==>
      payments[i].schedule != payments[j].schedule || payments[i].due.user != payments[j].due.user
  }

  /** Each credit, and the tax record beside it, is the one of a paid row, and no row has two. */
  ghost predicate CreditedOnce(payments: seq<Payment>, taxes: seq<Tax>, credits: seq<Credit>) {
    && |taxes| == |credits|
    && (forall k :: 0 <= k < |credits| ==>
          && credits[k].payment < |payments|
          && payments[credits[k].payment].status == Paid
          && credits[k] == CreditFor(credits[k].payment, payments[credits[k].payment])
          && taxes[k] == TaxFor(credits[k].payment, payments[credits[k].payment]))
    && (forall k, m :: 0 <= k < m < |credits| ==> credits[k].payment != credits[m].payment)
  }

  ghost predicate HasCredit(credits: seq<Credit>, i: nat) {
    exists k :: 0 <= k < |credits| && credits[k].payment == i
  }

  ghost predicate PaidMeansCredited(payments: seq<Payment>, credits: seq<Credit>) {
    forall i {:trigger HasCredit(credits, i)} :: 0 <= i < |payments| && payments[i].status == Paid ==> HasCredit(credits, i)
  }

  function PaidGross(): Payment -> int { (p: Payment) => if p.status == Paid then p.due.gross else 0 }
  function CreditAmount(): Credit -> int { (c: Credit) => c.amount }
  function TaxAmount(): Tax -> int { (t: Tax) => t.wht }

  /** Gross paid is net credited plus tax recorded. */
  predicate Balanced(payments: seq<Payment>, taxes: seq<Tax>, credits: seq<Credit>) {
    SumBy(payments, PaidGross()) == SumBy(credits, CreditAmount()) + SumBy(taxes, TaxAmount())
  }

  ghost predicate DeskInv(d: Desk) {
    && RowsValid(d.payments) && OneRowEach(d.payments)
    && CreditedOnce(d.payments, d.taxes, d.credits) && PaidMeansCredited(d.payments, d.credits)
    && Balanced(d.payments, d.taxes, d.credits)
  }

  /** Rows are only added; a settled row never changes, an outstanding one only in status and attempts. */
  ghost predicate Later(ps: seq<Payment>, qs: seq<Payment>) {
    && |ps| <= |qs|
    && (forall i :: 0 <= i < |ps| ==>
          && qs[i] == ps[i].(status := qs[i].status, attempts := qs[i].attempts)
          && ps[i].attempts <= qs[i].attempts
          && (!Outstanding(ps[i]) ==> qs[i] == ps[i]))
  }

  lemma LaterTransitive(ps: seq<Payment>, qs: seq<Payment>, rs: seq<Payment>)
    requires Later(ps, qs) && Later(qs, rs)
    ensures Later(ps, rs)
  {
  }

  // ---- Attempts ----

  lemma CreditPushed(credits: seq<Credit>, c: Credit, i: nat)
    ensures HasCredit(credits + [c], i) <==> HasCredit(credits, i) || c.payment == i
  {
    var more := credits + [c];
    if HasCredit(credits, i) {
      var k :| 0 <= k < |credits| && credits[k].payment == i;
      assert more[k].payment == i;
    }
    assert more[|credits|] == c;
  }

  /** The credit and the tax record of a row that had none. */
  lemma CreditAdded(payments: seq<Payment>, taxes: seq<Tax>, credits: seq<Credit>, i: nat, attempts: nat)
    requires CreditedOnce(payments, taxes, credits) && i < |payments| && payments[i].status != Paid
    ensures CreditedOnce(payments[i := payments[i].(attempts := attempts, status := Paid)],
                         taxes + [TaxFor(i, payments[i])], credits + [CreditFor(i, payments[i])])
  {
    assert forall k :: 0 <= k < |credits| ==> credits[k].payment != i;
  }

  lemma UnpaidRowRestated(payments: seq<Payment>, taxes: seq<Tax>, credits: seq<Credit>, i: nat, p: Payment)
    requires CreditedOnce(payments, taxes, credits) && i < |payments| && (payments[i].status != Paid || p == payments[i])
    ensures CreditedOnce(payments[i := p], taxes, credits)
  {
    assert payments[i].status != Paid ==> forall k :: 0 <= k < |credits| ==> credits[k].payment != i;
  }

  lemma AttemptKeepsCredits(d: Desk, turn: Turn)
    requires DeskInv(d)
    ensures var e := Attempt(d, turn); CreditedOnce(e.payments, e.taxes, e.credits)
  {
    if turn.payment < |d.payments| {
      var p := d.payments[turn.payment];
      if Pays(p, turn) {
        CreditAdded(d.payments, d.taxes, d.credits, turn.payment, turn.read + 1);
      } else {
        UnpaidRowRestated(d.payments, d.taxes, d.credits, turn.payment, Attempted(p, turn));
      }
    }
  }

  lemma AttemptKeepsPaid(d: Desk, turn: Turn)
    requires DeskInv(d)
    ensures PaidMeansCredited(Attempt(d, turn).payments, Attempt(d, turn).credits)
  {
    if turn.payment < |d.payments| {
      var e := Attempt(d, turn);
      assert RowValid(d.payments[turn.payment]);
      forall i | 0 <= i < |e.payments| && e.payments[i].status == Paid
        ensures HasCredit(e.credits, i)
      {
        if e.credits != d.credits {
          CreditPushed(d.credits, CreditFor(turn.payment, d.payments[turn.payment]), i);
        }
      }
    }
  }

  lemma AttemptKeepsBalance(d: Desk, turn: Turn)
    requires DeskInv(d)
    ensures var e := Attempt(d, turn); Balanced(e.payments, e.taxes, e.credits)
  {
    if turn.payment < |d.payments| {
      var p := d.payments[turn.payment];
      assert RowValid(p);
      SumByUpdate(d.payments, turn.payment, Attempted(p, turn), PaidGross());
      SumByPush(d.taxes, TaxFor(turn.payment, p), TaxAmount());
      SumByPush(d.credits, CreditFor(turn.payment, p), CreditAmount());
    }
  }

  /** Restating one row's status and attempts, unless it was settled. */
  lemma RowRestated(ps: seq<Payment>, i: nat, status: PaymentStatus, attempts: nat)
    requires i < |ps| && OneRowEach(ps) && RowsValid(ps)
    requires var q := ps[i].(status := status, attempts := attempts); RowValid(q) && (Outstanding(ps[i]) || q == ps[i])
    requires ps[i].attempts <= attempts
    ensures var qs := ps[i := ps[i].(status := status, attempts := attempts)];
            OneRowEach(qs) && RowsValid(qs) && Later(ps, qs)
  {
  }

  lemma AttemptKeepsInv(d: Desk, turn: Turn)
    requires DeskInv(d)
    ensures DeskInv(Attempt(d, turn)) && Later(d.payments, Attempt(d, turn).payments)
  {
    if turn.payment < |d.payments| {
      var p := d.payments[turn.payment];
      assert RowValid(p);
      var q := Attempted(p, turn);
      RowRestated(d.payments, turn.payment, q.status, q.attempts);
      assert Attempt(d, turn).payments == d.payments[turn.payment := q];
      AttemptKeepsCredits(d, turn);
      AttemptKeepsPaid(d, turn);
      AttemptKeepsBalance(d, turn);
    }
  }

  lemma {:induction false} AttemptsKeepInv(d: Desk, turns: seq<Turn>)
    requires DeskInv(d)
    ensures DeskInv(AttemptAll(d, turns)) && Later(d.payments, AttemptAll(d, turns).payments)
    ensures |AttemptAll(d, turns).payments| == |d.payments|
  {
    if turns != [] {
      var init := turns[..|turns| - 1];
      AttemptsKeepInv(d, init);
      AttemptKeepsInv(AttemptAll(d, init), turns[|turns| - 1]);
    }
  }

  lemma {:induction false} OthersUntouched(d: Desk, turns: seq<Turn>, i: nat)
    requires i < |d.payments| && forall k :: 0 <= k < |turns| ==> turns[k].payment != i
    ensures |AttemptAll(d, turns).payments| == |d.payments|
    ensures AttemptAll(d, turns).payments[i] == d.payments[i]
  {
    if turns != [] {
      OthersUntouched(d, turns[..|turns| - 1], i);
    }
  }

  /** In a serial pass every row of the page is attempted exactly once, and its claim wins. */
  lemma {:induction false} EachAttemptedOnce(d: Desk, turns: seq<Turn>, k: nat)
    requires k < |turns| && Distinct(Ids(turns)) && turns[k].payment < |d.payments|
    ensures |AttemptAll(d, turns).payments| == |d.payments|
    ensures AttemptAll(d, turns).payments[turns[k].payment] == Attempted(d.payments[turns[k].payment], turns[k])
  {
    var init, last := turns[..|turns| - 1], turns[|turns| - 1];
    forall j | 0 <= j < |init|
      ensures init[j].payment != last.payment
    {
      assert Ids(turns)[j] != Ids(turns)[|turns| - 1];
    }
    if k == |init| {
      OthersUntouched(d, init, last.payment);
    } else {
      assert Distinct(Ids(init)) by {
        forall i, j | 0 <= i < j < |init|
          ensures Ids(init)[i] != Ids(init)[j]
        {
          assert Ids(turns)[i] != Ids(turns)[j];
        }
      }
      EachAttemptedOnce(d, init, k);
    }
  }

  // ---- Progress ----

  /** Attempts a row may still need before it is settled. */
  function Left(p: Payment): int {
    if Outstanding(p) then MAX_ATTEMPTS - p.attempts else 0
  }

  lemma LaterNeedsNoMore(ps: seq<Payment>, qs: seq<Payment>, i: nat)
    requires Later(ps, qs) && i < |ps| && RowsValid(ps) && RowsValid(qs)
    ensures 0 <= Left(qs[i]) <= Left(ps[i])
  {
    assert RowValid(ps[i]) && RowValid(qs[i]);
  }

  /** A pass whose page holds a payable row brings that row one attempt closer to being settled. */
  lemma PassAdvances(d: Desk, turns: seq<Turn>, bonds: seq<Bond>, i: nat)
    requires DeskInv(d) && ReadFrom(turns, d.payments)
    requires IsPage(Ids(turns), PayableRows(d.payments, bonds), PAYMENT_PAGE)
    requires |PayableRows(d.payments, bonds)| <= PAYMENT_PAGE
    requires i in PayableRows(d.payments, bonds)
    ensures |AttemptAll(d, turns).payments| == |d.payments|
    ensures 0 <= Left(AttemptAll(d, turns).payments[i]) < Left(d.payments[i])
  {
    PageIsWhole(Ids(turns), PayableRows(d.payments, bonds), PAYMENT_PAGE);
    assert i in Ids(turns);
    var k :| 0 <= k < |turns| && Ids(turns)[k] == i;
    EachAttemptedOnce(d, turns, k);
    assert RowValid(d.payments[i]);
  }

  // ---- Creating rows ----

  /** The row is what the register owes its holder for its schedule. */
  ghost predicate OwedTruly(p: Payment, s: ScheduleRow, bond: Bond) {
    && s.start < s.end
    && p.due == HistoryOf(bond.book).Accrued(p.due.user, s.start, s.end, bond.rateBps)
    && p.due.unitDays > 0 && p.due.gross > 0
  }

  lemma AddRowKeeps(ps: seq<Payment>, schedule: nat, bond: nat, due: HolderAccrual)
    requires RowsValid(ps) && OneRowEach(ps) && (due.gross > 0 ==> due.net >= 0 && due.wht >= 0 && due.net + due.wht == due.gross)
    ensures var qs := AddRow(ps, schedule, bond, due); RowsValid(qs) && OneRowEach(qs) && Later(ps, qs)
    ensures due.gross > 0 ==> Recorded(AddRow(ps, schedule, bond, due), schedule, due.user)
  {
    var qs := AddRow(ps, schedule, bond, due);
    if |qs| > |ps| {
      assert qs[|ps|].schedule == schedule && qs[|ps|].due.user == due.user;
    }
  }

  lemma RecordedStays(ps: seq<Payment>, qs: seq<Payment>, schedule: nat, user: UserId)
    requires Later(ps, qs) && Recorded(ps, schedule, user)
    ensures Recorded(qs, schedule, user)
  {
    var i :| 0 <= i < |ps| && ps[i].schedule == schedule && ps[i].due.user == user;
    assert qs[i].schedule == schedule && qs[i].due.user == user;
  }

  lemma {:induction false} AddRowsKeep(ps: seq<Payment>, schedule: nat, bond: nat, owed: seq<HolderAccrual>)
    requires RowsValid(ps) && OneRowEach(ps)
    requires forall k :: 0 <= k < |owed| ==>
               owed[k].net >= 0 && owed[k].wht >= 0 && owed[k].net + owed[k].wht == owed[k].gross
    ensures var qs := AddRows(ps, schedule, bond, owed); RowsValid(qs) && OneRowEach(qs) && Later(ps, qs)
    ensures forall k :: 0 <= k < |owed| && owed[k].gross > 0 ==>
              Recorded(AddRows(ps, schedule, bond, owed), schedule, owed[k].user)
  {
    if owed != [] {
      var init, last := owed[..|owed| - 1], owed[|owed| - 1];
      AddRowsKeep(ps, schedule, bond, init);
      var mid := AddRows(ps, schedule, bond, init);
      AddRowKeeps(mid, schedule, bond, last);
      var qs := AddRow(mid, schedule, bond, last);
      LaterTransitive(ps, mid, qs);
      forall k | 0 <= k < |owed| && owed[k].gross > 0
        ensures Recorded(qs, schedule, owed[k].user)
      {
        if k < |init| {
          assert init[k] == owed[k];
          RecordedStays(mid, qs, schedule, owed[k].user);
        }
      }
    }
  }

  /** New rows are at the end, each one an entry of what is owed. */
  lemma {:induction false} AddedRows(ps: seq<Payment>, schedule: nat, bond: nat, owed: seq<HolderAccrual>, i: nat)
    requires |ps| <= i < |AddRows(ps, schedule, bond, owed)|
    ensures var q := AddRows(ps, schedule, bond, owed)[i];
            && q == Payment(schedule, bond, q.due, PaymentStatus.Pending, 0) && q.due.gross > 0
            && exists k :: 0 <= k < |owed| && owed[k] == q.due
  {
    if owed != [] {
      var init, last := owed[..|owed| - 1], owed[|owed| - 1];
      var mid := AddRows(ps, schedule, bond, init);
      if i < |mid| {
        AddedRows(ps, schedule, bond, init, i);
        var k :| 0 <= k < |init| && init[k] == mid[i].due;
        assert owed[k] == mid[i].due;
      } else {
        assert owed[|init|] == last;
      }
    }
  }

  lemma {:induction false} AddRowsPrefix(ps: seq<Payment>, schedule: nat, bond: nat, owed: seq<HolderAccrual>)
    ensures ps <= AddRows(ps, schedule, bond, owed)
  {
    if owed != [] {
      AddRowsPrefix(ps, schedule, bond, owed[..|owed| - 1]);
    }
  }

  lemma AccruedIsSplit(h: History, u: UserId, start: int, end: int, rateBps: nat)
    ensures var a := h.Accrued(u, start, end, rateBps);
            a.user == u && a.gross >= 0 && a.net >= 0 && a.wht >= 0 && a.net + a.wht == a.gross
  {
    var weight := h.UnitDays(u, start, end);
    assert weight * rateBps >= 0;
  }

  /** An entry of what a schedule owes: priced on its own, and split into net and tax. */
  ghost predicate Entry(a: HolderAccrual, s: ScheduleRow, bond: Bond) {
    && s.start < s.end && a.unitDays > 0
    && a == HistoryOf(bond.book).Accrued(a.user, s.start, s.end, bond.rateBps)
    && a.gross >= 0 && a.net >= 0 && a.wht >= 0 && a.net + a.wht == a.gross
  }

  lemma OwedIsSplit(s: ScheduleRow, bond: Bond)
    ensures forall k :: 0 <= k < |OwedOn(s, bond)| ==> Entry(OwedOn(s, bond)[k], s, bond)
  {
    var owed := OwedOn(s, bond);
    if s.start < s.end {
      AccrualsSettle(HistoryOf(bond.book), s.start, s.end, bond.rateBps);
    }
    forall k | 0 <= k < |owed|
      ensures Entry(owed[k], s, bond)
    {
      AccruedIsSplit(HistoryOf(bond.book), owed[k].user, s.start, s.end, bond.rateBps);
    }
  }

  lemma MaterialiseOneKeeps(ps: seq<Payment>, schedules: seq<ScheduleRow>, bonds: seq<Bond>, k: nat)
    requires RowsValid(ps) && OneRowEach(ps)
    ensures var qs := MaterialiseOne(ps, schedules, bonds, k);
            RowsValid(qs) && OneRowEach(qs) && Later(ps, qs) && ps <= qs
  {
    if k < |schedules| && schedules[k].bond < |bonds| {
      var s := schedules[k];
      OwedIsSplit(s, bonds[s.bond]);
      AddRowsKeep(ps, k, s.bond, OwedOn(s, bonds[s.bond]));
      AddRowsPrefix(ps, k, s.bond, OwedOn(s, bonds[s.bond]));
    }
  }

  /** Everything a due schedule owes to anyone has a row. */
  ghost predicate AllRecorded(ps: seq<Payment>, k: nat, s: ScheduleRow, bond: Bond) {
    forall u :: s.start < s.end && HistoryOf(bond.book).Accrued(u, s.start, s.end, bond.rateBps).gross > 0 ==> Recorded(ps, k, u)
  }

  lemma PositiveGrossIsOwed(s: ScheduleRow, bond: Bond, u: UserId) returns (k: nat)
    requires s.start < s.end && HistoryOf(bond.book).Accrued(u, s.start, s.end, bond.rateBps).gross > 0
    ensures k < |OwedOn(s, bond)| && OwedOn(s, bond)[k] == HistoryOf(bond.book).Accrued(u, s.start, s.end, bond.rateBps)
  {
    var h := HistoryOf(bond.book);
    AccrualsSettle(h, s.start, s.end, bond.rateBps);
    assert h.UnitDays(u, s.start, s.end) > 0;
    k :| 0 <= k < |OwedOn(s, bond)| && OwedOn(s, bond)[k].user == u;
  }

  lemma MaterialiseOneRecords(ps: seq<Payment>, schedules: seq<ScheduleRow>, bonds: seq<Bond>, k: nat)
    requires RowsValid(ps) && OneRowEach(ps) && k < |schedules| && schedules[k].bond < |bonds|
    ensures AllRecorded(MaterialiseOne(ps, schedules, bonds, k), k, schedules[k], bonds[schedules[k].bond])
  {
    var s, bond := schedules[k], bonds[schedules[k].bond];
    OwedIsSplit(s, bond);
    AddRowsKeep(ps, k, s.bond, OwedOn(s, bond));
    forall u | s.start < s.end && HistoryOf(bond.book).Accrued(u, s.start, s.end, bond.rateBps).gross > 0
      ensures Recorded(MaterialiseOne(ps, schedules, bonds, k), k, u)
    {
      var j := PositiveGrossIsOwed(s, bond, u);
    }
  }

  lemma {:induction false} MaterialiseKeeps(ps: seq<Payment>, schedules: seq<ScheduleRow>, bonds: seq<Bond>, due: seq<nat>)
    requires RowsValid(ps) && OneRowEach(ps)
    ensures var qs := MaterialiseAll(ps, schedules, bonds, due);
            RowsValid(qs) && OneRowEach(qs) && Later(ps, qs) && ps <= qs
    ensures forall k :: k in due && k < |schedules| && schedules[k].bond < |bonds| ==>
              AllRecorded(MaterialiseAll(ps, schedules, bonds, due), k, schedules[k], bonds[schedules[k].bond])
  {
    if due != [] {
      var init, last := due[..|due| - 1], due[|due| - 1];
      MaterialiseKeeps(ps, schedules, bonds, init);
      var mid := MaterialiseAll(ps, schedules, bonds, init);
      var qs := MaterialiseOne(mid, schedules, bonds, last);
      MaterialiseOneKeeps(mid, schedules, bonds, last);
      LaterTransitive(ps, mid, qs);
      forall k | k in due && k < |schedules| && schedules[k].bond < |bonds|
        ensures AllRecorded(qs, k, schedules[k], bonds[schedules[k].bond])
      {
        if k == last {
          MaterialiseOneRecords(mid, schedules, bonds, k);
        } else {
          assert k in init;
          RecordedThroughout(mid, qs, k, schedules[k], bonds[schedules[k].bond]);
        }
      }
    }
  }

  lemma RecordedThroughout(ps: seq<Payment>, qs: seq<Payment>, k: nat, s: ScheduleRow, bond: Bond)
    requires Later(ps, qs) && AllRecorded(ps, k, s, bond)
    ensures AllRecorded(qs, k, s, bond)
  {
    forall u | s.start < s.end && HistoryOf(bond.book).Accrued(u, s.start, s.end, bond.rateBps).gross > 0
      ensures Recorded(qs, k, u)
    {
      RecordedStays(ps, qs, k, u);
    }
  }

  /** Every row is of a schedule already due on its bond, for what the register owes. */
  ghost predicate RowsOwedTruly(ps: seq<Payment>, schedules: seq<ScheduleRow>, bonds: seq<Bond>) {
    forall i :: 0 <= i < |ps| ==>
      && ps[i].schedule < |schedules| && schedules[ps[i].schedule].bond == ps[i].bond < |bonds|
      && OwedTruly(ps[i], schedules[ps[i].schedule], bonds[ps[i].bond])
  }

  lemma MaterialiseOneOwesTruly(ps: seq<Payment>, schedules: seq<ScheduleRow>, bonds: seq<Bond>, k: nat)
    requires RowsOwedTruly(ps, schedules, bonds)
    ensures RowsOwedTruly(MaterialiseOne(ps, schedules, bonds, k), schedules, bonds)
  {
    if k < |schedules| && schedules[k].bond < |bonds| {
      var s, bond := schedules[k], bonds[schedules[k].bond];
      var qs := MaterialiseOne(ps, schedules, bonds, k);
      AddRowsPrefix(ps, k, s.bond, OwedOn(s, bond));
      OwedIsSplit(s, bond);
      forall i | 0 <= i < |qs|
        ensures qs[i].schedule < |schedules| && schedules[qs[i].schedule].bond == qs[i].bond < |bonds|
        ensures OwedTruly(qs[i], schedules[qs[i].schedule], bonds[qs[i].bond])
      {
        if i < |ps| {
          assert qs[i] == ps[i];
        } else {
          AddedRows(ps, k, s.bond, OwedOn(s, bond), i);
        }
      }
    }
  }

  lemma {:induction false} MaterialiseOwesTruly(ps: seq<Payment>, schedules: seq<ScheduleRow>, bonds: seq<Bond>, due: seq<nat>)
    requires RowsOwedTruly(ps, schedules, bonds)
    ensures RowsOwedTruly(MaterialiseAll(ps, schedules, bonds, due), schedules, bonds)
  {
    if due != [] {
      var init := due[..|due| - 1];
      MaterialiseOwesTruly(ps, schedules, bonds, init);
      MaterialiseOneOwesTruly(MaterialiseAll(ps, schedules, bonds, init), schedules, bonds, due[|due| - 1]);
    }
  }

  // ---- Closing ----

  /** A schedule is closed by the pass exactly when it is on the page and nothing on it is outstanding. */
  lemma {:induction false} ClosedExactlyWhen(schedules: seq<ScheduleRow>, payments: seq<Payment>, page: seq<nat>, k: nat)
    requires k < |schedules|
    ensures CloseAll(schedules, payments, page)[k]
            == schedules[k].(processed := schedules[k].processed || (k in page && !Owing(payments, k)))
    ensures Owing(payments, k) <==>
            exists i :: 0 <= i < |payments| && payments[i].schedule == k
                        && (payments[i].status == PaymentStatus.Pending || payments[i].status == Retry)
  {
    if page != [] {
      var init, last := page[..|page| - 1], page[|page| - 1];
      ClosedExactlyWhen(schedules, payments, init, k);
      assert k in page <==> k in init || k == last;
    }
  }

  /** What one run leaves of the payment rows. */
  function RowsAfter(d: Desk, schedules: seq<ScheduleRow>, bonds: seq<Bond>, due: seq<nat>, turns: seq<Turn>): seq<Payment> {
    AttemptAll(d.(payments := MaterialiseAll(d.payments, schedules, bonds, due)), turns).payments
  }

  lemma DueRowsRecorded(d: Desk, schedules: seq<ScheduleRow>, bonds: seq<Bond>, due: seq<nat>, turns: seq<Turn>, k: nat)
    requires DeskInv(d) && k in due && k < |schedules| && schedules[k].bond < |bonds|
    ensures AllRecorded(RowsAfter(d, schedules, bonds, due, turns), k, schedules[k], bonds[schedules[k].bond])
  {
    var ps := MaterialiseAll(d.payments, schedules, bonds, due);
    MaterialiseKeeps(d.payments, schedules, bonds, due);
    MaterialiseKeepsDesk(d, schedules, bonds, due);
    AttemptsKeepInv(d.(payments := ps), turns);
    RecordedThroughout(ps, RowsAfter(d, schedules, bonds, due, turns), k, schedules[k], bonds[schedules[k].bond]);
  }

  /**
   Nobody is forgotten: with at most fifty schedules due, a schedule of a live bond that the
   run closes has, for every holder it owes anything, a row that is paid or was escalated.
   */
  lemma ClosedMeansSettled(d: Desk, schedules: seq<ScheduleRow>, bonds: seq<Bond>, today: int,
                           due: seq<nat>, turns: seq<Turn>, page: seq<nat>, k: nat, u: UserId)
    requires DeskInv(d) && k < |schedules|
    requires IsPage(due, DueSchedules(schedules, bonds, today), SCHEDULE_PAGE)
    requires |DueSchedules(schedules, bonds, today)| <= SCHEDULE_PAGE
    requires IsPage(page, OpenSchedules(schedules, today), SCHEDULE_PAGE)
    requires schedules[k].bond < |bonds| && bonds[schedules[k].bond].book.status == Active
    requires schedules[k].start < schedules[k].end
    requires HistoryOf(bonds[schedules[k].bond].book).Accrued(u, schedules[k].start, schedules[k].end, bonds[schedules[k].bond].rateBps).gross > 0
    requires !schedules[k].processed && CloseAll(schedules, RowsAfter(d, schedules, bonds, due, turns), page)[k].processed
    ensures var after := RowsAfter(d, schedules, bonds, due, turns);
            exists i :: 0 <= i < |after| && after[i].schedule == k && after[i].due.user == u
                        && (after[i].status == Paid || after[i].status == Escalated)
  {
    var after := RowsAfter(d, schedules, bonds, due, turns);
    ClosedExactlyWhen(schedules, after, page, k);
    assert k in page && k in OpenSchedules(schedules, today);
    PageIsWhole(due, DueSchedules(schedules, bonds, today), SCHEDULE_PAGE);
    DueRowsRecorded(d, schedules, bonds, due, turns, k);
    assert Recorded(after, k, u);
    var i :| 0 <= i < |after| && after[i].schedule == k && after[i].due.user == u;
    assert !Outstanding(after[i]);
  }

  lemma MaterialiseKeepsDesk(d: Desk, schedules: seq<ScheduleRow>, bonds: seq<Bond>, due: seq<nat>)
    requires DeskInv(d)
    ensures DeskInv(d.(payments := MaterialiseAll(d.payments, schedules, bonds, due)))
  {
    var qs := MaterialiseAll(d.payments, schedules, bonds, due);
    MaterialiseKeeps(d.payments, schedules, bonds, due);
    MaterialisedAwaitPayment(d.payments, schedules, bonds, due);
    MoreUnpaidRows(d, qs);
  }

  lemma {:induction false} MaterialisedAwaitPayment(ps: seq<Payment>, schedules: seq<ScheduleRow>, bonds: seq<Bond>, due: seq<nat>)
    ensures var qs := MaterialiseAll(ps, schedules, bonds, due);
            ps <= qs && forall i :: |ps| <= i < |qs| ==> qs[i].status == PaymentStatus.Pending && qs[i].attempts == 0
  {
    if due != [] {
      var init, k := due[..|due| - 1], due[|due| - 1];
      MaterialisedAwaitPayment(ps, schedules, bonds, init);
      var mid := MaterialiseAll(ps, schedules, bonds, init);
      if k < |schedules| && schedules[k].bond < |bonds| {
        var owed := OwedOn(schedules[k], bonds[schedules[k].bond]);
        AddRowsPrefix(mid, k, schedules[k].bond, owed);
        forall i | |mid| <= i < |AddRows(mid, k, schedules[k].bond, owed)|
          ensures AddRows(mid, k, schedules[k].bond, owed)[i].status == PaymentStatus.Pending
          ensures AddRows(mid, k, schedules[k].bond, owed)[i].attempts == 0
        {
          AddedRows(mid, k, schedules[k].bond, owed, i);
        }
      }
    }
  }

  lemma MoreUnpaidRows(d: Desk, qs: seq<Payment>)
    requires DeskInv(d) && d.payments <= qs && RowsValid(qs) && OneRowEach(qs)
    requires forall i :: |d.payments| <= i < |qs| ==> qs[i].status != Paid
    ensures DeskInv(d.(payments := qs))
  {
    var more := qs[|d.payments|..];
    assert qs == d.payments + more;
    SumByConcat(d.payments, more, PaidGross());
    SumByZero(more, PaidGross());
  }
}
