/**
 What one step of the platform can do to the past of a bond's book and to the payouts in
 the wallet ledger: nothing.
 */
module BookSteps {
  import opened Sums
  import opened Accrual
  import opened Register
  import opened PositionHistory
  import Escrow
  import Wallet

  /** The terms stay, the status moves along the trigger's table, and no earlier day's position changes. */
  ghost predicate BookStep(b: Book, b': Book, now: int) {
    && b'.total == b.total && b'.limitBps == b.limitBps
    && LegalMove(b.status, b'.status)
    && (forall u: UserId, day: int :: day < Day(now) ==> HistoryOf(b').BalanceOn(u, day) == HistoryOf(b).BalanceOn(u, day))
  }

  lemma NextIsBookStep(b: Book, op: Op, now: int)
    requires Register.Inv(b, now)
    ensures BookStep(b, Next(b, op, now), now)
  {
    StatusMovesLegally(b, op, now);
    TermsStay(b, op, now);
    forall u: UserId, day: int | day < Day(now)
      ensures HistoryOf(Next(b, op, now)).BalanceOn(u, day) == HistoryOf(b).BalanceOn(u, day)
    {
      StepAccounted(b, op, now, u, day);
      BalanceFromRows(b, u, day);
      BalanceFromRows(Next(b, op, now), u, day);
    }
  }

  lemma TermsStay(b: Book, op: Op, now: int)
    ensures Next(b, op, now).total == b.total && Next(b, op, now).limitBps == b.limitBps
  {
  }

  lemma SameBookIsBookStep(b: Book, now: int)
    ensures BookStep(b, b, now)
  {
  }

  /** A finished period's row is the same before and after. */
  lemma FinishedRowStays(b: Book, b': Book, now: int, u: UserId, start: int, end: int, rateBps: nat)
    requires BookStep(b, b', now) && start < end <= Day(now)
    ensures HistoryOf(b').Accrued(u, start, end, rateBps) == HistoryOf(b).Accrued(u, start, end, rateBps)
  {
    SameBalancesSameWeight(HistoryOf(b'), HistoryOf(b), u, start, end);
  }

  ghost predicate PlatformStep(p: Escrow.Platform, q: Escrow.Platform, now: int) {
    |q.issues| == |p.issues| && forall b :: 0 <= b < |p.issues| ==> BookStep(p.issues[b].book, q.issues[b].book, now)
  }

  lemma OneIssueStep(p: Escrow.Platform, q: Escrow.Platform, bond: nat, op: Op, now: int)
    requires Escrow.PlatformInv(p, now) && bond < |p.issues|
    requires |q.issues| == |p.issues| && q.issues[bond].book == Next(p.issues[bond].book, op, now)
    requires forall b :: 0 <= b < |p.issues| && b != bond ==> q.issues[b].book == p.issues[b].book
    ensures PlatformStep(p, q, now)
  {
    assert Escrow.IssueValid(p.issues[bond], now);
    NextIsBookStep(p.issues[bond].book, op, now);
    forall b | 0 <= b < |p.issues|
      ensures BookStep(p.issues[b].book, q.issues[b].book, now)
    {
      if b != bond {
        SameBookIsBookStep(p.issues[b].book, now);
      }
    }
  }

  lemma SameIssuesStep(p: Escrow.Platform, q: Escrow.Platform, now: int)
    requires |q.issues| == |p.issues| && forall b :: 0 <= b < |p.issues| ==> q.issues[b].book == p.issues[b].book
    ensures PlatformStep(p, q, now)
  {
    forall b | 0 <= b < |p.issues|
      ensures BookStep(p.issues[b].book, q.issues[b].book, now)
    {
      SameBookIsBookStep(p.issues[b].book, now);
    }
  }

  lemma PlaceIsPlatformStep(p: Escrow.Platform, h: nat, now: int)
    requires Escrow.PlatformInv(p, now)
    ensures PlatformStep(p, Escrow.Place(p, h, now), now)
  {
    if h < |p.holds| && p.holds[h].sub.None? && p.holds[h].bond < |p.issues| && p.holds[h].amount > 0 {
      var hold := p.holds[h];
      assert Escrow.Place(p, h, now).issues[hold.bond].book == Next(p.issues[hold.bond].book, OpSubscribe(hold.user, hold.amount), now);
      OneIssueStep(p, Escrow.Place(p, h, now), hold.bond, OpSubscribe(hold.user, hold.amount), now);
    } else {
      SameIssuesStep(p, p, now);
    }
  }

  lemma UnwindBooks(p: Escrow.Platform, q: Escrow.Platform, bond: nat, sub: nat, now: int)
    requires bond < |p.issues| && Cancel(p.issues[bond].book, sub, now).Done?
    requires q == Escrow.UnwindSubscription(p, bond, sub, now)
    ensures |q.issues| == |p.issues| && q.issues[bond].book == Next(p.issues[bond].book, OpCancel(sub), now)
    ensures forall b :: 0 <= b < |p.issues| && b != bond ==> q.issues[b].book == p.issues[b].book
  {
  }

  lemma UnwindIsPlatformStep(p: Escrow.Platform, bond: nat, sub: nat, now: int)
    requires Escrow.PlatformInv(p, now)
    ensures PlatformStep(p, Escrow.UnwindSubscription(p, bond, sub, now), now)
  {
    if bond < |p.issues| && Cancel(p.issues[bond].book, sub, now).Done? {
      var q := Escrow.UnwindSubscription(p, bond, sub, now);
      UnwindBooks(p, q, bond, sub, now);
      OneIssueStep(p, q, bond, OpCancel(sub), now);
    } else {
      SameIssuesStep(p, p, now);
    }
  }

  lemma RegisterIsPlatformStep(p: Escrow.Platform, bond: nat, op: Op, now: int)
    requires Escrow.PlatformInv(p, now)
    ensures PlatformStep(p, Escrow.MoveRegister(p, bond, op, now), now)
  {
    if bond < |p.issues| && !op.OpSubscribe? && !op.OpCancel? {
      OneIssueStep(p, Escrow.MoveRegister(p, bond, op, now), bond, op, now);
    } else {
      SameIssuesStep(p, p, now);
    }
  }

  lemma RefundIsPlatformStep(p: Escrow.Platform, bond: nat, sub: nat, reference: nat, now: int)
    ensures PlatformStep(p, Escrow.PayRefund(p, bond, sub, reference), now)
  {
    SameIssuesStep(p, Escrow.PayRefund(p, bond, sub, reference), now);
  }

  /** Every step of the platform is at most one procedure on one book. */
  lemma TakeIsPlatformStep(p: Escrow.Platform, s: Escrow.Step, now: int)
    requires Escrow.PlatformInv(p, now)
    ensures PlatformStep(p, Escrow.Take(p, s, now), now)
  {
    match s
    case PlaceSubscription(h) => PlaceIsPlatformStep(p, h, now);
    case Unwind(bond, sub) => UnwindIsPlatformStep(p, bond, sub, now);
    case RefundEscrow(bond, sub, reference) => RefundIsPlatformStep(p, bond, sub, reference, now);
    case OnRegister(bond, op) => RegisterIsPlatformStep(p, bond, op, now);
    case _ => SameIssuesStep(p, Escrow.Take(p, s, now), now);
  }

  // ---- Payouts ----

  function PayoutOf(): Wallet.Txn -> int {
    (t: Wallet.Txn) => if t.kind == Wallet.Payout then t.amount else 0
  }

  /** Rows are restated, and at most one row that is no payout is added. */
  ghost predicate NoPayout(ledger: seq<Wallet.Txn>, ledger': seq<Wallet.Txn>) {
    && |ledger| <= |ledger'| <= |ledger| + 1
    && (forall i :: 0 <= i < |ledger| ==> ledger'[i] == ledger[i].(status := ledger'[i].status))
    && (|ledger'| > |ledger| ==> ledger'[|ledger|].kind != Wallet.Payout)
  }

  lemma NoPayoutSum(ledger: seq<Wallet.Txn>, ledger': seq<Wallet.Txn>)
    requires NoPayout(ledger, ledger')
    ensures SumBy(ledger', PayoutOf()) == SumBy(ledger, PayoutOf())
  {
    var front := ledger'[..|ledger|];
    SumByParallel(ledger, front, PayoutOf(), PayoutOf());
    if |ledger'| > |ledger| {
      assert ledger' == front + [ledger'[|ledger|]];
      SumByPush(front, ledger'[|ledger|], PayoutOf());
    } else {
      assert front == ledger';
    }
  }

  /** Only the engine pays out. */
  lemma TakeLeavesPayouts(p: Escrow.Platform, s: Escrow.Step, now: int)
    requires !s.PayOut?
    ensures SumBy(Escrow.Take(p, s, now).bank.ledger, PayoutOf()) == SumBy(p.bank.ledger, PayoutOf())
  {
    if s.Settle? {
      Wallet.DeliverRestatesOnly(p.bank, s.result);
    }
    NoPayoutSum(p.bank.ledger, Escrow.Take(p, s, now).bank.ledger);
  }

  lemma CreditIsPayout(bank: Wallet.Bank, user: UserId, amount: nat, reference: nat)
    ensures SumBy(Wallet.Credit(bank, user, amount, Wallet.Payout, reference).ledger, PayoutOf())
            == SumBy(bank.ledger, PayoutOf()) + amount
  {
    SumByPush(bank.ledger, Wallet.Txn(user, Wallet.Payout, Wallet.Completed, amount, false, reference), PayoutOf());
  }

  /** A payout keeps the platform's invariant. */
  lemma PayoutKeepsInv(p: Escrow.Platform, user: UserId, amount: nat, reference: nat, now: int)
    requires Escrow.PlatformInv(p, now)
    ensures Escrow.PlatformInv(p.(bank := Wallet.Credit(p.bank, user, amount, Wallet.Payout, reference)), now)
  {
    Escrow.BankKeepsInv(p, Escrow.PayOut(user, amount, reference), now);
  }
}
