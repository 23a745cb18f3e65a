/**
 Money in and out of escrow across wallets and every bond, after
 src/bonds/subscriptions.service.ts and src/bonds/adapters/payment.adapter.ts.

 Subscribing is a debit and then a row; cancelling is an unwind and then a refund. Each
 half is its own transaction, so a process may stop between any two of them. A stop is
 simply a run in which the second half never comes.
 */
module Escrow {
  import opened Sums
  import opened Accrual
  import opened Register
  import Wallet

  /** A debit taken for a subscription; `sub` is the row it became, if it got that far. */
  datatype Hold = Hold(bond: nat, user: UserId, amount: nat, txn: nat, sub: Option<nat>)

  /**
   One bond: its book, the hold behind each subscription row, the cancelled subscriptions
   still waiting for their refund, and those that have had it.
   */
  datatype Issue = Issue(book: Book, behind: seq<nat>, owed: map<nat, int>, repaid: map<nat, int>)

  datatype Platform = Platform(bank: Wallet.Bank, issues: seq<Issue>, holds: seq<Hold>)

  // ---- Steps ----

  datatype Step =
    | HoldFunds(bond: nat, user: UserId, amount: nat, reference: nat)
    | PlaceSubscription(hold: nat)
    | Unwind(bond: nat, sub: nat)
    | RefundEscrow(bond: nat, sub: nat, reference: nat)
    | OnRegister(bond: nat, op: Op)
    | OpenDeposit(user: UserId, asked: int, reference: nat)
    | ReserveWithdrawal(user: UserId, asked: int, reference: nat)
    | Settle(result: Wallet.Result)
    | PayOut(user: UserId, amount: nat, reference: nat)

  function TakeHold(p: Platform, bond: nat, user: UserId, amount: nat, reference: nat): Platform {
    if bond >= |p.issues| || p.issues[bond].book.status != Open || amount == 0 then p
    else
      var debit := Wallet.DebitForEscrow(p.bank, user, amount, reference);
      if !debit.Changed? then p
      else p.(bank := debit.bank, holds := p.holds + [Hold(bond, user, amount, |p.bank.ledger|, None)])
  }

  function PlacedIssue(issue: Issue, user: UserId, amount: nat, h: nat, now: int): Issue
    requires amount > 0
  {
    issue.(book := SubscriptionRow(issue.book, user, amount, now).value, behind := issue.behind + [h])
  }

  function UnwoundIssue(issue: Issue, sub: nat, now: int): Issue
    requires Cancel(issue.book, sub, now).Done?
  {
    issue.(book := Cancel(issue.book, sub, now).value, owed := issue.owed[sub := issue.book.subs[sub].amount])
  }

  function RefundedIssue(issue: Issue, sub: nat): Issue
    requires sub in issue.owed
  {
    issue.(owed := issue.owed - {sub}, repaid := issue.repaid[sub := issue.owed[sub]])
  }

  function Place(p: Platform, h: nat, now: int): Platform {
    if h >= |p.holds| || p.holds[h].sub.Some? || p.holds[h].bond >= |p.issues| then p
    else
      var hold := p.holds[h];
      var issue := p.issues[hold.bond];
      if hold.amount == 0 then p
      else
        p.(issues := p.issues[hold.bond := PlacedIssue(issue, hold.user, hold.amount, h, now)],
           holds := p.holds[h := hold.(sub := Some(|issue.book.subs|))])
  }

  function UnwindSubscription(p: Platform, bond: nat, sub: nat, now: int): Platform {
    if bond >= |p.issues| then p
    else
      var issue := p.issues[bond];
      if Cancel(issue.book, sub, now).Refused? then p
      else p.(issues := p.issues[bond := UnwoundIssue(issue, sub, now)])
  }

  /** Credit a cancelled subscription's money back. Only the cancellation that unwound it comes here, once. */
  function PayRefund(p: Platform, bond: nat, sub: nat, reference: nat): Platform {
    if bond >= |p.issues| then p
    else
      var issue := p.issues[bond];
      if sub !in issue.owed || sub >= |issue.book.subs| || issue.owed[sub] < 0 then p
      else
        p.(bank := Wallet.Credit(p.bank, issue.book.subs[sub].user, issue.owed[sub], Wallet.Refund, reference),
           issues := p.issues[bond := RefundedIssue(issue, sub)])
  }

  function MoveRegister(p: Platform, bond: nat, op: Op, now: int): Platform {
    if bond >= |p.issues| || op.OpSubscribe? || op.OpCancel? then p
    else p.(issues := p.issues[bond := p.issues[bond].(book := Next(p.issues[bond].book, op, now))])
  }

  function Take(p: Platform, s: Step, now: int): Platform {
    match s
    case HoldFunds(bond, user, amount, reference) => TakeHold(p, bond, user, amount, reference)
    case PlaceSubscription(hold) => Place(p, hold, now)
    case Unwind(bond, sub) => UnwindSubscription(p, bond, sub, now)
    case RefundEscrow(bond, sub, reference) => PayRefund(p, bond, sub, reference)
    case OnRegister(bond, op) => MoveRegister(p, bond, op, now)
    case OpenDeposit(user, amount, reference) =>
      p.(bank := Wallet.Committed(p.bank, Wallet.OpenDeposit(p.bank, user, amount, reference)))
    case ReserveWithdrawal(user, amount, reference) =>
      p.(bank := Wallet.Committed(p.bank, Wallet.ReserveWithdrawal(p.bank, user, amount, reference)))
    case Settle(result) => p.(bank := Wallet.Deliver(p.bank, result))
    case PayOut(user, amount, reference) => p.(bank := Wallet.Credit(p.bank, user, amount, Wallet.Payout, reference))
  }

  /** Random references are new, and deposit results name deposits. */
  predicate Proper(p: Platform, s: Step) {
    match s
    case OpenDeposit(user, amount, reference) => Wallet.Unused(p.bank.ledger, reference)
    case ReserveWithdrawal(user, amount, reference) => Wallet.Unused(p.bank.ledger, reference)
    case Settle(result) => Wallet.Addressed(p.bank.ledger, result)
    case _ => true
  }

  // ---- Weights ----

  function InvestedOf(): Wallet.Txn -> int {
    (t: Wallet.Txn) => if t.kind == Wallet.Investment then t.amount else 0
  }

  function RefundedOf(): Wallet.Txn -> int {
    (t: Wallet.Txn) => if t.kind == Wallet.Refund then t.amount else 0
  }

  /** Money that entered or left the platform: deposits and payouts in, withdrawals out. */
  function ExternalOf(): Wallet.Txn -> int {
    (t: Wallet.Txn) => if t.kind == Wallet.Investment || t.kind == Wallet.Refund then 0 else Wallet.Worth(t)
  }

  function HeldOf(): Hold -> int { (h: Hold) => h.amount }

  function UnplacedOf(): Hold -> int { (h: Hold) => if h.sub.None? then h.amount else 0 }

  function AmountOf(): Subscription -> int { (s: Subscription) => s.amount }

  function LiveOf(): Subscription -> int { (s: Subscription) => if s.status != Cancelled then s.amount else 0 }

  function AllSubscribed(): Issue -> int { (i: Issue) => SumBy(i.book.subs, AmountOf()) }

  function Live(): Issue -> int { (i: Issue) => SumBy(i.book.subs, LiveOf()) }

  ghost function Unrefunded(): Issue -> int { (i: Issue) => SumMap(i.owed) }

  ghost function Repaid(): Issue -> int { (i: Issue) => SumMap(i.repaid) }

  // ---- The invariant ----

  /** A subscription is awaiting its refund or has had it exactly when it is cancelled, never both. */
  ghost predicate RefundsTracked(i: Issue) {
    && i.owed.Keys !! i.repaid.Keys
    && (forall id :: id in i.owed || id in i.repaid <==> 0 <= id < |i.book.subs| && i.book.subs[id].status == Cancelled)
    && (forall id :: id in i.owed ==> i.owed[id] == i.book.subs[id].amount >= 0)
    && (forall id :: id in i.repaid ==> i.repaid[id] == i.book.subs[id].amount)
    && SumBy(i.book.subs, AmountOf()) == SumBy(i.book.subs, LiveOf()) + SumMap(i.owed) + SumMap(i.repaid)
  }

  /** The hold behind a subscription row is its own: same bond, same owner, same amount. */
  predicate Backs(holds: seq<Hold>, h: nat, bond: nat, sub: nat, s: Subscription) {
    && h < |holds|
    && holds[h].bond == bond && holds[h].sub == Some(sub) && holds[h].user == s.user && holds[h].amount == s.amount
  }

  ghost predicate IssueBacked(holds: seq<Hold>, bond: nat, i: Issue) {
    && |i.behind| == |i.book.subs|
    && (forall s :: 0 <= s < |i.behind| ==> Backs(holds, i.behind[s], bond, s, i.book.subs[s]))
  }

  /** Every subscription row of every bond has a hold behind it. */
  ghost predicate AllBacked(holds: seq<Hold>, issues: seq<Issue>) {
    forall b :: 0 <= b < |issues| ==> IssueBacked(holds, b, issues[b])
  }

  predicate Debit(t: Wallet.Txn, user: UserId, amount: nat) {
    t.kind == Wallet.Investment && t.status == Wallet.Completed && t.user == user && t.amount == amount && !t.paystack
  }

  predicate Debited(ledger: seq<Wallet.Txn>, h: Hold) {
    h.txn < |ledger| && Debit(ledger[h.txn], h.user, h.amount)
  }

  /** Every hold is a completed debit of its owner's wallet, each its own ledger row. */
  ghost predicate HoldsDebited(holds: seq<Hold>, ledger: seq<Wallet.Txn>) {
    && (forall h :: 0 <= h < |holds| ==> Debited(ledger, holds[h]))
    && (forall g, h :: 0 <= g < h < |holds| ==> holds[g].txn < holds[h].txn)
  }

  ghost predicate Tallied(p: Platform) {
    && SumBy(p.bank.ledger, InvestedOf()) == SumBy(p.holds, HeldOf())
    && SumBy(p.bank.ledger, RefundedOf()) == SumBy(p.issues, Repaid())
    && SumBy(p.holds, HeldOf()) == SumBy(p.holds, UnplacedOf()) + SumBy(p.issues, AllSubscribed())
  }

  ghost predicate IssueValid(i: Issue, now: int) {
    Register.Inv(i.book, now) && RefundsTracked(i)
  }

  ghost predicate BooksValid(issues: seq<Issue>, now: int) {
    forall b :: 0 <= b < |issues| ==> IssueValid(issues[b], now)
  }

  ghost predicate PlatformInv(p: Platform, now: int) {
    && Wallet.Inv(p.bank) && BooksValid(p.issues, now) && AllBacked(p.holds, p.issues)
    && HoldsDebited(p.holds, p.bank.ledger) && Tallied(p)
  }

  /**
   Money is conserved: what is in wallets, in live subscriptions, in holds without a row
   and in cancellations not yet refunded is exactly what came in less what went out.
   */
  ghost predicate MoneyConserved(p: Platform) {
    SumMap(p.bank.balances) + SumBy(p.issues, Live()) + SumBy(p.holds, UnplacedOf()) + SumBy(p.issues, Unrefunded())
    == SumBy(p.bank.ledger, ExternalOf())
  }

  lemma InvConservesMoney(p: Platform, now: int)
    requires PlatformInv(p, now)
    ensures MoneyConserved(p)
  {
    WorthSplits(p.bank.ledger);
    SubscribedSplits(p.issues, now);
  }

  lemma {:induction false} WorthSplits(ledger: seq<Wallet.Txn>)
    ensures SumBy(ledger, Wallet.WorthOf())
            == SumBy(ledger, ExternalOf()) + SumBy(ledger, RefundedOf()) - SumBy(ledger, InvestedOf())
  {
    if ledger != [] {
      WorthSplits(ledger[..|ledger| - 1]);
    }
  }

  lemma {:induction false} SubscribedSplits(issues: seq<Issue>, now: int)
    requires BooksValid(issues, now)
    ensures SumBy(issues, AllSubscribed()) == SumBy(issues, Live()) + SumBy(issues, Unrefunded()) + SumBy(issues, Repaid())
  {
    if issues != [] {
      assert IssueValid(issues[|issues| - 1], now);
      SubscribedSplits(issues[..|issues| - 1], now);
    }
  }

  // ---- Each step keeps it ----

  lemma HoldTaken(p: Platform, bond: nat, user: UserId, amount: nat, row: Wallet.Txn)
    requires Tallied(p) && AllBacked(p.holds, p.issues) && HoldsDebited(p.holds, p.bank.ledger)
    requires Debit(row, user, amount)
    ensures var holds := p.holds + [Hold(bond, user, amount, |p.bank.ledger|, None)];
            var ledger := p.bank.ledger + [row];
            && AllBacked(holds, p.issues) && HoldsDebited(holds, ledger)
            && SumBy(ledger, InvestedOf()) == SumBy(holds, HeldOf())
            && SumBy(ledger, RefundedOf()) == SumBy(p.issues, Repaid())
            && SumBy(holds, HeldOf()) == SumBy(holds, UnplacedOf()) + SumBy(p.issues, AllSubscribed())
  {
    var hold := Hold(bond, user, amount, |p.bank.ledger|, None);
    SumByPush(p.bank.ledger, row, InvestedOf());
    SumByPush(p.bank.ledger, row, RefundedOf());
    SumByPush(p.holds, hold, HeldOf());
    SumByPush(p.holds, hold, UnplacedOf());
    MoreHoldsStillBack(p.holds, p.issues, hold);
    assert forall h :: 0 <= h < |p.holds| ==> Debited(p.bank.ledger, p.holds[h]);
  }

  lemma MoreHoldsStillBack(holds: seq<Hold>, issues: seq<Issue>, hold: Hold)
    requires AllBacked(holds, issues)
    ensures AllBacked(holds + [hold], issues)
  {
    forall b | 0 <= b < |issues|
      ensures IssueBacked(holds + [hold], b, issues[b])
    {
      assert IssueBacked(holds, b, issues[b]);
      forall s | 0 <= s < |issues[b].behind|
        ensures Backs(holds + [hold], issues[b].behind[s], b, s, issues[b].book.subs[s])
      {
        assert Backs(holds, issues[b].behind[s], b, s, issues[b].book.subs[s]);
      }
    }
  }

  lemma HoldKeepsInv(p: Platform, bond: nat, user: UserId, amount: nat, reference: nat, now: int)
    requires PlatformInv(p, now)
    ensures PlatformInv(TakeHold(p, bond, user, amount, reference), now)
  {
    Wallet.DebitKeepsInv(p.bank, user, amount, reference);
    HoldTaken(p, bond, user, amount, Wallet.Txn(user, Wallet.Investment, Wallet.Completed, amount, false, reference));
  }

  lemma PlacedIssueTracked(issue: Issue, user: UserId, amount: nat, h: nat, now: int)
    requires amount > 0 && IssueValid(issue, now)
    ensures var next := PlacedIssue(issue, user, amount, h, now);
            IssueValid(next, now) && AllSubscribed()(next) == AllSubscribed()(issue) + amount && Repaid()(next) == Repaid()(issue)
  {
    var row := Subscription(user, amount, Pending, now + COOLING_OFF_SECONDS, None, None);
    SubscriptionRowKeepsInv(issue.book, user, amount, now);
    SumByPush(issue.book.subs, row, AmountOf());
    SumByPush(issue.book.subs, row, LiveOf());
  }

  /** Same rows, same owners, same amounts. */
  ghost predicate SameClaims(i: Issue, j: Issue) {
    && j.behind == i.behind && |j.book.subs| == |i.book.subs|
    && (forall s :: 0 <= s < |i.book.subs| ==>
          j.book.subs[s].user == i.book.subs[s].user && j.book.subs[s].amount == i.book.subs[s].amount)
  }

  lemma UnwoundRefundsTracked(issue: Issue, sub: nat, now: int)
    requires RefundsTracked(issue) && Cancel(issue.book, sub, now).Done? && issue.book.subs[sub].amount > 0
    ensures RefundsTracked(UnwoundIssue(issue, sub, now))
    ensures AllSubscribed()(UnwoundIssue(issue, sub, now)) == AllSubscribed()(issue)
    ensures SameClaims(issue, UnwoundIssue(issue, sub, now))
  {
    var subs := issue.book.subs;
    var s' := subs[sub].(status := Cancelled, cancelledAt := Some(now));
    assert UnwoundIssue(issue, sub, now).book.subs == subs[sub := s'];
    SumByUpdate(subs, sub, s', AmountOf());
    SumByUpdate(subs, sub, s', LiveOf());
    assert sub !in issue.owed && sub !in issue.repaid;
    SumMapWrite(issue.owed, sub, subs[sub].amount);
  }

  lemma UnwoundIssueTracked(issue: Issue, sub: nat, now: int)
    requires IssueValid(issue, now) && Cancel(issue.book, sub, now).Done?
    ensures IssueValid(UnwoundIssue(issue, sub, now), now)
    ensures AllSubscribed()(UnwoundIssue(issue, sub, now)) == AllSubscribed()(issue)
    ensures SameClaims(issue, UnwoundIssue(issue, sub, now))
  {
    assert WellDated(issue.book.subs[sub], now);
    UnwoundRefundsTracked(issue, sub, now);
    CancelKeepsInv(issue.book, sub, now);
  }

  lemma RefundedIssueTracked(issue: Issue, sub: nat)
    requires RefundsTracked(issue) && sub in issue.owed
    ensures var next := RefundedIssue(issue, sub);
            && RefundsTracked(next) && SameClaims(issue, next) && issue.owed[sub] >= 0
            && AllSubscribed()(next) == AllSubscribed()(issue) && Repaid()(next) == Repaid()(issue) + issue.owed[sub]
  {
    assert sub !in issue.repaid;
    SumMapRemove(issue.owed, sub);
    SumMapWrite(issue.repaid, sub, issue.owed[sub]);
  }

  /** Replacing one issue by one with the same claims keeps everything but its own share of the refunds. */
  lemma IssueReplaced(holds: seq<Hold>, issues: seq<Issue>, bond: nat, next: Issue, now: int)
    requires bond < |issues| && BooksValid(issues, now) && AllBacked(holds, issues)
    requires IssueValid(next, now) && SameClaims(issues[bond], next)
    ensures BooksValid(issues[bond := next], now) && AllBacked(holds, issues[bond := next])
    ensures SumBy(issues[bond := next], AllSubscribed())
            == SumBy(issues, AllSubscribed()) - AllSubscribed()(issues[bond]) + AllSubscribed()(next)
    ensures SumBy(issues[bond := next], Repaid()) == SumBy(issues, Repaid()) - Repaid()(issues[bond]) + Repaid()(next)
  {
    SumByUpdate(issues, bond, next, AllSubscribed());
    SumByUpdate(issues, bond, next, Repaid());
    assert IssueBacked(holds, bond, issues[bond]);
    forall s | 0 <= s < |next.behind|
      ensures Backs(holds, next.behind[s], bond, s, next.book.subs[s])
    {
      assert Backs(holds, issues[bond].behind[s], bond, s, issues[bond].book.subs[s]);
    }
    assert IssueBacked(holds, bond, next);
  }

  /** A step on one bond that leaves wallets, holds, claims and past refunds alone. */
  lemma IssueStepKeepsInv(p: Platform, bond: nat, next: Issue, now: int)
    requires PlatformInv(p, now) && bond < |p.issues|
    requires IssueValid(next, now) && SameClaims(p.issues[bond], next)
    requires AllSubscribed()(next) == AllSubscribed()(p.issues[bond]) && next.repaid == p.issues[bond].repaid
    ensures PlatformInv(p.(issues := p.issues[bond := next]), now)
  {
    IssueReplaced(p.holds, p.issues, bond, next, now);
  }

  lemma UnwindKeepsInv(p: Platform, bond: nat, sub: nat, now: int)
    requires PlatformInv(p, now)
    ensures PlatformInv(UnwindSubscription(p, bond, sub, now), now)
  {
    if bond < |p.issues| && Cancel(p.issues[bond].book, sub, now).Done? {
      UnwoundIssueTracked(p.issues[bond], sub, now);
      IssueStepKeepsInv(p, bond, UnwoundIssue(p.issues[bond], sub, now), now);
    }
  }

  /** Register steps other than subscribing and cancelling at most mark one pending row allocated. */
  lemma RegisterStepOnRows(b: Book, op: Op, now: int)
    requires !op.OpSubscribe? && !op.OpCancel?
    ensures |Next(b, op, now).subs| == |b.subs|
    ensures forall i :: 0 <= i < |b.subs| ==>
              var s, s' := b.subs[i], Next(b, op, now).subs[i];
              s'.user == s.user && s'.amount == s.amount && (s'.status == Cancelled <==> s.status == Cancelled)
  {
  }

  lemma MovedIssueTracked(issue: Issue, op: Op, now: int)
    requires IssueValid(issue, now) && !op.OpSubscribe? && !op.OpCancel?
    ensures var next := issue.(book := Next(issue.book, op, now));
            IssueValid(next, now) && SameClaims(issue, next) && AllSubscribed()(next) == AllSubscribed()(issue)
  {
    var subs, subs' := issue.book.subs, Next(issue.book, op, now).subs;
    StepKeepsInv(issue.book, op, now);
    RegisterStepOnRows(issue.book, op, now);
    SumByParallel(subs, subs', AmountOf(), AmountOf());
    SumByParallel(subs, subs', LiveOf(), LiveOf());
  }

  lemma RegisterKeepsInv(p: Platform, bond: nat, op: Op, now: int)
    requires PlatformInv(p, now)
    ensures PlatformInv(MoveRegister(p, bond, op, now), now)
  {
    if bond < |p.issues| && !op.OpSubscribe? && !op.OpCancel? {
      MovedIssueTracked(p.issues[bond], op, now);
      IssueStepKeepsInv(p, bond, p.issues[bond].(book := Next(p.issues[bond].book, op, now)), now);
    }
  }

  /** Marking a hold as placed and appending its row keeps every row of every bond backed. */
  lemma PlacedIsBacked(holds: seq<Hold>, issues: seq<Issue>, h: nat, next: Issue)
    requires AllBacked(holds, issues)
    requires h < |holds| && holds[h].sub.None? && holds[h].bond < |issues|
    requires var i := issues[holds[h].bond];
             && next.behind == i.behind + [h] && |next.book.subs| == |i.book.subs| + 1
             && next.book.subs[..|i.book.subs|] == i.book.subs
             && next.book.subs[|i.book.subs|].user == holds[h].user
             && next.book.subs[|i.book.subs|].amount == holds[h].amount
    ensures var bond := holds[h].bond;
            AllBacked(holds[h := holds[h].(sub := Some(|issues[bond].book.subs|))], issues[bond := next])
  {
    var bond := holds[h].bond;
    var n := |issues[bond].book.subs|;
    var holds', issues' := holds[h := holds[h].(sub := Some(n))], issues[bond := next];
    forall b | 0 <= b < |issues'|
      ensures IssueBacked(holds', b, issues'[b])
    {
      var i := issues'[b];
      assert IssueBacked(holds, b, issues[b]);
      forall s | 0 <= s < |i.behind|
        ensures Backs(holds', i.behind[s], b, s, i.book.subs[s])
      {
        if b == bond && s == n {
        } else {
          assert Backs(holds, issues[b].behind[s], b, s, issues[b].book.subs[s]);
          assert b == bond ==> next.book.subs[s] == next.book.subs[..n][s];
        }
      }
    }
  }

  lemma PlacedSums(p: Platform, h: nat, next: Issue)
    requires Tallied(p) && h < |p.holds| && p.holds[h].sub.None? && p.holds[h].bond < |p.issues|
    requires AllSubscribed()(next) == AllSubscribed()(p.issues[p.holds[h].bond]) + p.holds[h].amount
    requires Repaid()(next) == Repaid()(p.issues[p.holds[h].bond])
    ensures Tallied(p.(issues := p.issues[p.holds[h].bond := next],
                       holds := p.holds[h := p.holds[h].(sub := Some(|p.issues[p.holds[h].bond].book.subs|))]))
  {
    var placed := p.holds[h].(sub := Some(|p.issues[p.holds[h].bond].book.subs|));
    SumByUpdate(p.issues, p.holds[h].bond, next, AllSubscribed());
    SumByUpdate(p.issues, p.holds[h].bond, next, Repaid());
    SumByUpdate(p.holds, h, placed, HeldOf());
    SumByUpdate(p.holds, h, placed, UnplacedOf());
  }

  lemma PlaceKeepsInv(p: Platform, h: nat, now: int)
    requires PlatformInv(p, now)
    ensures PlatformInv(Place(p, h, now), now)
  {
    if h < |p.holds| && p.holds[h].sub.None? && p.holds[h].bond < |p.issues| && p.holds[h].amount > 0 {
      var hold := p.holds[h];
      var next := PlacedIssue(p.issues[hold.bond], hold.user, hold.amount, h, now);
      PlacedIssueTracked(p.issues[hold.bond], hold.user, hold.amount, h, now);
      PlacedIsBacked(p.holds, p.issues, h, next);
      PlacedSums(p, h, next);
      PlacingKeepsDebits(p.holds, p.bank.ledger, h, |p.issues[hold.bond].book.subs|);
      BookReplaced(p.issues, hold.bond, next, now);
    }
  }

  lemma PlacingKeepsDebits(holds: seq<Hold>, ledger: seq<Wallet.Txn>, h: nat, sub: nat)
    requires HoldsDebited(holds, ledger) && h < |holds|
    ensures HoldsDebited(holds[h := holds[h].(sub := Some(sub))], ledger)
  {
    assert Debited(ledger, holds[h]);
  }

  lemma BookReplaced(issues: seq<Issue>, bond: nat, next: Issue, now: int)
    requires bond < |issues| && BooksValid(issues, now) && IssueValid(next, now)
    ensures BooksValid(issues[bond := next], now)
  {
  }

  lemma RefundSums(p: Platform, bond: nat, next: Issue, row: Wallet.Txn)
    requires Tallied(p) && bond < |p.issues| && row.kind == Wallet.Refund
    requires AllSubscribed()(next) == AllSubscribed()(p.issues[bond])
    requires Repaid()(next) == Repaid()(p.issues[bond]) + row.amount
    ensures SumBy(p.bank.ledger + [row], InvestedOf()) == SumBy(p.holds, HeldOf())
    ensures SumBy(p.bank.ledger + [row], RefundedOf()) == SumBy(p.issues[bond := next], Repaid())
    ensures SumBy(p.issues[bond := next], AllSubscribed()) == SumBy(p.issues, AllSubscribed())
  {
    SumByPush(p.bank.ledger, row, InvestedOf());
    SumByPush(p.bank.ledger, row, RefundedOf());
    SumByUpdate(p.issues, bond, next, AllSubscribed());
    SumByUpdate(p.issues, bond, next, Repaid());
  }

  lemma LongerLedgerStillDebits(holds: seq<Hold>, ledger: seq<Wallet.Txn>, row: Wallet.Txn)
    requires HoldsDebited(holds, ledger)
    ensures HoldsDebited(holds, ledger + [row])
  {
    assert forall h :: 0 <= h < |holds| ==> Debited(ledger, holds[h]);
  }

  lemma RefundKeepsInv(p: Platform, bond: nat, sub: nat, reference: nat, now: int)
    requires PlatformInv(p, now)
    ensures PlatformInv(PayRefund(p, bond, sub, reference), now)
  {
    if bond < |p.issues| && sub in p.issues[bond].owed {
      var issue := p.issues[bond];
      assert IssueValid(issue, now);
      RefundedIssueTracked(issue, sub);
      var next := RefundedIssue(issue, sub);
      var user, amount := issue.book.subs[sub].user, issue.owed[sub];
      var row := Wallet.Txn(user, Wallet.Refund, Wallet.Completed, amount, false, reference);
      Wallet.CreditKeepsInv(p.bank, user, amount, Wallet.Refund, reference);
      RefundSums(p, bond, next, row);
      LongerLedgerStillDebits(p.holds, p.bank.ledger, row);
      IssueReplaced(p.holds, p.issues, bond, next, now);
    }
  }

  /** A bank step that neither invests nor refunds: rows restated, or one row of another kind added. */
  ghost predicate LeavesEscrow(ledger: seq<Wallet.Txn>, ledger': seq<Wallet.Txn>) {
    && |ledger| <= |ledger'| <= |ledger| + 1
    && (forall i :: 0 <= i < |ledger| ==>
          && ledger'[i] == ledger[i].(status := ledger'[i].status)
          && (!ledger[i].paystack ==> ledger'[i] == ledger[i]))
    && (|ledger'| > |ledger| ==> ledger'[|ledger|].kind != Wallet.Investment && ledger'[|ledger|].kind != Wallet.Refund)
  }

  lemma EscrowLeftAlone(holds: seq<Hold>, ledger: seq<Wallet.Txn>, ledger': seq<Wallet.Txn>)
    requires LeavesEscrow(ledger, ledger') && HoldsDebited(holds, ledger)
    ensures SumBy(ledger', InvestedOf()) == SumBy(ledger, InvestedOf())
    ensures SumBy(ledger', RefundedOf()) == SumBy(ledger, RefundedOf())
    ensures HoldsDebited(holds, ledger')
  {
    var n := |ledger|;
    var front := ledger'[..n];
    SumByParallel(ledger, front, InvestedOf(), InvestedOf());
    SumByParallel(ledger, front, RefundedOf(), RefundedOf());
    if |ledger'| > n {
      assert ledger' == front + [ledger'[n]];
      SumByPush(front, ledger'[n], InvestedOf());
      SumByPush(front, ledger'[n], RefundedOf());
    } else {
      assert front == ledger';
    }
    forall h | 0 <= h < |holds|
      ensures Debited(ledger', holds[h])
    {
      assert Debited(ledger, holds[h]);
    }
  }

  lemma BankStepKeepsInv(p: Platform, bank: Wallet.Bank, now: int)
    requires PlatformInv(p, now) && Wallet.Inv(bank) && LeavesEscrow(p.bank.ledger, bank.ledger)
    ensures PlatformInv(p.(bank := bank), now)
  {
    EscrowLeftAlone(p.holds, p.bank.ledger, bank.ledger);
  }

  /** Steps of the wallet alone. */
  function BankAfter(bank: Wallet.Bank, s: Step): Wallet.Bank {
    match s
    case OpenDeposit(user, asked, reference) => Wallet.Committed(bank, Wallet.OpenDeposit(bank, user, asked, reference))
    case ReserveWithdrawal(user, asked, reference) => Wallet.Committed(bank, Wallet.ReserveWithdrawal(bank, user, asked, reference))
    case PayOut(user, amount, reference) => Wallet.Credit(bank, user, amount, Wallet.Payout, reference)
    case _ => bank
  }

  lemma BankAfterSound(p: Platform, s: Step)
    requires Wallet.Inv(p.bank) && Proper(p, s)
    ensures Wallet.Inv(BankAfter(p.bank, s))
  {
    match s
    case OpenDeposit(user, asked, reference) => Wallet.OpenDepositKeepsInv(p.bank, user, asked, reference);
    case ReserveWithdrawal(user, asked, reference) => Wallet.ReserveWithdrawalKeepsInv(p.bank, user, asked, reference);
    case PayOut(user, amount, reference) => Wallet.CreditKeepsInv(p.bank, user, amount, Wallet.Payout, reference);
    case _ =>
  }

  lemma BankAfterLeavesEscrow(bank: Wallet.Bank, s: Step)
    ensures LeavesEscrow(bank.ledger, BankAfter(bank, s).ledger)
  {
  }

  lemma BankKeepsInv(p: Platform, s: Step, now: int)
    requires PlatformInv(p, now) && Proper(p, s)
    requires s.OpenDeposit? || s.ReserveWithdrawal? || s.PayOut?
    ensures PlatformInv(Take(p, s, now), now)
  {
    BankAfterSound(p, s);
    BankAfterLeavesEscrow(p.bank, s);
    BankStepKeepsInv(p, BankAfter(p.bank, s), now);
  }

  lemma SettleKeepsInv(p: Platform, r: Wallet.Result, now: int)
    requires PlatformInv(p, now) && Wallet.Addressed(p.bank.ledger, r)
    ensures PlatformInv(p.(bank := Wallet.Deliver(p.bank, r)), now)
  {
    Wallet.DeliverKeepsInv(p.bank, r);
    Wallet.DeliverRestatesOnly(p.bank, r);
    BankStepKeepsInv(p, Wallet.Deliver(p.bank, r), now);
  }

  lemma StepKeepsPlatformInv(p: Platform, s: Step, now: int)
    requires PlatformInv(p, now) && Proper(p, s)
    ensures PlatformInv(Take(p, s, now), now)
  {
    match s
    case HoldFunds(bond, user, amount, reference) => HoldKeepsInv(p, bond, user, amount, reference, now);
    case PlaceSubscription(hold) => PlaceKeepsInv(p, hold, now);
    case Unwind(bond, sub) => UnwindKeepsInv(p, bond, sub, now);
    case RefundEscrow(bond, sub, reference) => RefundKeepsInv(p, bond, sub, reference, now);
    case OnRegister(bond, op) => RegisterKeepsInv(p, bond, op, now);
    case Settle(result) => SettleKeepsInv(p, result, now);
    case _ => BankKeepsInv(p, s, now);
  }

  // ---- Runs ----

  datatype TimedStep = TimedStep(step: Step, at: int)

  function RunSteps(p: Platform, steps: seq<TimedStep>): Platform {
    if steps == [] then p
    else Take(RunSteps(p, steps[..|steps| - 1]), steps[|steps| - 1].step, steps[|steps| - 1].at)
  }

  /** Steps in time order, each proper where it is taken. */
  predicate WellFormed(p: Platform, steps: seq<TimedStep>) {
    && (forall i, j :: 0 <= i < j < |steps| ==> steps[i].at <= steps[j].at)
    && (forall i :: 0 <= i < |steps| ==> Proper(RunSteps(p, steps[..i]), steps[i].step))
  }

  /** Empty wallets and bonds with nothing raised. */
  predicate Opening(p: Platform) {
    && p.bank == Wallet.Bank(map[], []) && p.holds == []
    && (forall b :: 0 <= b < |p.issues| ==>
          Fresh(p.issues[b].book) && p.issues[b].behind == [] && p.issues[b].owed == map[] && p.issues[b].repaid == map[])
  }

  lemma {:induction false} OpeningTallies(issues: seq<Issue>)
    requires forall b :: 0 <= b < |issues| ==> issues[b].book.subs == [] && issues[b].repaid == map[]
    ensures SumBy(issues, AllSubscribed()) == 0 && SumBy(issues, Repaid()) == 0
  {
    SumByZero(issues, AllSubscribed());
    SumByZero(issues, Repaid());
  }

  lemma TimeKeepsPlatformInv(p: Platform, now: int, later: int)
    requires PlatformInv(p, now) && now <= later
    ensures PlatformInv(p, later)
  {
    forall b | 0 <= b < |p.issues|
      ensures IssueValid(p.issues[b], later)
    {
      assert IssueValid(p.issues[b], now);
      TimeKeepsInv(p.issues[b].book, now, later);
    }
  }

  lemma {:induction false} EveryRunKeepsPlatformInv(p: Platform, steps: seq<TimedStep>, now: int)
    requires Opening(p) && WellFormed(p, steps)
    requires steps != [] ==> steps[|steps| - 1].at <= now
    ensures PlatformInv(RunSteps(p, steps), now)
  {
    if steps == [] {
      OpeningTallies(p.issues);
    } else {
      var init, last := steps[..|steps| - 1], steps[|steps| - 1];
      forall i | 0 <= i < |init|
        ensures Proper(RunSteps(p, init[..i]), init[i].step)
      {
        assert init[..i] == steps[..i];
      }
      EveryRunKeepsPlatformInv(p, init, last.at);
      StepKeepsPlatformInv(RunSteps(p, init), last.step, last.at);
      TimeKeepsPlatformInv(RunSteps(p, steps), last.at, now);
    }
  }

  /** Money is conserved at every boundary between steps, wherever a process stopped. */
  lemma MoneyIsConserved(p: Platform, steps: seq<TimedStep>)
    requires Opening(p) && WellFormed(p, steps)
    ensures MoneyConserved(RunSteps(p, steps))
  {
    var now := if steps == [] then 0 else steps[|steps| - 1].at;
    EveryRunKeepsPlatformInv(p, steps, now);
    InvConservesMoney(RunSteps(p, steps), now);
  }

  /**
   No bonds are free: behind every allocated subscription stands a completed debit of its
   owner for its amount, a different ledger row for each, and it has not been refunded. A
   refunded subscription is cancelled, and got back exactly what it paid.
   */
  lemma NoFreeBonds(p: Platform, steps: seq<TimedStep>, bond: nat, sub: nat)
    requires Opening(p) && WellFormed(p, steps)
    requires var q := RunSteps(p, steps); bond < |q.issues| && sub < |q.issues[bond].book.subs|
    ensures var q := RunSteps(p, steps);
            var issue, s := q.issues[bond], q.issues[bond].book.subs[sub];
            && sub < |issue.behind| && issue.behind[sub] < |q.holds|
            && q.holds[issue.behind[sub]].sub == Some(sub) && q.holds[issue.behind[sub]].bond == bond
            && q.holds[issue.behind[sub]].txn < |q.bank.ledger|
            && s.amount > 0
            && Debit(q.bank.ledger[q.holds[issue.behind[sub]].txn], s.user, s.amount)
            && (s.status == Allocated ==> sub !in issue.owed && sub !in issue.repaid)
            && (sub in issue.repaid ==> s.status == Cancelled && issue.repaid[sub] == s.amount && sub !in issue.owed)
  {
    var now := if steps == [] then 0 else steps[|steps| - 1].at;
    EveryRunKeepsPlatformInv(p, steps, now);
    var q := RunSteps(p, steps);
    assert IssueValid(q.issues[bond], now) && IssueBacked(q.holds, bond, q.issues[bond]);
    var h := q.issues[bond].behind[sub];
    assert Backs(q.holds, h, bond, sub, q.issues[bond].book.subs[sub]);
    assert Debited(q.bank.ledger, q.holds[h]);
    assert WellDated(q.issues[bond].book.subs[sub], now);
  }

  /** Once refunded, no further step refunds a subscription again or takes its refund back. */
  lemma RefundedOnce(p: Platform, s: Step, now: int, bond: nat, sub: nat)
    requires bond < |p.issues| && RefundsTracked(p.issues[bond]) && sub in p.issues[bond].repaid
    ensures var q := Take(p, s, now);
            && bond < |q.issues| && sub in q.issues[bond].repaid
            && q.issues[bond].repaid[sub] == p.issues[bond].repaid[sub]
            && (s.RefundEscrow? && s.bond == bond && s.sub == sub ==> q == p)
  {
    match s
    case Unwind(b, id) =>
    case RefundEscrow(b, id, reference) =>
    case _ =>
  }
}
