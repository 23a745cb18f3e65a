/**
 Who is paid: over every run, what the wallet ledger pays out to a user is exactly the
 coupons and the principal credited to that user, each the net of their own row or their
 own units.
 */
module EnginePayees {
  import opened Sums
  import opened Accrual
  import opened Register
  import Schedule
  import opened CouponRun
  import opened Redemption
  import opened BookSteps
  import opened Engine
  import opened EngineRuns
  import Escrow
  import Wallet

  function PayoutTo(u: UserId): Wallet.Txn -> int {
    (t: Wallet.Txn) => if t.kind == Wallet.Payout && t.user == u then t.amount else 0
  }

  function CreditTo(u: UserId): Credit -> int {
    (c: Credit) => if c.user == u then c.amount else 0
  }

  function PrincipalTo(u: UserId): Principal -> int {
    (p: Principal) => if p.user == u then p.amount else 0
  }

  /** What the ledger has paid a user is what was credited to them. */
  predicate Matched(ledger: seq<Wallet.Txn>, credits: seq<Credit>, principal: seq<Principal>, u: UserId) {
    SumBy(ledger, PayoutTo(u)) == SumBy(credits, CreditTo(u)) + SumBy(principal, PrincipalTo(u))
  }

  // ---- Steps of the platform ----

  lemma SamePayouts(ledger: seq<Wallet.Txn>, after: seq<Wallet.Txn>, u: UserId)
    requires |ledger| <= |after| <= |ledger| + 1
    requires forall i :: 0 <= i < |ledger| ==> after[i] == ledger[i].(status := after[i].status)
    requires |after| == |ledger| + 1 ==> after[|ledger|].kind != Wallet.Payout
    ensures SumBy(after, PayoutTo(u)) == SumBy(ledger, PayoutTo(u))
  {
    var front := after[..|ledger|];
    SumByParallel(ledger, front, PayoutTo(u), PayoutTo(u));
    if |after| == |ledger| + 1 {
      assert after == front + [after[|ledger|]];
      SumByPush(front, after[|ledger|], PayoutTo(u));
    } else {
      assert front == after;
    }
  }

  lemma TakePaysNobody(p: Escrow.Platform, s: Escrow.Step, now: int, u: UserId)
    requires !s.PayOut?
    ensures SumBy(Escrow.Take(p, s, now).bank.ledger, PayoutTo(u)) == SumBy(p.bank.ledger, PayoutTo(u))
  {
    if s.Settle? {
      Wallet.DeliverRestatesOnly(p.bank, s.result);
    }
    SamePayouts(p.bank.ledger, Escrow.Take(p, s, now).bank.ledger, u);
  }

  lemma CreditPays(bank: Wallet.Bank, user: UserId, amount: nat, reference: nat, u: UserId)
    ensures SumBy(Wallet.Credit(bank, user, amount, Wallet.Payout, reference).ledger, PayoutTo(u))
            == SumBy(bank.ledger, PayoutTo(u)) + if user == u then amount else 0
  {
    SumByPush(bank.ledger, Wallet.Txn(user, Wallet.Payout, Wallet.Completed, amount, false, reference), PayoutTo(u));
  }

  // ---- Coupons and principal ----

  lemma AttemptMatched(d: Desk, turn: Turn, principal: seq<Principal>, u: UserId)
    requires Matched(d.bank.ledger, d.credits, principal, u)
    ensures var e := Attempt(d, turn); Matched(e.bank.ledger, e.credits, principal, u)
  {
    if turn.payment < |d.payments| && Pays(d.payments[turn.payment], turn) {
      var p := d.payments[turn.payment];
      CreditPays(d.bank, p.due.user, p.due.net, turn.rail.reference, u);
      SumByPush(d.credits, CreditFor(turn.payment, p), CreditTo(u));
    }
  }

  lemma {:induction false} AttemptsMatched(d: Desk, turns: seq<Turn>, principal: seq<Principal>, u: UserId)
    requires Matched(d.bank.ledger, d.credits, principal, u)
    ensures var e := AttemptAll(d, turns); Matched(e.bank.ledger, e.credits, principal, u)
  {
    if turns != [] {
      AttemptsMatched(d, turns[..|turns| - 1], principal, u);
      AttemptMatched(AttemptAll(d, turns[..|turns| - 1]), turns[|turns| - 1], principal, u);
    }
  }

  lemma RepayMatched(v: Vault, bond: nat, units: nat, turn: Repayment, credits: seq<Credit>, u: UserId)
    requires Matched(v.bank.ledger, credits, v.principal, u)
    ensures var w := Repay(v, bond, units, turn); Matched(w.bank.ledger, credits, w.principal, u)
  {
    if turn.rail.Ok? {
      CreditPays(v.bank, turn.user, units, turn.rail.reference, u);
      SumByPush(v.principal, Principal(bond, turn.user, units), PrincipalTo(u));
    }
  }

  lemma {:induction false} RepaysMatched(v: Vault, bond: nat, holdings: map<UserId, int>, turns: seq<Repayment>, credits: seq<Credit>, u: UserId)
    requires Matched(v.bank.ledger, credits, v.principal, u)
    ensures var w := RepayAll(v, bond, holdings, turns); Matched(w.bank.ledger, credits, w.principal, u)
  {
    if turns != [] {
      var init, last := turns[..|turns| - 1], turns[|turns| - 1];
      RepaysMatched(v, bond, holdings, init, credits, u);
      RepayMatched(RepayAll(v, bond, holdings, init), bond, UnitsOf(holdings, last.user), last, credits, u);
    }
  }

  ghost predicate StateMatched(s: State, u: UserId) {
    Matched(s.platform.bank.ledger, s.credits, s.principal, u)
  }

  /** Nothing is paid: the bank, the credits and the principal are as they were. */
  predicate PaysNothing(s: State, t: State) {
    t.platform.bank == s.platform.bank && t.credits == s.credits && t.principal == s.principal
  }

  lemma CheckedPaysNothing(s: State, e: nat, now: int)
    ensures PaysNothing(s, Checked(s, e, now))
  {
    if e < |s.events| {
      SetStatusEffect(s.platform, s.events[e].bond, Defaulted, now);
    }
  }

  lemma {:induction false} CheckAllPaysNothing(s: State, order: seq<nat>, now: int)
    ensures PaysNothing(s, CheckAll(s, order, now))
  {
    if order != [] {
      CheckAllPaysNothing(s, order[..|order| - 1], now);
      CheckedPaysNothing(CheckAll(s, order[..|order| - 1], now), order[|order| - 1], now);
    }
  }

  lemma WindowPaysNothing(s: State, bond: nat, now: int)
    ensures PaysNothing(s, WindowClosed(s, bond, now))
  {
    SetStatusEffect(s.platform, bond, Subscribed, now);
    SetStatusEffect(s.platform, bond, Closed, now);
  }

  lemma ActivationPaysNothing(s: State, bond: nat, periods: seq<Schedule.CouponPeriod>, now: int)
    ensures PaysNothing(s, Activated(s, bond, periods, now))
  {
    SetStatusEffect(s.platform, bond, Active, now);
  }

  lemma RedeemedMatched(s: State, bond: nat, holders: seq<Repayment>, now: int, u: UserId)
    requires StateMatched(s, u) && bond < |s.platform.issues|
    ensures StateMatched(Redeemed(s, bond, holders, now), u)
  {
    RepaysMatched(VaultOf(s), bond, s.platform.issues[bond].book.holdings, holders, s.credits, u);
    var p := s.platform.(bank := RepaidVault(s, bond, holders).bank);
    SetStatusEffect(p, bond, Matured, now);
  }

  lemma PaidOutMatched(s: State, day: Payday, now: int, u: UserId)
    requires StateMatched(s, u)
    ensures StateMatched(PaidOut(s, day, now), u)
  {
    if day.event < |s.events| && s.events[day.event].bond < |s.platform.issues| {
      RedeemedMatched(s, s.events[day.event].bond, day.holders, now, u);
    }
  }

  lemma {:induction false} PayAllMatched(s: State, order: seq<Payday>, now: int, u: UserId)
    requires StateMatched(s, u)
    ensures StateMatched(PayAll(s, order, now), u)
  {
    if order != [] {
      PayAllMatched(s, order[..|order| - 1], now, u);
      PaidOutMatched(PayAll(s, order[..|order| - 1], now), order[|order| - 1], now, u);
    }
  }

  // ---- Runs ----

  lemma StepMatched(s: State, step: Step, now: int, u: UserId)
    requires StateMatched(s, u) && Proper(s, step, now)
    ensures StateMatched(Engine.After(s, step, now), u)
  {
    match step
    case User(st) => TakePaysNobody(s.platform, st, now, u);
    case DepositPrincipal(bond, amount) =>
    case CloseWindow(bond) => WindowPaysNothing(s, bond, now);
    case Activate(bond, periods) => ActivationPaysNothing(s, bond, periods, now);
    case Checks(order) => CheckAllPaysNothing(s, order, now);
    case Coupons(due, turns, page) =>
      AttemptsMatched(DeskOf(s).(payments := Materialised(s, due)), turns, s.principal, u);
    case PayPrincipal(paydays) => PayAllMatched(s, paydays, now, u);
  }

  lemma {:induction false} EveryoneMatched(r: Run, n: nat, u: UserId)
    requires Real(r) && n <= |r.moments|
    ensures StateMatched(r.states[n], u)
  {
    if n > 0 {
      EveryoneMatched(r, n - 1, u);
      assert Happens(r, n - 1);
      StepMatched(r.states[n - 1], r.moments[n - 1].step, r.moments[n - 1].at, u);
    }
  }

  /**
   In every run and for every user: what the wallet ledger has paid out to them is the sum of
   the coupons and the principal credited to them; and each credited coupon is the net of a
   paid row of its own holder.
   */
  lemma EveryoneIsPaidTheirOwn(r: Run, n: nat, u: UserId)
    requires Real(r) && n <= |r.moments|
    ensures var t := r.states[n];
            && SumBy(t.platform.bank.ledger, PayoutTo(u)) == SumBy(t.credits, CreditTo(u)) + SumBy(t.principal, PrincipalTo(u))
            && (forall k :: 0 <= k < |t.credits| ==>
                  && t.credits[k].payment < |t.payments| && t.payments[t.credits[k].payment].status == Paid
                  && t.credits[k].user == t.payments[t.credits[k].payment].due.user
                  && t.credits[k].amount == t.payments[t.credits[k].payment].due.net)
  {
    EveryoneMatched(r, n, u);
    EveryStateSound(r, n);
  }
}
