/**
 Subscribing and cancelling as src/bonds/subscriptions.service.ts runs them: the policy
 checks, then the two halves in their order. A refund that fails leaves the first half
 standing, with the money recorded as owed.
 */
module SubscriptionService {
  import opened Sums
  import opened Accrual
  import opened Register
  import opened Escrow
  import Wallet

  /** What a bond asks of its subscribers besides what its book holds. */
  datatype Policy = Policy(opensAt: int, minimum: int, kycTier: nat)

  datatype Receipt =
    | Accepted(sub: nat)
    | BondNotFound | NotOpen | NotOpenedYet | WindowClosed | BelowMinimum | KycRequired | InsufficientBalance

  datatype Cancellation =
    | Refunded
    | RefundFailed
    | NoSuchSubscription | NotYours
    | ProcedureRefused(why: Refusal)

  /** The checks, in their order, before any money moves. */
  function Admission(p: Platform, bond: nat, amount: int, kycTier: nat, policy: Policy, now: int): Option<Receipt> {
    if bond >= |p.issues| then Some(BondNotFound)
    else
      var book := p.issues[bond].book;
      if book.status != Open then Some(NotOpen)
      else if policy.opensAt > now then Some(NotOpenedYet)
      else if book.closeAt < now then Some(WindowClosed)
      else if amount < policy.minimum then Some(BelowMinimum)
      else if kycTier < policy.kycTier then Some(KycRequired)
      else None
  }

  class Service {
    var bank: Wallet.Bank
    var issues: seq<Issue>
    var holds: seq<Hold>

    function View(): Platform
      reads this
    {
      Platform(bank, issues, holds)
    }

    constructor (p: Platform)
      ensures View() == p
    {
      bank, issues, holds := p.bank, p.issues, p.holds;
    }

    /** The escrow hold: a debit of the investor's wallet, remembered by its ledger row. */
    method HoldInEscrow(bond: nat, user: UserId, amount: nat, reference: nat) returns (ok: bool)
      requires bond < |issues| && issues[bond].book.status == Open && amount > 0
      modifies this`bank, this`holds
      ensures View() == TakeHold(old(View()), bond, user, amount, reference)
      ensures ok <==> Get(old(bank).balances, user) >= amount
      ensures |holds| == |old(holds)| + if ok then 1 else 0
      ensures ok ==> holds[|old(holds)|] == Hold(bond, user, amount, |old(bank).ledger|, None)
    {
      var debit := Wallet.DebitForEscrow(bank, user, amount, reference);
      ok := debit.Changed?;
      if ok {
        holds := holds + [Hold(bond, user, amount, |bank.ledger|, None)];
        bank := debit.bank;
      }
    }

    /** The row behind which a hold stands. */
    method PlaceRow(h: nat, now: int) returns (sub: nat)
      requires h < |holds| && holds[h].sub.None? && holds[h].bond < |issues| && holds[h].amount > 0
      modifies this`issues, this`holds
      ensures View() == Place(old(View()), h, now)
      ensures sub == |old(issues)[old(holds)[h].bond].book.subs|
    {
      var hold := holds[h];
      sub := |issues[hold.bond].book.subs|;
      issues := issues[hold.bond := PlacedIssue(issues[hold.bond], hold.user, hold.amount, h, now)];
      holds := holds[h := hold.(sub := Some(sub))];
    }

    /** The checks, then the debit, then the row: a row never stands without the money behind it. */
    method Subscribe(bond: nat, user: UserId, amount: int, kycTier: nat, policy: Policy, reference: nat, now: int)
      returns (r: Receipt)
      requires policy.minimum > 0
      modifies this
      ensures r == Answer(old(View()), bond, user, amount, kycTier, policy, now)
      ensures View() == if r.Accepted? then Place(TakeHold(old(View()), bond, user, amount, reference), |old(holds)|, now)
                        else old(View())
    {
      var refused := Admission(View(), bond, amount, kycTier, policy, now);
      if refused.Some? {
        return refused.value;
      }
      var ok := HoldInEscrow(bond, user, amount, reference);
      if !ok {
        return InsufficientBalance;
      }
      var sub := PlaceRow(|holds| - 1, now);
      r := Accepted(sub);
    }

    /** Units back, raise corrected, subscription closed: one procedure. */
    method UnwindRow(bond: nat, sub: nat, now: int) returns (refused: Option<Refusal>)
      requires bond < |issues|
      modifies this`issues
      ensures View() == UnwindSubscription(old(View()), bond, sub, now)
      ensures refused == match Register.Cancel(old(issues)[bond].book, sub, now)
                         case Refused(why) => Some(why)
                         case Done(_) => None
    {
      var r := Register.Cancel(issues[bond].book, sub, now);
      if r.Refused? {
        return Some(r.why);
      }
      issues := issues[bond := UnwoundIssue(issues[bond], sub, now)];
      refused := None;
    }

    method RefundRow(bond: nat, sub: nat, reference: nat)
      requires bond < |issues| && sub < |issues[bond].book.subs|
      requires sub in issues[bond].owed && issues[bond].owed[sub] >= 0
      modifies this`issues, this`bank
      ensures View() == PayRefund(old(View()), bond, sub, reference)
    {
      bank := Wallet.Credit(bank, issues[bond].book.subs[sub].user, issues[bond].owed[sub], Wallet.Refund, reference);
      issues := issues[bond := RefundedIssue(issues[bond], sub)];
    }

    /** Unwind first, then refund; if the refund fails, the unwind stands and the money is still owed. */
    method Cancel(bond: nat, sub: nat, caller: UserId, admin: bool, refundFails: bool, reference: nat, now: int)
      returns (r: Cancellation)
      requires bond < |issues| && sub < |issues[bond].book.subs| ==> issues[bond].book.subs[sub].amount >= 0
      modifies this
      ensures r == Verdict(old(View()), bond, sub, caller, admin, refundFails, now)
      ensures View() ==
              match r
              case Refunded => PayRefund(UnwindSubscription(old(View()), bond, sub, now), bond, sub, reference)
              case RefundFailed => UnwindSubscription(old(View()), bond, sub, now)
              case _ => old(View())
    {
      if bond >= |issues| || sub >= |issues[bond].book.subs| {
        return NoSuchSubscription;
      }
      if issues[bond].book.subs[sub].user != caller && !admin {
        return NotYours;
      }
      var refused := UnwindRow(bond, sub, now);
      if refused.Some? {
        return ProcedureRefused(refused.value);
      }
      if refundFails {
        return RefundFailed;
      }
      RefundRow(bond, sub, reference);
      return Refunded;
    }
  }

  // ---- What the answers mean ----

  function Answer(p: Platform, bond: nat, user: UserId, amount: int, kycTier: nat, policy: Policy, now: int): Receipt {
    var refused := Admission(p, bond, amount, kycTier, policy, now);
    if refused.Some? then refused.value
    else if bond >= |p.issues| || Get(p.bank.balances, user) < amount then InsufficientBalance
    else Accepted(|p.issues[bond].book.subs|)
  }

  function Verdict(p: Platform, bond: nat, sub: nat, caller: UserId, admin: bool, refundFails: bool, now: int): Cancellation {
    if bond >= |p.issues| || sub >= |p.issues[bond].book.subs| then NoSuchSubscription
    else if p.issues[bond].book.subs[sub].user != caller && !admin then NotYours
    else
      match Register.Cancel(p.issues[bond].book, sub, now)
      case Refused(why) => ProcedureRefused(why)
      case Done(_) => if refundFails then RefundFailed else Refunded
  }

  /** An open bond inside its subscription window. */
  predicate Offered(p: Platform, bond: nat, policy: Policy, now: int) {
    && bond < |p.issues| && p.issues[bond].book.status == Open
    && policy.opensAt <= now <= p.issues[bond].book.closeAt
  }

  /**
   Money is taken only for a bond on offer, from an investor of its tier or above who asks for
   no less than its minimum and has as much; each other answer names the first of these to fail.
   */
  lemma AnsweredExactlyWhen(p: Platform, bond: nat, user: UserId, amount: int, kycTier: nat, policy: Policy, now: int)
    ensures var r := Answer(p, bond, user, amount, kycTier, policy, now);
            && (r.Accepted? <==> && Offered(p, bond, policy, now) && policy.minimum <= amount && policy.kycTier <= kycTier
                                 && amount <= Get(p.bank.balances, user))
            && (r.InsufficientBalance? <==> && Offered(p, bond, policy, now) && policy.minimum <= amount && policy.kycTier <= kycTier
                                            && Get(p.bank.balances, user) < amount)
            && (r.KycRequired? <==> Offered(p, bond, policy, now) && policy.minimum <= amount && kycTier < policy.kycTier)
            && (r.BelowMinimum? <==> Offered(p, bond, policy, now) && amount < policy.minimum)
            && (r.BondNotFound? <==> |p.issues| <= bond)
            && (r.NotOpen? <==> bond < |p.issues| && p.issues[bond].book.status != Open)
            && (r.NotOpenedYet? || r.WindowClosed? <==>
                  bond < |p.issues| && p.issues[bond].book.status == Open && !Offered(p, bond, policy, now))
  {
  }

  /** Only its owner or an administrator gets as far as the procedure with a subscription. */
  lemma CancelAnsweredExactlyWhen(p: Platform, bond: nat, sub: nat, caller: UserId, admin: bool, fails: bool, now: int)
    ensures var v := Verdict(p, bond, sub, caller, admin, fails, now);
            var found := bond < |p.issues| && sub < |p.issues[bond].book.subs|;
            && (v.NoSuchSubscription? <==> !found)
            && (v.NotYours? <==> found && caller != p.issues[bond].book.subs[sub].user && !admin)
            && (v.Refunded? || v.RefundFailed? <==>
                  && found && (admin || caller == p.issues[bond].book.subs[sub].user)
                  && Register.Cancel(p.issues[bond].book, sub, now).Done?)
            && (v.RefundFailed? ==> fails) && (v.Refunded? ==> !fails)
  {
  }

  /** An accepted subscription took exactly its amount from its owner's wallet and waits as a pending row. */
  lemma AcceptedIsPaidFor(p: Platform, bond: nat, user: UserId, amount: int, kycTier: nat, policy: Policy, reference: nat, now: int)
    requires policy.minimum > 0 && Answer(p, bond, user, amount, kycTier, policy, now).Accepted?
    ensures var q := Place(TakeHold(p, bond, user, amount, reference), |p.holds|, now);
            var sub := |p.issues[bond].book.subs|;
            && Get(q.bank.balances, user) == Get(p.bank.balances, user) - amount >= 0
            && |q.issues[bond].book.subs| == sub + 1 && q.issues[bond].book.subs[sub].user == user
            && q.issues[bond].book.subs[sub].amount == amount && q.issues[bond].book.subs[sub].status == Pending
            && q.issues[bond].behind == p.issues[bond].behind + [|p.holds|]
            && q.holds[|p.holds|] == Hold(bond, user, amount, |p.bank.ledger|, Some(sub))
  {
  }

  /** A cancellation gives back exactly what was paid, at once or, if the refund failed, as money still owed. */
  lemma CancelledIsOwedOrRepaid(p: Platform, bond: nat, sub: nat, caller: UserId, admin: bool, fails: bool, reference: nat, now: int)
    requires bond < |p.issues| && sub < |p.issues[bond].book.subs| && p.issues[bond].book.subs[sub].amount >= 0
    requires Verdict(p, bond, sub, caller, admin, fails, now).RefundFailed? || Verdict(p, bond, sub, caller, admin, fails, now).Refunded?
    ensures var s := p.issues[bond].book.subs[sub];
            var q := UnwindSubscription(p, bond, sub, now);
            var done := PayRefund(q, bond, sub, reference);
            && q.issues[bond].book.subs[sub].status == Cancelled
            && q.bank == p.bank && sub in q.issues[bond].owed && q.issues[bond].owed[sub] == s.amount
            && sub !in done.issues[bond].owed && sub in done.issues[bond].repaid && done.issues[bond].repaid[sub] == s.amount
            && Get(done.bank.balances, s.user) == Get(p.bank.balances, s.user) + s.amount
  {
  }

  /** Both halves, and a stop between them, keep the platform's invariant, and with it every naira accounted for. */
  lemma BothHalvesKeepInv(p: Platform, bond: nat, user: UserId, amount: nat, sub: nat, reference: nat, now: int)
    requires PlatformInv(p, now)
    ensures PlatformInv(TakeHold(p, bond, user, amount, reference), now)
    ensures PlatformInv(Place(TakeHold(p, bond, user, amount, reference), |p.holds|, now), now)
    ensures PlatformInv(UnwindSubscription(p, bond, sub, now), now)
    ensures PlatformInv(PayRefund(UnwindSubscription(p, bond, sub, now), bond, sub, reference), now)
  {
    HoldKeepsInv(p, bond, user, amount, reference, now);
    PlaceKeepsInv(TakeHold(p, bond, user, amount, reference), |p.holds|, now);
    UnwindKeepsInv(p, bond, sub, now);
    RefundKeepsInv(UnwindSubscription(p, bond, sub, now), bond, sub, reference, now);
  }
}
