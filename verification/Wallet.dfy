/**
 Wallet balances and the transaction ledger behind them, after
 src/wallet/wallet.service.ts. Each database transaction is one function from a bank to a
 bank or an error; an error rolls the whole transaction back.

 Random references are parameters; callers pass one no ledger row carries yet.
 */
module Wallet {
  import opened Sums
  import opened Accrual

  datatype Kind = Deposit | Withdrawal | Payout | Refund | Investment

  datatype TxnStatus = Awaiting | Completed | Failed

  datatype Txn = Txn(user: UserId, kind: Kind, status: TxnStatus, amount: int, paystack: bool, reference: nat)

  datatype Bank = Bank(balances: map<UserId, int>, ledger: seq<Txn>)

  datatype WalletError = NotPositive | NotFound | InsufficientFunds | AmountMismatch

  datatype Reply = Changed(bank: Bank) | AlreadyProcessed | Raised(error: WalletError)

  /** The bank after a call: unchanged unless the transaction committed a change. */
  function Committed(bank: Bank, reply: Reply): Bank {
    if reply.Changed? then reply.bank else bank
  }

  // ---- What a ledger row is worth ----

  function Worth(t: Txn): int {
    match t.kind
    case Deposit => if t.status == Completed then t.amount else 0
    case Payout => t.amount
    case Refund => t.amount
    case Investment => -t.amount
    case Withdrawal => if t.status == Failed then 0 else -t.amount
  }

  function WorthTo(u: UserId): Txn -> int {
    (t: Txn) => if t.user == u then Worth(t) else 0
  }

  function WorthOf(): Txn -> int { (t: Txn) => Worth(t) }

  // ---- Transactions ----

  /** First Paystack row carrying a reference; optionally only withdrawals. */
  function Locate(ledger: seq<Txn>, reference: nat, onlyWithdrawals: bool): (i: int)
    ensures -1 <= i < |ledger|
    ensures i >= 0 ==> ledger[i].paystack && ledger[i].reference == reference
                       && (onlyWithdrawals ==> ledger[i].kind == Withdrawal)
    ensures i == -1 ==> forall k :: 0 <= k < |ledger| ==>
              !(ledger[k].paystack && ledger[k].reference == reference && (onlyWithdrawals ==> ledger[k].kind == Withdrawal))
    ensures forall k :: 0 <= k < i ==>
              !(ledger[k].paystack && ledger[k].reference == reference && (onlyWithdrawals ==> ledger[k].kind == Withdrawal))
  {
    if ledger == [] then -1
    else
      var last := |ledger| - 1;
      var i := Locate(ledger[..last], reference, onlyWithdrawals);
      if i >= 0 then i
      else if ledger[last].paystack && ledger[last].reference == reference
              && (onlyWithdrawals ==> ledger[last].kind == Withdrawal) then last
      else -1
  }

  function Pay(bank: Bank, user: UserId, amount: int, row: Txn): Bank {
    Bank(bank.balances[user := Get(bank.balances, user) + amount], bank.ledger + [row])
  }

  function OpenDeposit(bank: Bank, user: UserId, amount: int, reference: nat): Reply {
    if amount <= 0 then Raised(NotPositive)
    else Changed(bank.(ledger := bank.ledger + [Txn(user, Deposit, Awaiting, amount, true, reference)]))
  }

  /** Credit a deposit once the provider has confirmed it, from whichever path asks first. */
  function ConfirmDeposit(bank: Bank, reference: nat, success: bool, paid: int): Reply {
    var i := Locate(bank.ledger, reference, false);
    if i < 0 then Raised(NotFound)
    else
      var row := bank.ledger[i];
      if row.status != Awaiting then AlreadyProcessed
      else if !success then Changed(bank.(ledger := bank.ledger[i := row.(status := Failed)]))
      else if paid != row.amount then Raised(AmountMismatch)
      else
        Changed(Bank(bank.balances[row.user := Get(bank.balances, row.user) + row.amount],
                     bank.ledger[i := row.(status := Completed)]))
  }

  /** Reserve a withdrawal: debit now, settle when the transfer does. */
  function ReserveWithdrawal(bank: Bank, user: UserId, amount: int, reference: nat): Reply {
    if amount <= 0 then Raised(NotPositive)
    else if Get(bank.balances, user) < amount then Raised(InsufficientFunds)
    else Changed(Pay(bank, user, -amount, Txn(user, Withdrawal, Awaiting, amount, true, reference)))
  }

  /** Settle a withdrawal; a failed transfer gives the reserved money back. */
  function ConfirmWithdrawal(bank: Bank, reference: nat, success: bool): Reply {
    var i := Locate(bank.ledger, reference, true);
    if i < 0 then Raised(NotFound)
    else
      var row := bank.ledger[i];
      if row.status != Awaiting then AlreadyProcessed
      else if success then Changed(bank.(ledger := bank.ledger[i := row.(status := Completed)]))
      else
        Changed(Bank(bank.balances[row.user := Get(bank.balances, row.user) + row.amount],
                     bank.ledger[i := row.(status := Failed)]))
  }

  /** A payout or an escrow refund. */
  function Credit(bank: Bank, user: UserId, amount: nat, kind: Kind, reference: nat): Bank
    requires kind == Payout || kind == Refund
  {
    Pay(bank, user, amount, Txn(user, kind, Completed, amount, false, reference))
  }

  function DebitForEscrow(bank: Bank, user: UserId, amount: nat, reference: nat): Reply {
    if Get(bank.balances, user) < amount then Raised(InsufficientFunds)
    else Changed(Pay(bank, user, 0 - amount, Txn(user, Investment, Completed, amount, false, reference)))
  }

  // ---- The invariant ----

  ghost predicate ReferencesUnique(ledger: seq<Txn>) {
    forall i, j :: 0 <= i < j < |ledger| && ledger[i].paystack && ledger[j].paystack ==>
                     ledger[i].reference != ledger[j].reference
  }

  predicate Unused(ledger: seq<Txn>, reference: nat) {
    Locate(ledger, reference, false) == -1
  }

  /** Every balance is the fold of the holder's ledger rows. */
  ghost predicate Folded(bank: Bank) {
    forall u :: Get(bank.balances, u) == SumBy(bank.ledger, WorthTo(u))
  }

  ghost predicate Inv(bank: Bank) {
    && Folded(bank)
    && (forall u :: Get(bank.balances, u) >= 0)
    && SumMap(bank.balances) == SumBy(bank.ledger, WorthOf())
    && ReferencesUnique(bank.ledger)
    && (forall i :: 0 <= i < |bank.ledger| ==> bank.ledger[i].amount >= 0)
    && (forall i :: 0 <= i < |bank.ledger| && bank.ledger[i].paystack ==>
          bank.ledger[i].amount > 0 && (bank.ledger[i].kind == Deposit || bank.ledger[i].kind == Withdrawal))
  }

  lemma PayKeepsInv(bank: Bank, user: UserId, amount: int, row: Txn)
    requires Inv(bank) && Get(bank.balances, user) + amount >= 0
    requires row.user == user && Worth(row) == amount && row.amount >= 0
    requires row.paystack ==> row.amount > 0 && Unused(bank.ledger, row.reference) && (row.kind == Deposit || row.kind == Withdrawal)
    ensures Inv(Pay(bank, user, amount, row))
  {
    SumMapWrite(bank.balances, user, Get(bank.balances, user) + amount);
    SumByPush(bank.ledger, row, WorthOf());
    var next := Pay(bank, user, amount, row);
    forall u
      ensures Get(next.balances, u) == SumBy(next.ledger, WorthTo(u))
    {
      SumByPush(bank.ledger, row, WorthTo(u));
    }
  }

  /** Change the status of one row and move its owner's balance by the change in worth. */
  function Restate(bank: Bank, i: nat, status: TxnStatus, amount: int): Bank
    requires i < |bank.ledger|
  {
    var row := bank.ledger[i];
    Bank(if amount == 0 then bank.balances else bank.balances[row.user := Get(bank.balances, row.user) + amount],
         bank.ledger[i := row.(status := status)])
  }

  /** The fold survives a restated row exactly when the money moved is the change in the row's worth. */
  lemma RestateKeepsInvExactlyWhen(bank: Bank, i: nat, status: TxnStatus, amount: int)
    requires Inv(bank) && i < |bank.ledger|
    requires amount >= 0
    ensures Inv(Restate(bank, i, status, amount)) <==>
            amount == Worth(bank.ledger[i].(status := status)) - Worth(bank.ledger[i])
  {
    var row := bank.ledger[i];
    var row' := row.(status := status);
    var next := Restate(bank, i, status, amount);
    SumMapWrite(bank.balances, row.user, Get(bank.balances, row.user) + amount);
    SumByUpdate(bank.ledger, i, row', WorthOf());
    SumByUpdate(bank.ledger, i, row', WorthTo(row.user));
    if amount == Worth(row') - Worth(row) {
      forall u
        ensures Get(next.balances, u) == SumBy(next.ledger, WorthTo(u))
      {
        SumByUpdate(bank.ledger, i, row', WorthTo(u));
      }
      assert ReferencesUnique(next.ledger);
    } else {
      assert Get(next.balances, row.user) != SumBy(next.ledger, WorthTo(row.user));
    }
  }

  lemma OpenDepositKeepsInv(bank: Bank, user: UserId, amount: int, reference: nat)
    requires Inv(bank) && Unused(bank.ledger, reference)
    ensures Inv(Committed(bank, OpenDeposit(bank, user, amount, reference)))
  {
    if amount > 0 {
      var row := Txn(user, Deposit, Awaiting, amount, true, reference);
      SumByPush(bank.ledger, row, WorthOf());
      forall u
        ensures SumBy(bank.ledger + [row], WorthTo(u)) == SumBy(bank.ledger, WorthTo(u))
      {
        SumByPush(bank.ledger, row, WorthTo(u));
      }
    }
  }

  lemma ReserveWithdrawalKeepsInv(bank: Bank, user: UserId, amount: int, reference: nat)
    requires Inv(bank) && Unused(bank.ledger, reference)
    ensures Inv(Committed(bank, ReserveWithdrawal(bank, user, amount, reference)))
  {
    if ReserveWithdrawal(bank, user, amount, reference).Changed? {
      PayKeepsInv(bank, user, -amount, Txn(user, Withdrawal, Awaiting, amount, true, reference));
    }
  }

  lemma ConfirmWithdrawalKeepsInv(bank: Bank, reference: nat, success: bool)
    requires Inv(bank)
    ensures Inv(Committed(bank, ConfirmWithdrawal(bank, reference, success)))
  {
    var i := Locate(bank.ledger, reference, true);
    if i >= 0 && bank.ledger[i].status == Awaiting {
      var row := bank.ledger[i];
      RestateKeepsInvExactlyWhen(bank, i, if success then Completed else Failed, if success then 0 else row.amount);
    }
  }

  lemma CreditKeepsInv(bank: Bank, user: UserId, amount: nat, kind: Kind, reference: nat)
    requires Inv(bank) && (kind == Payout || kind == Refund)
    ensures Inv(Credit(bank, user, amount, kind, reference))
  {
    PayKeepsInv(bank, user, amount, Txn(user, kind, Completed, amount, false, reference));
  }

  lemma DebitKeepsInv(bank: Bank, user: UserId, amount: nat, reference: nat)
    requires Inv(bank)
    ensures Inv(Committed(bank, DebitForEscrow(bank, user, amount, reference)))
  {
    if DebitForEscrow(bank, user, amount, reference).Changed? {
      PayKeepsInv(bank, user, 0 - amount, Txn(user, Investment, Completed, amount, false, reference));
    }
  }

  /** Would this deposit result settle the row it finds? */
  predicate SettlesRow(row: Txn, success: bool, paid: int) {
    row.status == Awaiting && (!success || paid == row.amount)
  }

  /**
   Confirming a deposit keeps every balance equal to its ledger fold exactly when the
   reference does not name a withdrawal still in flight that the result would settle:
   the lookup does not filter on the kind of row.
   */
  lemma ConfirmDepositKeepsInvExactlyWhen(bank: Bank, reference: nat, success: bool, paid: int)
    requires Inv(bank)
    ensures var i := Locate(bank.ledger, reference, false);
            Inv(Committed(bank, ConfirmDeposit(bank, reference, success, paid))) <==>
            !(i >= 0 && bank.ledger[i].kind == Withdrawal && SettlesRow(bank.ledger[i], success, paid))
  {
    var i := Locate(bank.ledger, reference, false);
    if i >= 0 && SettlesRow(bank.ledger[i], success, paid) {
      RestateKeepsInvExactlyWhen(bank, i, if success then Completed else Failed,
                                 if success then bank.ledger[i].amount else 0);
    }
  }

  /** The bank after a withdrawal is reserved and a failed deposit result then names it. */
  function FailedAsDeposit(bank: Bank, user: UserId, amount: int, reference: nat, paid: int): Bank {
    var reserved := Committed(bank, ReserveWithdrawal(bank, user, amount, reference));
    Committed(reserved, ConfirmDeposit(reserved, reference, false, paid))
  }

  /**
   That loses the money for good: the ledger says the holder still has it, the balance does
   not, and when the transfer itself reports back the row counts as settled.
   */
  lemma FailedDepositResultLosesWithdrawal(bank: Bank, user: UserId, amount: nat, reference: nat, paid: int, success: bool)
    requires Inv(bank) && 0 < amount <= Get(bank.balances, user) && Unused(bank.ledger, reference)
    ensures var t := FailedAsDeposit(bank, user, amount, reference, paid);
            && Get(t.balances, user) == Get(bank.balances, user) - amount
            && SumBy(t.ledger, WorthTo(user)) == Get(bank.balances, user)
            && !Folded(t)
            && ConfirmWithdrawal(t, reference, success) == AlreadyProcessed
  {
    var n, row := |bank.ledger|, Txn(user, Withdrawal, Awaiting, amount, true, reference);
    var reserved := Pay(bank, user, 0 - amount, row);
    assert ReserveWithdrawal(bank, user, amount, reference) == Changed(reserved);
    assert reserved.ledger[..n] == bank.ledger;
    LocateNone(bank.ledger, reference);
    var t := FailedAsDeposit(bank, user, amount, reference, paid);
    assert t.ledger == bank.ledger + [row.(status := Failed)];
    assert t.ledger[..n] == bank.ledger;
    SumByPush(bank.ledger, row.(status := Failed), WorthTo(user));
  }

  lemma LocateNone(ledger: seq<Txn>, reference: nat)
    requires Unused(ledger, reference)
    ensures Locate(ledger, reference, true) == -1
  {
  }

  /** One such input: a payout of 500, all of it withdrawn under reference 1, and a failed deposit result for 1. */
  lemma FailedDepositResultLoses500(user: UserId)
    ensures var paid := Credit(Bank(map[], []), user, 500, Payout, 0);
            var t := FailedAsDeposit(paid, user, 500, 1, 0);
            Inv(paid) && Get(t.balances, user) == 0 && SumBy(t.ledger, WorthTo(user)) == 500 && !Inv(t)
  {
    var empty := Bank(map[], []);
    assert Inv(empty);
    CreditKeepsInv(empty, user, 500, Payout, 0);
    FailedDepositResultLosesWithdrawal(Credit(empty, user, 500, Payout, 0), user, 500, 1, 0, false);
  }

  lemma LocateLast(ledger: seq<Txn>, row: Txn)
    requires Unused(ledger, row.reference) && row.paystack
    ensures Locate(ledger + [row], row.reference, false) == |ledger|
  {
    assert (ledger + [row])[..|ledger|] == ledger;
  }

  /**
   A deposit opened and then confirmed pays in exactly what was asked, if that is what was
   paid; a failed one pays in nothing; and one that was paid another amount is not settled.
   */
  lemma DepositPaysWhatWasAsked(bank: Bank, user: UserId, amount: nat, reference: nat, success: bool, paid: int)
    requires amount > 0 && Unused(bank.ledger, reference) && OpenDeposit(bank, user, amount, reference).Changed?
    ensures var begun := OpenDeposit(bank, user, amount, reference).bank;
            var reply := ConfirmDeposit(begun, reference, success, paid);
            var row := Txn(user, Deposit, Awaiting, amount, true, reference);
            && begun == Bank(bank.balances, bank.ledger + [row])
            && (!success ==> reply == Changed(Bank(bank.balances, bank.ledger + [row.(status := Failed)])))
            && (success && paid != amount ==> reply == Raised(AmountMismatch))
            && (success && paid == amount ==>
                  reply == Changed(Bank(bank.balances[user := Get(bank.balances, user) + amount],
                                        bank.ledger + [row.(status := Completed)])))
  {
    var row := Txn(user, Deposit, Awaiting, amount, true, reference);
    LocateLast(bank.ledger, row);
    var begun := bank.ledger + [row];
    assert forall s :: begun[|bank.ledger| := s] == bank.ledger + [s];
  }

  // ---- Settlement from two paths, in any order ----

  /** A result arriving from the browser callback, the webhook or the synchronous reply. */
  datatype Result =
    | DepositResult(reference: nat, success: bool, paid: int)
    | WithdrawalResult(reference: nat, success: bool)

  function Deliver(bank: Bank, r: Result): Bank {
    match r
    case DepositResult(reference, success, paid) => Committed(bank, ConfirmDeposit(bank, reference, success, paid))
    case WithdrawalResult(reference, success) => Committed(bank, ConfirmWithdrawal(bank, reference, success))
  }

  function DeliverAll(bank: Bank, rs: seq<Result>): Bank
    decreases |rs|
  {
    if rs == [] then bank else DeliverAll(Deliver(bank, rs[0]), rs[1..])
  }

  /** Does the result, addressed to this row while it is awaiting, decide it? */
  predicate Decides(r: Result, row: Txn) {
    && r.reference == row.reference
    && (r.DepositResult? ==> !r.success || r.paid == row.amount)
    && (r.WithdrawalResult? ==> row.kind == Withdrawal)
  }

  /** The verdict of the first deciding result; later ones do not count. */
  function Verdict(row: Txn, rs: seq<Result>): TxnStatus
    decreases |rs|
  {
    if rs == [] then Awaiting
    else if Decides(rs[0], row) then (if rs[0].success then Completed else Failed)
    else Verdict(row, rs[1..])
  }

  lemma LocateUnique(ledger: seq<Txn>, i: nat, onlyWithdrawals: bool)
    requires ReferencesUnique(ledger) && i < |ledger| && ledger[i].paystack
    requires onlyWithdrawals ==> ledger[i].kind == Withdrawal
    ensures Locate(ledger, ledger[i].reference, onlyWithdrawals) == i
  {
  }

  lemma DeliverTouchesOneRow(bank: Bank, r: Result, i: nat)
    requires ReferencesUnique(bank.ledger) && i < |bank.ledger| && bank.ledger[i].paystack
    ensures |Deliver(bank, r).ledger| == |bank.ledger| && ReferencesUnique(Deliver(bank, r).ledger)
    ensures Deliver(bank, r).ledger[i] ==
            if bank.ledger[i].status == Awaiting && Decides(r, bank.ledger[i])
            then bank.ledger[i].(status := if r.success then Completed else Failed) else bank.ledger[i]
  {
    var row := bank.ledger[i];
    LocateUnique(bank.ledger, i, false);
    if row.kind == Withdrawal {
      LocateUnique(bank.ledger, i, true);
    }
  }

  /**
   Whatever results arrive and in whatever order, a row that awaits settlement ends with
   the verdict of the first result that decides it, and is never settled again.
   */
  lemma {:induction false} FirstDecidingResultWins(bank: Bank, rs: seq<Result>, i: nat)
    requires ReferencesUnique(bank.ledger) && i < |bank.ledger| && bank.ledger[i].paystack
    ensures |DeliverAll(bank, rs).ledger| == |bank.ledger|
    ensures bank.ledger[i].status == Awaiting ==>
              DeliverAll(bank, rs).ledger[i] == bank.ledger[i].(status := Verdict(bank.ledger[i], rs))
    ensures bank.ledger[i].status != Awaiting ==> DeliverAll(bank, rs).ledger[i] == bank.ledger[i]
    decreases |rs|
  {
    if rs != [] {
      DeliverTouchesOneRow(bank, rs[0], i);
      FirstDecidingResultWins(Deliver(bank, rs[0]), rs[1..], i);
    }
  }

  /** Deposit results name deposits. */
  predicate Addressed(ledger: seq<Txn>, r: Result) {
    r.DepositResult? ==>
      var i := Locate(ledger, r.reference, false);
      i < 0 || ledger[i].kind == Deposit
  }

  /** Rows that differ only in status are found at the same place. */
  lemma {:induction false} LocateIgnoresStatus(a: seq<Txn>, b: seq<Txn>, reference: nat, onlyWithdrawals: bool)
    requires |a| == |b|
    requires forall i :: 0 <= i < |a| ==> b[i] == a[i].(status := b[i].status)
    ensures Locate(a, reference, onlyWithdrawals) == Locate(b, reference, onlyWithdrawals)
  {
  }

  lemma DeliverRestatesOnly(bank: Bank, r: Result)
    ensures |Deliver(bank, r).ledger| == |bank.ledger|
    ensures forall i :: 0 <= i < |bank.ledger| ==>
              Deliver(bank, r).ledger[i] == bank.ledger[i].(status := Deliver(bank, r).ledger[i].status)
  {
  }

  lemma DeliverKeepsInv(bank: Bank, r: Result)
    requires Inv(bank) && Addressed(bank.ledger, r)
    ensures Inv(Deliver(bank, r))
  {
    match r
    case DepositResult(reference, success, paid) => ConfirmDepositKeepsInvExactlyWhen(bank, reference, success, paid);
    case WithdrawalResult(reference, success) => ConfirmWithdrawalKeepsInv(bank, reference, success);
  }

  /** Any sequence of properly addressed results keeps every balance equal to its ledger fold. */
  lemma {:induction false} DeliveriesKeepInv(bank: Bank, rs: seq<Result>)
    requires Inv(bank)
    requires forall k :: 0 <= k < |rs| ==> Addressed(bank.ledger, rs[k])
    ensures Inv(DeliverAll(bank, rs))
    decreases |rs|
  {
    if rs != [] {
      var next := Deliver(bank, rs[0]);
      DeliverKeepsInv(bank, rs[0]);
      DeliverRestatesOnly(bank, rs[0]);
      forall k | 0 <= k < |rs[1..]|
        ensures Addressed(next.ledger, rs[1..][k])
      {
        assert rs[1..][k] == rs[k + 1];
        LocateIgnoresStatus(bank.ledger, next.ledger, rs[k + 1].reference, false);
      }
      DeliveriesKeepInv(next, rs[1..]);
    }
  }
}
