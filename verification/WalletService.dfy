/**
 The wallet service as it runs: balances and ledger rows updated in place inside one
 transaction, and the withdrawal that reserves, calls the provider and settles.
 */
module WalletService {
  import opened Sums
  import opened Accrual
  import opened Wallet

  /** What the provider's transfer call comes back with. */
  datatype Transfer = Settled | Declined | Pending | Threw

  /** One new row in the state the transfer left it in; the balance is down only if the money is on its way. */
  function AfterTransfer(bank: Bank, user: UserId, amount: int, reference: nat, transfer: Transfer): Bank {
    var held := if transfer.Settled? || transfer.Pending? then amount else 0;
    var status := match transfer case Settled => Completed case Pending => Awaiting case _ => Failed;
    Bank(bank.balances[user := Get(bank.balances, user) - held],
         bank.ledger + [Txn(user, Withdrawal, status, amount, true, reference)])
  }

  /**
   What a withdrawal comes to: the balance is what it was exactly when the transfer was
   declined or threw, and otherwise less the amount; the one new row has failed, is complete,
   or waits, the last exactly while the transfer is still pending.
   */
  predicate Withdrawn(before: Bank, after: Bank, user: UserId, amount: int, reference: nat, transfer: Transfer) {
    && Get(after.balances, user) == Get(before.balances, user) - (if transfer.Declined? || transfer.Threw? then 0 else amount)
    && |after.ledger| == |before.ledger| + 1 && after.ledger[..|before.ledger|] == before.ledger
    && var row := after.ledger[|before.ledger|];
       && row == Txn(user, Withdrawal, row.status, amount, true, reference)
       && (row.status == Failed <==> transfer.Declined? || transfer.Threw?)
       && (row.status == Completed <==> transfer.Settled?)
       && (row.status == Awaiting <==> transfer.Pending?)
  }

  lemma MoneyBackExactlyWhenRefused(bank: Bank, user: UserId, amount: nat, reference: nat, transfer: Transfer)
    requires amount > 0
    ensures var after := AfterTransfer(bank, user, amount, reference, transfer);
            && Withdrawn(bank, after, user, amount, reference, transfer)
            && (Get(after.balances, user) == Get(bank.balances, user) <==> transfer.Declined? || transfer.Threw?)
  {
  }

  lemma SettlingTheNewRow(bank: Bank, user: UserId, amount: int, reference: nat, success: bool)
    requires Unused(bank.ledger, reference)
    requires ReserveWithdrawal(bank, user, amount, reference).Changed?
    ensures var reserved := ReserveWithdrawal(bank, user, amount, reference).bank;
            && reserved == AfterTransfer(bank, user, amount, reference, Pending)
            && Committed(reserved, ConfirmWithdrawal(reserved, reference, success))
               == AfterTransfer(bank, user, amount, reference, if success then Settled else Declined)
  {
    var row := Txn(user, Withdrawal, Awaiting, amount, true, reference);
    var reserved := ReserveWithdrawal(bank, user, amount, reference).bank;
    assert reserved.ledger == bank.ledger + [row];
    assert Locate(reserved.ledger, reference, true) == |bank.ledger| by {
      assert reserved.ledger[|bank.ledger|] == row;
      forall k | 0 <= k < |bank.ledger|
        ensures !(reserved.ledger[k].paystack && reserved.ledger[k].reference == reference)
      {
        assert reserved.ledger[k] == bank.ledger[k];
      }
    }
  }

  class Service {
    var balances: map<UserId, int>
    var ledger: seq<Txn>

    constructor ()
      ensures Inv(State()) && ledger == []
    {
      balances, ledger := map[], [];
    }

    function State(): Bank
      reads this
    {
      Bank(balances, ledger)
    }

    method InitializeDeposit(user: UserId, amount: int, reference: nat) returns (r: Reply)
      requires Unused(ledger, reference)
      modifies this`ledger
      ensures r == OpenDeposit(old(State()), user, amount, reference) && State() == Committed(old(State()), r)
      ensures ledger == old(ledger) + if amount > 0 then [Txn(user, Deposit, Awaiting, amount, true, reference)] else []
      ensures old(Inv(State())) ==> Inv(State())
    {
      if Inv(State()) {
        OpenDepositKeepsInv(State(), user, amount, reference);
      }
      if amount <= 0 {
        return Raised(NotPositive);
      }
      ledger := ledger + [Txn(user, Deposit, Awaiting, amount, true, reference)];
      return Changed(State());
    }

    method ConfirmPaystackDeposit(reference: nat, success: bool, paid: int) returns (r: Reply)
      modifies this
      ensures r == ConfirmDeposit(old(State()), reference, success, paid) && State() == Committed(old(State()), r)
      ensures old(Inv(State())) && Addressed(old(ledger), DepositResult(reference, success, paid)) ==> Inv(State())
    {
      if Inv(State()) {
        ConfirmDepositKeepsInvExactlyWhen(State(), reference, success, paid);
      }
      var i := Locate(ledger, reference, false);
      if i < 0 {
        return Raised(NotFound);
      }
      var row := ledger[i];
      if row.status != Awaiting {
        return AlreadyProcessed;
      }
      if !success {
        ledger := ledger[i := row.(status := Failed)];
        return Changed(State());
      }
      if paid != row.amount {
        // The row was marked failed and the transaction then aborted, so it stays awaiting.
        return Raised(AmountMismatch);
      }
      balances := balances[row.user := Get(balances, row.user) + row.amount];
      ledger := ledger[i := row.(status := Completed)];
      return Changed(State());
    }

    method ConfirmPaystackWithdrawal(reference: nat, success: bool) returns (r: Reply)
      modifies this
      ensures r == ConfirmWithdrawal(old(State()), reference, success) && State() == Committed(old(State()), r)
      ensures old(Inv(State())) ==> Inv(State())
    {
      if Inv(State()) {
        ConfirmWithdrawalKeepsInv(State(), reference, success);
      }
      var i := Locate(ledger, reference, true);
      if i < 0 {
        return Raised(NotFound);
      }
      var row := ledger[i];
      if row.status != Awaiting {
        return AlreadyProcessed;
      }
      if success {
        ledger := ledger[i := row.(status := Completed)];
      } else {
        balances := balances[row.user := Get(balances, row.user) + row.amount];
        ledger := ledger[i := row.(status := Failed)];
      }
      return Changed(State());
    }

    /** The reserving transaction: check and debit under the wallet's row lock. */
    method Reserve(user: UserId, amount: int, reference: nat) returns (r: Reply)
      requires Unused(ledger, reference)
      modifies this
      ensures r == ReserveWithdrawal(old(State()), user, amount, reference) && State() == Committed(old(State()), r)
      ensures old(Inv(State())) ==> Inv(State())
    {
      if Inv(State()) {
        ReserveWithdrawalKeepsInv(State(), user, amount, reference);
      }
      if amount <= 0 {
        return Raised(NotPositive);
      }
      if Get(balances, user) < amount {
        return Raised(InsufficientFunds);
      }
      balances := balances[user := Get(balances, user) + -amount];
      ledger := ledger + [Txn(user, Withdrawal, Awaiting, amount, true, reference)];
      return Changed(State());
    }

    /**
     Reserve, transfer, settle. A transfer that fails or throws gives the balance back; one
     that settles at once or stays pending leaves it reserved. Either way exactly one row is
     added, and a refused request adds none.
     */
    method InitiatePaystackWithdrawal(user: UserId, amount: int, reference: nat, transfer: Transfer) returns (r: Reply)
      requires Unused(ledger, reference)
      modifies this
      ensures r.Raised? <==> amount <= 0 || Get(old(balances), user) < amount
      ensures r.Raised? ==> State() == old(State())
      ensures r.Changed? ==> r.bank == State() == AfterTransfer(old(State()), user, amount, reference, transfer)
      ensures r.Changed? ==> Withdrawn(old(State()), State(), user, amount, reference, transfer)
      ensures !r.AlreadyProcessed?
      ensures old(Inv(State())) ==> Inv(State())
    {
      ghost var before := State();
      r := Reserve(user, amount, reference);
      if r.Raised? {
        return;
      }
      SettlingTheNewRow(before, user, amount, reference, transfer.Settled?);
      MoneyBackExactlyWhenRefused(before, user, amount, reference, transfer);
      if transfer.Settled? {
        var _ := ConfirmPaystackWithdrawal(reference, true);
      } else if transfer.Declined? || transfer.Threw? {
        var _ := ConfirmPaystackWithdrawal(reference, false);
      }
      return Changed(State());
    }

    method CreditWallet(user: UserId, amount: nat, kind: Kind, reference: nat)
      requires kind == Payout || kind == Refund
      modifies this
      ensures State() == Credit(old(State()), user, amount, kind, reference)
      ensures Get(balances, user) == Get(old(balances), user) + amount
      ensures ledger == old(ledger) + [Txn(user, kind, Completed, amount, false, reference)]
      ensures old(Inv(State())) ==> Inv(State())
    {
      if Inv(State()) {
        CreditKeepsInv(State(), user, amount, kind, reference);
      }
      balances := balances[user := Get(balances, user) + amount];
      ledger := ledger + [Txn(user, kind, Completed, amount, false, reference)];
    }

    method DebitEscrow(user: UserId, amount: nat, reference: nat) returns (ok: bool)
      modifies this
      ensures ok <==> Get(old(balances), user) >= amount
      ensures State() == Committed(old(State()), DebitForEscrow(old(State()), user, amount, reference))
      ensures !ok ==> State() == old(State())
      ensures ok ==> Get(balances, user) == Get(old(balances), user) - amount >= 0
      ensures ok ==> ledger == old(ledger) + [Txn(user, Investment, Completed, amount, false, reference)]
      ensures old(Inv(State())) ==> Inv(State())
    {
      if Inv(State()) {
        DebitKeepsInv(State(), user, amount, reference);
      }
      if Get(balances, user) < amount {
        return false;
      }
      balances := balances[user := Get(balances, user) - amount];
      ledger := ledger + [Txn(user, Investment, Completed, amount, false, reference)];
      return true;
    }
  }
}
