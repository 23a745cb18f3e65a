/**
 Returning principal, after `redeem` in src/bonds/engine/redemption-runner.service.ts.
 The order in which the holders come back from the database, and the rail's answer for
 each, are parameters.
 */
module Redemption {
  import opened Sums
  import opened Accrual
  import opened Register
  import opened CouponRun
  import Wallet

  datatype ReturnRow = ReturnRow(amount: int, status: PaymentStatus, attempts: nat)

  /** A wallet credit the rail made for a holder's principal. */
  datatype Principal = Principal(bond: nat, user: UserId, amount: int)

  /** What a payout of principal reads and writes; return rows are keyed by bond and holder. */
  datatype Vault = Vault(returned: map<(nat, UserId), ReturnRow>, principal: seq<Principal>, bank: Wallet.Bank)

  /** A holder in the order met, and the rail's answer. */
  datatype Repayment = Repayment(user: UserId, rail: Rail)

  function ReturnFor(v: Vault, bond: nat, user: UserId, units: nat): ReturnRow {
    if (bond, user) in v.returned then v.returned[(bond, user)] else ReturnRow(units, PaymentStatus.Pending, 0)
  }

  /** Upsert the holder's return row and, unless it is already paid, try to pay it. */
  function Repay(v: Vault, bond: nat, units: nat, turn: Repayment): Vault {
    var row := ReturnFor(v, bond, turn.user, units);
    var key := (bond, turn.user);
    if row.status == Paid then v
    else if turn.rail.Ok? then
      Vault(v.returned[key := row.(status := Paid)],
            v.principal + [Principal(bond, turn.user, units)],
            Wallet.Credit(v.bank, turn.user, units, Wallet.Payout, turn.rail.reference))
    else v.(returned := v.returned[key := row.(status := Retry, attempts := row.attempts + 1)])
  }

  function UnitsOf(holdings: map<UserId, int>, user: UserId): nat {
    if user in holdings && holdings[user] > 0 then holdings[user] else 0
  }

  function RepayAll(v: Vault, bond: nat, holdings: map<UserId, int>, turns: seq<Repayment>): Vault {
    if turns == [] then v
    else
      var last := turns[|turns| - 1];
      Repay(RepayAll(v, bond, holdings, turns[..|turns| - 1]), bond, UnitsOf(holdings, last.user), last)
  }

  function Users(turns: seq<Repayment>): (users: seq<nat>)
    ensures |users| == |turns| && forall i :: 0 <= i < |turns| ==> users[i] == turns[i].user
  {
    seq(|turns|, i requires 0 <= i < |turns| => turns[i].user)
  }

  /** Everyone with units, each once. */
  predicate Everyone(turns: seq<Repayment>, holdings: map<UserId, int>) {
    && Distinct(Users(turns))
    && (forall i :: 0 <= i < |turns| ==> turns[i].user in holdings && holdings[turns[i].user] > 0)
    && (forall u :: u in holdings && holdings[u] > 0 ==> u in Users(turns))
  }

  /** Nothing is still owed: every return row of the bond is paid. */
  predicate AllReturned(returned: map<(nat, UserId), ReturnRow>, bond: nat) {
    forall key :: key in returned && key.0 == bond ==> returned[key].status == Paid
  }

  predicate NoReturns(returned: map<(nat, UserId), ReturnRow>, bond: nat) {
    forall key :: key in returned ==> key.0 != bond
  }

  // ---- What every vault keeps ----

  ghost predicate HasPrincipal(principal: seq<Principal>, bond: nat, user: UserId) {
    exists k :: 0 <= k < |principal| && principal[k].bond == bond && principal[k].user == user
  }

  /** A return row is paid exactly when its principal was credited, and nobody is credited twice. */
  ghost predicate ReturnedOnce(returned: map<(nat, UserId), ReturnRow>, principal: seq<Principal>) {
    && (forall i, j :: 0 <= i < j < |principal| ==>
          principal[i].bond != principal[j].bond || principal[i].user != principal[j].user)
    && (forall b: nat, u: UserId :: HasPrincipal(principal, b, u) <==> (b, u) in returned && returned[(b, u)].status == Paid)
  }

  lemma PrincipalPushed(principal: seq<Principal>, p: Principal, bond: nat, user: UserId)
    ensures HasPrincipal(principal + [p], bond, user) <==>
            HasPrincipal(principal, bond, user) || (p.bond == bond && p.user == user)
  {
    var more := principal + [p];
    assert more[|principal|] == p;
    if HasPrincipal(principal, bond, user) {
      var k :| 0 <= k < |principal| && principal[k].bond == bond && principal[k].user == user;
      assert more[k] == principal[k];
    }
  }

  lemma RepayKeepsReturned(v: Vault, bond: nat, units: nat, turn: Repayment)
    requires ReturnedOnce(v.returned, v.principal)
    ensures var w := Repay(v, bond, units, turn); ReturnedOnce(w.returned, w.principal)
  {
    var w := Repay(v, bond, units, turn);
    if w.principal != v.principal {
      assert !HasPrincipal(v.principal, bond, turn.user);
      forall b: nat, u: UserId
        ensures HasPrincipal(w.principal, b, u) <==> (b, u) in w.returned && w.returned[(b, u)].status == Paid
      {
        PrincipalPushed(v.principal, Principal(bond, turn.user, units), b, u);
      }
    }
  }

  lemma {:induction false} RepayAllKeepsReturned(v: Vault, bond: nat, holdings: map<UserId, int>, turns: seq<Repayment>)
    requires ReturnedOnce(v.returned, v.principal)
    ensures var w := RepayAll(v, bond, holdings, turns); ReturnedOnce(w.returned, w.principal)
  {
    if turns != [] {
      var init, last := turns[..|turns| - 1], turns[|turns| - 1];
      RepayAllKeepsReturned(v, bond, holdings, init);
      RepayKeepsReturned(RepayAll(v, bond, holdings, init), bond, UnitsOf(holdings, last.user), last);
    }
  }

  /** Only rows of this bond and of the holders met are touched. */
  lemma {:induction false} OtherReturnsUntouched(v: Vault, bond: nat, holdings: map<UserId, int>, turns: seq<Repayment>,
                                                 key: (nat, UserId))
    requires key.0 != bond || key.1 !in Users(turns)
    ensures var w := RepayAll(v, bond, holdings, turns);
            (key in w.returned <==> key in v.returned) && (key in v.returned ==> w.returned[key] == v.returned[key])
  {
    if turns != [] {
      var init, last := turns[..|turns| - 1], turns[|turns| - 1];
      assert forall i :: 0 <= i < |init| ==> Users(init)[i] == Users(turns)[i] && Users(turns)[i] in Users(turns);
      assert last.user == Users(turns)[|turns| - 1] && last.user in Users(turns);
      OtherReturnsUntouched(v, bond, holdings, init, key);
    }
  }

  // ---- Exactly the units ----

  /** The credits of a payout in which the rail never failed. */
  function Shares(bond: nat, holdings: map<UserId, int>, turns: seq<Repayment>): (shares: seq<Principal>)
    ensures |shares| == |turns|
    ensures forall i :: 0 <= i < |turns| ==> shares[i] == Principal(bond, turns[i].user, UnitsOf(holdings, turns[i].user))
  {
    seq(|turns|, i requires 0 <= i < |turns| => Principal(bond, turns[i].user, UnitsOf(holdings, turns[i].user)))
  }

  lemma FirstTurn(turns: seq<Repayment>)
    requires turns != [] && Distinct(Users(turns))
    ensures var init, last := turns[..|turns| - 1], turns[|turns| - 1]; Distinct(Users(init)) && last.user !in Users(init)
  {
    var init, last := turns[..|turns| - 1], turns[|turns| - 1];
    forall i | 0 <= i < |init|
      ensures Users(init)[i] == Users(turns)[i] && Users(init)[i] != last.user
    {
      assert Users(turns)[i] != Users(turns)[|turns| - 1];
    }
  }

  /**
   On a bond nobody has been repaid for, a payout leaves nothing owed exactly when the rail
   took every payment, and then each holder met was credited their units, once.
   */
  lemma {:induction false} FullPayout(v: Vault, bond: nat, holdings: map<UserId, int>, turns: seq<Repayment>)
    requires NoReturns(v.returned, bond) && Distinct(Users(turns))
    ensures var w := RepayAll(v, bond, holdings, turns);
            AllReturned(w.returned, bond) <==> forall i :: 0 <= i < |turns| ==> turns[i].rail.Ok?
    ensures var w := RepayAll(v, bond, holdings, turns);
            AllReturned(w.returned, bond) ==> w.principal == v.principal + Shares(bond, holdings, turns)
  {
    if turns != [] {
      var init, last := turns[..|turns| - 1], turns[|turns| - 1];
      var mid := RepayAll(v, bond, holdings, init);
      var w := RepayAll(v, bond, holdings, turns);
      FirstTurn(turns);
      FullPayout(v, bond, holdings, init);
      OtherReturnsUntouched(v, bond, holdings, init, (bond, last.user));
      assert (bond, last.user) !in mid.returned;
      assert w.returned.Keys == mid.returned.Keys + {(bond, last.user)};
      assert forall key :: key in mid.returned ==> w.returned[key] == mid.returned[key];
      assert (bond, last.user) in w.returned && (w.returned[(bond, last.user)].status == Paid <==> last.rail.Ok?);
      assert AllReturned(w.returned, bond) <==> AllReturned(mid.returned, bond) && last.rail.Ok?;
      if AllReturned(w.returned, bond) {
        assert Shares(bond, holdings, turns) == Shares(bond, holdings, init) + [Principal(bond, last.user, UnitsOf(holdings, last.user))];
      }
    }
  }

  lemma UsersSplit(turns: seq<Repayment>, u: int)
    requires turns != []
    ensures u in Users(turns) <==> u in Users(turns[..|turns| - 1]) || u == turns[|turns| - 1].user
  {
    assert Users(turns) == Users(turns[..|turns| - 1]) + [turns[|turns| - 1].user];
  }

  function PrincipalAmount(): Principal -> int { (p: Principal) => p.amount }

  function Positive(holdings: map<UserId, int>): map<UserId, int> {
    map u | u in holdings && holdings[u] > 0 :: holdings[u]
  }

  lemma SharesSnoc(bond: nat, holdings: map<UserId, int>, turns: seq<Repayment>)
    requires turns != []
    ensures var init, last := turns[..|turns| - 1], turns[|turns| - 1];
            Shares(bond, holdings, turns)
            == Shares(bond, holdings, init) + [Principal(bond, last.user, UnitsOf(holdings, last.user))]
  {
  }

  /** The keys of `m` are the users met. */
  ghost predicate Keyed(m: map<UserId, int>, turns: seq<Repayment>) {
    forall u :: u in m <==> u in Users(turns)
  }

  lemma KeyedWithoutLast(m: map<UserId, int>, turns: seq<Repayment>)
    requires turns != [] && Distinct(Users(turns)) && Keyed(m, turns)
    ensures var init, last := turns[..|turns| - 1], turns[|turns| - 1];
            last.user in m && Distinct(Users(init)) && Keyed(m - {last.user}, init)
  {
    FirstTurn(turns);
    UsersSplit(turns, turns[|turns| - 1].user);
    forall u: UserId {
      UsersSplit(turns, u);
    }
  }

  lemma {:induction false} SharesSum(bond: nat, holdings: map<UserId, int>, turns: seq<Repayment>, m: map<UserId, int>)
    requires Distinct(Users(turns)) && Keyed(m, turns)
    requires forall u :: u in m ==> m[u] == UnitsOf(holdings, u)
    ensures SumBy(Shares(bond, holdings, turns), PrincipalAmount()) == SumMap(m)
  {
    if turns == [] {
      assert m == map[];
    } else {
      var init, last := turns[..|turns| - 1], turns[|turns| - 1];
      KeyedWithoutLast(m, turns);
      SharesSum(bond, holdings, init, m - {last.user});
      SumMapRemove(m, last.user);
      SharesSnoc(bond, holdings, turns);
      SumByPush(Shares(bond, holdings, init), Principal(bond, last.user, UnitsOf(holdings, last.user)), PrincipalAmount());
    }
  }

  /** Paying everyone pays exactly what was raised. */
  lemma SharesAddUpToRaised(b: Book, bond: nat, turns: seq<Repayment>, now: int)
    requires Register.Inv(b, now) && Everyone(turns, b.holdings)
    ensures SumBy(Shares(bond, b.holdings, turns), PrincipalAmount()) == b.raised <= b.total
  {
    var m := Positive(b.holdings);
    forall u | u in Users(turns)
      ensures u in m
    {
      var i :| 0 <= i < |turns| && Users(turns)[i] == u;
      assert turns[i].user == u;
    }
    assert Keyed(m, turns);
    SharesSum(bond, b.holdings, turns, m);
    SumMapDropZeros(b.holdings, m);
  }
}
