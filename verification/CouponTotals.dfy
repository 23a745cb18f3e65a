/**
 What one coupon period costs in total: the sum over holders, against the amount raised
 on each day of the period.
 */
module CouponTotals {
  import opened Sums
  import opened Money
  import opened Accrual
  import opened Register
  import opened PositionHistory

  function AtKey(m: map<UserId, int>): UserId -> int {
    (u: UserId) => Get(m, u)
  }

  lemma {:induction false} OrderedSum(m: map<UserId, int>, s: set<UserId>)
    requires s == m.Keys
    ensures SumBy(InOrder(s), AtKey(m)) == SumMap(m)
    decreases |s|
  {
    if s == {} {
      assert m == map[];
    } else {
      var first := Least(s);
      var rest := m - {first};
      OrderedSum(rest, s - {first});
      SumMapRemove(m, first);
      var tail := InOrder(s - {first});
      SumByAgree(tail, AtKey(m), AtKey(rest));
      SumByConcat([first], tail, AtKey(m));
      SumByPush([], first, AtKey(m));
      assert [] + [first] == [first];
    }
  }

  /** The amount raised at the end of each day of the period, added up over the days. */
  function RaisedDays(b: Book, ops: seq<Timed>, start: int, end: int): int
    decreases end - start
  {
    if end <= start then 0
    else RaisedDays(b, ops, start, end - 1) + EndOfDay(b, ops, end - 1).raised
  }

  ghost function Weights(h: History, users: set<UserId>, start: int, end: int): map<UserId, int> {
    map u | u in users :: h.UnitDays(u, start, end)
  }

  ghost function Balances(h: History, users: set<UserId>, day: int): map<UserId, int> {
    map u | u in users :: h.BalanceOn(u, day)
  }

  lemma {:induction false} RunKeepsHolders(b: Book, ops: seq<Timed>, day: int)
    ensures EndOfDay(b, ops, day).holdings.Keys <= Run(b, ops).holdings.Keys
  {
    if ops != [] && Day(ops[|ops| - 1].at) > day {
      RunKeepsHolders(b, ops[..|ops| - 1], day);
    }
  }

  /** On any day the rebuilt balances of all users add up to what was raised that day. */
  lemma BalancesAddUpToRaised(b: Book, ops: seq<Timed>, day: int)
    requires Fresh(b) && TimeOrdered(ops)
    ensures var h := HistoryOf(Run(b, ops));
            SumMap(Balances(h, h.Users(), day)) == EndOfDay(b, ops, day).raised
  {
    var h := HistoryOf(Run(b, ops));
    var e := EndOfDay(b, ops, day);
    RunKeepsHolders(b, ops, day);
    forall u
      ensures h.BalanceOn(u, day) == Get(e.holdings, u)
    {
      RebuiltBalanceIsTrue(b, ops, u, day);
    }
    SumMapDropZeros(Balances(h, h.Users(), day), e.holdings);
    EndOfDayKeepsInv(b, ops, day);
  }

  lemma {:induction false} WeightsAddUpToRaisedDays(b: Book, ops: seq<Timed>, start: int, end: int)
    requires Fresh(b) && TimeOrdered(ops)
    ensures var h := HistoryOf(Run(b, ops));
            SumMap(Weights(h, h.Users(), start, end)) == RaisedDays(b, ops, start, end)
    decreases end - start
  {
    var h := HistoryOf(Run(b, ops));
    var users := h.Users();
    if end <= start {
      SumMapDropZeros(Weights(h, users, start, end), map[]);
    } else {
      WeightsAddUpToRaisedDays(b, ops, start, end - 1);
      BalancesAddUpToRaised(b, ops, end - 1);
      forall u | u in users
        ensures h.UnitDays(u, start, end) == h.UnitDays(u, start, end - 1) + h.BalanceOn(u, end - 1)
      {
        RebuiltBalanceNotNegative(b, ops, u, end - 1);
      }
      SumMapPlus(Weights(h, users, start, end - 1), Balances(h, users, end - 1), Weights(h, users, start, end));
    }
  }

  lemma RowsCarryAllWeight(h: History, start: int, end: int, rateBps: nat)
    ensures SumBy(h.Accruals(start, end, rateBps), UnitDaysOf()) == SumMap(Weights(h, h.Users(), start, end))
  {
    var payees := h.Payees(start, end);
    var weights := Weights(h, payees, start, end);
    SumByParallel(h.Accruals(start, end, rateBps), InOrder(payees), UnitDaysOf(), AtKey(weights)) by {
      var rows, users := h.Accruals(start, end, rateBps), InOrder(payees);
      forall i | 0 <= i < |rows|
        ensures UnitDaysOf()(rows[i]) == AtKey(weights)(users[i])
      {
        assert users[i] in users;
      }
    }
    OrderedSum(weights, payees);
    SumMapDropZeros(Weights(h, h.Users(), start, end), weights);
  }

  lemma RowsAreRounded(h: History, start: int, end: int, rateBps: nat)
    ensures Rounded(h.Accruals(start, end, rateBps), rateBps)
  {
    var rows := h.Accruals(start, end, rateBps);
    forall i | 0 <= i < |rows|
      ensures rows[i].unitDays >= 0 && rows[i].gross == Gross(rows[i].unitDays, rateBps)
      ensures rows[i].net + rows[i].wht == rows[i].gross
    {
      assert rows[i] == h.Accrued(InOrder(h.Payees(start, end))[i], start, end, rateBps);
    }
  }

  /**
   A coupon period never pays more gross than one coupon on the amount raised, counted day
   by day, and short of that by less than one minor unit per holder paid. Every unit of
   gross is either paid out net or withheld.
   */
  lemma PeriodCostsTheRaise(b: Book, ops: seq<Timed>, start: int, end: int, rateBps: nat)
    requires Fresh(b) && TimeOrdered(ops) && start < end
    ensures var rows := Owed(Run(b, ops), start, end, rateBps);
            var whole := RaisedDays(b, ops, start, end);
            && whole >= 0
            && SumBy(rows, GrossOf()) <= Gross(whole, rateBps)
            && (rows != [] ==> Gross(whole, rateBps) <= SumBy(rows, GrossOf()) + |rows| - 1)
            && SumBy(rows, NetOf()) + SumBy(rows, WhtOf()) == SumBy(rows, GrossOf())
  {
    var h := HistoryOf(Run(b, ops));
    var rows := h.Accruals(start, end, rateBps);
    RowsCarryAllWeight(h, start, end, rateBps);
    WeightsAddUpToRaisedDays(b, ops, start, end);
    RowsAreRounded(h, start, end, rateBps);
    RoundingLoss(rows, rateBps);
  }
}
