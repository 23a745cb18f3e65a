/**
 The register's past, rebuilt from its rows: `loadPositionHistory` of
 src/bonds/engine/coupon-runner.service.ts, proved to recover the true end-of-day
 register of every day of every run, and with it what the coupon engine pays.
 */
module PositionHistory {
  import opened Sums
  import opened Money
  import opened Accrual
  import opened Register

  // ---- Deltas from rows ----

  function SubscriptionDeltas(s: Subscription): seq<HoldingDelta> {
    if s.allocatedAt.None? then []
    else
      var given := HoldingDelta(Day(s.allocatedAt.value), s.user, s.amount);
      if s.status == Cancelled && s.cancelledAt.Some?
      then [given, HoldingDelta(Day(s.cancelledAt.value), s.user, -s.amount)]
      else [given]
  }

  function TradeDeltas(t: Trade): seq<HoldingDelta> {
    [HoldingDelta(t.day, t.seller, -t.units), HoldingDelta(t.day, t.buyer, t.units)]
  }

  function AllSubscriptionDeltas(subs: seq<Subscription>): seq<HoldingDelta> {
    if subs == [] then []
    else
      var earlier, last := AllSubscriptionDeltas(subs[..|subs| - 1]), subs[|subs| - 1];
      if last.allocatedAt.None? then earlier else earlier + SubscriptionDeltas(last)
  }

  /** The deltas of the trades, behind those met before. */
  function WithTradeDeltas(before: seq<HoldingDelta>, trades: seq<Trade>): seq<HoldingDelta> {
    if trades == [] then before
    else WithTradeDeltas(before, trades[..|trades| - 1]) + TradeDeltas(trades[|trades| - 1])
  }

  /** Today's register and every dated change behind it. */
  function HistoryOf(b: Book): History {
    History(b.holdings, WithTradeDeltas(AllSubscriptionDeltas(b.subs), b.trades))
  }

  /** The loop that collects the deltas, row by row. */
  method LoadPositionHistory(b: Book) returns (h: History)
    ensures h == HistoryOf(b)
  {
    var deltas: seq<HoldingDelta> := [];
    var i := 0;
    while i < |b.subs|
      invariant 0 <= i <= |b.subs|
      invariant deltas == AllSubscriptionDeltas(b.subs[..i])
    {
      var s := b.subs[i];
      assert b.subs[..i + 1][..i] == b.subs[..i];
      if s.allocatedAt.Some? {
        deltas := deltas + [HoldingDelta(Day(s.allocatedAt.value), s.user, s.amount)];
        if s.status == Cancelled && s.cancelledAt.Some? {
          deltas := deltas + [HoldingDelta(Day(s.cancelledAt.value), s.user, -s.amount)];
        }
      }
      assert deltas == AllSubscriptionDeltas(b.subs[..i]) + SubscriptionDeltas(s);
      i := i + 1;
    }
    assert b.subs[..i] == b.subs;
    var j := 0;
    while j < |b.trades|
      invariant 0 <= j <= |b.trades|
      invariant deltas == WithTradeDeltas(AllSubscriptionDeltas(b.subs), b.trades[..j])
    {
      var t := b.trades[j];
      assert b.trades[..j + 1][..j] == b.trades[..j];
      deltas := deltas + [HoldingDelta(t.day, t.seller, -t.units)];
      deltas := deltas + [HoldingDelta(t.day, t.buyer, t.units)];
      assert deltas == WithTradeDeltas(AllSubscriptionDeltas(b.subs), b.trades[..j]) + TradeDeltas(t);
      j := j + 1;
    }
    assert b.trades[..j] == b.trades;
    h := History(b.holdings, deltas);
  }

  // ---- Sums of deltas as sums over rows ----

  function SubAfter(u: UserId, day: int): Subscription -> int {
    (s: Subscription) => SumBy(SubscriptionDeltas(s), After(u, day))
  }

  function TradeAfter(u: UserId, day: int): Trade -> int {
    (t: Trade) => SumBy(TradeDeltas(t), After(u, day))
  }

  /** Net units `u` moved after `day`. */
  function MovedAfter(b: Book, u: UserId, day: int): int {
    SumBy(b.subs, SubAfter(u, day)) + SumBy(b.trades, TradeAfter(u, day))
  }

  lemma {:induction false} SubscriptionDeltasSum(subs: seq<Subscription>, u: UserId, day: int)
    ensures SumBy(AllSubscriptionDeltas(subs), After(u, day)) == SumBy(subs, SubAfter(u, day))
  {
    if subs != [] {
      var init := subs[..|subs| - 1];
      SubscriptionDeltasSum(init, u, day);
      SumByConcat(AllSubscriptionDeltas(init), SubscriptionDeltas(subs[|subs| - 1]), After(u, day));
    }
  }

  lemma {:induction false} TradeDeltasSum(before: seq<HoldingDelta>, trades: seq<Trade>, u: UserId, day: int)
    ensures SumBy(WithTradeDeltas(before, trades), After(u, day)) == SumBy(before, After(u, day)) + SumBy(trades, TradeAfter(u, day))
  {
    if trades != [] {
      var init := trades[..|trades| - 1];
      TradeDeltasSum(before, init, u, day);
      SumByConcat(WithTradeDeltas(before, init), TradeDeltas(trades[|trades| - 1]), After(u, day));
    }
  }

  lemma BalanceFromRows(b: Book, u: UserId, day: int)
    ensures HistoryOf(b).BalanceOn(u, day) == Get(b.holdings, u) - MovedAfter(b, u, day)
  {
    SubscriptionDeltasSum(b.subs, u, day);
    TradeDeltasSum(AllSubscriptionDeltas(b.subs), b.trades, u, day);
  }

  lemma SubAfterValue(s: Subscription, u: UserId, day: int)
    ensures SubAfter(u, day)(s) ==
            if s.allocatedAt.None? || s.user != u then 0
            else (if Day(s.allocatedAt.value) > day then s.amount else 0)
                 - (if s.status == Cancelled && s.cancelledAt.Some? && Day(s.cancelledAt.value) > day then s.amount else 0)
  {
    if s.allocatedAt.Some? {
      var d := HoldingDelta(Day(s.allocatedAt.value), s.user, s.amount);
      SumByPush([], d, After(u, day));
      assert [] + [d] == [d];
      if s.status == Cancelled && s.cancelledAt.Some? {
        var e := HoldingDelta(Day(s.cancelledAt.value), s.user, -s.amount);
        SumByPush([d], e, After(u, day));
        assert [d] + [e] == [d, e];
      }
    }
  }

  lemma TradeAfterValue(t: Trade, u: UserId, day: int)
    ensures TradeAfter(u, day)(t) ==
            if t.day <= day then 0 else (if t.buyer == u then t.units else 0) - (if t.seller == u then t.units else 0)
  {
    var d := HoldingDelta(t.day, t.seller, -t.units);
    SumByPush([], d, After(u, day));
    SumByPush([d], HoldingDelta(t.day, t.buyer, t.units), After(u, day));
    assert [] + [d] == [d] && TradeDeltas(t) == [d] + [HoldingDelta(t.day, t.buyer, t.units)];
  }

  // ---- One step ----

  /** The moves dated after `day` change by exactly what a step at `now` does to the register, if it is dated after `day`. */
  ghost predicate Accounted(b: Book, b': Book, now: int, u: UserId, day: int) {
    MovedAfter(b', u, day) - MovedAfter(b, u, day)
    == if Day(now) > day then Get(b'.holdings, u) - Get(b.holdings, u) else 0
  }

  lemma RowChangeMoves(b: Book, b': Book, id: nat, u: UserId, day: int)
    requires id < |b.subs| && |b'.subs| == |b.subs| && b'.subs == b.subs[id := b'.subs[id]]
    requires b'.trades == b.trades
    ensures MovedAfter(b', u, day) - MovedAfter(b, u, day)
            == SubAfter(u, day)(b'.subs[id]) - SubAfter(u, day)(b.subs[id])
  {
    SumByUpdate(b.subs, id, b'.subs[id], SubAfter(u, day));
  }

  lemma AllocateAccounted(b: Book, id: nat, now: int, u: UserId, day: int)
    requires Inv(b, now) && Allocate(b, id, now).Done?
    ensures Accounted(b, Allocate(b, id, now).value, now, u, day)
  {
    var b' := Allocate(b, id, now).value;
    assert WellDated(b.subs[id], now);
    RowChangeMoves(b, b', id, u, day);
    SubAfterValue(b.subs[id], u, day);
    SubAfterValue(b'.subs[id], u, day);
  }

  lemma CancelAccounted(b: Book, id: nat, now: int, u: UserId, day: int)
    requires Inv(b, now) && Cancel(b, id, now).Done?
    ensures Accounted(b, Cancel(b, id, now).value, now, u, day)
  {
    var b' := Cancel(b, id, now).value;
    assert WellDated(b.subs[id], now);
    RowChangeMoves(b, b', id, u, day);
    SubAfterValue(b.subs[id], u, day);
    SubAfterValue(b'.subs[id], u, day);
  }

  lemma TradeAccounted(b: Book, id: nat, buyer: UserId, units: int, feeBps: nat, now: int, u: UserId, day: int)
    requires Inv(b, now) && ExecuteTrade(b, id, buyer, units, feeBps, now).Done?
    ensures Accounted(b, ExecuteTrade(b, id, buyer, units, feeBps, now).value, now, u, day)
  {
    var b' := ExecuteTrade(b, id, buyer, units, feeBps, now).value;
    var trade := b'.trades[|b.trades|];
    SumByPush(b.trades, trade, TradeAfter(u, day));
    TradeAfterValue(trade, u, day);
  }

  lemma StepAccounted(b: Book, op: Op, now: int, u: UserId, day: int)
    requires Inv(b, now)
    ensures Accounted(b, Next(b, op, now), now, u, day)
  {
    if Perform(b, op, now).Done? {
      match op
      case OpSubscribe(user, amount) =>
        var row := Subscription(user, amount, Pending, now + COOLING_OFF_SECONDS, None, None);
        SumByPush(b.subs, row, SubAfter(u, day));
        SubAfterValue(row, u, day);
      case OpAllocate(sub) => AllocateAccounted(b, sub, now, u, day);
      case OpCancel(sub) => CancelAccounted(b, sub, now, u, day);
      case OpTrade(listing, buyer, units, feeBps) => TradeAccounted(b, listing, buyer, units, feeBps, now, u, day);
      case OpList(seller, units, askBps, expires) =>
      case OpUnlist(listing) =>
      case OpStatus(to) =>
    }
  }

  /** Nothing is dated in the future, so nothing moved after today. */
  lemma NothingMovedAfterToday(b: Book, now: int, u: UserId, day: int)
    requires Inv(b, now) && Day(now) <= day
    ensures MovedAfter(b, u, day) == 0
  {
    forall i | 0 <= i < |b.subs|
      ensures SubAfter(u, day)(b.subs[i]) == 0
    {
      assert WellDated(b.subs[i], now);
      SubAfterValue(b.subs[i], u, day);
    }
    SumByZero(b.subs, SubAfter(u, day));
    forall i | 0 <= i < |b.trades|
      ensures TradeAfter(u, day)(b.trades[i]) == 0
    {
      TradeAfterValue(b.trades[i], u, day);
    }
    SumByZero(b.trades, TradeAfter(u, day));
  }

  // ---- Runs ----

  /** The book as it stood at the end of `day`. */
  function EndOfDay(b: Book, ops: seq<Timed>, day: int): Book {
    if ops == [] then b
    else if Day(ops[|ops| - 1].at) <= day then Run(b, ops)
    else EndOfDay(b, ops[..|ops| - 1], day)
  }

  /**
   The reconstruction is exact: after any run from a fresh bond, the balance rebuilt for
   any holder and any day is the units that holder really had at the end of that day.
   */
  lemma {:induction false} RebuiltBalanceIsTrue(b: Book, ops: seq<Timed>, u: UserId, day: int)
    requires Fresh(b) && TimeOrdered(ops)
    ensures HistoryOf(Run(b, ops)).BalanceOn(u, day) == Get(EndOfDay(b, ops, day).holdings, u)
  {
    BalanceFromRows(Run(b, ops), u, day);
    if ops != [] {
      var init, last := ops[..|ops| - 1], ops[|ops| - 1];
      EveryRunKeepsInv(b, ops, last.at);
      if Day(last.at) <= day {
        NothingMovedAfterToday(Run(b, ops), last.at, u, day);
      } else {
        RebuiltBalanceIsTrue(b, init, u, day);
        BalanceFromRows(Run(b, init), u, day);
        EveryRunKeepsInv(b, init, last.at);
        StepAccounted(Run(b, init), last.op, last.at, u, day);
      }
    }
  }

  lemma {:induction false} EndOfDayKeepsInv(b: Book, ops: seq<Timed>, day: int)
    requires Fresh(b) && TimeOrdered(ops)
    ensures var e := EndOfDay(b, ops, day); Conserved(e) && Explained(e) && Capped(e) && ListingsCovered(e)
  {
    if ops == [] {
      FreshHoldsInv(b, 0);
    } else if Day(ops[|ops| - 1].at) <= day {
      EveryRunKeepsInv(b, ops, ops[|ops| - 1].at);
    } else {
      EndOfDayKeepsInv(b, ops[..|ops| - 1], day);
    }
  }

  /** No rebuilt balance is negative, so the sweep's skipping of them drops nothing. */
  lemma RebuiltBalanceNotNegative(b: Book, ops: seq<Timed>, u: UserId, day: int)
    requires Fresh(b) && TimeOrdered(ops)
    ensures HistoryOf(Run(b, ops)).BalanceOn(u, day) >= 0
  {
    RebuiltBalanceIsTrue(b, ops, u, day);
    EndOfDayKeepsInv(b, ops, day);
  }

  /** Sum over the days of a period of the units `u` really held. */
  function TrueUnitDays(b: Book, ops: seq<Timed>, u: UserId, start: int, end: int): int
    decreases end - start
  {
    if end <= start then 0
    else TrueUnitDays(b, ops, u, start, end - 1) + Get(EndOfDay(b, ops, end - 1).holdings, u)
  }

  lemma {:induction false} RebuiltUnitDaysAreTrue(b: Book, ops: seq<Timed>, u: UserId, start: int, end: int)
    requires Fresh(b) && TimeOrdered(ops)
    ensures HistoryOf(Run(b, ops)).UnitDays(u, start, end) == TrueUnitDays(b, ops, u, start, end)
    decreases end - start
  {
    if start < end {
      RebuiltUnitDaysAreTrue(b, ops, u, start, end - 1);
      RebuiltBalanceIsTrue(b, ops, u, end - 1);
      RebuiltBalanceNotNegative(b, ops, u, end - 1);
    }
  }

  /** The rows the engine owes for a period, from the book as it stands. */
  function Owed(b: Book, start: int, end: int, rateBps: nat): seq<HolderAccrual> {
    HistoryOf(b).Accruals(start, end, rateBps)
  }

  /**
   End to end: the accrual over the loaded history pays every holder for the units they
   truly held, day by day, and closes on the units they truly held on the last day.
   */
  lemma AccrualPaysTruePositions(b: Book, ops: seq<Timed>, start: int, end: int, rateBps: nat)
    requires Fresh(b) && TimeOrdered(ops) && start < end
    ensures Settles(Owed(Run(b, ops), start, end, rateBps), HistoryOf(Run(b, ops)), start, end, rateBps)
    ensures PaysTruePositions(Owed(Run(b, ops), start, end, rateBps), b, ops, start, end, rateBps)
  {
    var h := HistoryOf(Run(b, ops));
    var rows := Owed(Run(b, ops), start, end, rateBps);
    AccrualsSettle(h, start, end, rateBps);
    forall i | 0 <= i < |rows|
      ensures rows[i].unitDays == TrueUnitDays(b, ops, rows[i].user, start, end)
      ensures rows[i].closing == Get(EndOfDay(b, ops, end - 1).holdings, rows[i].user)
    {
      RebuiltUnitDaysAreTrue(b, ops, rows[i].user, start, end);
      RebuiltBalanceIsTrue(b, ops, rows[i].user, end - 1);
    }
    forall u | TrueUnitDays(b, ops, u, start, end) > 0
      ensures exists i :: 0 <= i < |rows| && rows[i].user == u
    {
      RebuiltUnitDaysAreTrue(b, ops, u, start, end);
    }
  }

  /** Exactly the holders with units in the period, each for the units truly held day by day. */
  ghost predicate PaysTruePositions(rows: seq<HolderAccrual>, b: Book, ops: seq<Timed>, start: int, end: int, rateBps: nat) {
    && (forall i :: 0 <= i < |rows| ==>
          && rows[i].unitDays == TrueUnitDays(b, ops, rows[i].user, start, end) > 0
          && rows[i].gross == Gross(rows[i].unitDays, rateBps)
          && rows[i].closing == Get(EndOfDay(b, ops, end - 1).holdings, rows[i].user))
    && (forall u :: TrueUnitDays(b, ops, u, start, end) > 0 ==> exists i :: 0 <= i < |rows| && rows[i].user == u)
  }

  lemma {:induction false} LaterStepsKeepEndOfDay(b: Book, ops: seq<Timed>, more: seq<Timed>, day: int)
    requires forall i :: 0 <= i < |more| ==> Day(more[i].at) > day
    ensures EndOfDay(b, ops + more, day) == EndOfDay(b, ops, day)
  {
    if more == [] {
      assert ops + more == ops;
    } else {
      var init := more[..|more| - 1];
      assert (ops + more)[..|ops + more| - 1] == ops + init;
      LaterStepsKeepEndOfDay(b, ops, init, day);
    }
  }

  /**
   Whatever happens to the register from the end of a period on, the rows owed for the
   period are the same, so materialising a due schedule again on a later tick computes
   exactly the rows it computed before.
   */
  lemma OwedIsSettled(b: Book, ops: seq<Timed>, more: seq<Timed>, start: int, end: int, rateBps: nat)
    requires Fresh(b) && TimeOrdered(ops + more) && start < end
    requires forall i :: 0 <= i < |more| ==> Day(more[i].at) >= end
    ensures Owed(Run(b, ops + more), start, end, rateBps) == Owed(Run(b, ops), start, end, rateBps)
  {
    assert TimeOrdered(ops) by {
      forall i, j | 0 <= i < j < |ops|
        ensures ops[i].at <= ops[j].at
      {
        assert (ops + more)[i] == ops[i] && (ops + more)[j] == ops[j];
      }
    }
    forall u, t | start <= t < end
      ensures HistoryOf(Run(b, ops + more)).BalanceOn(u, t) == HistoryOf(Run(b, ops)).BalanceOn(u, t)
    {
      RebuiltBalanceIsTrue(b, ops + more, u, t);
      RebuiltBalanceIsTrue(b, ops, u, t);
      LaterStepsKeepEndOfDay(b, ops, more, t);
    }
    SameWeightsSameRows(HistoryOf(Run(b, ops + more)), HistoryOf(Run(b, ops)), start, end, rateBps);
  }
}
