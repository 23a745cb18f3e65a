/**
 The money procedures as they run: each locks its rows, checks, and then updates the
 tables in place. Every procedure is proved to make exactly the step of Register.dfy, to
 leave everything untouched when it raises, and to keep the register's invariant.
 */
module BondRegister {
  import opened Sums
  import opened Money
  import opened Accrual
  import opened Register

  class Tables {
    const total: nat
    const limitBps: nat
    const closeAt: int
    var raised: int
    var status: BondStatus
    var holdings: map<UserId, int>
    var subs: seq<Subscription>
    var listings: seq<Listing>
    var trades: seq<Trade>

    constructor (total: nat, limitBps: nat, closeAt: int)
      requires total > 0
      ensures Fresh(Rows()) && Rows().status == Draft
      ensures this.total == total && this.limitBps == limitBps && this.closeAt == closeAt
    {
      this.total, this.limitBps, this.closeAt := total, limitBps, closeAt;
      raised, status, holdings, subs, listings, trades := 0, Draft, map[], [], [], [];
    }

    function Rows(): Book
      reads this
    {
      Book(total, limitBps, closeAt, raised, status, holdings, subs, listings, trades)
    }

    method CreateSubscription(user: UserId, amount: int, now: int) returns (r: Outcome<nat>)
      modifies this`subs
      ensures r.Refused? ==> Rows() == old(Rows()) && SubscriptionRow(old(Rows()), user, amount, now) == Refused(r.why)
      ensures r.Done? <==> amount > 0
      ensures r.Done? ==> subs == old(subs) + [Subscription(user, amount, Pending, now + 48 * 60 * 60, None, None)]
      ensures r.Done? ==> SubscriptionRow(old(Rows()), user, amount, now) == Done(Rows()) && r.value == |old(subs)|
      ensures old(Inv(Rows(), now)) ==> Inv(Rows(), now)
    {
      if amount <= 0 {
        return Refused(CheckViolated);
      }
      StepIsSafe(OpSubscribe(user, amount), now);
      subs := subs + [Subscription(user, amount, Pending, now + COOLING_OFF_SECONDS, None, None)];
      return Done(|subs| - 1);
    }

    method AllocateSubscription(id: nat, now: int) returns (r: Outcome<int>)
      modifies this`holdings, this`raised, this`status, this`subs
      ensures r.Refused? ==> Rows() == old(Rows()) && Allocate(old(Rows()), id, now) == Refused(r.why)
      ensures r.Done? ==> Allocate(old(Rows()), id, now) == Done(Rows()) && r.value == Get(holdings, old(subs)[id].user)
      ensures r == Refused(ConcentrationLimitExceeded) <==>
              && ReachesAllocationCap(old(Rows()), id)
              && 10000 * (Get(old(holdings), old(subs)[id].user) + old(subs)[id].amount) > total * limitBps
      ensures old(Inv(Rows(), now)) ==> Inv(Rows(), now)
    {
      if id >= |subs| {
        return Refused(SubscriptionNotFound);
      }
      var s := subs[id];
      if s.status != Pending {
        return Refused(SubscriptionNotPending);
      }
      if status != Open {
        return Refused(BondNotOpen);
      }
      if raised + s.amount > MAX_BIGINT {
        return Refused(OutOfRange);
      }
      if raised + s.amount > total {
        return Refused(CapacityExceeded);
      }
      if total * limitBps > MAX_BIGINT {
        return Refused(OutOfRange);
      }
      var after := Get(holdings, s.user) + s.amount;
      if after > ConcentrationCap(total, limitBps) {
        return Refused(ConcentrationLimitExceeded);
      }
      StepIsSafe(OpAllocate(id), now);
      holdings := holdings[s.user := after];
      raised := raised + s.amount;
      if raised >= total {
        status := Subscribed;
      }
      subs := subs[id := s.(status := Allocated, allocatedAt := Some(now))];
      return Done(after);
    }

    /** The writes of a cancellation that has passed its checks: allocated units go back, the row is closed. */
    method WriteCancellation(id: nat, now: int)
      requires Cancel(Rows(), id, now).Done?
      modifies this`holdings, this`raised, this`status, this`subs
      ensures Cancel(old(Rows()), id, now) == Done(Rows())
    {
      var s := subs[id];
      if s.status == Allocated {
        holdings := holdings[s.user := holdings[s.user] - s.amount];
        raised := raised - s.amount;
        if status == Subscribed && closeAt > now {
          status := Open;
        }
      }
      subs := subs[id := s.(status := Cancelled, cancelledAt := Some(now))];
    }

    method CancelSubscription(id: nat, now: int) returns (r: Outcome<Subscription>)
      modifies this`holdings, this`raised, this`status, this`subs
      ensures r.Refused? ==> Rows() == old(Rows()) && Cancel(old(Rows()), id, now) == Refused(r.why)
      ensures r.Done? ==> Cancel(old(Rows()), id, now) == Done(Rows()) && id < |subs| && r.value == subs[id]
      ensures old(Inv(Rows(), now)) ==> Inv(Rows(), now)
    {
      if id >= |subs| {
        return Refused(SubscriptionNotFound);
      }
      var s := subs[id];
      if s.status != Pending && s.status != Allocated {
        return Refused(NotCancellable);
      }
      if s.coolingOffEnds < now {
        return Refused(CoolingOffExpired);
      }
      StepIsSafe(OpCancel(id), now);
      if s.status == Allocated {
        var sold := SumBy(trades, SoldBy(s.user));
        if sold > 0 {
          return Refused(HoldingPartiallySold);
        }
        var listed := SumBy(listings, OnSaleBy(s.user));
        if listed > 0 {
          return Refused(HoldingListedForSale);
        }
        if s.user !in holdings || holdings[s.user] < s.amount {
          return Refused(InsufficientUnitsToReverse);
        }
      }
      WriteCancellation(id, now);
      return Done(subs[id]);
    }

    /** The writes of a trade that has passed its checks: units move, the listing shrinks, the row is kept. */
    method WriteTrade(id: nat, buyer: UserId, units: nat, feeBps: nat, now: int) returns (trade: Register.Trade)
      requires id < |listings| && listings[id].seller in holdings && listings[id].seller != buyer
      modifies this`holdings, this`listings, this`trades
      ensures Rows() == Traded(old(Rows()), id, buyer, units, feeBps, now)
      ensures 10000 * trade.price <= units * old(listings)[id].askBps < 10000 * (trade.price + 1)
      ensures 10000 * trade.fee <= trade.price * feeBps < 10000 * (trade.fee + 1)
      ensures trades == old(trades) + [trade]
    {
      var l := listings[id];
      holdings := holdings[l.seller := holdings[l.seller] - units];
      holdings := holdings[buyer := Get(holdings, buyer) + units];
      var left := l.units - units;
      listings := listings[id := l.(units := left, status := if left == 0 then Filled else l.status)];
      var price := units * l.askBps / BPS;
      trade := Register.Trade.Trade(id, l.seller, buyer, units, price, price * feeBps / BPS, Day(now));
      trades := trades + [trade];
    }

    method Trade(id: nat, buyer: UserId, units: int, feeBps: nat, now: int) returns (r: Outcome<Register.Trade>)
      modifies this`holdings, this`listings, this`trades
      ensures r.Refused? ==> Rows() == old(Rows()) && ExecuteTrade(old(Rows()), id, buyer, units, feeBps, now) == Refused(r.why)
      ensures r.Done? ==> ExecuteTrade(old(Rows()), id, buyer, units, feeBps, now) == Done(Rows())
                          && trades == old(trades) + [r.value]
      ensures r == Refused(ConcentrationLimitExceeded) <==>
              ReachesTradeCap(old(Rows()), id, buyer, units, now) && 10000 * (Get(old(holdings), buyer) + units) > total * limitBps
      ensures old(Inv(Rows(), now)) ==> Inv(Rows(), now) && r != Refused(SellerInsufficientUnits)
    {
      TradeRefusedExactlyWhen(Rows(), id, buyer, units, feeBps, now);
      if units <= 0 {
        return Refused(UnitsMustBePositive);
      }
      if id >= |listings| {
        return Refused(ListingNotFound);
      }
      var l := listings[id];
      if l.status != OnSale {
        return Refused(ListingNotActive);
      }
      if units > l.units {
        return Refused(UnitsExceedListing);
      }
      if l.seller == buyer {
        return Refused(SelfTradeForbidden);
      }
      if l.expires.Some? && l.expires.value < now {
        return Refused(ListingExpired);
      }
      if status != Subscribed && status != Active {
        return Refused(BondNotTradeable);
      }
      if l.seller !in holdings || holdings[l.seller] < units {
        StepIsSafe(OpTrade(id, buyer, units, feeBps), now);
        return Refused(SellerInsufficientUnits);
      }
      if total * limitBps > MAX_BIGINT {
        return Refused(OutOfRange);
      }
      if Get(holdings, buyer) + units > ConcentrationCap(total, limitBps) {
        return Refused(ConcentrationLimitExceeded);
      }
      if PriceOverflows(units, l.askBps, feeBps) {
        return Refused(OutOfRange);
      }
      StepIsSafe(OpTrade(id, buyer, units, feeBps), now);
      var trade := WriteTrade(id, buyer, units, feeBps, now);
      return Done(trade);
    }

    method List(seller: UserId, units: int, askBps: nat, expires: Option<int>, ghost now: int) returns (r: Outcome<nat>)
      modifies this`listings
      ensures r.Refused? ==> Rows() == old(Rows()) && CreateListing(old(Rows()), seller, units, askBps, expires) == Refused(r.why)
      ensures r.Done? ==> CreateListing(old(Rows()), seller, units, askBps, expires) == Done(Rows()) && r.value == |old(listings)|
      ensures r.Done? <==> && 0 < units && 1 <= askBps <= 20000 && seller in holdings
                           && SumBy(old(listings), OnSaleBy(seller)) + units <= holdings[seller] && units <= holdings[seller]
      ensures r.Done? ==> listings == old(listings) + [Listing(seller, units, askBps, OnSale, expires)]
      ensures old(Inv(Rows(), now)) ==> Inv(Rows(), now)
    {
      if seller !in holdings || holdings[seller] < units {
        return Refused(NotEnoughHeld);
      }
      if SumBy(listings, OnSaleBy(seller)) + units > holdings[seller] {
        return Refused(WouldListMoreThanHeld);
      }
      if units <= 0 || askBps < 1 || askBps > 20000 {
        return Refused(CheckViolated);
      }
      StepIsSafe(OpList(seller, units, askBps, expires), now);
      listings := listings + [Listing(seller, units, askBps, OnSale, expires)];
      return Done(|listings| - 1);
    }

    method Unlist(id: nat, ghost now: int) returns (r: Outcome<nat>)
      modifies this`listings
      ensures r.Refused? ==> Rows() == old(Rows()) && CancelListing(old(Rows()), id) == Refused(r.why)
      ensures r.Done? ==> CancelListing(old(Rows()), id) == Done(Rows()) && r.value == id
      ensures r.Done? <==> id < |old(listings)| && old(listings)[id].status == OnSale
      ensures r.Done? ==> listings == old(listings)[id := old(listings)[id].(status := Withdrawn)]
      ensures old(Inv(Rows(), now)) ==> Inv(Rows(), now)
    {
      if id >= |listings| {
        return Refused(ListingNotFound);
      }
      if listings[id].status != OnSale {
        return Refused(ListingNotActive);
      }
      StepIsSafe(OpUnlist(id), now);
      listings := listings[id := listings[id].(status := Withdrawn)];
      return Done(id);
    }

    /** Any step made from here on keeps the invariant that holds here. */
    lemma StepIsSafe(op: Op, now: int)
      ensures Inv(Rows(), now) ==> Inv(Next(Rows(), op, now), now)
      ensures Inv(Rows(), now) && op.OpTrade? ==> Perform(Rows(), op, now) != Refused(SellerInsufficientUnits)
      ensures Inv(Rows(), now) && op.OpCancel? ==> Perform(Rows(), op, now) != Refused(InsufficientUnitsToReverse)
    {
      if Inv(Rows(), now) {
        StepKeepsInv(Rows(), op, now);
        match op
        case OpTrade(listing, buyer, units, feeBps) => SellerAlwaysHasTheUnits(Rows(), listing, buyer, units, feeBps, now);
        case OpCancel(sub) => ReversalAlwaysHasTheUnits(Rows(), sub, now);
        case _ =>
      }
    }
  }
}
