/**
 The unit register of one bond: bond row, holdings, subscriptions, listings and trades,
 and the procedures that move units, after
 prisma/migrations/20260813020653_bond_engine/migration.sql and src/bonds/market.service.ts.

 A procedure that raises leaves everything as it was, so each one is a function from a
 book to a new book or a refusal. Rows are never deleted: an id is a row's position.
 */
module Register {
  import opened Sums
  import opened Money
  import opened Accrual

  const SECONDS_PER_DAY: int := 86400
  const COOLING_OFF_SECONDS: int := 172800
  const MAX_BIGINT: int := 0x7FFF_FFFF_FFFF_FFFF

  datatype Option<+T> = None | Some(value: T)

  datatype BondStatus = Draft | Open | Subscribed | Active | Matured | Closed | Defaulted

  datatype SubscriptionStatus = Pending | Allocated | Cancelled

  datatype Subscription = Subscription(
    user: UserId, amount: int, status: SubscriptionStatus, coolingOffEnds: int,
    allocatedAt: Option<int>, cancelledAt: Option<int>)

  datatype ListingStatus = OnSale | Filled | Withdrawn

  datatype Listing = Listing(seller: UserId, units: int, askBps: nat, status: ListingStatus, expires: Option<int>)

  datatype Trade = Trade(listing: nat, seller: UserId, buyer: UserId, units: int, price: int, fee: int, day: int)

  datatype Book = Book(
    total: nat, limitBps: nat, closeAt: int, raised: int, status: BondStatus,
    holdings: map<UserId, int>, subs: seq<Subscription>, listings: seq<Listing>, trades: seq<Trade>)

  datatype Refusal =
    | SubscriptionNotFound | SubscriptionNotPending | BondNotOpen | CapacityExceeded | ConcentrationLimitExceeded
    | NotCancellable | CoolingOffExpired | HoldingPartiallySold | HoldingListedForSale | InsufficientUnitsToReverse
    | UnitsMustBePositive | ListingNotFound | ListingNotActive | UnitsExceedListing | SelfTradeForbidden
    | ListingExpired | BondNotTradeable | SellerInsufficientUnits
    | NotEnoughHeld | WouldListMoreThanHeld | CheckViolated | OutOfRange | IllegalTransition

  datatype Outcome<+T> = Done(value: T) | Refused(why: Refusal)

  function Day(now: int): int {
    now / SECONDS_PER_DAY
  }

  /** The status trigger's table. */
  predicate LegalMove(from: BondStatus, to: BondStatus) {
    || from == to
    || (from == Draft && to == Open)
    || (from == Open && (to == Subscribed || to == Closed))
    || (from == Subscribed && (to == Open || to == Active))
    || (from == Active && (to == Matured || to == Defaulted))
    || ((from == Matured || from == Defaulted) && to == Closed)
  }

  // ---- Row weights ----

  function AllocatedTo(u: UserId): Subscription -> int {
    (s: Subscription) => if s.status == Allocated && s.user == u then s.amount else 0
  }

  function AllocatedAmount(): Subscription -> int {
    (s: Subscription) => if s.status == Allocated then s.amount else 0
  }

  function BoughtBy(u: UserId): Trade -> int {
    (t: Trade) => if t.buyer == u then t.units else 0
  }

  function SoldBy(u: UserId): Trade -> int {
    (t: Trade) => if t.seller == u then t.units else 0
  }

  function OnSaleBy(u: UserId): Listing -> int {
    (l: Listing) => if l.status == OnSale && l.seller == u then l.units else 0
  }

  // ---- The procedures ----

  function SubscriptionRow(b: Book, user: UserId, amount: int, now: int): Outcome<Book> {
    if amount <= 0 then Refused(CheckViolated)
    else Done(b.(subs := b.subs + [Subscription(user, amount, Pending, now + COOLING_OFF_SECONDS, None, None)]))
  }

  function Allocate(b: Book, id: nat, now: int): Outcome<Book> {
    if id >= |b.subs| then Refused(SubscriptionNotFound)
    else
      var s := b.subs[id];
      if s.status != Pending then Refused(SubscriptionNotPending)
      else if b.status != Open then Refused(BondNotOpen)
      else if b.raised + s.amount > MAX_BIGINT then Refused(OutOfRange)
      else if b.raised + s.amount > b.total then Refused(CapacityExceeded)
      else if b.total * b.limitBps > MAX_BIGINT then Refused(OutOfRange)
      else if Get(b.holdings, s.user) + s.amount > ConcentrationCap(b.total, b.limitBps) then
        Refused(ConcentrationLimitExceeded)
      else
        Done(b.(holdings := b.holdings[s.user := Get(b.holdings, s.user) + s.amount],
                raised := b.raised + s.amount,
                status := if b.raised + s.amount >= b.total then Subscribed else b.status,
                subs := b.subs[id := s.(status := Allocated, allocatedAt := Some(now))]))
  }

  function Cancel(b: Book, id: nat, now: int): Outcome<Book> {
    if id >= |b.subs| then Refused(SubscriptionNotFound)
    else
      var s := b.subs[id];
      if s.status != Pending && s.status != Allocated then Refused(NotCancellable)
      else if s.coolingOffEnds < now then Refused(CoolingOffExpired)
      else
        var closed := b.subs[id := s.(status := Cancelled, cancelledAt := Some(now))];
        if s.status == Pending then Done(b.(subs := closed))
        else if SumBy(b.trades, SoldBy(s.user)) > 0 then Refused(HoldingPartiallySold)
        else if SumBy(b.listings, OnSaleBy(s.user)) > 0 then Refused(HoldingListedForSale)
        else if s.user !in b.holdings || b.holdings[s.user] < s.amount then Refused(InsufficientUnitsToReverse)
        else
          Done(b.(holdings := b.holdings[s.user := b.holdings[s.user] - s.amount],
                  raised := b.raised - s.amount,
                  status := if b.status == Subscribed && b.closeAt > now then Open else b.status,
                  subs := closed))
  }

  function PriceOf(units: nat, askBps: nat): (price: nat)
    ensures 10000 * price <= units * askBps < 10000 * (price + 1)
  {
    units * askBps / BPS
  }

  /** The price and the fee are BIGINT products. */
  predicate PriceOverflows(units: nat, askBps: nat, feeBps: nat) {
    units * askBps > MAX_BIGINT || PriceOf(units, askBps) * feeBps > MAX_BIGINT
  }

  function TradeRow(id: nat, l: Listing, buyer: UserId, units: nat, feeBps: nat, now: int): Trade {
    Trade(id, l.seller, buyer, units, PriceOf(units, l.askBps), PriceOf(units, l.askBps) * feeBps / BPS, Day(now))
  }

  /** What a trade that passes every check writes. */
  function Traded(b: Book, id: nat, buyer: UserId, units: nat, feeBps: nat, now: int): Book
    requires id < |b.listings|
  {
    var l := b.listings[id];
    var sold := b.holdings[l.seller := Get(b.holdings, l.seller) - units];
    b.(holdings := sold[buyer := Get(sold, buyer) + units],
       listings := b.listings[id := l.(units := l.units - units, status := if l.units == units then Filled else l.status)],
       trades := b.trades + [TradeRow(id, l, buyer, units, feeBps, now)])
  }

  function ExecuteTrade(b: Book, id: nat, buyer: UserId, units: int, feeBps: nat, now: int): Outcome<Book> {
    if units <= 0 then Refused(UnitsMustBePositive)
    else if id >= |b.listings| then Refused(ListingNotFound)
    else
      var l := b.listings[id];
      if l.status != OnSale then Refused(ListingNotActive)
      else if units > l.units then Refused(UnitsExceedListing)
      else if l.seller == buyer then Refused(SelfTradeForbidden)
      else if l.expires.Some? && l.expires.value < now then Refused(ListingExpired)
      else if b.status != Subscribed && b.status != Active then Refused(BondNotTradeable)
      else if l.seller !in b.holdings || b.holdings[l.seller] < units then Refused(SellerInsufficientUnits)
      else if b.total * b.limitBps > MAX_BIGINT then Refused(OutOfRange)
      else if Get(b.holdings, buyer) + units > ConcentrationCap(b.total, b.limitBps) then
        Refused(ConcentrationLimitExceeded)
      else if PriceOverflows(units, l.askBps, feeBps) then Refused(OutOfRange)
      else Done(Traded(b, id, buyer, units, feeBps, now))
  }

  function CreateListing(b: Book, seller: UserId, units: int, askBps: nat, expires: Option<int>): Outcome<Book> {
    if seller !in b.holdings || b.holdings[seller] < units then Refused(NotEnoughHeld)
    else if SumBy(b.listings, OnSaleBy(seller)) + units > b.holdings[seller] then Refused(WouldListMoreThanHeld)
    else if units <= 0 || askBps < 1 || askBps > 20000 then Refused(CheckViolated)
    else Done(b.(listings := b.listings + [Listing(seller, units, askBps, OnSale, expires)]))
  }

  function CancelListing(b: Book, id: nat): Outcome<Book> {
    if id >= |b.listings| then Refused(ListingNotFound)
    else if b.listings[id].status != OnSale then Refused(ListingNotActive)
    else Done(b.(listings := b.listings[id := b.listings[id].(status := Withdrawn)]))
  }

  function MoveStatus(b: Book, to: BondStatus): Outcome<Book> {
    if LegalMove(b.status, to) then Done(b.(status := to)) else Refused(IllegalTransition)
  }

  // ---- What the procedures come to, in numbers ----

  /** The checks an allocation passes before the cap on one holder is looked at. */
  predicate ReachesAllocationCap(b: Book, id: nat) {
    && id < |b.subs| && b.subs[id].status == Pending && b.status == Open
    && b.raised + b.subs[id].amount <= b.total
    && b.raised + b.subs[id].amount <= MAX_BIGINT && b.total * b.limitBps <= MAX_BIGINT
  }

  /**
   A pending subscription of an open bond with room for it is allocated unless the holder
   would come to have more than the limit, in ten-thousandths of the whole bond; and then
   exactly its units are added to the holder and to the raise.
   */
  lemma AllocatedExactlyWhen(b: Book, id: nat, now: int)
    ensures Allocate(b, id, now) == Refused(ConcentrationLimitExceeded) <==>
            && ReachesAllocationCap(b, id)
            && 10000 * (Get(b.holdings, b.subs[id].user) + b.subs[id].amount) > b.total * b.limitBps
    ensures Allocate(b, id, now).Done? <==>
            && ReachesAllocationCap(b, id)
            && 10000 * (Get(b.holdings, b.subs[id].user) + b.subs[id].amount) <= b.total * b.limitBps
    ensures Allocate(b, id, now).Done? ==>
              var s, next := b.subs[id], Allocate(b, id, now).value;
              && next.holdings == b.holdings[s.user := Get(b.holdings, s.user) + s.amount]
              && next.raised == b.raised + s.amount
              && next.status == (if next.raised >= b.total then Subscribed else Open)
              && next.subs[id] == s.(status := Allocated, allocatedAt := Some(now))
  {
  }

  /** The checks a trade passes before the cap on the buyer is looked at. */
  predicate ReachesTradeCap(b: Book, id: nat, buyer: UserId, units: int, now: int) {
    && 0 < units && id < |b.listings| && b.listings[id].status == OnSale && units <= b.listings[id].units
    && b.listings[id].seller != buyer && !(b.listings[id].expires.Some? && b.listings[id].expires.value < now)
    && (b.status == Subscribed || b.status == Active)
    && b.listings[id].seller in b.holdings && units <= b.holdings[b.listings[id].seller]
    && b.total * b.limitBps <= MAX_BIGINT
  }

  /** A trade is refused for concentration exactly when it would take the buyer over the limit. */
  lemma TradeRefusedExactlyWhen(b: Book, id: nat, buyer: UserId, units: int, feeBps: nat, now: int)
    ensures ExecuteTrade(b, id, buyer, units, feeBps, now) == Refused(ConcentrationLimitExceeded) <==>
            && ReachesTradeCap(b, id, buyer, units, now)
            && 10000 * (Get(b.holdings, buyer) + units) > b.total * b.limitBps
    ensures ExecuteTrade(b, id, buyer, units, feeBps, now).Done? ==>
              && ReachesTradeCap(b, id, buyer, units, now)
              && 10000 * (Get(b.holdings, buyer) + units) <= b.total * b.limitBps
  {
  }

  /**
   A trade moves its units from seller to buyer, leaves the rest on sale, and is priced at the
   ask and charged at the fee, both in ten-thousandths and both rounded down.
   */
  lemma TradeInNumbers(b: Book, id: nat, buyer: UserId, units: int, feeBps: nat, now: int)
    requires ExecuteTrade(b, id, buyer, units, feeBps, now).Done?
    ensures var l, next := b.listings[id], ExecuteTrade(b, id, buyer, units, feeBps, now).value;
            && Get(next.holdings, l.seller) == Get(b.holdings, l.seller) - units
            && Get(next.holdings, buyer) == Get(b.holdings, buyer) + units
            && next.listings[id] == l.(units := l.units - units, status := if l.units == units then Filled else OnSale)
            && |next.trades| == |b.trades| + 1
            && var t := next.trades[|b.trades|];
               && t.listing == id && t.seller == l.seller && t.buyer == buyer && t.units == units && t.day == now / 86400
               && 10000 * t.price <= units * l.askBps < 10000 * (t.price + 1)
               && 10000 * t.fee <= t.price * feeBps < 10000 * (t.fee + 1)
  {
  }

  /**
   Cancelling is open for 48 hours from subscribing, and not a second longer; an allocated
   subscription also needs its units neither sold on nor for sale. Exactly its units go back,
   and a bond whose window is still open takes subscriptions again.
   */
  lemma CancelledExactlyWhen(b: Book, id: nat, since: int, now: int)
    requires id < |b.subs| && b.subs[id].coolingOffEnds == since + 48 * 60 * 60
    ensures Cancel(b, id, now).Done? <==>
            && (b.subs[id].status == Pending || b.subs[id].status == Allocated) && now <= since + 172800
            && (b.subs[id].status == Allocated ==>
                  && SumBy(b.trades, SoldBy(b.subs[id].user)) <= 0 && SumBy(b.listings, OnSaleBy(b.subs[id].user)) <= 0
                  && b.subs[id].user in b.holdings && b.subs[id].amount <= b.holdings[b.subs[id].user])
    ensures Cancel(b, id, now).Done? ==>
              var s, next := b.subs[id], Cancel(b, id, now).value;
              var back := if s.status == Allocated then s.amount else 0;
              && Get(next.holdings, s.user) == Get(b.holdings, s.user) - back && next.raised == b.raised - back
              && next.status == (if s.status == Allocated && b.status == Subscribed && b.closeAt > now then Open else b.status)
              && next.subs[id] == s.(status := Cancelled, cancelledAt := Some(now))
  {
  }

  /** A new subscription is for what was asked and can be cancelled for the next 48 hours. */
  lemma SubscribedFor48Hours(b: Book, user: UserId, amount: int, now: int, later: int)
    requires amount > 0
    ensures SubscriptionRow(b, user, amount, now).Done?
    ensures var next := SubscriptionRow(b, user, amount, now).value;
            && next.subs == b.subs + [Subscription(user, amount, Pending, now + 48 * 60 * 60, None, None)]
            && (Cancel(next, |b.subs|, later).Done? <==> later <= now + 172800)
  {
    CancelledExactlyWhen(SubscriptionRow(b, user, amount, now).value, |b.subs|, now, later);
  }

  // ---- What every reachable book keeps ----

  predicate WellDated(s: Subscription, now: int) {
    && s.amount > 0
    && (s.status == Pending ==> s.allocatedAt.None? && s.cancelledAt.None?)
    && (s.status == Allocated ==> s.allocatedAt.Some? && s.cancelledAt.None?)
    && (s.status == Cancelled ==> s.cancelledAt.Some?)
    && (s.allocatedAt.Some? ==> Day(s.allocatedAt.value) <= Day(now))
    && (s.cancelledAt.Some? ==> Day(s.cancelledAt.value) <= Day(now))
  }

  ghost predicate RowsValid(b: Book, now: int) {
    && b.total > 0
    && (forall i :: 0 <= i < |b.subs| ==> WellDated(b.subs[i], now))
    && (forall i :: 0 <= i < |b.listings| ==>
          b.listings[i].units >= 0 && (b.listings[i].status == OnSale ==> b.listings[i].units > 0))
    && (forall i :: 0 <= i < |b.trades| ==>
          b.trades[i].units > 0 && b.trades[i].seller != b.trades[i].buyer && b.trades[i].day <= Day(now))
  }

  /** Units neither appear nor vanish: the raise, the register and the subscriptions agree. */
  ghost predicate Conserved(b: Book) {
    && b.raised == SumMap(b.holdings)
    && b.raised == SumBy(b.subs, AllocatedAmount())
    && 0 <= b.raised <= b.total
  }

  /** Each holding is what was allocated and bought less what was sold. */
  ghost predicate Explained(b: Book) {
    forall u :: Get(b.holdings, u)
                == SumBy(b.subs, AllocatedTo(u)) + SumBy(b.trades, BoughtBy(u)) - SumBy(b.trades, SoldBy(u))
  }

  ghost predicate Capped(b: Book) {
    forall u :: u in b.holdings ==> 0 <= 10000 * b.holdings[u] <= b.total * b.limitBps
  }

  /** Nobody offers more than they hold. */
  ghost predicate ListingsCovered(b: Book) {
    forall u :: SumBy(b.listings, OnSaleBy(u)) <= Get(b.holdings, u)
  }

  ghost predicate Inv(b: Book, now: int) {
    RowsValid(b, now) && Conserved(b) && Explained(b) && Capped(b) && ListingsCovered(b)
  }

  /** A bond as created: nothing raised, no rows. */
  predicate Fresh(b: Book) {
    && b.total > 0 && b.raised == 0 && b.holdings == map[]
    && b.subs == [] && b.listings == [] && b.trades == []
  }

  lemma FreshHoldsInv(b: Book, now: int)
    requires Fresh(b)
    ensures Inv(b, now)
  {
  }

  lemma TimeKeepsInv(b: Book, now: int, later: int)
    requires Inv(b, now) && now <= later
    ensures Inv(b, later)
  {
    assert Day(now) <= Day(later);
  }

  // ---- Each procedure keeps it ----

  lemma SubscriptionRowKeepsInv(b: Book, user: UserId, amount: int, now: int)
    requires Inv(b, now) && SubscriptionRow(b, user, amount, now).Done?
    ensures Inv(SubscriptionRow(b, user, amount, now).value, now)
  {
    var row := Subscription(user, amount, Pending, now + COOLING_OFF_SECONDS, None, None);
    SumByPush(b.subs, row, AllocatedAmount());
    forall u {
      SumByPush(b.subs, row, AllocatedTo(u));
    }
  }

  lemma AllocateKeepsRows(b: Book, id: nat, now: int)
    requires RowsValid(b, now) && Capped(b) && Allocate(b, id, now).Done?
    ensures var b' := Allocate(b, id, now).value; RowsValid(b', now) && Capped(b')
  {
    assert WellDated(b.subs[id], now);
  }

  lemma AllocateKeepsTotal(b: Book, id: nat, now: int)
    requires RowsValid(b, now) && Conserved(b) && Allocate(b, id, now).Done?
    ensures Conserved(Allocate(b, id, now).value)
  {
    var b' := Allocate(b, id, now).value;
    var s := b.subs[id];
    assert WellDated(s, now);
    SumMapWrite(b.holdings, s.user, Get(b.holdings, s.user) + s.amount);
    SumByUpdate(b.subs, id, b'.subs[id], AllocatedAmount());
  }

  lemma AllocateKeepsUserSums(b: Book, id: nat, now: int, u: UserId)
    requires RowsValid(b, now) && Explained(b) && ListingsCovered(b) && Allocate(b, id, now).Done?
    ensures var b' := Allocate(b, id, now).value;
            && Get(b'.holdings, u) == SumBy(b'.subs, AllocatedTo(u)) + SumBy(b'.trades, BoughtBy(u)) - SumBy(b'.trades, SoldBy(u))
            && SumBy(b'.listings, OnSaleBy(u)) <= Get(b'.holdings, u)
  {
    var b' := Allocate(b, id, now).value;
    assert WellDated(b.subs[id], now);
    SumByUpdate(b.subs, id, b'.subs[id], AllocatedTo(u));
  }

  lemma AllocateKeepsInv(b: Book, id: nat, now: int)
    requires Inv(b, now) && Allocate(b, id, now).Done?
    ensures Inv(Allocate(b, id, now).value, now)
  {
    AllocateKeepsRows(b, id, now);
    AllocateKeepsTotal(b, id, now);
    forall u {
      AllocateKeepsUserSums(b, id, now, u);
    }
  }

  lemma CancelKeepsInv(b: Book, id: nat, now: int)
    requires Inv(b, now) && Cancel(b, id, now).Done?
    ensures Inv(Cancel(b, id, now).value, now)
  {
    var b' := Cancel(b, id, now).value;
    var s := b.subs[id];
    assert WellDated(s, now);
    SumByUpdate(b.subs, id, b'.subs[id], AllocatedAmount());
    forall u
      ensures Get(b'.holdings, u) == SumBy(b'.subs, AllocatedTo(u)) + SumBy(b'.trades, BoughtBy(u)) - SumBy(b'.trades, SoldBy(u))
    {
      SumByUpdate(b.subs, id, b'.subs[id], AllocatedTo(u));
    }
    if s.status == Allocated {
      SumMapWrite(b.holdings, s.user, b.holdings[s.user] - s.amount);
      SumMapBounds(b'.holdings);
      forall i | 0 <= i < |b.listings|
        ensures OnSaleBy(s.user)(b.listings[i]) >= 0
      {
      }
      SumByBounds(b.listings, OnSaleBy(s.user));
    }
  }

  lemma TradeKeepsUserSums(b: Book, id: nat, buyer: UserId, units: int, feeBps: nat, now: int, u: UserId)
    requires Explained(b) && ListingsCovered(b) && ExecuteTrade(b, id, buyer, units, feeBps, now).Done?
    ensures var b' := ExecuteTrade(b, id, buyer, units, feeBps, now).value;
            && Get(b'.holdings, u) == SumBy(b'.subs, AllocatedTo(u)) + SumBy(b'.trades, BoughtBy(u)) - SumBy(b'.trades, SoldBy(u))
            && SumBy(b'.listings, OnSaleBy(u)) <= Get(b'.holdings, u)
  {
    var b' := ExecuteTrade(b, id, buyer, units, feeBps, now).value;
    var trade := b'.trades[|b.trades|];
    SumByPush(b.trades, trade, BoughtBy(u));
    SumByPush(b.trades, trade, SoldBy(u));
    SumByUpdate(b.listings, id, b'.listings[id], OnSaleBy(u));
  }

  lemma TradeKeepsRows(b: Book, id: nat, buyer: UserId, units: int, feeBps: nat, now: int)
    requires RowsValid(b, now) && Capped(b) && ExecuteTrade(b, id, buyer, units, feeBps, now).Done?
    ensures var b' := ExecuteTrade(b, id, buyer, units, feeBps, now).value; RowsValid(b', now) && Capped(b')
  {
  }

  lemma TradeKeepsTotal(b: Book, id: nat, buyer: UserId, units: int, feeBps: nat, now: int)
    requires Conserved(b) && ExecuteTrade(b, id, buyer, units, feeBps, now).Done?
    ensures Conserved(ExecuteTrade(b, id, buyer, units, feeBps, now).value)
  {
    var seller := b.listings[id].seller;
    var sold := b.holdings[seller := b.holdings[seller] - units];
    SumMapWrite(b.holdings, seller, b.holdings[seller] - units);
    SumMapWrite(sold, buyer, Get(sold, buyer) + units);
  }

  lemma TradeKeepsInv(b: Book, id: nat, buyer: UserId, units: int, feeBps: nat, now: int)
    requires Inv(b, now) && ExecuteTrade(b, id, buyer, units, feeBps, now).Done?
    ensures Inv(ExecuteTrade(b, id, buyer, units, feeBps, now).value, now)
  {
    TradeKeepsRows(b, id, buyer, units, feeBps, now);
    TradeKeepsTotal(b, id, buyer, units, feeBps, now);
    forall u {
      TradeKeepsUserSums(b, id, buyer, units, feeBps, now, u);
    }
  }

  lemma CreateListingKeepsInv(b: Book, seller: UserId, units: int, askBps: nat, expires: Option<int>, now: int)
    requires Inv(b, now) && CreateListing(b, seller, units, askBps, expires).Done?
    ensures Inv(CreateListing(b, seller, units, askBps, expires).value, now)
  {
    forall u {
      SumByPush(b.listings, Listing(seller, units, askBps, OnSale, expires), OnSaleBy(u));
    }
  }

  lemma CancelListingKeepsInv(b: Book, id: nat, now: int)
    requires Inv(b, now) && CancelListing(b, id).Done?
    ensures Inv(CancelListing(b, id).value, now)
  {
    var l := b.listings[id];
    forall u {
      SumByUpdate(b.listings, id, l.(status := Withdrawn), OnSaleBy(u));
    }
  }

  // ---- Refusals that cannot happen ----

  /** An active listing is always covered by its seller's holding. */
  lemma SellerAlwaysHasTheUnits(b: Book, id: nat, buyer: UserId, units: int, feeBps: nat, now: int)
    requires Inv(b, now)
    ensures ExecuteTrade(b, id, buyer, units, feeBps, now) != Refused(SellerInsufficientUnits)
  {
    if units > 0 && id < |b.listings| && b.listings[id].status == OnSale && units <= b.listings[id].units {
      var l := b.listings[id];
      SumByBounds(b.listings, OnSaleBy(l.seller));
      assert OnSaleBy(l.seller)(l) == l.units;
      assert SumBy(b.listings, OnSaleBy(l.seller)) <= Get(b.holdings, l.seller);
    }
  }

  /** Whoever has sold nothing still holds every unit allocated to them. */
  lemma ReversalAlwaysHasTheUnits(b: Book, id: nat, now: int)
    requires Inv(b, now)
    ensures Cancel(b, id, now) != Refused(InsufficientUnitsToReverse)
  {
    if id < |b.subs| && b.subs[id].status == Allocated {
      var s := b.subs[id];
      assert WellDated(s, now);
      SumByBounds(b.subs, AllocatedTo(s.user));
      SumByBounds(b.trades, BoughtBy(s.user));
      SumByBounds(b.trades, SoldBy(s.user));
      assert AllocatedTo(s.user)(s) == s.amount;
    }
  }

  // ---- Runs ----

  datatype Op =
    | OpSubscribe(user: UserId, amount: int)
    | OpAllocate(sub: nat)
    | OpCancel(sub: nat)
    | OpTrade(listing: nat, buyer: UserId, units: int, feeBps: nat)
    | OpList(seller: UserId, units: int, askBps: nat, expires: Option<int>)
    | OpUnlist(listing: nat)
    | OpStatus(to: BondStatus)

  function Perform(b: Book, op: Op, now: int): Outcome<Book> {
    match op
    case OpSubscribe(user, amount) => SubscriptionRow(b, user, amount, now)
    case OpAllocate(sub) => Allocate(b, sub, now)
    case OpCancel(sub) => Cancel(b, sub, now)
    case OpTrade(listing, buyer, units, feeBps) => ExecuteTrade(b, listing, buyer, units, feeBps, now)
    case OpList(seller, units, askBps, expires) => CreateListing(b, seller, units, askBps, expires)
    case OpUnlist(listing) => CancelListing(b, listing)
    case OpStatus(to) => MoveStatus(b, to)
  }

  /** A refused step is rolled back. */
  function Next(b: Book, op: Op, now: int): Book {
    var r := Perform(b, op, now);
    if r.Done? then r.value else b
  }

  datatype Timed = Timed(op: Op, at: int)

  function Run(b: Book, ops: seq<Timed>): Book {
    if ops == [] then b
    else Next(Run(b, ops[..|ops| - 1]), ops[|ops| - 1].op, ops[|ops| - 1].at)
  }

  predicate TimeOrdered(ops: seq<Timed>) {
    forall i, j :: 0 <= i < j < |ops| ==> ops[i].at <= ops[j].at
  }

  lemma StepKeepsInv(b: Book, op: Op, now: int)
    requires Inv(b, now)
    ensures Inv(Next(b, op, now), now)
  {
    if Perform(b, op, now).Done? {
      match op
      case OpSubscribe(user, amount) => SubscriptionRowKeepsInv(b, user, amount, now);
      case OpAllocate(sub) => AllocateKeepsInv(b, sub, now);
      case OpCancel(sub) => CancelKeepsInv(b, sub, now);
      case OpTrade(listing, buyer, units, feeBps) => TradeKeepsInv(b, listing, buyer, units, feeBps, now);
      case OpList(seller, units, askBps, expires) => CreateListingKeepsInv(b, seller, units, askBps, expires, now);
      case OpUnlist(listing) => CancelListingKeepsInv(b, listing, now);
      case OpStatus(to) =>
    }
  }

  /** Every book reachable from a fresh one, by any steps in any order, satisfies the invariant. */
  lemma {:induction false} EveryRunKeepsInv(b: Book, ops: seq<Timed>, now: int)
    requires Fresh(b) && TimeOrdered(ops)
    requires ops != [] ==> ops[|ops| - 1].at <= now
    ensures Inv(Run(b, ops), now)
  {
    if ops == [] {
      FreshHoldsInv(b, now);
    } else {
      var last := ops[|ops| - 1];
      EveryRunKeepsInv(b, ops[..|ops| - 1], last.at);
      StepKeepsInv(Run(b, ops[..|ops| - 1]), last.op, last.at);
      TimeKeepsInv(Run(b, ops), last.at, now);
    }
  }

  /**
   Every step, whatever it does, moves the status along the trigger's table: a bond becomes
   active only once subscribed, ends only by maturing or defaulting, and never comes back.
   */
  lemma StatusMovesLegally(b: Book, op: Op, now: int)
    ensures var to := Next(b, op, now).status;
            match b.status
            case Draft => to == Draft || to == Open
            case Open => to == Open || to == Subscribed || to == Closed
            case Subscribed => to == Subscribed || to == Open || to == Active
            case Active => to == Active || to == Matured || to == Defaulted
            case Matured => to == Matured || to == Closed
            case Defaulted => to == Defaulted || to == Closed
            case Closed => to == Closed
  {
  }
}
