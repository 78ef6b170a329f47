// Who ends up with what when a trade goes through: positions, accounts and log rows before and after, for
// trades as such and for fills of resting orders.
module TradeEffects {
  import opened Base
  import opened Payoffs
  import opened Types
  import opened Book
  import opened Clearing
  import opened CoverageRuns

  function NetQty(c: Core, k: PosKey): int { PositionOf(c.positions, k).netQty }

  function BasisOf(c: Core, k: PosKey): nat { PositionOf(c.positions, k).margin }

  // What two parties exchange on one outcome of a series at one price.
  datatype Deal = Deal(sid: SeriesId, outcome: Option<OutcomeId>, buyer: User, seller: User, qty: int, price: Price) {
    function KeyFor(u: User): PosKey { PosKey(u, sid, outcome) }

    // The quantity of a party after the deal.
    function QtyAfter(c: Core, u: User): int { NetQty(c, KeyFor(u)) + if u == buyer then qty else -qty }
  }

  // The two positions move by the quantity in opposite directions, each then carries the margin of what it
  // holds at the price, and no other position moves.
  ghost predicate ChangedHands(c: Core, c': Core, series: Series, x: Deal) {
    && x.buyer != x.seller
    && Carries(c, c', series, x, x.buyer) && Carries(c, c', series, x, x.seller)
    && (forall k :: k != x.KeyFor(x.buyer) && k != x.KeyFor(x.seller) ==>
          (k in c'.positions <==> k in c.positions) && PositionOf(c'.positions, k) == PositionOf(c.positions, k))
  }

  ghost predicate Carries(c: Core, c': Core, series: Series, x: Deal, u: User) {
    && x.KeyFor(u) in c'.positions && NetQty(c', x.KeyFor(u)) == x.QtyAfter(c, u)
    && GetRequiredMargin(series, x.price, x.QtyAfter(c, u)) == Ok(BasisOf(c', x.KeyFor(u)))
  }

  // The log tells the same: two rows under the next event id, the buyer's with the quantity and the
  // seller's with its negative, and the trade id is remembered with that event.
  ghost predicate Logged(s: State, s': State, x: Deal, tradeId: TradeId, now: nat) {
    && s'.log == Log(s.log.events + [Event(s.log.next, x.sid, x.buyer, x.qty, x.price, Executed, now),
                                     Event(s.log.next, x.sid, x.seller, -x.qty, x.price, Executed, now)], s.log.next + 1)
    && s'.ops == s.ops.(executed := s.ops.executed[tradeId := s.log.next])
  }

  // What a party must then have reserved: what it has now, with the new cost basis for the old one and less
  // what is unblocked for it.
  function Needed(c: Core, series: Series, x: Deal, u: User, unblock: nat): nat {
    match GetRequiredMargin(series, x.price, x.QtyAfter(c, u))
    case Ok(m) => Max(0, AccountOf(c.accounts, u).GetReserved(series.domain) + m - BasisOf(c, x.KeyFor(u)) - unblock)
    case Err(_) => 0
  }

  // A party's cash gains what the position it held is worth at the price over its cost basis, both read as
  // margin; its reserved margin becomes what is needed; its collateral and its other domains stay.
  ghost predicate Marked(c: Core, c': Core, series: Series, x: Deal, u: User, unblock: nat) {
    var a, a', d := AccountOf(c.accounts, u), AccountOf(c'.accounts, u), series.domain;
    var value := GetRequiredMargin(series, x.price, NetQty(c, x.KeyFor(u)));
    && u in c'.accounts && value.Ok?
    && a'.GetCash(d) == a.GetCash(d) + value.value - BasisOf(c, x.KeyFor(u))
    && a'.GetReserved(d) == Needed(c, series, x, u, unblock)
    && a'.balances == a.balances
    && (forall e :: e != d ==> a'.GetCash(e) == a.GetCash(e) && a'.GetReserved(e) == a.GetReserved(e))
  }

  ghost predicate OthersKeep(c: Core, c': Core, x: Deal) {
    && (forall u :: u != x.buyer && u != x.seller ==>
          (u in c'.accounts <==> u in c.accounts) && AccountOf(c'.accounts, u) == AccountOf(c.accounts, u))
  }

  // ---------------------------------------------------------------- trades

  function DealOf(t: TradeParams): Deal { Deal(t.seriesId, t.outcome, t.buyer, t.seller, t.qty, t.price) }

  lemma LegSays(c: Core, series: Series, t: TradeParams, u: User, unblock: nat)
    requires u == t.buyer || u == t.seller
    requires LegOf(series, t.price, PositionOf(c.positions, KeyOf(t, u)), DealOf(t).QtyAfter(c, u), unblock).Ok?
    ensures var leg := LegOf(series, t.price, PositionOf(c.positions, KeyOf(t, u)), DealOf(t).QtyAfter(c, u), unblock).value;
      var value := GetRequiredMargin(series, t.price, NetQty(c, DealOf(t).KeyFor(u)));
      && GetRequiredMargin(series, t.price, DealOf(t).QtyAfter(c, u)) == Ok(leg.newMargin)
      && value.Ok? && leg.cashDelta == BasisOf(c, DealOf(t).KeyFor(u)) - value.value
      && Adjusted(AccountOf(c.accounts, u).GetReserved(series.domain), leg.reservedDelta) == Needed(c, series, DealOf(t), u, unblock)
  {
    hide GetRequiredMargin;
  }

  lemma LegApplies(a: Account, d: Domain, leg: Leg)
    ensures var a' := ApplyLeg(a, d, leg);
      && a'.GetCash(d) == a.GetCash(d) - leg.cashDelta && a'.GetReserved(d) == Adjusted(a.GetReserved(d), leg.reservedDelta)
      && a'.balances == a.balances
      && (forall e :: e != d ==> a'.GetCash(e) == a.GetCash(e) && a'.GetReserved(e) == a.GetReserved(e))
  {
  }

  // Whose position becomes what.
  lemma TradedPositions(c: Core, d: Domain, t: TradeParams, b: Leg, l: Leg, k: PosKey)
    requires t.buyer != t.seller
    ensures var c', x := Traded(c, d, t, b, l), DealOf(t);
      && PositionOf(c'.positions, k)
         == (if k == x.KeyFor(t.buyer) then Position(NetQty(c, k) + t.qty, b.newMargin)
             else if k == x.KeyFor(t.seller) then Position(NetQty(c, k) - t.qty, l.newMargin) else PositionOf(c.positions, k))
      && (k in c'.positions <==> k in c.positions || k == x.KeyFor(t.buyer) || k == x.KeyFor(t.seller))
  {
    hide ApplyLeg, AccountOf;
  }

  lemma TradedCarries(c: Core, series: Series, t: TradeParams, u: User)
    requires t.buyer != t.seller && BuyerLeg(c, series, t).Ok? && SellerLeg(c, series, t).Ok?
    requires u == t.buyer || u == t.seller
    ensures Carries(c, Traded(c, series.domain, t, BuyerLeg(c, series, t).value, SellerLeg(c, series, t).value), series, DealOf(t), u)
  {
    LegSays(c, series, t, u, if u == t.buyer then t.buyerUnblock else t.sellerUnblock);
    TradedPositions(c, series.domain, t, BuyerLeg(c, series, t).value, SellerLeg(c, series, t).value, DealOf(t).KeyFor(u));
    hide LegOf, GetRequiredMargin, Needed, Adjusted, Traded;
  }

  lemma TradedHands(c: Core, series: Series, t: TradeParams)
    requires t.buyer != t.seller && BuyerLeg(c, series, t).Ok? && SellerLeg(c, series, t).Ok?
    ensures var c' := Traded(c, series.domain, t, BuyerLeg(c, series, t).value, SellerLeg(c, series, t).value);
      ChangedHands(c, c', series, DealOf(t))
  {
    TradedCarries(c, series, t, t.buyer);
    TradedCarries(c, series, t, t.seller);
    hide BuyerLeg, SellerLeg, Traded, PositionOf, Carries;
    var b, l := BuyerLeg(c, series, t).value, SellerLeg(c, series, t).value;
    var c', x := Traded(c, series.domain, t, b, l), DealOf(t);
    forall k | k != x.KeyFor(x.buyer) && k != x.KeyFor(x.seller)
      ensures (k in c'.positions <==> k in c.positions) && PositionOf(c'.positions, k) == PositionOf(c.positions, k)
    {
      TradedPositions(c, series.domain, t, b, l, k);
    }
  }

  // Whose leg is applied to whose account.
  lemma TradedMap(c: Core, d: Domain, t: TradeParams, b: Leg, l: Leg, u: User)
    requires t.buyer != t.seller
    ensures var c' := Traded(c, d, t, b, l);
      && AccountOf(c'.accounts, u)
         == (if u == t.buyer then ApplyLeg(AccountOf(c.accounts, u), d, b)
             else if u == t.seller then ApplyLeg(AccountOf(c.accounts, u), d, l) else AccountOf(c.accounts, u))
      && (u in c'.accounts <==> u in c.accounts || u == t.buyer || u == t.seller)
  {
    hide ApplyLeg, PositionOf;
  }

  lemma SideMarked(c: Core, series: Series, t: TradeParams, u: User)
    requires t.buyer != t.seller && BuyerLeg(c, series, t).Ok? && SellerLeg(c, series, t).Ok?
    requires u == t.buyer || u == t.seller
    ensures var c' := Traded(c, series.domain, t, BuyerLeg(c, series, t).value, SellerLeg(c, series, t).value);
      Marked(c, c', series, DealOf(t), u, if u == t.buyer then t.buyerUnblock else t.sellerUnblock)
  {
    var leg := if u == t.buyer then BuyerLeg(c, series, t).value else SellerLeg(c, series, t).value;
    LegSays(c, series, t, u, if u == t.buyer then t.buyerUnblock else t.sellerUnblock);
    LegApplies(AccountOf(c.accounts, u), series.domain, leg);
    TradedMap(c, series.domain, t, BuyerLeg(c, series, t).value, SellerLeg(c, series, t).value, u);
    hide LegOf, ApplyLeg, GetRequiredMargin, Needed, Adjusted, Account.GetCash, Account.GetReserved, Traded;
  }

  lemma TradedAccounts(c: Core, series: Series, t: TradeParams)
    requires t.buyer != t.seller && BuyerLeg(c, series, t).Ok? && SellerLeg(c, series, t).Ok?
    ensures var c' := Traded(c, series.domain, t, BuyerLeg(c, series, t).value, SellerLeg(c, series, t).value);
      && Marked(c, c', series, DealOf(t), t.buyer, t.buyerUnblock) && Marked(c, c', series, DealOf(t), t.seller, t.sellerUnblock)
      && OthersKeep(c, c', DealOf(t))
  {
    SideMarked(c, series, t, t.buyer);
    SideMarked(c, series, t, t.seller);
    var b, l := BuyerLeg(c, series, t).value, SellerLeg(c, series, t).value;
    var c' := Traded(c, series.domain, t, b, l);
    hide BuyerLeg, SellerLeg, ApplyLeg, Marked, Traded;
    forall u | u != t.buyer && u != t.seller
      ensures (u in c'.accounts <==> u in c.accounts) && AccountOf(c'.accounts, u) == AccountOf(c.accounts, u)
    {
      TradedMap(c, series.domain, t, b, l, u);
    }
  }

  // A trade that goes through does all of this, and leaves the book, the plans and the market alone.
  lemma TradeChangesHands(s: State, series: Series, t: TradeParams, now: nat)
    requires Executes(s, series, t)
    ensures var s' := ExecuteTrade(s, series, t, now).state;
      && ChangedHands(s.core, s'.core, series, DealOf(t)) && Logged(s, s', DealOf(t), t.tradeId, now)
      && Marked(s.core, s'.core, series, DealOf(t), t.buyer, t.buyerUnblock)
      && Marked(s.core, s'.core, series, DealOf(t), t.seller, t.sellerUnblock)
      && OthersKeep(s.core, s'.core, DealOf(t))
      && s'.core.orders == s.core.orders && s'.core.plans == s.core.plans && s'.market == s.market
  {
    ExecutedCore(s, series, t, now);
    TradedHands(s.core, series, t);
    TradedAccounts(s.core, series, t);
    TradeIsLogged(s, series, t, now);
    hide ExecuteTrade, ChangedHands, Marked, OthersKeep, Executes, BuyerLeg, SellerLeg, Logged;
  }

  lemma TradeIsLogged(s: State, series: Series, t: TradeParams, now: nat)
    requires Executes(s, series, t)
    ensures var s' := ExecuteTrade(s, series, t, now).state;
      Logged(s, s', DealOf(t), t.tradeId, now) && s'.market == s.market
  {
    hide TradeRefusal, Traded;
  }

  // The margins of what each side holds and of what it would hold.
  predicate Defined(c: Core, series: Series, x: Deal) {
    && GetRequiredMargin(series, x.price, NetQty(c, x.KeyFor(x.buyer))).Ok? && GetRequiredMargin(series, x.price, x.QtyAfter(c, x.buyer)).Ok?
    && GetRequiredMargin(series, x.price, NetQty(c, x.KeyFor(x.seller))).Ok? && GetRequiredMargin(series, x.price, x.QtyAfter(c, x.seller)).Ok?
  }

  ghost predicate CanReserve(s: State, series: Series, x: Deal, u: User, unblock: nat) {
    RawEquity(s, u, series.domain) >= Needed(s.core, series, x, u, unblock)
  }

  ghost predicate Passes(s: State, series: Series, x: Deal, buyerUnblock: nat, sellerUnblock: nat) {
    && x.buyer != x.seller && Defined(s.core, series, x)
    && (series.domain == Social || (CanReserve(s, series, x, x.buyer, buyerUnblock) && CanReserve(s, series, x, x.seller, sellerUnblock)))
  }

  ghost function Shortage(s: State, series: Series, x: Deal, u: User, unblock: nat): TradeError {
    InsufficientMargin(u, Max(0, RawEquity(s, u, series.domain)), Needed(s.core, series, x, u, unblock))
  }

  // The validation phase passes a trade exactly when the parties differ, the margins it involves are
  // defined, and outside the Social domain each side's equity reaches what it must then have reserved; and
  // it names the first side that is short, the buyer before the seller, with equity and need.
  lemma TradePassesIff(s: State, series: Series, t: TradeParams)
    ensures var x, refusal := DealOf(t), TradeRefusal(s, series, t);
      && (refusal.None? <==> Passes(s, series, x, t.buyerUnblock, t.sellerUnblock))
      && (refusal == Some(SelfTrading) <==> t.buyer == t.seller)
      && (refusal == Some(Internal) <==> t.buyer != t.seller && !Defined(s.core, series, x))
      && (refusal.Some? && t.buyer != t.seller && Defined(s.core, series, x) ==>
            refusal.value == if CanReserve(s, series, x, t.buyer, t.buyerUnblock) then Shortage(s, series, x, t.seller, t.sellerUnblock)
                             else Shortage(s, series, x, t.buyer, t.buyerUnblock))
  {
    if BuyerLeg(s.core, series, t).Ok? { LegSays(s.core, series, t, t.buyer, t.buyerUnblock); }
    if t.buyer != t.seller && SellerLeg(s.core, series, t).Ok? { LegSays(s.core, series, t, t.seller, t.sellerUnblock); }
    hide GetRequiredMargin, Needed, Adjusted, RawEquity;
  }

  // ---------------------------------------------------------------- fills

  // A bid buys for its creator, an ask sells for it.
  function Match(o: LimitOrder, taker: User, n: int): Deal {
    if o.side == Buy then Deal(o.series, o.outcome, o.creator, taker, n, o.price)
    else Deal(o.series, o.outcome, taker, o.creator, n, o.price)
  }

  // The order there now differs from the one seen in nothing but what fills may have taken from it.
  predicate StillThere(c: Core, id: OrderId, seen: LimitOrder) {
    id in c.orders && c.orders[id] == seen.(qty := c.orders[id].qty, blocked := c.orders[id].blocked, domain := c.orders[id].domain)
  }

  // What is left of the order: nothing when it is filled, otherwise the rest, with its own margin blocked.
  ghost predicate Left(c: Core, c': Core, series: Series, id: OrderId, o: LimitOrder, n: int, kept: int) {
    if n == o.qty then kept == 0 && c'.orders == c.orders - {id}
    else
      && kept >= 0 && GetRequiredMargin(series, o.price, if o.side == Sell then n - o.qty else o.qty - n) == Ok(kept)
      && c'.orders == c.orders[id := o.(qty := o.qty - n, blocked := kept)]
  }

  ghost predicate Filled(s: State, s': State, taker: User, id: OrderId, tradeId: TradeId, series: Series, o: LimitOrder, n: int, kept: nat, now: nat)
    requires kept <= o.blocked
  {
    var x := Match(o, taker, n);
    && ChangedHands(s.core, s'.core, series, x) && Logged(s, s', x, tradeId, now)
    && Marked(s.core, s'.core, series, x, o.creator, o.blocked - kept) && Marked(s.core, s'.core, series, x, taker, 0)
    && OthersKeep(s.core, s'.core, x) && Left(s.core, s'.core, series, id, o, n, kept)
    && s'.core.plans == s.core.plans && s'.market == s.market
  }

  // Of the book none of this speaks.
  lemma BookAside(c: Core, c1: Core, c2: Core, series: Series, x: Deal, u: User, ub: nat, v: User, vb: nat)
    requires c2 == c1.(orders := c2.orders)
    requires ChangedHands(c, c1, series, x) && Marked(c, c1, series, x, u, ub) && Marked(c, c1, series, x, v, vb) && OthersKeep(c, c1, x)
    ensures ChangedHands(c, c2, series, x) && Marked(c, c2, series, x, u, ub) && Marked(c, c2, series, x, v, vb) && OthersKeep(c, c2, x)
  {
    hide GetRequiredMargin, Needed, Account.GetCash, Account.GetReserved;
  }

  lemma LeftOf(s: State, series: Series, t: TradeParams, id: OrderId, o: LimitOrder, n: int, now: nat)
    requires Executes(s, series, t) && StillBlocked(series, o, n).Ok?
    ensures var kept := StillBlocked(series, o, n).value;
      var s1, r := ExecuteTrade(s, series, t, now).state, TradeAndShrink(s, series, t, id, o.(qty := o.qty - n, blocked := kept), now);
      && r.result == Ok(true) && r.state == s1.(core := s1.core.(orders := r.state.core.orders))
      && Left(s.core, r.state.core, series, id, o, n, kept)
  {
    ExecutesIff(s, series, t, now);
    ExecutedCore(s, series, t, now);
    assert ExecuteTrade(s, series, t, now).state.core.orders == s.core.orders;
    hide ExecuteTrade, GetRequiredMargin, Executes, Traded;
  }

  lemma LiveTrade(s: State, taker: User, id: OrderId, o: LimitOrder, tradeId: TradeId, series: Series, n: int, now: nat)
    requires FillLive(s, taker, id, o, tradeId, series, n, now).result.Ok? && tradeId !in s.ops.executed
    ensures Affordable(o, StillBlocked(series, o, n))
    ensures var kept := StillBlocked(series, o, n).value;
      var t := FillParams(o, taker, tradeId, n, o.blocked - kept);
      && Executes(s, series, t) && DealOf(t) == Match(o, taker, n)
      && FillLive(s, taker, id, o, tradeId, series, n, now) == TradeAndShrink(s, series, t, id, o.(qty := o.qty - n, blocked := kept), now)
  {
    hide ExecuteTrade, StillBlocked, Shrunk;
    ExecutesIff(s, series, FillParams(o, taker, tradeId, n, o.blocked - StillBlocked(series, o, n).value), now);
  }

  lemma LiveFill(s: State, taker: User, id: OrderId, o: LimitOrder, tradeId: TradeId, series: Series, n: int, now: nat) returns (kept: nat)
    requires FillLive(s, taker, id, o, tradeId, series, n, now).result.Ok? && tradeId !in s.ops.executed
    ensures kept <= o.blocked && Filled(s, FillLive(s, taker, id, o, tradeId, series, n, now).state, taker, id, tradeId, series, o, n, kept, now)
  {
    hide ExecuteTrade, StillBlocked, Executes, Left, ChangedHands, Marked, OthersKeep, FillLive, TradeAndShrink, Logged;
    LiveTrade(s, taker, id, o, tradeId, series, n, now);
    kept := StillBlocked(series, o, n).value;
    var t := FillParams(o, taker, tradeId, n, o.blocked - kept);
    var s1, s2 := ExecuteTrade(s, series, t, now).state, FillLive(s, taker, id, o, tradeId, series, n, now).state;
    TradeChangesHands(s, series, t, now);
    LeftOf(s, series, t, id, o, n, now);
    BookAside(s.core, s1.core, s2.core, series, DealOf(t), t.buyer, t.buyerUnblock, t.seller, t.sellerUnblock);
    LogAside(s, s1, s2, DealOf(t), tradeId, now);
  }

  lemma LogAside(s: State, s1: State, s2: State, x: Deal, tradeId: TradeId, now: nat)
    requires Logged(s, s1, x, tradeId, now) && s2.log == s1.log && s2.ops == s1.ops
    ensures Logged(s, s2, x, tradeId, now)
  {
  }

  // A fill that takes effect found the order it saw, fills what is asked for up to what is left, and makes
  // it change hands in the direction of the order's side: the creator of a bid buys, the creator of an ask
  // sells, the taker does the opposite, and nobody else moves. The log names the same parties.
  lemma FillChangesHands(s: State, taker: User, id: OrderId, seen: LimitOrder, tradeId: TradeId, series: Series,
                         requested: Option<int>, now: nat) returns (kept: nat)
    requires FillOrder(s, taker, id, seen, tradeId, series, requested, now).result.Ok? && tradeId !in s.ops.executed
    ensures StillThere(s.core, id, seen)
    ensures var o, s' := s.core.orders[id], FillOrder(s, taker, id, seen, tradeId, series, requested, now).state;
      var n, maker, took := Min(requested.Or(o.qty), o.qty), PosKey(o.creator, o.series, o.outcome), PosKey(taker, o.series, o.outcome);
      && kept <= o.blocked && Filled(s, s', taker, id, tradeId, series, o, n, kept, now)
      && NetQty(s'.core, maker) == NetQty(s.core, maker) + (if o.side == Buy then n else -n)
      && NetQty(s'.core, took) == NetQty(s.core, took) - (if o.side == Buy then n else -n)
  {
    var o := s.core.orders[id];
    kept := LiveFill(s, taker, id, o, tradeId, series, FillQty(requested, o.qty), now);
    hide FillLive, Left, Logged, Marked, OthersKeep, GetRequiredMargin;
  }

  // A fill goes through exactly when it asks for a positive quantity and either was executed before, or
  // finds the order it saw, can recompute what stays blocked within what was, and its trade passes. A fill
  // that does not, or was executed before, changes nothing.
  lemma FillGoesThroughIff(s: State, taker: User, id: OrderId, seen: LimitOrder, tradeId: TradeId, series: Series,
                           requested: Option<int>, now: nat)
    ensures var r := FillOrder(s, taker, id, seen, tradeId, series, requested, now);
      && (r.result.Ok? <==> requested.Or(1) > 0 && (tradeId in s.ops.executed || FillPasses(s, taker, id, seen, series, requested)))
      && (r.result.Err? || tradeId in s.ops.executed ==> r.state == s)
      && (requested.Or(1) > 0 && tradeId !in s.ops.executed && !StillThere(s.core, id, seen) ==> r.result == Err(OrderNotFound(id)))
  {
    hide FillLive;
    if requested.Or(1) > 0 && tradeId !in s.ops.executed && StillThere(s.core, id, seen) {
      var o := s.core.orders[id];
      LiveIff(s, taker, id, o, tradeId, series, FillQty(requested, o.qty), now);
    }
    hide GetRequiredMargin, Passes;
  }

  lemma LiveIff(s: State, taker: User, id: OrderId, o: LimitOrder, tradeId: TradeId, series: Series, n: int, now: nat)
    requires tradeId !in s.ops.executed
    ensures var r := FillLive(s, taker, id, o, tradeId, series, n, now);
      && (r.result.Ok? <==> LivePasses(s, taker, o, series, n)) && (r.result.Err? ==> r.state == s)
  {
    hide ExecuteTrade, TradeRefusal, Passes, GetRequiredMargin;
    var kept := StillBlocked(series, o, n);
    if Affordable(o, kept) {
      var t := FillParams(o, taker, tradeId, n, o.blocked - kept.value);
      TradePassesIff(s, series, t);
      ExecutesIff(s, series, t, now);
      if !Executes(s, series, t) { FailedTradeChangesNothing(s, series, t, now); }
    }
  }

  ghost predicate LivePasses(s: State, taker: User, o: LimitOrder, series: Series, n: int) {
    var kept := if n == o.qty then Ok(0) else GetRequiredMargin(series, o.price, if o.side == Sell then n - o.qty else o.qty - n);
    && kept.Ok? && kept.value <= o.blocked
    && Passes(s, series, Match(o, taker, n), if o.side == Buy then o.blocked - kept.value else 0, if o.side == Buy then 0 else o.blocked - kept.value)
  }

  ghost predicate FillPasses(s: State, taker: User, id: OrderId, seen: LimitOrder, series: Series, requested: Option<int>) {
    && StillThere(s.core, id, seen)
    && LivePasses(s, taker, s.core.orders[id], series, Min(requested.Or(s.core.orders[id].qty), s.core.orders[id].qty))
  }

  // ---------------------------------------------------------------- resting orders

  // Every account reads as before.
  ghost predicate SameAccounts(c: Core, c': Core) {
    forall u, d :: AccountOf(c'.accounts, u).GetReserved(d) == AccountOf(c.accounts, u).GetReserved(d)
      && AccountOf(c'.accounts, u).GetCash(d) == AccountOf(c.accounts, u).GetCash(d)
      && AccountOf(c'.accounts, u).balances == AccountOf(c.accounts, u).balances
  }

  // An order that is placed stands in the book as its caller asked, with its margin blocked out of the
  // caller's reserve. Only its creator can cancel it; and cancelling it undoes the placement.
  lemma PlaceThenCancel(s: State, caller: User, series: Series, p: OrderParams, other: User)
    requires p.orderId !in s.core.orders && PlaceLimitOrder(s, caller, series, p).result.Ok?
    ensures var placed := PlaceLimitOrder(s, caller, series, p).state;
      var cancelled := CancelLimitOrder(placed, caller, p.orderId);
      && p.orderId in placed.core.orders
      && (var o := placed.core.orders[p.orderId];
          && o == LimitOrder(caller, p.seriesId, p.outcome, p.side, p.qty, p.price, o.blocked, series.domain)
          && GetRequiredMargin(series, p.price, if p.side == Sell then -p.qty else p.qty) == Ok(o.blocked)
          && AccountOf(placed.core.accounts, caller).GetReserved(series.domain)
             == AccountOf(s.core.accounts, caller).GetReserved(series.domain) + o.blocked)
      && (other != caller ==> CancelLimitOrder(placed, other, p.orderId) == Reply(placed, Err(NotOrderCreator)))
      && cancelled.result == Ok(true)
      && cancelled.state == s.(core := s.core.(accounts := cancelled.state.core.accounts))
      && SameAccounts(s.core, cancelled.state.core)
  {
    PlacedState(s, caller, series, p);
    hide PlaceLimitOrder, GetRequiredMargin, Placed, SameAccounts, Unplaced;
    var placed := PlaceLimitOrder(s, caller, series, p).state;
    CoreThereAndBack(s.core, p.orderId, placed.core.orders[p.orderId]);
  }

  lemma PlacedState(s: State, caller: User, series: Series, p: OrderParams)
    requires PlaceLimitOrder(s, caller, series, p).result.Ok?
    ensures var placed := PlaceLimitOrder(s, caller, series, p).state;
      && p.orderId in placed.core.orders
      && var o := placed.core.orders[p.orderId];
         && o == LimitOrder(caller, p.seriesId, p.outcome, p.side, p.qty, p.price, o.blocked, series.domain)
         && GetRequiredMargin(series, p.price, if p.side == Sell then -p.qty else p.qty) == Ok(o.blocked)
         && placed == s.(core := Placed(s.core, p.orderId, o))
  {
    hide NoArbitrage, GetRequiredMargin, RawEquity;
  }

  lemma CoreThereAndBack(c: Core, id: OrderId, o: LimitOrder)
    requires id !in c.orders
    ensures var c' := Placed(c, id, o);
      && id in c'.orders && c'.orders[id] == o
      && AccountOf(c'.accounts, o.creator).GetReserved(o.domain) == AccountOf(c.accounts, o.creator).GetReserved(o.domain) + o.blocked
      && Unplaced(c', id) == c.(accounts := Unplaced(c', id).accounts)
      && SameAccounts(c, Unplaced(c', id))
  {
    var c' := Placed(c, id, o);
    assert c'.orders - {id} == c.orders;
    var a := AccountOf(c.accounts, o.creator);
    SetBack(a, o.domain, o.blocked);
    hide Account.GetReserved, Account.SetReserved, Account.GetCash;
    var b := SetTwice(a, o.domain, o.blocked);
    assert c'.accounts == c.accounts[o.creator := a.SetReserved(o.domain, a.GetReserved(o.domain) + o.blocked)];
    assert Unplaced(c', id).accounts == c.accounts[o.creator := b];
    assert Unplaced(c', id).orders == c.orders;
    forall u, d ensures var x, y := AccountOf(c.accounts, u), AccountOf(Unplaced(c', id).accounts, u);
      y.GetReserved(d) == x.GetReserved(d) && y.GetCash(d) == x.GetCash(d) && y.balances == x.balances
    {
      assert AccountOf(Unplaced(c', id).accounts, u) == if u == o.creator then b else AccountOf(c.accounts, u);
    }
  }

  function SetTwice(a: Account, d: Domain, m: nat): Account {
    var a' := a.SetReserved(d, a.GetReserved(d) + m);
    a'.SetReserved(d, SatSub(a'.GetReserved(d), m))
  }

  lemma SetBack(a: Account, d: Domain, m: nat)
    ensures a.SetReserved(d, a.GetReserved(d) + m).GetReserved(d) == a.GetReserved(d) + m
    ensures var b := SetTwice(a, d, m);
      (forall e :: b.GetReserved(e) == a.GetReserved(e) && b.GetCash(e) == a.GetCash(e)) && b.balances == a.balances
  {
  }

  // A submission needs a positive quantity and price, and one under an id already on the book is answered
  // as done without another look.
  lemma SubmitsOnce(s: State, caller: User, series: Series, p: OrderParams)
    ensures var r := SubmitLimitOrder(s, caller, series, p);
      if p.qty <= 0 || p.price.value == 0 then r == Reply(s, Err(InvalidInput))
      else if p.orderId in s.core.orders then r == Reply(s, Ok(true))
      else r == PlaceLimitOrder(s, caller, series, p) && (r.result.Ok? ==> SubmitLimitOrder(r.state, caller, series, p) == r)
  {
  }

  // Cancelling works exactly on one's own orders.
  lemma CancelsOwnOrders(s: State, caller: User, id: OrderId)
    ensures var r := CancelLimitOrder(s, caller, id);
      && (r.result.Ok? <==> id in s.core.orders && s.core.orders[id].creator == caller)
      && (r.result.Ok? ==> r.state.core.orders == s.core.orders - {id})
      && (r.result.Err? ==> r.state == s)
  {
  }
}
