// Margin coverage in every reachable state.
module CoverageRuns {
  import opened Base
  import opened Payoffs
  import opened Types
  import opened Totals
  import opened Book
  import opened Clearing
  import opened Coverage
  import opened SettlementCoverage
  import opened Rekey
  import opened Runs

  // Matched trades that name no order to unblock, and sets over distinct outcomes.
  ghost predicate Ordinary(reg: Registry, step: Step) {
    match step
    case Matched(t, _) => t.buyerUnblock == 0 && t.sellerUnblock == 0
    case Redeem(_, sid, _) => sid in reg && DistinctOutcomes(reg[sid])
    case _ => true
  }

  // A trade executes exactly when its id is fresh and the validation phase finds nothing against it.
  ghost predicate Executes(s: State, series: Series, t: TradeParams) {
    t.tradeId !in s.ops.executed && TradeRefusal(s, series, t).None?
  }

  lemma ExecutesIff(s: State, series: Series, t: TradeParams, now: nat)
    ensures Executes(s, series, t) <==> t.tradeId !in s.ops.executed && ExecuteTrade(s, series, t, now).result.Ok?
  {
    hide TradeRefusal, Traded;
  }

  lemma ExecutedCore(s: State, series: Series, t: TradeParams, now: nat)
    requires Executes(s, series, t)
    ensures t.buyer != t.seller && BuyerLeg(s.core, series, t).Ok? && SellerLeg(s.core, series, t).Ok?
    ensures ExecuteTrade(s, series, t, now).state.core
         == Traded(s.core, series.domain, t, BuyerLeg(s.core, series, t).value, SellerLeg(s.core, series, t).value)
  {
  }

  lemma FailedTradeChangesNothing(s: State, series: Series, t: TradeParams, now: nat)
    requires !Executes(s, series, t)
    ensures ExecuteTrade(s, series, t, now).state == s
  {
  }

  // The order a fill unblocks, seen from either side of the trade.
  ghost predicate Backed(c: Core, series: Series, u: User, id: OrderId, unblock: nat) {
    unblock == 0
    || (id in c.orders && c.orders[id].creator == u && c.orders[id].domain == series.domain && unblock <= c.orders[id].blocked)
  }

  // Under coverage a leg that unblocks no more than its order holds never clamps.
  lemma LegIsExact(reg: Registry, c: Core, series: Series, t: TradeParams, u: User, id: OrderId, unblock: nat, newQty: int)
    requires Covered(reg, c)
    requires t.seriesId in reg && reg[t.seriesId] == series
    requires Backed(c, series, u, id, unblock)
    requires LegOf(series, t.price, PositionOf(c.positions, KeyOf(t, u)), newQty, unblock).Ok?
    ensures Exact(AccountOf(c.accounts, u), series.domain,
                  LegOf(series, t.price, PositionOf(c.positions, KeyOf(t, u)), newQty, unblock).value)
  {
    RoomFor(reg, c, KeyOf(t, u), id);
  }

  lemma LegsSlack(reg: Registry, c: Core, series: Series, t: TradeParams, id: OrderId, u: User, d: Domain)
    requires Covered(reg, c)
    requires t.seriesId in reg && reg[t.seriesId] == series
    requires t.buyer != t.seller && BuyerLeg(c, series, t).Ok? && SellerLeg(c, series, t).Ok?
    requires Backed(c, series, t.buyer, id, t.buyerUnblock) && Backed(c, series, t.seller, id, t.sellerUnblock)
    ensures Slack(reg, Traded(c, series.domain, t, BuyerLeg(c, series, t).value, SellerLeg(c, series, t).value), u, d)
         == Slack(reg, c, u, d)
            - (if u == t.buyer && d == series.domain then t.buyerUnblock else 0)
            - (if u == t.seller && d == series.domain then t.sellerUnblock else 0)
  {
    LegIsExact(reg, c, series, t, t.buyer, id, t.buyerUnblock, PositionOf(c.positions, KeyOf(t, t.buyer)).netQty + t.qty);
    LegIsExact(reg, c, series, t, t.seller, id, t.sellerUnblock, PositionOf(c.positions, KeyOf(t, t.seller)).netQty - t.qty);
    TradedSlack(reg, c, series, t, u, d);
  }

  lemma TradeSlack(reg: Registry, s: State, series: Series, t: TradeParams, id: OrderId, now: nat, u: User, d: Domain)
    requires Covered(reg, s.core)
    requires t.seriesId in reg && reg[t.seriesId] == series
    requires Executes(s, series, t)
    requires Backed(s.core, series, t.buyer, id, t.buyerUnblock) && Backed(s.core, series, t.seller, id, t.sellerUnblock)
    ensures Slack(reg, ExecuteTrade(s, series, t, now).state.core, u, d) == Slack(reg, s.core, u, d)
        - (if u == t.buyer && d == series.domain then t.buyerUnblock else 0)
        - (if u == t.seller && d == series.domain then t.sellerUnblock else 0)
  {
    ExecutedCore(s, series, t, now);
    LegsSlack(reg, s.core, series, t, id, u, d);
  }

  // ---------------------------------------------------------------- partial fills

  // What a fill leaves blocked is never more than what the order blocked: checked_sub does not fail.
  lemma FillNeverShort(reg: Registry, o: LimitOrder, fill: int)
    requires OrderExact(reg, o)
    requires 0 <= fill <= o.qty
    ensures StillBlocked(reg[o.series], o, fill).Ok?
    ensures StillBlocked(reg[o.series], o, fill).value <= o.blocked
    ensures o.blocked - StillBlocked(reg[o.series], o, fill).value
         == GetRequiredMargin(reg[o.series], o.price, Signed(o.side, fill)).value
  {
    MarginAdds(reg[o.series], o.price, Signed(o.side, o.qty - fill), Signed(o.side, fill));
    assert Signed(o.side, o.qty - fill) + Signed(o.side, fill) == Signed(o.side, o.qty);
    MarginOfNothing(reg[o.series], o.price);
  }

  lemma MarginOfNothing(series: Series, price: Price)
    ensures GetRequiredMargin(series, price, 0) == Ok(0)
  {
    assert Abs(0) == 0;
    assert 0 * CeilUsd(price) == 0;
  }

  // The order after a successful fill, and the trade it was filled by.
  ghost function Rest(reg: Registry, o: LimitOrder, fill: int): LimitOrder
    requires OrderExact(reg, o) && 0 <= fill <= o.qty
  {
    FillNeverShort(reg, o, fill);
    o.(qty := o.qty - fill, blocked := StillBlocked(reg[o.series], o, fill).value)
  }

  ghost function FillTrade(reg: Registry, o: LimitOrder, taker: User, tradeId: TradeId, fill: int): TradeParams
    requires OrderExact(reg, o) && 0 <= fill <= o.qty
  {
    FillNeverShort(reg, o, fill);
    FillParams(o, taker, tradeId, fill, o.blocked - StillBlocked(reg[o.series], o, fill).value)
  }

  ghost predicate Reaching(s: State, id: OrderId, seen: LimitOrder, tradeId: TradeId, requested: Option<int>) {
    && (requested.None? || requested.value > 0) && tradeId !in s.ops.executed
    && id in s.core.orders && SameOrder(s.core.orders[id], seen)
  }

  // A fill goes through exactly when it reaches a live order and its trade executes.
  ghost predicate Fills(reg: Registry, s: State, taker: User, id: OrderId, seen: LimitOrder, tradeId: TradeId,
                        requested: Option<int>, now: nat)
    requires OrdersExact(reg, s.core.orders)
  {
    && Reaching(s, id, seen, tradeId, requested)
    && var o := s.core.orders[id];
       OrderExact(reg, o) && Executes(s, reg[o.series], FillTrade(reg, o, taker, tradeId, FillQty(requested, o.qty)))
  }

  ghost function FillReply(reg: Registry, s: State, o: LimitOrder, taker: User, id: OrderId, tradeId: TradeId, fill: int, now: nat)
    : Reply<TradeError>
    requires OrderExact(reg, o) && 0 <= fill <= o.qty
  {
    AfterTrade(ExecuteTrade(s, reg[o.series], FillTrade(reg, o, taker, tradeId, fill), now), id, Rest(reg, o, fill))
  }

  lemma AfterTradeDone(traded: Reply<TradeError>, id: OrderId, rest: LimitOrder)
    requires traded.result.Ok?
    ensures AfterTrade(traded, id, rest).state == traded.state.(core := Shrunk(traded.state.core, id, rest))
    ensures AfterTrade(traded, id, rest).result == Ok(true)
  {
  }

  lemma AfterTradeRefused(traded: Reply<TradeError>, id: OrderId, rest: LimitOrder)
    requires traded.result.Err?
    ensures AfterTrade(traded, id, rest) == traded
  {
  }

  // On an exact book a fill never meets the two internal errors.
  lemma FillIsReply(reg: Registry, s: State, o: LimitOrder, taker: User, id: OrderId, tradeId: TradeId, fill: int, now: nat)
    requires OrderExact(reg, o) && 0 <= fill <= o.qty
    ensures FillLive(s, taker, id, o, tradeId, reg[o.series], fill, now) == FillReply(reg, s, o, taker, id, tradeId, fill, now)
  {
    FillNeverShort(reg, o, fill);
    var kept := StillBlocked(reg[o.series], o, fill).value;
    assert Rest(reg, o, fill) == o.(qty := o.qty - fill, blocked := kept);
    assert FillTrade(reg, o, taker, tradeId, fill) == FillParams(o, taker, tradeId, fill, o.blocked - kept);
  }

  lemma ReachingIsLive(s: State, taker: User, id: OrderId, seen: LimitOrder, tradeId: TradeId, series: Series,
                       requested: Option<int>, now: nat)
    requires Reaching(s, id, seen, tradeId, requested)
    ensures FillOrder(s, taker, id, seen, tradeId, series, requested, now)
         == FillLive(s, taker, id, s.core.orders[id], tradeId, series, FillQty(requested, s.core.orders[id].qty), now)
  {
  }

  lemma FillShape(reg: Registry, s: State, taker: User, id: OrderId, seen: LimitOrder, tradeId: TradeId,
                  requested: Option<int>, now: nat)
    requires seen.series in reg && OrdersExact(reg, s.core.orders)
    ensures Reaching(s, id, seen, tradeId, requested) ==> OrderExact(reg, s.core.orders[id])
    ensures var s' := FillOrder(s, taker, id, seen, tradeId, reg[seen.series], requested, now).state;
      if Fills(reg, s, taker, id, seen, tradeId, requested, now)
      then s' == FillReply(reg, s, s.core.orders[id], taker, id, tradeId, FillQty(requested, s.core.orders[id].qty), now).state
      else s' == s
  {
    if Reaching(s, id, seen, tradeId, requested) {
      var o := s.core.orders[id];
      var fill := FillQty(requested, o.qty);
      assert OrderExact(reg, o);
      ReachingIsLive(s, taker, id, seen, tradeId, reg[o.series], requested, now);
      FillIsReply(reg, s, o, taker, id, tradeId, fill, now);
      var t := FillTrade(reg, o, taker, tradeId, fill);
      if !Executes(s, reg[o.series], t) {
        assert t.tradeId == tradeId;
        FailedTradeChangesNothing(s, reg[o.series], t, now);
        AfterTradeRefused(ExecuteTrade(s, reg[o.series], t, now), id, Rest(reg, o, fill));
      }
    }
  }

  lemma FillExecutes(reg: Registry, s: State, step: Step)
    requires step.Fill? && OrdersExact(reg, s.core.orders)
    requires Fills(reg, s, step.taker, step.id, step.seen, step.tradeId, step.requested, step.now)
    ensures var o := s.core.orders[step.id];
      var t := FillTrade(reg, o, step.taker, step.tradeId, FillQty(step.requested, o.qty));
      && t.qty == FillQty(step.requested, o.qty) && t.qty > 0 && t.seriesId == o.series && t.price == o.price
      && ExecuteTrade(s, reg[o.series], t, step.now).result.Ok?
  {
  }

  lemma RestIsExact(reg: Registry, o: LimitOrder, fill: int)
    requires OrderExact(reg, o) && 0 <= fill <= o.qty
    ensures Rest(reg, o, fill).qty > 0 ==> OrderExact(reg, Rest(reg, o, fill))
    ensures Rest(reg, o, fill).qty == 0 ==> Rest(reg, o, fill).blocked == 0
    ensures Rest(reg, o, fill).blocked <= o.blocked
  {
    FillNeverShort(reg, o, fill);
  }

  lemma ShrunkSlack(reg: Registry, c: Core, id: OrderId, rest: LimitOrder, u: User, d: Domain)
    requires id in c.orders
    requires rest.creator == c.orders[id].creator && rest.domain == c.orders[id].domain
    requires rest.qty == 0 ==> rest.blocked == 0
    ensures Slack(reg, Shrunk(c, id, rest), u, d) == Slack(reg, c, u, d)
      + if u == rest.creator && d == rest.domain then c.orders[id].blocked - rest.blocked else 0
  {
    TotalPut(c.orders, id, rest, OrderMargin(u, d));
    TotalRemove(c.orders, id, OrderMargin(u, d));
    if rest.qty == 0 {
      assert Shrunk(c, id, rest) == c.(orders := c.orders - {id});
    } else {
      assert Shrunk(c, id, rest) == c.(orders := c.orders[id := rest]);
    }
  }

  // A fill releases exactly the share of the order it fills: the maker's slack does not move.
  lemma FillSlack(reg: Registry, s: State, taker: User, id: OrderId, seen: LimitOrder, tradeId: TradeId,
                  requested: Option<int>, now: nat, u: User, d: Domain)
    requires seen.series in reg && Covered(reg, s.core) && OrdersExact(reg, s.core.orders)
    ensures Slack(reg, FillOrder(s, taker, id, seen, tradeId, reg[seen.series], requested, now).state.core, u, d)
         == Slack(reg, s.core, u, d)
  {
    FillShape(reg, s, taker, id, seen, tradeId, requested, now);
    if Fills(reg, s, taker, id, seen, tradeId, requested, now) {
      FilledSlack(reg, s, taker, id, tradeId, FillQty(requested, s.core.orders[id].qty), now, u, d);
    }
  }

  lemma FilledSlack(reg: Registry, s: State, taker: User, id: OrderId, tradeId: TradeId, fill: int, now: nat, u: User, d: Domain)
    requires Covered(reg, s.core) && id in s.core.orders && OrderExact(reg, s.core.orders[id])
    requires 0 <= fill <= s.core.orders[id].qty
    requires Executes(s, reg[s.core.orders[id].series], FillTrade(reg, s.core.orders[id], taker, tradeId, fill))
    ensures Slack(reg, FillReply(reg, s, s.core.orders[id], taker, id, tradeId, fill, now).state.core, u, d) == Slack(reg, s.core, u, d)
  {
    hide Slack, Covered;
    var o := s.core.orders[id];
    var t := FillTrade(reg, o, taker, tradeId, fill);
    FillNeverShort(reg, o, fill);
    RestIsExact(reg, o, fill);
    TradeSlack(reg, s, reg[o.series], t, id, now, u, d);
    ExecutedCore(s, reg[o.series], t, now);
    var traded := ExecuteTrade(s, reg[o.series], t, now);
    AfterTradeDone(traded, id, Rest(reg, o, fill));
    ShrunkSlack(reg, traded.state.core, id, Rest(reg, o, fill), u, d);
  }
}
