// The no-arbitrage rule of the book and the life of a resting order, over every run.
module BookRuns {
  import opened Base
  import opened Payoffs
  import opened Types
  import opened Totals
  import opened Book
  import opened Clearing
  import opened Coverage
  import opened SettlementCoverage
  import opened Rekey
  import opened Runs
  import opened CoverageRuns
  import opened CoverageTheorem
  import opened Conservation
  import opened ConservationTheorem
  import opened Balance
  import opened SettlementRuns

  // ---------------------------------------------------------------- no arbitrage

  lemma FillOrders(reg: Registry, s: State, step: Step)
    requires step.Fill? && step.seen.series in reg && Frame(reg, s.core)
    ensures var Fill(taker, id, seen, tradeId, requested, now) := step;
      After(reg, s, step).core.orders
      == if Fills(reg, s, taker, id, seen, tradeId, requested, now)
         then var rest := Rest(reg, s.core.orders[id], FillQty(requested, s.core.orders[id].qty));
              if rest.qty == 0 then s.core.orders - {id} else s.core.orders[id := rest]
         else s.core.orders
  {
    var Fill(taker, id, seen, tradeId, requested, now) := step;
    FillShape(reg, s, taker, id, seen, tradeId, requested, now);
    if Fills(reg, s, taker, id, seen, tradeId, requested, now) {
      var o := s.core.orders[id];
      var fill := FillQty(requested, o.qty);
      var t := FillTrade(reg, o, taker, tradeId, fill);
      TradeFrame(reg, s, reg[o.series], t, now);
      AfterTradeDone(ExecuteTrade(s, reg[o.series], t, now), id, Rest(reg, o, fill));
    }
  }

  lemma SettleOrders(s: State, sid: SeriesId, settlement: SettlementInput, keys: seq<PosKey>, ids: seq<OrderId>,
                     running: set<nat>, now: nat)
    requires PlansInRange(s.core.plans) && Listings(s.core, sid, keys, ids)
    ensures SettleSeries(s, sid, settlement, keys, ids, running, now).state.core.orders
         == if Prepares(s, sid, settlement, keys, ids, now) then s.core.orders - SetOf(ids) else s.core.orders
  {
    SettleShape(s, sid, settlement, keys, ids, running, now);
    hide SettleSeries, Prepares, LinesOf;
  }

  // Every step but a new limit order only thins the book.
  lemma OtherStepsThin(reg: Registry, s: State, step: Step)
    requires Frame(reg, s.core) && Enabled(reg, s, step) && !step.Limit?
    ensures Thinner(After(reg, s, step).core.orders, s.core.orders)
  {
    hide ExecuteTrade, MintCompleteSet, FillOrder, SettleSeries, RedeemCompleteSet, Frame;
    match step {
      case Fill(_, _, _, _, _, _) => FillOrders(reg, s, step);
      case Matched(t, now) => TradeFrame(reg, s, reg[t.seriesId], t, now);
      case Settle(sid, settlement, keys, ids, running, now) => SettleOrders(s, sid, settlement, keys, ids, running, now);
      case Redeem(caller, sid, qty) => RedeemKeepsPlans(s, caller, sid, reg[sid], qty);
      case Mint(caller, sid, qty) => MintKeepsOrders(s, caller, sid, reg[sid], qty);
      case _ =>
    }
  }

  lemma MintKeepsOrders(s: State, caller: User, sid: SeriesId, series: Series, qty: int)
    ensures MintCompleteSet(s, caller, sid, series, qty).state.core.orders == s.core.orders
  {
  }

  lemma LimitKeepsBook(reg: Registry, s: State, caller: User, p: OrderParams)
    requires p.seriesId in reg && BookSound(reg, s.core.orders)
    ensures BookSound(reg, PlaceLimitOrder(s, caller, reg[p.seriesId], p).state.core.orders)
  {
    hide BookSound, NoArbitrage, RawEquity;
    var r := PlaceLimitOrder(s, caller, reg[p.seriesId], p);
    if r.result.Ok? {
      PlacedStaysSound(reg, s.core.orders, p.orderId, r.state.core.orders[p.orderId]);
    }
  }

  lemma StepKeepsBook(reg: Registry, s: State, step: Step)
    requires Frame(reg, s.core) && Enabled(reg, s, step)
    requires BookSound(reg, s.core.orders)
    ensures BookSound(reg, After(reg, s, step).core.orders)
  {
    hide BookSound, Thinner;
    if step.Limit? {
      LimitKeepsBook(reg, s, step.caller, step.p);
    } else {
      OtherStepsThin(reg, s, step);
      ThinnerStaysSound(reg, s.core.orders, After(reg, s, step).core.orders);
    }
  }

  // In every reachable state no binary bid exceeds one unit, and over the distinct outcomes of a
  // categorical series the best bids sum to at most one unit.
  lemma {:induction false} NeverAnArbitrage(reg: Registry, s: State, steps: seq<Step>)
    requires Frame(reg, s.core) && CachedKnown(reg, s.ops) && ValidRun(reg, s, steps)
    requires BookSound(reg, s.core.orders)
    ensures BookSound(reg, RunAll(reg, s, steps).core.orders)
    decreases |steps|
  {
    if steps == [] {
    } else {
      StepFrame(reg, s, steps[0]);
      StepKeepsBook(reg, s, steps[0]);
      NeverAnArbitrage(reg, After(reg, s, steps[0]), steps[1..]);
    }
  }

  predicate Bid(series: Series, o: LimitOrder) {
    && o.side.Buy?
    && (series.payoffType.Binary? || (series.payoffType.Categorical? && o.outcome.Some? && o.outcome.value in Declared(series)))
  }

  lemma BidsAreCapped(reg: Registry, orders: map<OrderId, LimitOrder>, id: OrderId)
    requires BookSound(reg, orders) && id in orders
    requires orders[id].series in reg && Bid(reg[orders[id].series], orders[id])
    ensures CeilUsd(orders[id].price) <= UNIT
  {
    var o := orders[id];
    var sid := o.series;
    assert SeriesSound(reg[sid], sid, orders);
    if reg[sid].payoffType.Categorical? {
      var x := o.outcome.value;
      BestBidIsBest(orders, sid, x);
      assert BidPrice(orders[id], sid, x) == CeilUsd(o.price);
      TotalNonNegative(Distinct(reg[sid].outcomes.value), Bids(orders, sid));
      assert x in Distinct(reg[sid].outcomes.value) && Bids(orders, sid)(x, ()) == BestBid(orders, sid, x);
    }
  }

  // Filling a bid of a sound book never departs from the zero-sum law; only asks can be overpriced.
  lemma FillingBidsIsNeutral(reg: Registry, s: State, step: Step)
    requires step.Fill? && Enabled(reg, s, step) && Frame(reg, s.core)
    requires BookSound(reg, s.core.orders) && Funded(reg[step.seen.series])
    requires step.id in s.core.orders ==> Bid(reg[step.seen.series], s.core.orders[step.id])
    ensures Money(reg, After(reg, s, step)) == Money(reg, s)
  {
    FillMoney(reg, s, step);
    hide BookSound, TradeDrift, Opens, CeilUsd, StillBlocked, Executes, After, Money, GetRequiredMargin;
    var Fill(taker, id, seen, tradeId, requested, now) := step;
    if Fills(reg, s, taker, id, seen, tradeId, requested, now) {
      var o := s.core.orders[id];
      BidsAreCapped(reg, s.core.orders, id);
      NoDriftIff(reg[o.series], s.core, FillTrade(reg, o, taker, tradeId, FillQty(requested, o.qty)));
    }
  }

  // ---------------------------------------------------------------- the life of a resting order

  // How many contracts of order id a step fills, and how much margin that unblocks.
  ghost function FilledBy(reg: Registry, s: State, step: Step, id: OrderId): int
    requires Enabled(reg, s, step) && OrdersExact(reg, s.core.orders)
  {
    if step.Fill? && step.id == id && Fills(reg, s, step.taker, id, step.seen, step.tradeId, step.requested, step.now)
    then FillQty(step.requested, s.core.orders[id].qty) else 0
  }

  ghost function UnblockedBy(reg: Registry, s: State, step: Step, id: OrderId): int
    requires Enabled(reg, s, step) && OrdersExact(reg, s.core.orders)
  {
    if FilledBy(reg, s, step, id) == 0 then 0
    else s.core.orders[id].blocked - Rest(reg, s.core.orders[id], FilledBy(reg, s, step, id)).blocked
  }

  // Steps that neither cancel order id, nor place another under it, nor settle its series.
  predicate Spares(step: Step, id: OrderId, sid: SeriesId) {
    match step
    case Limit(_, p) => p.orderId != id
    case Cancel(_, i) => i != id
    case Settle(i, _, _, _, _, _) => i != sid
    case _ => true
  }

  // Where order o stands once so much of it is filled and so much margin unblocked.
  ghost predicate Standing(orders: map<OrderId, LimitOrder>, id: OrderId, o: LimitOrder, filled: int, unblocked: int) {
    if filled < o.qty then
      id in orders && orders[id].blocked == o.blocked - unblocked && orders[id].(blocked := o.blocked) == o.(qty := o.qty - filled)
    else id !in orders && filled == o.qty && unblocked == o.blocked
  }

  // What a fill takes from the order it reaches, in terms of what it leaves of it.
  lemma FillTakes(reg: Registry, s: State, step: Step, id: OrderId)
    requires step.Fill? && Enabled(reg, s, step) && OrdersExact(reg, s.core.orders)
    requires Fills(reg, s, step.taker, step.id, step.seen, step.tradeId, step.requested, step.now)
    ensures step.id in s.core.orders && OrderExact(reg, s.core.orders[step.id])
    ensures var o := s.core.orders[step.id];
      var rest := Rest(reg, o, FillQty(step.requested, o.qty));
      && 0 <= rest.qty < o.qty && (rest.qty == 0 ==> rest.blocked == 0) && rest.blocked <= o.blocked
      && rest == o.(qty := rest.qty, blocked := rest.blocked)
      && FilledBy(reg, s, step, id) == (if step.id == id then o.qty - rest.qty else 0)
      && UnblockedBy(reg, s, step, id) == (if step.id == id then o.blocked - rest.blocked else 0)
  {
    hide Executes, GetRequiredMargin, StillBlocked, OrdersExact;
    assert OrderExact(reg, s.core.orders[step.id]);
    RestIsExact(reg, s.core.orders[step.id], FillQty(step.requested, s.core.orders[step.id].qty));
  }

  lemma FillStands(reg: Registry, s: State, step: Step, id: OrderId, o: LimitOrder, filled: int, unblocked: int)
    requires Frame(reg, s.core) && Enabled(reg, s, step) && step.Fill?
    requires Standing(s.core.orders, id, o, filled, unblocked)
    ensures Standing(After(reg, s, step).core.orders, id, o,
                     filled + FilledBy(reg, s, step, id), unblocked + UnblockedBy(reg, s, step, id))
    ensures FilledBy(reg, s, step, id) >= 0 && UnblockedBy(reg, s, step, id) >= 0
  {
    FillOrders(reg, s, step);
    if Fills(reg, s, step.taker, step.id, step.seen, step.tradeId, step.requested, step.now) {
      FillTakes(reg, s, step, id);
      hide After, Standing, Fills, FilledBy, UnblockedBy, Rest, OrdersExact, OrderExact;
      var rest := Rest(reg, s.core.orders[step.id], FillQty(step.requested, s.core.orders[step.id].qty));
      ShrinkStands(s.core.orders, step.id, rest, id, o, filled, unblocked);
    } else {
      assert FilledBy(reg, s, step, id) == 0;
      hide After, Fills, FilledBy, Rest;
    }
  }

  // Taking from order at moves its own standing by what was taken, and no other order's.
  lemma ShrinkStands(orders: map<OrderId, LimitOrder>, at: OrderId, rest: LimitOrder, id: OrderId, o: LimitOrder, filled: int, unblocked: int)
    requires Standing(orders, id, o, filled, unblocked) && at in orders
    requires 0 <= rest.qty < orders[at].qty && (rest.qty == 0 ==> rest.blocked == 0)
    requires rest == orders[at].(qty := rest.qty, blocked := rest.blocked)
    ensures Standing(if rest.qty == 0 then orders - {at} else orders[at := rest], id, o,
                     filled + (if at == id then orders[at].qty - rest.qty else 0),
                     unblocked + (if at == id then orders[at].blocked - rest.blocked else 0))
  {
  }

  lemma SettleSpares(s: State, sid: SeriesId, settlement: SettlementInput, keys: seq<PosKey>, ids: seq<OrderId>,
                     running: set<nat>, now: nat, id: OrderId)
    requires PlansInRange(s.core.plans) && Listings(s.core, sid, keys, ids)
    requires id in s.core.orders ==> s.core.orders[id].series != sid
    ensures var after := SettleSeries(s, sid, settlement, keys, ids, running, now).state.core.orders;
      (id in after <==> id in s.core.orders) && (id in after ==> after[id] == s.core.orders[id])
  {
    SettleOrders(s, sid, settlement, keys, ids, running, now);
    hide SettleSeries, Prepares;
    assert id in SetOf(ids) ==> id in OrdersOfSeries(s.core.orders, sid);
  }

  lemma LimitSpares(s: State, caller: User, series: Series, p: OrderParams, id: OrderId)
    requires p.orderId != id
    ensures var after := PlaceLimitOrder(s, caller, series, p).state.core.orders;
      (id in after <==> id in s.core.orders) && (id in after ==> after[id] == s.core.orders[id])
  {
    hide NoArbitrage, RawEquity, GetRequiredMargin;
  }

  lemma StepStands(reg: Registry, s: State, step: Step, id: OrderId, o: LimitOrder, filled: int, unblocked: int)
    requires Frame(reg, s.core) && Enabled(reg, s, step) && Spares(step, id, o.series)
    requires Standing(s.core.orders, id, o, filled, unblocked)
    ensures Standing(After(reg, s, step).core.orders, id, o,
                     filled + FilledBy(reg, s, step, id), unblocked + UnblockedBy(reg, s, step, id))
    ensures FilledBy(reg, s, step, id) >= 0 && UnblockedBy(reg, s, step, id) >= 0
  {
    hide ExecuteTrade, MintCompleteSet, FillOrder, SettleSeries, RedeemCompleteSet, PlaceLimitOrder, Frame;
    match step {
      case Fill(_, _, _, _, _, _) => FillStands(reg, s, step, id, o, filled, unblocked);
      case Limit(caller, p) => LimitSpares(s, caller, reg[p.seriesId], p, id);
      case Matched(t, now) => TradeFrame(reg, s, reg[t.seriesId], t, now);
      case Settle(sid, settlement, keys, ids, running, now) => SettleSpares(s, sid, settlement, keys, ids, running, now, id);
      case Redeem(caller, sid, qty) => RedeemKeepsPlans(s, caller, sid, reg[sid], qty);
      case Mint(caller, sid, qty) => MintKeepsOrders(s, caller, sid, reg[sid], qty);
      case _ =>
    }
  }

  ghost predicate SparedRun(steps: seq<Step>, id: OrderId, sid: SeriesId) {
    forall i :: 0 <= i < |steps| ==> Spares(steps[i], id, sid)
  }

  // Contracts of order id filled over a run, and margin unblocked by those fills.
  ghost function Filled(reg: Registry, s: State, steps: seq<Step>, id: OrderId): (int, int)
    requires Frame(reg, s.core) && CachedKnown(reg, s.ops) && ValidRun(reg, s, steps)
    decreases |steps|
  {
    if steps == [] then (0, 0)
    else
      StepFrame(reg, s, steps[0]);
      var later := Filled(reg, After(reg, s, steps[0]), steps[1..], id);
      (FilledBy(reg, s, steps[0], id) + later.0, UnblockedBy(reg, s, steps[0], id) + later.1)
  }

  // Over any run that spares it, filled and remaining quantity add up to the order's own, margin
  // unblocked and margin still blocked add up to its block, and it leaves the book exactly when filled.
  lemma {:induction false} FillsAddUp(reg: Registry, s: State, steps: seq<Step>, id: OrderId, o: LimitOrder, filled: int, unblocked: int)
    requires Frame(reg, s.core) && CachedKnown(reg, s.ops) && ValidRun(reg, s, steps)
    requires SparedRun(steps, id, o.series)
    requires Standing(s.core.orders, id, o, filled, unblocked)
    ensures Standing(RunAll(reg, s, steps).core.orders, id, o,
                     filled + Filled(reg, s, steps, id).0, unblocked + Filled(reg, s, steps, id).1)
    decreases |steps|
  {
    hide Standing, FilledBy, UnblockedBy, After;
    if steps == [] {
    } else {
      StepFrame(reg, s, steps[0]);
      StepStands(reg, s, steps[0], id, o, filled, unblocked);
      FillsAddUp(reg, After(reg, s, steps[0]), steps[1..], id, o,
                 filled + FilledBy(reg, s, steps[0], id), unblocked + UnblockedBy(reg, s, steps[0], id));
    }
  }

  // ---------------------------------------------------------------- replays

  lemma StepKeepsExecuted(reg: Registry, s: State, step: Step, t: TradeId)
    requires Enabled(reg, s, step) && OrdersExact(reg, s.core.orders)
    requires t in s.ops.executed
    ensures t in After(reg, s, step).ops.executed && After(reg, s, step).ops.executed[t] == s.ops.executed[t]
  {
    hide MintCompleteSet, SettleSeries, RedeemCompleteSet, PlaceLimitOrder;
    match step {
      case Fill(taker, id, seen, tradeId, requested, now) =>
        FillShape(reg, s, taker, id, seen, tradeId, requested, now);
        if Fills(reg, s, taker, id, seen, tradeId, requested, now) {
          var o := s.core.orders[id];
          var fill := FillQty(requested, o.qty);
          TradeExecuted(s, reg[o.series], FillTrade(reg, o, taker, tradeId, fill), now, t);
          AfterTradeDone(ExecuteTrade(s, reg[o.series], FillTrade(reg, o, taker, tradeId, fill), now), id, Rest(reg, o, fill));
        }
      case Matched(t0, now) => TradeExecuted(s, reg[t0.seriesId], t0, now, t);
      case Settle(sid, settlement, keys, ids, running, now) => SettleShape(s, sid, settlement, keys, ids, running, now);
      case Redeem(caller, sid, qty) => RedeemKeepsPlans(s, caller, sid, reg[sid], qty);
      case Mint(caller, sid, qty) => MintKeepsOps(s, caller, sid, reg[sid], qty);
      case Limit(caller, p) => LimitKeepsOps(s, caller, reg[p.seriesId], p);
      case _ =>
    }
  }

  lemma MintKeepsOps(s: State, caller: User, sid: SeriesId, series: Series, qty: int)
    ensures MintCompleteSet(s, caller, sid, series, qty).state.ops == s.ops
  {
  }

  lemma LimitKeepsOps(s: State, caller: User, series: Series, p: OrderParams)
    ensures PlaceLimitOrder(s, caller, series, p).state.ops == s.ops
  {
    hide NoArbitrage, RawEquity, GetRequiredMargin;
  }

  lemma TradeExecuted(s: State, series: Series, t0: TradeParams, now: nat, t: TradeId)
    requires t in s.ops.executed
    ensures var ops := ExecuteTrade(s, series, t0, now).state.ops; t in ops.executed && ops.executed[t] == s.ops.executed[t]
  {
    hide TradeRefusal, Traded, BuyerLeg, SellerLeg;
  }

  predicate Retries(step: Step, t: TradeId) {
    (step.Fill? && step.tradeId == t) || (step.Matched? && step.t.tradeId == t)
  }

  // Whatever happens in between, sending an executed trade id again changes nothing.
  lemma {:induction false} ReplayChangesNothing(reg: Registry, s: State, steps: seq<Step>, t: TradeId, again: Step)
    requires Frame(reg, s.core) && CachedKnown(reg, s.ops) && ValidRun(reg, s, steps)
    requires t in s.ops.executed && Retries(again, t)
    requires Enabled(reg, RunAll(reg, s, steps), again)
    ensures After(reg, RunAll(reg, s, steps), again) == RunAll(reg, s, steps)
    decreases |steps|
  {
    if steps == [] {
    } else {
      StepFrame(reg, s, steps[0]);
      StepKeepsExecuted(reg, s, steps[0], t);
      ReplayChangesNothing(reg, After(reg, s, steps[0]), steps[1..], t, again);
    }
  }
}
