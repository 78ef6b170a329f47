// The no-arbitrage rule of the order book: src/clearing/src/api/trade/api.rs, validate_no_arbitrage.
module Book {
  import opened Base
  import opened Payoffs
  import opened Types
  import opened Totals

  predicate BidsFor(order: LimitOrder, sid: SeriesId, o: OutcomeId) {
    order.series == sid && order.side.Buy? && order.outcome == Some(o)
  }

  function BidPrice(order: LimitOrder, sid: SeriesId, o: OutcomeId): nat {
    if BidsFor(order, sid, o) then CeilUsd(order.price) else 0
  }

  ghost function AnyOrder(orders: map<OrderId, LimitOrder>): (id: OrderId)
    requires orders != map[]
    ensures id in orders
  {
    var id :| id in orders;
    id
  }

  // The highest resting bid on one outcome, 0 when there is none.
  ghost function BestBid(orders: map<OrderId, LimitOrder>, sid: SeriesId, o: OutcomeId): nat
    decreases |orders|
  {
    if orders == map[] then 0
    else
      var id := AnyOrder(orders);
      Max(BidPrice(orders[id], sid, o), BestBid(orders - {id}, sid, o))
  }

  // v bounds every bid and is one of them, or 0: that determines the best bid.
  ghost predicate IsBest(orders: map<OrderId, LimitOrder>, sid: SeriesId, o: OutcomeId, v: nat) {
    && (forall id :: id in orders ==> BidPrice(orders[id], sid, o) <= v)
    && (v == 0 || exists id :: id in orders && BidPrice(orders[id], sid, o) == v)
  }

  lemma {:induction false} BestBidIsBest(orders: map<OrderId, LimitOrder>, sid: SeriesId, o: OutcomeId)
    ensures IsBest(orders, sid, o, BestBid(orders, sid, o))
    decreases |orders|
  {
    if orders == map[] {
    } else {
      var id := AnyOrder(orders);
      var rest := orders - {id};
      BestBidIsBest(rest, sid, o);
      assert forall j :: j in rest ==> j in orders && rest[j] == orders[j];
      assert forall j :: j in orders && j != id ==> j in rest;
    }
  }

  lemma BestIsUnique(orders: map<OrderId, LimitOrder>, sid: SeriesId, o: OutcomeId, v: nat)
    requires IsBest(orders, sid, o, v)
    ensures v == BestBid(orders, sid, o)
  {
    BestBidIsBest(orders, sid, o);
  }

  // Outcomes as a domain to sum over; a list with repeats counts each outcome once.
  ghost function Distinct(outcomes: seq<OutcomeId>): map<OutcomeId, ()> {
    map o | o in outcomes :: ()
  }

  ghost function Bids(orders: map<OrderId, LimitOrder>, sid: SeriesId): (OutcomeId, ()) -> int {
    (o: OutcomeId, unit: ()) => BestBid(orders, sid, o)
  }

  // The bids as they would stand with one more bid on outcome `on` at price p.
  ghost function BidsWith(orders: map<OrderId, LimitOrder>, sid: SeriesId, on: Option<OutcomeId>, p: nat)
    : (OutcomeId, ()) -> int
  {
    (o: OutcomeId, unit: ()) => if on == Some(o) then Max(BestBid(orders, sid, o), p) else BestBid(orders, sid, o)
  }

  ghost function NoArbitrage(orders: map<OrderId, LimitOrder>, sid: SeriesId, series: Series,
                             side: Side, on: Option<OutcomeId>, price: Price): Result<bool, TradeError>
  {
    var p := CeilUsd(price);
    if side != Buy then Ok(true)
    else if series.payoffType.Binary? then
      if p > UNIT then Err(ArbitrageLimitExceeded(p, UNIT)) else Ok(true)
    else if series.payoffType.Categorical? then
      if series.outcomes.None? then Err(Internal)
      else
        var sum := Total(Distinct(series.outcomes.value), BidsWith(orders, sid, on, p));
        if sum > UNIT then Err(ArbitrageLimitExceeded(sum, UNIT)) else Ok(true)
    else Ok(true)
  }

  // The rule the check exists to keep, for every registered series.
  ghost predicate BookSound(reg: map<SeriesId, Series>, orders: map<OrderId, LimitOrder>) {
    forall sid :: sid in reg ==> SeriesSound(reg[sid], sid, orders)
  }

  ghost predicate SeriesSound(series: Series, sid: SeriesId, orders: map<OrderId, LimitOrder>) {
    && (series.payoffType.Binary? ==>
          forall id :: id in orders && orders[id].series == sid && orders[id].side.Buy? ==> CeilUsd(orders[id].price) <= UNIT)
    && (series.payoffType.Categorical? && series.outcomes.Some? ==>
          Total(Distinct(series.outcomes.value), Bids(orders, sid)) <= UNIT)
  }

  // Every resting order of the second book is an order of the first at the same price and on the
  // same outcome: what cancelling, filling in part, and settling do to a book.
  ghost predicate Thinner(orders': map<OrderId, LimitOrder>, orders: map<OrderId, LimitOrder>) {
    forall id :: id in orders' ==>
      && id in orders
      && orders'[id].series == orders[id].series && orders'[id].outcome == orders[id].outcome
      && orders'[id].side == orders[id].side && orders'[id].price == orders[id].price
  }

  lemma ThinnerBids(orders': map<OrderId, LimitOrder>, orders: map<OrderId, LimitOrder>, sid: SeriesId, o: OutcomeId)
    requires Thinner(orders', orders)
    ensures BestBid(orders', sid, o) <= BestBid(orders, sid, o)
  {
    BestBidIsBest(orders', sid, o);
    BestBidIsBest(orders, sid, o);
  }

  lemma ThinnerStaysSound(reg: map<SeriesId, Series>, orders: map<OrderId, LimitOrder>, orders': map<OrderId, LimitOrder>)
    requires BookSound(reg, orders)
    requires Thinner(orders', orders)
    ensures BookSound(reg, orders')
  {
    forall sid | sid in reg ensures SeriesSound(reg[sid], sid, orders') {
      assert SeriesSound(reg[sid], sid, orders);
      if reg[sid].payoffType.Categorical? && reg[sid].outcomes.Some? {
        forall o: OutcomeId ensures BestBid(orders', sid, o) <= BestBid(orders, sid, o) {
          ThinnerBids(orders', orders, sid, o);
        }
        TotalMonotone(Distinct(reg[sid].outcomes.value), Bids(orders', sid), Bids(orders, sid));
      }
    }
  }

  // Validation and insertion together keep the rule, whether or not the id was already in use.
  lemma PlacedStaysSound(reg: map<SeriesId, Series>, orders: map<OrderId, LimitOrder>, id: OrderId, order: LimitOrder)
    requires BookSound(reg, orders)
    requires order.series in reg
    requires NoArbitrage(orders, order.series, reg[order.series], order.side, order.outcome, order.price).Ok?
    ensures BookSound(reg, orders[id := order])
  {
    var orders' := orders[id := order];
    forall sid | sid in reg ensures SeriesSound(reg[sid], sid, orders') {
      assert SeriesSound(reg[sid], sid, orders);
      if reg[sid].payoffType.Categorical? && reg[sid].outcomes.Some? {
        var outcomes := Distinct(reg[sid].outcomes.value);
        var p := CeilUsd(order.price);
        if sid == order.series && order.side.Buy? {
          forall o: OutcomeId ensures Bids(orders', sid)(o, ()) <= BidsWith(orders, sid, order.outcome, p)(o, ()) {
            BestBidIsBest(orders', sid, o);
            BestBidIsBest(orders, sid, o);
          }
          TotalMonotone(outcomes, Bids(orders', sid), BidsWith(orders, sid, order.outcome, p));
        } else {
          forall o: OutcomeId ensures Bids(orders', sid)(o, ()) <= Bids(orders, sid)(o, ()) {
            BestBidIsBest(orders', sid, o);
            BestBidIsBest(orders, sid, o);
          }
          TotalMonotone(outcomes, Bids(orders', sid), Bids(orders, sid));
        }
      }
    }
  }

  // A bid the check turns away would have broken the rule: the check refuses nothing else, and it names
  // the sum of best bids that would have stood.
  lemma RefusedWouldBreak(reg: map<SeriesId, Series>, orders: map<OrderId, LimitOrder>, id: OrderId, order: LimitOrder)
    requires id !in orders
    requires order.series in reg
    requires NoArbitrage(orders, order.series, reg[order.series], order.side, order.outcome, order.price).Err?
    requires reg[order.series].payoffType.Categorical? ==> reg[order.series].outcomes.Some?
    ensures !BookSound(reg, orders[id := order])
    ensures order.side.Buy? && NoArbitrage(orders, order.series, reg[order.series], order.side, order.outcome, order.price).error
         == ArbitrageLimitExceeded(if reg[order.series].payoffType.Binary? then CeilUsd(order.price)
                                   else Max(0, Total(Distinct(reg[order.series].outcomes.value), Bids(orders[id := order], order.series))), UNIT)
  {
    var sid := order.series;
    var orders' := orders[id := order];
    assert id in orders' && orders'[id] == order;
    if reg[sid].payoffType.Categorical? {
      var p := CeilUsd(order.price);
      forall o: OutcomeId ensures BidsWith(orders, sid, order.outcome, p)(o, ()) == Bids(orders', sid)(o, ()) {
        BestBidIsBest(orders', sid, o);
        BestBidIsBest(orders, sid, o);
        if BestBid(orders, sid, o) > 0 {
          var j :| j in orders && BidPrice(orders[j], sid, o) == BestBid(orders, sid, o);
          assert j in orders' && orders'[j] == orders[j];
        }
      }
      TotalAgree(Distinct(reg[sid].outcomes.value), BidsWith(orders, sid, order.outcome, p), Bids(orders', sid));
    }
    assert !SeriesSound(reg[sid], sid, orders');
  }

  lemma SeenOneMore(seen: map<OrderId, LimitOrder>, id: OrderId, order: LimitOrder, sid: SeriesId, o: OutcomeId, best: nat)
    requires id !in seen
    requires IsBest(seen, sid, o, best)
    ensures IsBest(seen[id := order], sid, o, Max(best, BidPrice(order, sid, o)))
  {
    var now, v := seen[id := order], Max(best, BidPrice(order, sid, o));
    if v > 0 {
      if best <= BidPrice(order, sid, o) {
        assert id in now && BidPrice(now[id], sid, o) == v;
      } else {
        var j :| j in seen && BidPrice(seen[j], sid, o) == best;
        assert j in now && BidPrice(now[j], sid, o) == v;
      }
    }
  }

  // The scan over the book, keeping the best bid seen so far for each declared outcome.
  method BestBids(orders: map<OrderId, LimitOrder>, sid: SeriesId, outcomes: seq<OutcomeId>)
    returns (best: map<OutcomeId, nat>)
    ensures best.Keys == set o | o in outcomes
    ensures forall o :: o in best ==> best[o] == BestBid(orders, sid, o)
  {
    best := map[];
    for i := 0 to |outcomes|
      invariant best.Keys == set o | o in outcomes[..i]
      invariant forall o :: o in best ==> best[o] == 0
    {
      best := best[outcomes[i] := 0];
    }
    assert outcomes[..|outcomes|] == outcomes;
    var left := orders.Keys;
    ghost var seen: map<OrderId, LimitOrder> := map[];
    while left != {}
      invariant left <= orders.Keys
      invariant seen == map id | id in orders && id !in left :: orders[id]
      invariant best.Keys == set o | o in outcomes
      invariant forall o :: o in best ==> IsBest(seen, sid, o, best[o])
      decreases |left|
    {
      var id :| id in left;
      left := left - {id};
      ghost var was := best;
      best := SeeOrder(best, orders[id], sid);
      forall o | o in best ensures IsBest(seen[id := orders[id]], sid, o, best[o]) {
        SeenOneMore(seen, id, orders[id], sid, o, was[o]);
      }
      seen := seen[id := orders[id]];
    }
    assert seen == orders;
    forall o | o in best ensures best[o] == BestBid(orders, sid, o) {
      BestIsUnique(orders, sid, o, best[o]);
    }
  }

  method SeeOrder(best: map<OutcomeId, nat>, order: LimitOrder, sid: SeriesId) returns (best': map<OutcomeId, nat>)
    ensures best'.Keys == best.Keys
    ensures forall o :: o in best ==> best'[o] == Max(best[o], BidPrice(order, sid, o))
  {
    best' := best;
    if order.series == sid && order.side == Buy && order.outcome.Some? {
      var o, p := order.outcome.value, CeilUsd(order.price);
      if o in best && p > best[o] {
        best' := best[o := p];
      }
    }
  }

  method SumValues(m: map<OutcomeId, nat>, ghost w: (OutcomeId, ()) -> int) returns (sum: nat)
    requires forall o :: o in m ==> m[o] == w(o, ())
    ensures sum == Total(map o | o in m :: (), w)
  {
    var rest := m;
    ghost var domain := map o | o in m :: ();
    var acc := 0;
    while rest != map[]
      invariant rest.Keys <= m.Keys && forall o :: o in rest ==> rest[o] == m[o]
      invariant acc >= 0
      invariant domain == map o | o in rest :: ()
      invariant acc + Total(domain, w) == Total(map o | o in m :: (), w)
      decreases |rest|
    {
      var o :| o in rest;
      TotalRemove(domain, o, w);
      acc := acc + rest[o];
      rest := rest - {o};
      domain := domain - {o};
    }
    sum := acc;
  }

  method ValidateNoArbitrage(orders: map<OrderId, LimitOrder>, sid: SeriesId, series: Series,
                             side: Side, on: Option<OutcomeId>, price: Price)
    returns (r: Result<bool, TradeError>)
    ensures r == NoArbitrage(orders, sid, series, side, on, price)
  {
    if side != Buy { return Ok(true); }
    var p := CeilUsd(price);
    match series.payoffType {
      case Binary =>
        if p > UNIT { return Err(ArbitrageLimitExceeded(p, UNIT)); }
      case Categorical =>
        if series.outcomes.None? { return Err(Internal); }
        var best := BestBids(orders, sid, series.outcomes.value);
        if on.Some? && on.value in best && p > best[on.value] {
          best := best[on.value := p];
        }
        assert (map o | o in best :: ()) == Distinct(series.outcomes.value);
        var sum := SumValues(best, BidsWith(orders, sid, on, p));
        if sum > UNIT { return Err(ArbitrageLimitExceeded(sum, UNIT)); }
      case Call =>
      case Put =>
    }
    return Ok(true);
  }
}
