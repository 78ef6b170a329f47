// The clearing canister's state and the code that changes it. Every method is held to the function
// of module Clearing that gives its reply and the state it leaves.
module ClearingHouse {
  import opened Base
  import opened Payoffs
  import opened Types
  import opened Totals
  import opened Collateral
  import opened Book
  import opened C = Clearing
  import T = TradeEffects
  import A = SettlementAmounts

  // types/margin.rs, calculate_raw_equity_i128: cash plus what each balance counts for.
  method CalculateRawEquity(a: Account, d: Domain, configs: map<AssetId, AssetConfig>, metrics: map<AssetId, AssetMetric>)
    returns (total: int)
    ensures total == a.RawEquity(d, configs, metrics)
    ensures forall worth: map<AssetId, int> ::
      Appraises(worth, BalancesIn(a, d), configs, metrics) ==> total == a.GetCash(d) + Total(worth, Each())
  {
    total := a.GetCash(d);
    if d in a.balances {
      var rest := a.balances[d];
      ghost var w := HeldValue(configs, metrics);
      while rest != map[]
        invariant total + Total(rest, w) == a.RawEquity(d, configs, metrics)
        decreases |rest|
      {
        var id :| id in rest;
        TotalRemove(rest, id, w);
        if id in configs && id in metrics && configs[id].enabled {
          total := total + AssetValue(rest[id], configs[id], metrics[id]);
        }
        rest := rest - {id};
      }
    }
    forall worth: map<AssetId, int> | Appraises(worth, BalancesIn(a, d), configs, metrics)
      ensures total == a.GetCash(d) + Total(worth, Each())
    {
      EquityIsCashAndWorth(a, d, configs, metrics, worth);
    }
  }

  function CashflowIn(m: map<User, int>, u: User): int { if u in m then m[u] else 0 }

  method SumCashflows(entries: seq<SettlementPosition>) returns (m: map<User, int>)
    ensures forall u :: CashflowIn(m, u) == CashflowOf(entries, u)
  {
    m := map[];
    for i := 0 to |entries|
      invariant forall u :: CashflowIn(m, u) == CashflowOf(entries[..i], u)
    {
      assert entries[..i + 1][..i] == entries[..i] && entries[..i + 1][i] == entries[i];
      var e := entries[i];
      m := m[e.user := CashflowIn(m, e.user) + e.cashflow];
    }
    assert entries[..|entries|] == entries;
  }

  ghost function PostWith(m: map<User, int>, d: Domain, configs: map<AssetId, AssetConfig>, metrics: map<AssetId, AssetMetric>)
    : (User, Account) -> int
  {
    (u: User, a: Account) => Max(0, a.RawEquity(d, configs, metrics) + CashflowIn(m, u))
  }

  method PostEquityOf(u: User, a: Account, d: Domain, cashflows: map<User, int>,
                      configs: map<AssetId, AssetConfig>, metrics: map<AssetId, AssetMetric>) returns (post: int)
    ensures post == PostWith(cashflows, d, configs, metrics)(u, a)
  {
    var current := CalculateRawEquity(a, d, configs, metrics);
    var cashflow := CashflowIn(cashflows, u);
    post := if current + cashflow < 0 then 0 else current + cashflow;
  }

  method SumPostEquity(accounts: map<User, Account>, d: Domain, cashflows: map<User, int>,
                       configs: map<AssetId, AssetConfig>, metrics: map<AssetId, AssetMetric>) returns (total: int)
    ensures total == Total(accounts, PostWith(cashflows, d, configs, metrics))
  {
    ghost var w := PostWith(cashflows, d, configs, metrics);
    var rest := accounts;
    total := 0;
    while rest != map[]
      invariant total + Total(rest, w) == Total(accounts, w)
      decreases |rest|
    {
      var u :| u in rest;
      TotalRemove(rest, u, w);
      var post := PostEquityOf(u, rest[u], d, cashflows, configs, metrics);
      total := total + post;
      rest := rest - {u};
    }
  }

  // check_settlement_solvency: simulate every account's equity after the whole plan.
  method PostSettlementEquity(accounts: map<User, Account>, d: Domain, entries: seq<SettlementPosition>,
                              configs: map<AssetId, AssetConfig>, metrics: map<AssetId, AssetMetric>) returns (total: int)
    ensures total == Total(accounts, PostEquity(d, entries, configs, metrics))
  {
    var cashflows := SumCashflows(entries);
    total := SumPostEquity(accounts, d, cashflows, configs, metrics);
    TotalAgree(accounts, PostWith(cashflows, d, configs, metrics), PostEquity(d, entries, configs, metrics));
  }

  class House {
    var accounts: map<User, Account>
    var positions: map<PosKey, Position>
    var orders: map<OrderId, LimitOrder>
    var plans: map<SeriesId, SettlementPlan>
    var cached: map<SeriesId, Series>
    var executed: map<TradeId, nat>
    var treasury: nat
    var insurance: nat
    var events: seq<Event>
    var nextEventId: nat
    var configs: map<AssetId, AssetConfig>
    var metrics: map<AssetId, AssetMetric>
    var insuranceBps: nat
    var protocolBps: nat

    function Abs(): State
      reads this
    {
      State(Core(accounts, positions, orders, plans), Ops(cached, executed, treasury, insurance),
            Log(events, nextEventId), Market(configs, metrics, insuranceBps, protocolBps))
    }

    constructor (configs: map<AssetId, AssetConfig>, metrics: map<AssetId, AssetMetric>, insuranceBps: nat, protocolBps: nat)
      ensures Abs() == State(Core(map[], map[], map[], map[]), Ops(map[], map[], 0, 0), Log([], 0),
                             Market(configs, metrics, insuranceBps, protocolBps))
    {
      accounts, positions, orders, plans := map[], map[], map[], map[];
      cached, executed, treasury, insurance := map[], map[], 0, 0;
      events, nextEventId := [], 0;
      this.configs, this.metrics, this.insuranceBps, this.protocolBps := configs, metrics, insuranceBps, protocolBps;
    }

    method EquityOf(u: User, d: Domain) returns (equity: int)
      ensures equity == RawEquity(Abs(), u, d)
    {
      equity := CalculateRawEquity(AccountOf(accounts, u), d, configs, metrics);
    }

    // ---------------------------------------------------------------- api/collateral/api.rs

    // The finalising stretch of a deposit: the amount joins the balance, and the account is opened when
    // the depositor had none.
    method CreditDeposit(u: User, d: Domain, id: AssetId, amount: nat)
      modifies this`accounts
      ensures Abs() == old(Abs()).(core := WithBalance(old(Abs()).core, u, d, id, AccountOf(old(accounts), u).GetBalance(d, id) + amount))
    {
      var a := AccountOf(accounts, u);
      accounts := accounts[u := a.SetBalance(d, id, a.GetBalance(d, id) + amount)];
    }

    // ---------------------------------------------------------------- trade/service.rs

    // One counterparty's margin check of the validation phase.
    method CheckMargin(u: User, d: Domain, leg: Leg) returns (refusal: Option<TradeError>)
      ensures refusal == Insufficient(Abs(), u, d, leg)
    {
      var reserved := AccountOf(accounts, u).GetReserved(d);
      var target := if leg.reservedDelta > 0 then reserved + leg.reservedDelta else SatSub(reserved, -leg.reservedDelta);
      var equity := EquityOf(u, d);
      refusal := if equity < target then Some(InsufficientMargin(u, Max(0, equity), target)) else None;
    }

    // The update of one counterparty's account in the mutation phase.
    method UpdateAccount(u: User, d: Domain, leg: Leg)
      modifies this`accounts
      ensures accounts == old(accounts)[u := ApplyLeg(AccountOf(old(accounts), u), d, leg)]
    {
      var a := AccountOf(accounts, u);
      a := a.SetCash(d, a.GetCash(d) - leg.cashDelta);
      var reserved := a.GetReserved(d);
      if leg.reservedDelta > 0 {
        a := a.SetReserved(d, reserved + leg.reservedDelta);
      } else {
        a := a.SetReserved(d, SatSub(reserved, -leg.reservedDelta));
      }
      accounts := accounts[u := a];
    }

    method UpdatePosition(k: PosKey, qty: int, margin: nat)
      modifies this`positions
      ensures positions == old(positions)[k := Position(PositionOf(old(positions), k).netQty + qty, margin)]
    {
      var p := PositionOf(positions, k);
      positions := positions[k := Position(p.netQty + qty, margin)];
    }

    method ValidateTrade(series: Series, t: TradeParams) returns (refusal: Option<TradeError>)
      ensures refusal == TradeRefusal(Abs(), series, t)
    {
      if t.buyer == t.seller { return Some(SelfTrading); }
      var b, l := BuyerLeg(Abs().core, series, t), SellerLeg(Abs().core, series, t);
      if b.Err? || l.Err? { return Some(Internal); }
      if series.domain == Social { return None; }
      refusal := CheckMargin(t.buyer, series.domain, b.value);
      if refusal.None? { refusal := CheckMargin(t.seller, series.domain, l.value); }
    }

    method UpdateBooks(d: Domain, t: TradeParams, b: Leg, l: Leg)
      modifies this`accounts, this`positions
      ensures Abs().core == Traded(old(Abs()).core, d, t, b, l)
    {
      hide ApplyLeg, PositionOf, AccountOf, KeyOf;
      UpdateAccount(t.buyer, d, b);
      UpdateAccount(t.seller, d, l);
      UpdatePosition(KeyOf(t, t.buyer), t.qty, b.newMargin);
      UpdatePosition(KeyOf(t, t.seller), -t.qty, l.newMargin);
    }

    method RecordTrade(t: TradeParams, now: nat)
      modifies this`nextEventId, this`events, this`executed
      ensures Abs() == Recorded(old(Abs()), t, now)
    {
      var eventId := nextEventId;
      nextEventId := nextEventId + 1;
      events := events + [Event(eventId, t.seriesId, t.buyer, t.qty, t.price, Executed, now),
                          Event(eventId, t.seriesId, t.seller, -t.qty, t.price, Executed, now)];
      executed := executed[t.tradeId := eventId];
    }

    method ExecuteTrade(series: Series, t: TradeParams, now: nat) returns (r: Result<bool, TradeError>)
      modifies this
      ensures Reply(Abs(), r) == C.ExecuteTrade(old(Abs()), series, t, now)
    {
      if t.tradeId in executed { return Ok(true); }
      var refusal := ValidateTrade(series, t);
      if refusal.Some? { return Err(refusal.value); }
      var b, l := BuyerLeg(Abs().core, series, t).value, SellerLeg(Abs().core, series, t).value;
      UpdateBooks(series.domain, t, b, l);
      RecordTrade(t, now);
      assert Abs() == TradeDone(old(Abs()), series, t, now);
      r := Ok(true);
    }

    // ---------------------------------------------------------------- api/trade/api.rs: orders

    // submit_limit_order from its last await on.
    method PlaceLimitOrder(caller: User, series: Series, p: OrderParams) returns (r: Result<bool, TradeError>)
      modifies this
      ensures Reply(Abs(), r) == C.PlaceLimitOrder(old(Abs()), caller, series, p)
    {
      hide NoArbitrage, GetRequiredMargin, RawEquity;
      r := ValidateNoArbitrage(orders, p.seriesId, series, p.side, p.outcome, p.price);
      if r.Err? { return; }
      var margin := GetRequiredMargin(series, p.price, Signed(p.side, p.qty));
      if margin.Err? { return Err(Internal); }
      var d := series.domain;
      var raw := EquityOf(caller, d);
      accounts := accounts[caller := AccountOf(accounts, caller)];
      var target := accounts[caller].GetReserved(d) + margin.value;
      if Max(0, raw) < target { return Err(InsufficientMargin(caller, Max(0, raw), target)); }
      accounts := accounts[caller := accounts[caller].SetReserved(d, target)];
      orders := orders[p.orderId := LimitOrder(caller, p.seriesId, p.outcome, p.side, p.qty, p.price, margin.value, d)];
      r := Ok(true);
    }

    method SubmitLimitOrder(caller: User, series: Series, p: OrderParams) returns (r: Result<bool, TradeError>)
      modifies this
      ensures Reply(Abs(), r) == C.SubmitLimitOrder(old(Abs()), caller, series, p)
    {
      if p.qty <= 0 { return Err(InvalidInput); }
      if p.price.value == 0 { return Err(InvalidInput); }
      if p.orderId in orders { return Ok(true); }
      r := PlaceLimitOrder(caller, series, p);
    }

    // The book changes only after the trade has succeeded.
    method ShrinkOrder(id: OrderId, rest: LimitOrder)
      modifies this`orders
      ensures Abs() == old(Abs()).(core := Shrunk(old(Abs()).core, id, rest))
    {
      if rest.qty == 0 {
        orders := orders - {id};
      } else {
        orders := orders[id := rest];
      }
    }

    method TradeThenShrink(t: TradeParams, series: Series, id: OrderId, rest: LimitOrder, now: nat) returns (r: Result<bool, TradeError>)
      modifies this
      ensures Reply(Abs(), r) == TradeAndShrink(old(Abs()), series, t, id, rest, now)
    {
      r := ExecuteTrade(series, t, now);
      if r.Err? { return; }
      ShrinkOrder(id, rest);
      r := Ok(true);
    }

    // The part of submit_market_order_impl that works on the order as it stands now.
    method FillLive(taker: User, id: OrderId, o: LimitOrder, tradeId: TradeId, series: Series, fill: int, now: nat)
      returns (r: Result<bool, TradeError>)
      modifies this
      ensures Reply(Abs(), r) == C.FillLive(old(Abs()), taker, id, o, tradeId, series, fill, now)
    {
      hide C.ExecuteTrade, StillBlocked;
      var kept := StillBlocked(series, o, fill);
      if !Affordable(o, kept) { return Err(Internal); }
      var t := FillParams(o, taker, tradeId, fill, o.blocked - kept.value);
      var rest := o.(qty := o.qty - fill, blocked := kept.value);
      r := TradeThenShrink(t, series, id, rest, now);
    }

    method SubmitMarketOrder(taker: User, id: OrderId, seen: LimitOrder, tradeId: TradeId, series: Series,
                             requested: Option<int>, now: nat) returns (r: Result<bool, TradeError>)
      modifies this
      ensures Reply(Abs(), r) == C.FillOrder(old(Abs()), taker, id, seen, tradeId, series, requested, now)
      ensures r.Ok? && tradeId !in old(executed) ==>
        && id in old(orders)
        && var o := old(orders)[id];
           exists kept: nat :: kept <= o.blocked
             && T.Filled(old(Abs()), Abs(), taker, id, tradeId, series, o, Min(requested.Or(o.qty), o.qty), kept, now)
    {
      hide T.Filled;
      if requested.Some? && requested.value <= 0 { return Err(InvalidInput); }
      if tradeId in executed { return Ok(true); }
      if id !in orders { return Err(OrderNotFound(id)); }
      var current := orders[id];
      if !SameOrder(current, seen) { return Err(OrderNotFound(id)); }
      var fill := if requested.None? then current.qty else Min(requested.value, current.qty);
      r := FillLive(taker, id, current, tradeId, series, fill, now);
      if r.Ok? {
        ghost var kept := T.FillChangesHands(old(Abs()), taker, id, seen, tradeId, series, requested, now);
      }
    }

    method ReleaseMargin(u: User, d: Domain, amount: nat)
      modifies this`accounts
      ensures accounts == Release(old(accounts), u, d, amount)
    {
      if u in accounts {
        var a := accounts[u];
        accounts := accounts[u := a.SetReserved(d, SatSub(a.GetReserved(d), amount))];
      }
    }

    method CancelLimitOrder(caller: User, id: OrderId) returns (r: Result<bool, TradeError>)
      modifies this
      ensures Reply(Abs(), r) == C.CancelLimitOrder(old(Abs()), caller, id)
    {
      if id !in orders { return Err(OrderNotFound(id)); }
      if orders[id].creator != caller { return Err(NotOrderCreator); }
      var o := orders[id];
      orders := orders - {id};
      ReleaseMargin(caller, o.domain, o.blocked);
      r := Ok(true);
    }

    // ---------------------------------------------------------------- api/trade/api.rs: complete sets

    method GrantPositions(caller: User, sid: SeriesId, outcomes: seq<OutcomeId>, qty: int, share: nat)
      modifies this`positions
      ensures positions == Granted(old(positions), caller, sid, outcomes, qty, share)
    {
      for i := 0 to |outcomes|
        invariant Granted(positions, caller, sid, outcomes[i..], qty, share)
               == Granted(old(positions), caller, sid, outcomes, qty, share)
      {
        var k := SetKey(caller, sid, outcomes[i]);
        var p := PositionOf(positions, k);
        assert outcomes[i..][0] == outcomes[i] && outcomes[i..][1..] == outcomes[i + 1..];
        positions := positions[k := Position(p.netQty + qty, p.margin + share)];
      }
    }

    method MintCompleteSet(caller: User, sid: SeriesId, series: Series, qty: int) returns (r: Result<bool, TradeError>)
      modifies this
      ensures Reply(Abs(), r) == C.MintCompleteSet(old(Abs()), caller, sid, series, qty)
    {
      hide Granted, RawEquity;
      if qty <= 0 || !series.payoffType.Categorical? { return Err(InvalidInput); }
      if series.outcomes.None? { return Err(Internal); }
      var outcomes, d, cost := series.outcomes.value, series.domain, qty * UNIT;
      var raw := EquityOf(caller, d);
      var known := accounts;
      accounts := accounts[caller := AccountOf(accounts, caller)];
      var target := accounts[caller].GetReserved(d) + cost;
      if raw < target { return Err(InsufficientMargin(caller, Max(0, raw), target)); }
      accounts := accounts[caller := accounts[caller].SetReserved(d, target)];
      if |outcomes| == 0 {
        // The division by the number of outcomes traps, and a trap undoes the message.
        accounts := known;
        return Err(Trapped);
      }
      GrantPositions(caller, sid, outcomes, qty, FloorDiv(cost, |outcomes|));
      r := Ok(true);
    }

    method HoldsEnough(caller: User, sid: SeriesId, outcomes: seq<OutcomeId>, qty: int) returns (enough: bool)
      ensures enough == CanRedeem(positions, caller, sid, outcomes, qty)
    {
      for i := 0 to |outcomes|
        invariant forall j :: 0 <= j < i ==> PositionOf(positions, SetKey(caller, sid, outcomes[j])).netQty >= qty
      {
        if PositionOf(positions, SetKey(caller, sid, outcomes[i])).netQty < qty {
          assert outcomes[i] in outcomes;
          return false;
        }
      }
      enough := true;
    }

    // The deduction loop; false when it trapped.
    method DeductPositions(caller: User, d: Domain, sid: SeriesId, outcomes: seq<OutcomeId>, qty: nat) returns (done: bool)
      modifies this`accounts, this`positions
      ensures done == Redeemed(old(Abs()).core, caller, d, sid, outcomes, qty).Some?
      ensures done ==> Abs().core == Redeemed(old(Abs()).core, caller, d, sid, outcomes, qty).value
    {
      for i := 0 to |outcomes|
        invariant Redeemed(Abs().core, caller, d, sid, outcomes[i..], qty)
               == Redeemed(old(Abs()).core, caller, d, sid, outcomes, qty)
        invariant orders == old(orders) && plans == old(plans)
      {
        var k := SetKey(caller, sid, outcomes[i]);
        assert outcomes[i..][0] == outcomes[i] && outcomes[i..][1..] == outcomes[i + 1..];
        if k in positions {
          var p := positions[k];
          if CastUnsigned(p.netQty) == 0 { return false; }
          var unitMargin := FloorDiv(p.margin, CastUnsigned(p.netQty));
          var toRelease := unitMargin * qty;
          positions := positions[k := Position(p.netQty - qty, SatSub(p.margin, toRelease))];
          ReleaseMargin(caller, d, toRelease);
        }
      }
      done := true;
    }

    method RedeemCompleteSet(caller: User, sid: SeriesId, series: Series, qty: int) returns (r: Result<bool, TradeError>)
      modifies this
      ensures Reply(Abs(), r) == C.RedeemCompleteSet(old(Abs()), caller, sid, series, qty)
    {
      if qty <= 0 || !series.payoffType.Categorical? { return Err(InvalidInput); }
      if series.outcomes.None? { return Err(Internal); }
      var outcomes := series.outcomes.value;
      var enough := HoldsEnough(caller, sid, outcomes, qty);
      if !enough { return Err(InvalidInput); }
      var heldAccounts, heldPositions := accounts, positions;
      var done := DeductPositions(caller, series.domain, sid, outcomes, qty);
      if !done {
        // A trap undoes the message.
        accounts, positions := heldAccounts, heldPositions;
        return Err(Trapped);
      }
      r := Ok(true);
    }

    // ---------------------------------------------------------------- api/settlement/api.rs

    // The gathering loop of prepare_settlement_impl over the series' positions in key order.
    method GatherLines(series: Series, keys: seq<PosKey>, settlement: SettlementInput)
      returns (lines: Result<seq<Line>, PayoffError>, insuranceFees: nat, fees: nat, outflow: nat)
      requires forall i :: 0 <= i < |keys| ==> keys[i] in positions
      ensures lines == LinesOf(positions, Abs().market, series, keys, settlement)
      ensures lines.Ok? ==> insuranceFees == InsuranceFees(lines.value)
      ensures lines.Ok? ==> fees == ProtocolFees(lines.value)
      ensures lines.Ok? ==> outflow == Outflows(lines.value)
    {
      var results: seq<Line> := [];
      insuranceFees, fees, outflow := 0, 0, 0;
      for i := 0 to |keys|
        invariant LinesOf(positions, Abs().market, series, keys[..i], settlement) == Ok(results)
        invariant insuranceFees == InsuranceFees(results) && fees == ProtocolFees(results) && outflow == Outflows(results)
      {
        assert keys[..i + 1][..i] == keys[..i] && keys[..i + 1][i] == keys[i];
        var line := LineOf(series, keys[i], positions[keys[i]], settlement, insuranceBps, protocolBps);
        if line.Err? {
          FirstErrorDecides(positions, Abs().market, series, keys, settlement, i + 1);
          return Err(line.error), insuranceFees, fees, outflow;
        }
        insuranceFees := insuranceFees + line.value.insuranceFee;
        fees := fees + line.value.fee;
        if line.value.entry.cashflow > 0 { outflow := outflow + line.value.entry.cashflow; }
        assert (results + [line.value])[..|results|] == results;
        results := results + [line.value];
      }
      assert keys[..|keys|] == keys;
      lines := Ok(results);
    }

    // The filtering scan over the book, in whatever order its map is walked.
    method OrdersOn(sid: SeriesId) returns (ids: seq<OrderId>)
      ensures Lists(ids, OrdersOfSeries(orders, sid))
    {
      ids := [];
      var left := orders.Keys;
      while left != {}
        invariant left <= orders.Keys
        invariant Lists(ids, OrdersOfSeries(orders, sid) - left)
        decreases |left|
      {
        var id :| id in left;
        left := left - {id};
        if orders[id].series == sid {
          ListsOneMore(ids, OrdersOfSeries(orders, sid) - left - {id}, id);
          assert OrdersOfSeries(orders, sid) - left - {id} + {id} == OrdersOfSeries(orders, sid) - left;
          ids := ids + [id];
        }
        assert Lists(ids, OrdersOfSeries(orders, sid) - left);
      }
    }

    // The same scan over the positions.
    method PositionsOn(sid: SeriesId) returns (keys: seq<PosKey>)
      ensures Lists(keys, KeysOfSeries(positions, sid))
    {
      keys := [];
      var left := positions.Keys;
      while left != {}
        invariant left <= positions.Keys
        invariant Lists(keys, KeysOfSeries(positions, sid) - left)
        decreases |left|
      {
        var k :| k in left;
        left := left - {k};
        if k.series == sid {
          ListsOneMore(keys, KeysOfSeries(positions, sid) - left - {k}, k);
          assert KeysOfSeries(positions, sid) - left - {k} + {k} == KeysOfSeries(positions, sid) - left;
          keys := keys + [k];
        }
        assert Lists(keys, KeysOfSeries(positions, sid) - left);
      }
    }

    method CancelOpenLimitOrders(sid: SeriesId) returns (ids: seq<OrderId>)
      modifies this`orders, this`accounts
      ensures Lists(ids, OrdersOfSeries(old(orders), sid))
      ensures orders == old(orders) - SetOf(ids)
      ensures accounts == ReleaseAll(old(accounts), old(orders), ids)
    {
      ids := OrdersOn(sid);
      var matching := orders;
      for i := 0 to |ids|
        invariant orders == matching - SetOf(ids[..i])
        invariant accounts == old(accounts)
      {
        assert SetOf(ids[..i + 1]) == SetOf(ids[..i]) + {ids[i]};
        orders := orders - {ids[i]};
      }
      assert ids[..|ids|] == ids;
      for i := 0 to |ids|
        invariant ReleaseAll(accounts, matching, ids[i..]) == ReleaseAll(old(accounts), matching, ids)
        invariant orders == matching - SetOf(ids)
      {
        assert ids[i..][0] == ids[i] && ids[i..][1..] == ids[i + 1..];
        var o := matching[ids[i]];
        ReleaseMargin(o.creator, o.domain, o.blocked);
      }
    }

    method RemovePositions(keys: seq<PosKey>)
      modifies this`positions
      ensures positions == old(positions) - SetOf(keys)
    {
      for i := 0 to |keys|
        invariant positions == old(positions) - SetOf(keys[..i])
      {
        assert SetOf(keys[..i + 1]) == SetOf(keys[..i]) + {keys[i]};
        positions := positions - {keys[i]};
      }
      assert keys[..|keys|] == keys;
    }

    // keys and ids are the orders in which the two scans met the series' positions and orders.
    method PrepareSettlement(sid: SeriesId, series: Series, settlement: SettlementInput, now: nat)
      returns (r: Result<bool, SettlementError>, keys: seq<PosKey>, ghost ids: seq<OrderId>)
      requires sid !in plans
      modifies this
      ensures Listings(old(Abs()).core, sid, keys, ids)
      ensures Reply(Abs(), r) == C.PrepareSettlement(old(Abs()), sid, series, settlement, keys, ids, now)
      ensures r.Ok? ==> sid in plans && A.EntriesFor(series, settlement, old(Abs()), keys, plans[sid].positions)
      ensures r.Err? ==> Abs() == old(Abs())
    {
      hide A.EntriesFor;
      hide LinesOf, ReleaseAll, Outflows, InsuranceFees, ProtocolFees, OrdersOfSeries, PostEquity, Entries;
      keys := PositionsOn(sid);
      ids := ListingOf(OrdersOfSeries(orders, sid));
      var lines, insuranceFees, fees, outflow := GatherLines(series, keys, settlement);
      if lines.Err? {
        r := Err(PayoffFailed);
        return;
      }
      var entries := Entries(lines.value);
      var equity := PostSettlementEquity(accounts, series.domain, entries, configs, metrics);
      if outflow > equity {
        r := Err(SolvencyViolation(outflow, equity));
        return;
      }
      A.LinesAreExact(Abs(), series, settlement, keys);
      RemovePositions(keys);
      ids := CancelOpenLimitOrders(sid);
      plans := plans[sid := SettlementPlan(settlement, fees, insuranceFees, entries, 0, false, Planned, series.domain, now)];
      r := Ok(true);
    }

    // apply_settlement_accounting_logic: from the cursor to the end, or to the multiple of 100 where
    // the instruction counter is running.
    method ApplyAccounting(sid: SeriesId, plan: SettlementPlan, running: set<nat>, now: nat) returns (cursor: nat)
      requires PlanInRange(plan)
      modifies this`accounts, this`events, this`nextEventId
      ensures cursor == EndFor(plan, running)
      ensures accounts == ApplyEntries(old(accounts), plan.domain, plan.positions, plan.cursor, cursor)
      ensures Log(events, nextEventId)
           == var emitted := EntryEvents(old(accounts), sid, plan, plan.cursor, cursor, old(nextEventId), now);
              Append(Log(old(events), old(nextEventId)), emitted, |emitted|)
    {
      var price := EventPrice(plan.settlement);
      var emitted: seq<Event> := [];
      cursor := plan.cursor;
      var stopped := false;
      while cursor < |plan.positions| && !stopped
        invariant plan.cursor <= cursor <= |plan.positions|
        invariant accounts == ApplyEntries(old(accounts), plan.domain, plan.positions, plan.cursor, cursor)
        invariant accounts.Keys == old(accounts).Keys
        invariant emitted == EntryEvents(old(accounts), sid, plan, plan.cursor, cursor, old(nextEventId), now)
        invariant nextEventId == old(nextEventId) + |emitted| && events == old(events)
        invariant ChunkEnd(plan.cursor, |plan.positions|, running)
               == if stopped then cursor else ChunkEnd(cursor, |plan.positions|, running)
        decreases |plan.positions| - cursor, !stopped
      {
        var e := plan.positions[cursor];
        if e.user in accounts {
          var a := accounts[e.user];
          a := a.SetCash(plan.domain, a.GetCash(plan.domain) + e.cashflow);
          a := a.SetReserved(plan.domain, SatSub(a.GetReserved(plan.domain), e.margin));
          accounts := accounts[e.user := a];
          emitted := emitted + [Event(nextEventId, sid, e.user, e.cashflow, price, Settled, now)];
          nextEventId := nextEventId + 1;
        }
        cursor := cursor + 1;
        if cursor % 100 == 0 && cursor in running { stopped := true; }
      }
      events := events + emitted;
    }

    method CreditFunds(plan: SettlementPlan)
      modifies this`treasury, this`insurance
      ensures treasury == old(treasury) + plan.fee && insurance == old(insurance) + plan.insuranceFee
    {
      treasury := treasury + plan.fee;
      insurance := insurance + plan.insuranceFee;
    }

    // Phase B: one run of the accounting, and the fees once it reaches the last entry.
    method AccountFor(sid: SeriesId, plan: SettlementPlan, running: set<nat>, now: nat) returns (current: SettlementPlan)
      requires PlanInRange(plan) && !plan.applied
      modifies this`accounts, this`events, this`nextEventId, this`plans, this`treasury, this`insurance
      ensures var end := EndFor(plan, running);
        && current == DrivenPlan(plan, end).(status := Executing)
        && plans == old(plans)[sid := current]
        && accounts == DrivenCore(old(Abs()).core, sid, plan, end).accounts
        && Abs().log == DrivenLog(old(Abs()).log, old(accounts), sid, plan, end, now)
        && treasury == DrivenOps(old(Abs()).ops, sid, plan, end).treasury
        && insurance == DrivenOps(old(Abs()).ops, sid, plan, end).insurance
    {
      current := if plan.status.Planned? then plan.(status := Executing) else plan;
      var cursor := ApplyAccounting(sid, plan, running, now);
      var newlyApplied := cursor == |plan.positions|;
      current := plan.(cursor := cursor, applied := newlyApplied, status := Executing);
      plans := plans[sid := current];
      if newlyApplied { CreditFunds(plan); }
    }

    // Phases B and C of settle_series_inner.
    method DriveSettlement(sid: SeriesId, plan: SettlementPlan, running: set<nat>, now: nat) returns (r: Result<bool, SettlementError>)
      requires PlanInRange(plan)
      modifies this
      ensures Reply(Abs(), r) == DriveTo(old(Abs()), sid, plan, EndFor(plan, running), now)
    {
      hide ApplyEntries, EntryEvents, ChunkEnd, EndFor;
      var current := plan;
      if !plan.applied { current := AccountFor(sid, plan, running, now); }
      if current.applied {
        plans := plans[sid := current.(status := Finalised)];
        cached := cached - {sid};
        r := Ok(true);
      } else {
        r := Ok(false);
      }
      assert plans == old(plans)[sid := DrivenPlan(plan, EndFor(plan, running))];
    }

    method SettleSeries(sid: SeriesId, settlement: SettlementInput, running: set<nat>, now: nat)
      returns (r: Result<bool, SettlementError>, ghost keys: seq<PosKey>, ghost ids: seq<OrderId>)
      requires PlansInRange(plans)
      modifies this
      ensures Listings(old(Abs()).core, sid, keys, ids)
      ensures Reply(Abs(), r) == C.SettleSeries(old(Abs()), sid, settlement, keys, ids, running, now)
      ensures r.Err? ==> Abs() == old(Abs())
      ensures r.Ok? ==> sid in plans && (r.value <==> plans[sid].status.Finalised?)
    {
      keys := ListingOf(KeysOfSeries(positions, sid));
      ids := ListingOf(OrdersOfSeries(orders, sid));
      if sid in plans {
        if plans[sid].status.Finalised? {
          r := Ok(true);
          return;
        }
        if plans[sid].settlement != settlement {
          r := Err(InconsistentSettlement(plans[sid].settlement, settlement));
          return;
        }
      } else {
        if sid !in cached {
          r := Err(Unauthorized);
          return;
        }
        r, keys, ids := PrepareSettlement(sid, cached[sid], settlement, now);
        if r.Err? { return; }
      }
      r := DriveSettlement(sid, plans[sid], running, now);
    }
  }

  lemma ListsOneMore<K(!new)>(keys: seq<K>, elements: set<K>, k: K)
    requires Lists(keys, elements) && k !in elements
    ensures Lists(keys + [k], elements + {k})
  {
    var keys' := keys + [k];
    assert keys'[|keys|] == k;
    forall x | x in elements + {k} ensures x in keys' {
      if x in elements { assert x in keys; }
    }
  }

  // Every set can be listed.
  lemma {:induction false} ListingOf<K(!new)>(elements: set<K>) returns (keys: seq<K>)
    ensures Lists(keys, elements)
    decreases |elements|
  {
    if elements == {} {
      keys := [];
    } else {
      var k :| k in elements;
      var rest := ListingOf(elements - {k});
      ListsOneMore(rest, elements - {k}, k);
      assert elements - {k} + {k} == elements;
      keys := rest + [k];
    }
  }

  // The first position that cannot be valued decides the error of the whole gathering.
  lemma {:induction false} FirstErrorDecides(positions: map<PosKey, Position>, m: Market, series: Series, keys: seq<PosKey>,
                                             settlement: SettlementInput, i: nat)
    requires forall j :: 0 <= j < |keys| ==> keys[j] in positions
    requires i <= |keys|
    requires LinesOf(positions, m, series, keys[..i], settlement).Err?
    ensures LinesOf(positions, m, series, keys, settlement) == LinesOf(positions, m, series, keys[..i], settlement)
    decreases |keys|
  {
    hide ApplyEntries, EntryEvents;
    hide NoArbitrage, GetRequiredMargin, CeilUsd;
    hide Granted, RawEquity;
    if i == |keys| {
      assert keys[..i] == keys;
    } else {
      var n := |keys| - 1;
      assert keys[..n][..i] == keys[..i];
      FirstErrorDecides(positions, m, series, keys[..n], settlement, i);
    }
  }
}
