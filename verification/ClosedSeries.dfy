// A series with a settlement plan has no orders and no positions: the invariant that cancelling orders
// during preparation and refusing settled series at the gate are there to keep
// (src/clearing/src/api/settlement/api.rs, src/clearing/src/utils/series.rs).
module ClosedSeries {
  import opened Base
  import opened Payoffs
  import opened Types
  import opened Totals
  import opened Book
  import opened Clearing
  import opened Coverage
  import opened SettlementCoverage
  import opened Rekey
  import opened Runs
  import opened CoverageRuns
  import opened CoverageTheorem
  import opened SettlementRuns
  import opened BookRuns

  ghost predicate NoOrdersOn(orders: map<OrderId, LimitOrder>, plans: map<SeriesId, SettlementPlan>) {
    forall id :: id in orders ==> orders[id].series !in plans
  }

  ghost predicate NoPositionsOn(positions: map<PosKey, Position>, plans: map<SeriesId, SettlementPlan>) {
    forall k :: k in positions ==> k.series !in plans
  }

  ghost predicate Closed(c: Core) { NoOrdersOn(c.orders, c.plans) && NoPositionsOn(c.positions, c.plans) }

  // A step that resumes on a series that was settled while it was suspended, and passes its own checks.
  ghost predicate Late(reg: Registry, s: State, step: Step)
    requires Enabled(reg, s, step)
  {
    match step
    case Limit(caller, p) => p.seriesId in s.core.plans && LimitPasses(s, caller, reg[p.seriesId], p)
    case Matched(t, now) => t.seriesId in s.core.plans && Executes(s, reg[t.seriesId], t)
    case Mint(caller, sid, qty) => sid in s.core.plans && MintPasses(s, caller, reg[sid], qty)
    case _ => false
  }

  // ---------------------------------------------------------------- step by step

  lemma LimitCloses(s: State, caller: User, series: Series, p: OrderParams)
    requires Closed(s.core)
    ensures var r := PlaceLimitOrder(s, caller, series, p);
      && (r.result.Ok? <==> LimitPasses(s, caller, series, p))
      && (Closed(r.state.core) <==> !(p.seriesId in s.core.plans && LimitPasses(s, caller, series, p)))
  {
    hide NoArbitrage, RawEquity, GetRequiredMargin;
    var r := PlaceLimitOrder(s, caller, series, p);
    if r.result.Ok? { assert r.state.core.orders[p.orderId].series == p.seriesId; }
  }

  lemma TradeCloses(s: State, series: Series, t: TradeParams, now: nat)
    requires Closed(s.core)
    ensures Closed(ExecuteTrade(s, series, t, now).state.core)
         <==> !(t.seriesId in s.core.plans && Executes(s, series, t))
  {
    if Executes(s, series, t) {
      ExecutedCore(s, series, t, now);
      var c := ExecuteTrade(s, series, t, now).state.core;
      assert KeyOf(t, t.buyer) in c.positions && KeyOf(t, t.buyer).series == t.seriesId;
    } else {
      FailedTradeChangesNothing(s, series, t, now);
    }
  }

  lemma {:induction false} GrantsFirst(positions: map<PosKey, Position>, u: User, sid: SeriesId, outcomes: seq<OutcomeId>, qty: int, share: nat)
    ensures forall k :: k in positions ==> k in Granted(positions, u, sid, outcomes, qty, share)
    ensures outcomes != [] ==> SetKey(u, sid, outcomes[0]) in Granted(positions, u, sid, outcomes, qty, share)
    decreases |outcomes|
  {
    if outcomes == [] {
    } else {
      var k := SetKey(u, sid, outcomes[0]);
      var p := PositionOf(positions, k);
      GrantsFirst(positions[k := Position(p.netQty + qty, p.margin + share)], u, sid, outcomes[1..], qty, share);
    }
  }

  lemma MintCloses(s: State, caller: User, sid: SeriesId, series: Series, qty: int)
    requires Closed(s.core)
    ensures var r := MintCompleteSet(s, caller, sid, series, qty);
      && (r.result.Ok? <==> MintPasses(s, caller, series, qty))
      && (Closed(r.state.core) <==> !(sid in s.core.plans && MintPasses(s, caller, series, qty)))
  {
    hide RawEquity;
    var r := MintCompleteSet(s, caller, sid, series, qty);
    if r.result.Ok? {
      var outcomes, share := series.outcomes.value, FloorDiv(qty * UNIT, |series.outcomes.value|);
      GrantsFirst(s.core.positions, caller, sid, outcomes, qty, share);
      var key := SetKey(caller, sid, outcomes[0]);
      assert key in r.state.core.positions && key.series == sid;
      forall k | k in r.state.core.positions ensures k.series == sid || k in s.core.positions {
        GrantedKeys(s.core.positions, caller, sid, outcomes, qty, share, k);
      }
    }
  }

  lemma {:induction false} RedeemedCloses(c: Core, u: User, d: Domain, sid: SeriesId, outcomes: seq<OutcomeId>, qty: nat)
    requires Closed(c)
    ensures var r := Redeemed(c, u, d, sid, outcomes, qty); r.Some? ==> Closed(r.value)
    decreases |outcomes|
  {
    if outcomes == [] {
    } else {
      var k := SetKey(u, sid, outcomes[0]);
      if k !in c.positions {
        RedeemedCloses(c, u, d, sid, outcomes[1..], qty);
      } else {
        RedeemedCloses(RedeemOne(c, u, d, k, qty), u, d, sid, outcomes[1..], qty);
      }
    }
  }

  lemma RedeemCloses(s: State, caller: User, sid: SeriesId, series: Series, qty: int)
    requires Closed(s.core)
    ensures Closed(RedeemCompleteSet(s, caller, sid, series, qty).state.core)
  {
    hide Closed, Redeemed;
    if qty > 0 && series.outcomes.Some? { RedeemedCloses(s.core, caller, series.domain, sid, series.outcomes.value, qty); }
  }

  // A fill needs an order on the book, and a settled series has none.
  lemma FillCloses(reg: Registry, s: State, step: Step)
    requires step.Fill? && step.seen.series in reg && Frame(reg, s.core) && Closed(s.core)
    ensures Closed(After(reg, s, step).core)
  {
    hide Executes, ExecuteTrade;
    var Fill(taker, id, seen, tradeId, requested, now) := step;
    FillOrders(reg, s, step);
    FillShape(reg, s, taker, id, seen, tradeId, requested, now);
    if Fills(reg, s, taker, id, seen, tradeId, requested, now) {
      var o := s.core.orders[id];
      var fill := FillQty(requested, o.qty);
      var t := FillTrade(reg, o, taker, tradeId, fill);
      TradeCloses(s, reg[o.series], t, now);
      TradeLeavesPlans(s, reg[o.series], t, now);
      AfterTradeDone(ExecuteTrade(s, reg[o.series], t, now), id, Rest(reg, o, fill)) by { FillExecutes(reg, s, step); }
    }
  }

  lemma DriveCloses(s: State, sid: SeriesId, plan: SettlementPlan, end: nat, now: nat)
    requires sid in s.core.plans && Reaches(plan, end) && Closed(s.core)
    ensures Closed(DriveTo(s, sid, plan, end, now).state.core)
  {
  }

  lemma OpeningCloses(s: State, sid: SeriesId, settlement: SettlementInput, keys: seq<PosKey>, ids: seq<OrderId>, now: nat)
    requires Listings(s.core, sid, keys, ids) && Prepares(s, sid, settlement, keys, ids, now) && Closed(s.core)
    ensures var s1 := OpenedState(s, sid, settlement, keys, ids, now); Closed(s1.core) && sid in s1.core.plans
  {
    hide LinesOf, PostEquityTotal, ReleaseAll;
    var c1 := OpenedState(s, sid, settlement, keys, ids, now).core;
    forall k | k in c1.positions ensures k.series !in c1.plans {
      assert k.series == sid ==> k in KeysOfSeries(s.core.positions, sid);
    }
    forall id | id in c1.orders ensures c1.orders[id].series !in c1.plans {
      assert s.core.orders[id].series == sid ==> id in OrdersOfSeries(s.core.orders, sid);
    }
  }

  lemma SettleCloses(s: State, sid: SeriesId, settlement: SettlementInput, keys: seq<PosKey>, ids: seq<OrderId>,
                     running: set<nat>, now: nat)
    requires PlansInRange(s.core.plans) && Listings(s.core, sid, keys, ids) && Closed(s.core)
    ensures Closed(SettleSeries(s, sid, settlement, keys, ids, running, now).state.core)
  {
    hide SettleSeries, Prepares, Closed, DriveTo, OpenedState, OpenedPlan;
    SettleShape(s, sid, settlement, keys, ids, running, now);
    if Resumes(s, sid, settlement) {
      DriveCloses(s, sid, s.core.plans[sid], EndFor(s.core.plans[sid], running), now);
    } else if Prepares(s, sid, settlement, keys, ids, now) {
      var plan := OpenedPlan(s, sid, settlement, keys, ids, now);
      OpeningCloses(s, sid, settlement, keys, ids, now);
      DriveCloses(OpenedState(s, sid, settlement, keys, ids, now), sid, plan, EndFor(plan, running), now);
    }
  }

  lemma RekeyCloses(c: Core, from: User, to: User, keys: seq<PosKey>)
    requires CanRekey(c, from, to) && Lists(keys, KeysOfUser(c.positions, from)) && Closed(c)
    ensures Closed(Rekeyed(c, from, to, keys))
  {
    RekeyMovesEverything(c, from, to, keys);
    hide MoveKeys;
    var c' := Rekeyed(c, from, to, keys);
    forall k | k in c'.positions ensures k.series !in c'.plans {
      if k.user == to { assert Owned(k, from) in c.positions && Owned(k, from).series == k.series; }
    }
  }

  // A step keeps settled series closed exactly when it is not late: not an order, a trade or a mint that
  // finds a plan on its series and passes its own checks all the same.
  lemma ClosedIff(reg: Registry, s: State, step: Step)
    requires Frame(reg, s.core) && Enabled(reg, s, step) && Closed(s.core)
    ensures Closed(After(reg, s, step).core) <==> !Late(reg, s, step)
  {
    hide Closed, ExecuteTrade, MintCompleteSet, FillOrder, SettleSeries, RedeemCompleteSet, PlaceLimitOrder, Executes, Frame;
    match step {
      case Limit(caller, p) => LimitCloses(s, caller, reg[p.seriesId], p);
      case Fill(_, _, _, _, _, _) => FillCloses(reg, s, step);
      case Fund(u, d, id, balance) => FundCloses(s.core, u, d, id, balance);
      case Cancel(caller, id) => CancelCloses(s, caller, id);
      case Matched(t, now) => TradeCloses(s, reg[t.seriesId], t, now);
      case Mint(caller, sid, qty) => MintCloses(s, caller, sid, reg[sid], qty);
      case Redeem(caller, sid, qty) => RedeemCloses(s, caller, sid, reg[sid], qty);
      case Settle(sid, settlement, keys, ids, running, now) => SettleCloses(s, sid, settlement, keys, ids, running, now);
      case Reassign(from, to, keys) => RekeyCloses(s.core, from, to, keys);
      case _ =>
    }
  }

  // The series a step opens exposure on.
  predicate OpensOn(step: Step, sid: SeriesId) {
    match step
    case Limit(_, p) => p.seriesId == sid
    case Matched(t, _) => t.seriesId == sid
    case Mint(_, i, _) => i == sid
    case _ => false
  }

  // Whatever its own checks say, a step that opens nothing on a series with a plan keeps settled series
  // closed: looking for a plan once more after the last await would do.
  ghost predicate LooksAgain(s: State, step: Step) {
    forall sid :: OpensOn(step, sid) ==> sid !in s.core.plans
  }

  ghost predicate AlwaysLooks(reg: Registry, s: State, steps: seq<Step>)
    requires ValidRun(reg, s, steps)
    decreases |steps|
  {
    steps == [] || (LooksAgain(s, steps[0]) && AlwaysLooks(reg, After(reg, s, steps[0]), steps[1..]))
  }

  lemma LookingIsNotLate(reg: Registry, s: State, step: Step)
    requires Enabled(reg, s, step) && LooksAgain(s, step)
    ensures !Late(reg, s, step)
  {
    hide LimitPasses, Executes, MintPasses, Enabled;
    match step {
      case Limit(_, p) => assert OpensOn(step, p.seriesId);
      case Matched(t, _) => assert OpensOn(step, t.seriesId);
      case Mint(_, i, _) => assert OpensOn(step, i);
      case _ =>
    }
  }

  lemma FundCloses(c: Core, u: User, d: Domain, id: AssetId, balance: nat)
    requires Closed(c)
    ensures Closed(WithBalance(c, u, d, id, balance))
  {
  }

  lemma CancelCloses(s: State, caller: User, id: OrderId)
    requires Closed(s.core)
    ensures Closed(CancelLimitOrder(s, caller, id).state.core)
  {
  }

  ghost predicate NeverLate(reg: Registry, s: State, steps: seq<Step>)
    requires ValidRun(reg, s, steps)
    decreases |steps|
  {
    steps == [] || (!Late(reg, s, steps[0]) && NeverLate(reg, After(reg, s, steps[0]), steps[1..]))
  }

  // Over runs without late steps a settled series never has an order or a position again.
  lemma {:induction false} SettledStaysClosed(reg: Registry, s: State, steps: seq<Step>)
    requires Frame(reg, s.core) && CachedKnown(reg, s.ops) && ValidRun(reg, s, steps)
    requires Closed(s.core) && NeverLate(reg, s, steps)
    ensures Closed(RunAll(reg, s, steps).core)
    decreases |steps|
  {
    hide Closed, Late, Frame, CachedKnown, After, Enabled;
    if steps == [] {
    } else {
      StepFrame(reg, s, steps[0]);
      ClosedIff(reg, s, steps[0]);
      SettledStaysClosed(reg, After(reg, s, steps[0]), steps[1..]);
    }
  }

  // One more look for a plan after each last await would keep settled series closed over every run.
  lemma {:induction false} LookingAgainIsEnough(reg: Registry, s: State, steps: seq<Step>)
    requires Frame(reg, s.core) && CachedKnown(reg, s.ops) && ValidRun(reg, s, steps)
    requires Closed(s.core) && AlwaysLooks(reg, s, steps)
    ensures Closed(RunAll(reg, s, steps).core)
    decreases |steps|
  {
    hide Closed, Late, Frame, CachedKnown, After, Enabled, LooksAgain;
    if steps == [] {
    } else {
      StepFrame(reg, s, steps[0]);
      LookingIsNotLate(reg, s, steps[0]);
      ClosedIff(reg, s, steps[0]);
      LookingAgainIsEnough(reg, After(reg, s, steps[0]), steps[1..]);
    }
  }
}
