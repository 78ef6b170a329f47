// The zero-sum law over whole runs, with the exact amount by which any step departs from it.
module ConservationTheorem {
  import opened Base
  import opened Payoffs
  import opened Types
  import opened Totals
  import opened Book
  import opened Clearing
  import opened Coverage
  import opened SettlementCoverage
  import opened Rekey
  import opened Runs
  import opened CoverageRuns
  import opened CoverageTheorem
  import opened Conservation
  import opened ConservationSettlement

  // Every step of any series, but minting and redeeming fully collateralised sets over a repeated outcome.
  ghost predicate InScope(reg: Registry, step: Step) {
    match step
    case Mint(_, sid, _) => sid in reg && (Funded(reg[sid]) ==> NoRepeats(Declared(reg[sid])))
    case Redeem(_, sid, _) => sid in reg && (Funded(reg[sid]) ==> NoRepeats(Declared(reg[sid])))
    case _ => true
  }

  ghost function TradeDrift(series: Series, c: Core, t: TradeParams): int {
    if Funded(series) then -(Excess(CeilUsd(t.price)) * Opens(c, t))
    else Revaluation(series, t.price, PositionOf(c.positions, KeyOf(t, t.buyer)))
         + Revaluation(series, t.price, PositionOf(c.positions, KeyOf(t, t.seller)))
  }

  // The exact change of Money at each step.
  ghost function Drift(reg: Registry, s: State, step: Step): int
    requires Enabled(reg, s, step) && OrdersExact(reg, s.core.orders)
  {
    match step
    case Fill(taker, id, seen, tradeId, requested, now) =>
      if Fills(reg, s, taker, id, seen, tradeId, requested, now) then
        var o := s.core.orders[id];
        TradeDrift(reg[o.series], s.core, FillTrade(reg, o, taker, tradeId, FillQty(requested, o.qty)))
      else 0
    case Matched(t, now) =>
      if Executes(s, reg[t.seriesId], t) then TradeDrift(reg[t.seriesId], s.core, t) else 0
    case Mint(caller, sid, qty) =>
      if Funded(reg[sid]) && MintPasses(s, caller, reg[sid], qty) then
        var outcomes := Declared(reg[sid]);
        MintDust(qty, |outcomes|) - UNIT * SeqSum(outcomes, BuysBack(s.core.positions, caller, sid, qty))
      else 0
    case Redeem(caller, sid, qty) =>
      if Funded(reg[sid]) && RedeemPasses(s, caller, sid, reg[sid], qty) then
        var outcomes := Declared(reg[sid]);
        SeqSum(outcomes, FreedAt(s.core.positions, caller, sid, qty)) - UNIT * SeqSum(outcomes, SetsIn(reg[sid], qty))
      else 0
    case Settle(sid, settlement, keys, ids, _, now) =>
      if Prepares(s, sid, settlement, keys, ids, now)
      then PlanDrift(s.ops.cached[sid], sid, s.core.positions, settlement) else 0
    case _ => 0
  }

  // ---------------------------------------------------------------- the law, step by step

  lemma TradeMoney(reg: Registry, s: State, t: TradeParams, now: nat)
    requires t.seriesId in reg
    requires Executes(s, reg[t.seriesId], t)
    ensures var s' := ExecuteTrade(s, reg[t.seriesId], t, now).state;
      Money(reg, s') == Money(reg, s) + TradeDrift(reg[t.seriesId], s.core, t) && s'.core.plans == s.core.plans
  {
    ExecutedCore(s, reg[t.seriesId], t, now);
    if Funded(reg[t.seriesId]) {
      TradedMoney(reg, s.core, t);
    } else {
      UnbackedTradedMoney(reg, s.core, t);
    }
    hide GetRequiredMargin, Revaluation, Funded, TradeRefusal, Opens, Backing;
  }

  lemma FillMoney(reg: Registry, s: State, step: Step)
    requires Frame(reg, s.core) && step.Fill? && Enabled(reg, s, step)
    ensures Money(reg, After(reg, s, step)) == Money(reg, s) + Drift(reg, s, step)
  {
    var Fill(taker, id, seen, tradeId, requested, now) := step;
    FillShape(reg, s, taker, id, seen, tradeId, requested, now);
    if Fills(reg, s, taker, id, seen, tradeId, requested, now) {
      var o := s.core.orders[id];
      var fill := FillQty(requested, o.qty);
      var t := FillTrade(reg, o, taker, tradeId, fill);
      TradeMoney(reg, s, t, now);
      AfterTradeDone(ExecuteTrade(s, reg[o.series], t, now), id, Rest(reg, o, fill));
    }
  }

  lemma OpenedMoney(reg: Registry, c: Core, u: User)
    ensures CoreMoney(reg, Opened(c, u)) == CoreMoney(reg, c)
  {
    TotalPut(c.accounts, u, AccountOf(c.accounts, u), CashWeight());
    CashAt(c.accounts, u);
  }

  // Money counts cash; collateral moves in and out beside it.
  lemma FundMoney(reg: Registry, c: Core, u: User, d: Domain, id: AssetId, balance: nat)
    ensures CoreMoney(reg, WithBalance(c, u, d, id, balance)) == CoreMoney(reg, c)
  {
    var a := AccountOf(c.accounts, u);
    BalancesAreExact(a, d, id, balance, d, id);
    TotalPut(c.accounts, u, a.SetBalance(d, id, balance), CashWeight());
    CashAt(c.accounts, u);
  }

  lemma PlacedMoney(reg: Registry, c: Core, id: OrderId, o: LimitOrder)
    ensures CoreMoney(reg, Placed(c, id, o)) == CoreMoney(reg, c)
  {
    var a := AccountOf(c.accounts, o.creator);
    TotalPut(c.accounts, o.creator, a.SetReserved(o.domain, a.GetReserved(o.domain) + o.blocked), CashWeight());
    CashAt(c.accounts, o.creator);
  }

  lemma LimitMoney(reg: Registry, s: State, caller: User, p: OrderParams)
    requires p.seriesId in reg
    ensures Money(reg, PlaceLimitOrder(s, caller, reg[p.seriesId], p).state) == Money(reg, s)
  {
    var series := reg[p.seriesId];
    OpenedMoney(reg, s.core, caller);
    if PlaceLimitOrder(s, caller, series, p).result.Ok? {
      var margin := GetRequiredMargin(series, p.price, Signed(p.side, p.qty)).value;
      PlacedMoney(reg, s.core, p.orderId,
                  LimitOrder(caller, p.seriesId, p.outcome, p.side, p.qty, p.price, margin, series.domain));
    }
  }

  lemma MintMoney(reg: Registry, s: State, step: Step)
    requires step.Mint? && Enabled(reg, s, step) && InScope(reg, step) && OrdersExact(reg, s.core.orders)
    ensures Money(reg, After(reg, s, step)) == Money(reg, s) + Drift(reg, s, step)
  {
    hide RawEquity, Granted, BuysBack, Backing, MintDust;
    OpenedMoney(reg, s.core, step.caller);
    MintPassesIff(s, step.caller, step.sid, reg[step.sid], step.qty);
    if MintCompleteSet(s, step.caller, step.sid, reg[step.sid], step.qty).result.Ok? {
      if Funded(reg[step.sid]) {
        MintedMoney(reg, s.core, step.caller, step.sid, step.qty);
      } else {
        UnbackedMint(reg, s.core, step.caller, step.sid, Declared(reg[step.sid]), step.qty);
      }
    }
  }

  lemma RedeemMoney(reg: Registry, s: State, step: Step)
    requires step.Redeem? && Enabled(reg, s, step) && InScope(reg, step) && OrdersExact(reg, s.core.orders)
    ensures Money(reg, After(reg, s, step)) == Money(reg, s) + Drift(reg, s, step)
  {
    var Redeem(caller, sid, qty) := step;
    if RedeemPasses(s, caller, sid, reg[sid], qty) {
      if Funded(reg[sid]) {
        RedeemedMoney(reg, s.core, caller, sid, Declared(reg[sid]), qty);
      } else {
        UnbackedRedeem(reg, s.core, caller, sid, Declared(reg[sid]), qty);
      }
    }
  }

  lemma NewPlanMoney(reg: Registry, s: State, sid: SeriesId, settlement: SettlementInput,
                    keys: seq<PosKey>, ids: seq<OrderId>, now: nat)
    requires Listings(s.core, sid, keys, ids) && Prepares(s, sid, settlement, keys, ids, now)
    requires sid in reg && Settleable(reg, s, sid)
    ensures Money(reg, OpenedState(s, sid, settlement, keys, ids, now))
         == Money(reg, s) + PlanDrift(reg[sid], sid, s.core.positions, settlement)
  {
    hide Prepared, LinesOf, PlanDrift;
    OpenedPlanFacts(reg, s, sid, settlement, keys, ids, now);
    PreparedMoney(reg, s.core, s.market, sid, settlement, keys, ids, now);
  }

  lemma SettleMoney(reg: Registry, s: State, step: Step)
    requires step.Settle? && Enabled(reg, s, step)
    requires Frame(reg, s.core) && CachedKnown(reg, s.ops)
    ensures Money(reg, After(reg, s, step)) == Money(reg, s) + Drift(reg, s, step)
  {
    hide SettleSeries, Prepares, Prepared, DrivenCore, LinesOf, Money, DrivenLog, OpenedPlan, PlanDrift;
    var Settle(sid, settlement, keys, ids, running, now) := step;
    SettleShape(s, sid, settlement, keys, ids, running, now);
    FrameSettles(reg, s, sid);
    if Resumes(s, sid, settlement) {
      DrivenMoney(reg, s, sid, s.core.plans[sid], EndFor(s.core.plans[sid], running), now);
    } else if Prepares(s, sid, settlement, keys, ids, now) {
      OpenedPlanFacts(reg, s, sid, settlement, keys, ids, now);
      NewPlanMoney(reg, s, sid, settlement, keys, ids, now);
      var plan := OpenedPlan(s, sid, settlement, keys, ids, now);
      DrivenMoney(reg, OpenedState(s, sid, settlement, keys, ids, now), sid, plan, EndFor(plan, running), now);
    }
  }

  lemma CancelMoney(reg: Registry, c: Core, id: OrderId)
    requires id in c.orders
    ensures CoreMoney(reg, Unplaced(c, id)) == CoreMoney(reg, c)
  {
    ReleaseKeepsCash(c.accounts, c.orders[id].creator, c.orders[id].domain, c.orders[id].blocked);
  }

  lemma RekeyMoney(reg: Registry, c: Core, from: User, to: User, keys: seq<PosKey>)
    requires CanRekey(c, from, to) && Lists(keys, KeysOfUser(c.positions, from))
    ensures CoreMoney(reg, Rekeyed(c, from, to, keys)) == CoreMoney(reg, c)
  {
    forall k, p ensures Backing(reg)(Owned(k, to), p) == Backing(reg)(k, p) {
    }
    RekeyKeepsTotals(c, from, to, keys, Backing(reg));
    TotalRemove(c.accounts, from, CashWeight());
    TotalPut(c.accounts - {from}, to, c.accounts[from], CashWeight());
    if to in c.accounts {
      assert Empty(c.accounts[to]);
      assert CashOf(c.accounts[to]) == 0;
    }
  }

  // Every step changes Money by exactly its Drift.
  lemma StepMoney(reg: Registry, s: State, step: Step)
    requires Frame(reg, s.core) && CachedKnown(reg, s.ops)
    requires Enabled(reg, s, step) && InScope(reg, step)
    ensures Money(reg, After(reg, s, step)) == Money(reg, s) + Drift(reg, s, step)
  {
    match step {
      case Cache(_) =>
      case Reprice(_) =>
      case Fund(user, d, id, balance) => FundMoney(reg, s.core, user, d, id, balance);
      case Limit(caller, p) => LimitMoney(reg, s, caller, p);
      case Fill(_, _, _, _, _, _) => FillMoney(reg, s, step);
      case Cancel(caller, id) =>
        if id in s.core.orders && s.core.orders[id].creator == caller { CancelMoney(reg, s.core, id); }
      case Matched(t, now) =>
        if Executes(s, reg[t.seriesId], t) {
          TradeMoney(reg, s, t, now);
        } else {
          FailedTradeChangesNothing(s, reg[t.seriesId], t, now);
        }
      case Mint(_, _, _) => MintMoney(reg, s, step);
      case Redeem(_, _, _) => RedeemMoney(reg, s, step);
      case Settle(_, _, _, _, _, _) => SettleMoney(reg, s, step);
      case Reassign(from, to, keys) => RekeyMoney(reg, s.core, from, to, keys);
    }
  }

  ghost predicate RunInScope(reg: Registry, steps: seq<Step>) {
    forall i :: 0 <= i < |steps| ==> InScope(reg, steps[i])
  }

  ghost function TotalDrift(reg: Registry, s: State, steps: seq<Step>): int
    requires Frame(reg, s.core) && CachedKnown(reg, s.ops) && ValidRun(reg, s, steps)
    decreases |steps|
  {
    if steps == [] then 0
    else
      StepFrame(reg, s, steps[0]);
      Drift(reg, s, steps[0]) + TotalDrift(reg, After(reg, s, steps[0]), steps[1..])
  }

  // Over a whole run money changes by the drifts of its steps and by nothing else.
  lemma {:induction false} RunMoney(reg: Registry, s: State, steps: seq<Step>)
    requires Frame(reg, s.core) && CachedKnown(reg, s.ops) && ValidRun(reg, s, steps) && RunInScope(reg, steps)
    ensures Money(reg, RunAll(reg, s, steps)) == Money(reg, s) + TotalDrift(reg, s, steps)
    decreases |steps|
  {
    if steps == [] {
    } else {
      StepFrame(reg, s, steps[0]);
      StepMoney(reg, s, steps[0]);
      RunMoney(reg, After(reg, s, steps[0]), steps[1..]);
    }
  }
}
