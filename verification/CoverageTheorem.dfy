// The invariant of every run, and what each step does to every account's slack.
module CoverageTheorem {
  import opened Base
  import opened Payoffs
  import opened Types
  import opened Totals
  import opened Book
  import opened Clearing
  import opened Coverage
  import opened SettlementCoverage
  import opened Rekey
  import opened Runs
  import opened CoverageRuns

  // ---------------------------------------------------------------- slack, step by step

  lemma LimitSlack(reg: Registry, s: State, caller: User, p: OrderParams, u: User, d: Domain)
    requires p.seriesId in reg
    ensures Slack(reg, PlaceLimitOrder(s, caller, reg[p.seriesId], p).state.core, u, d) == Slack(reg, s.core, u, d)
      + if LimitPasses(s, caller, reg[p.seriesId], p) then At(s.core.orders, p.orderId, OrderMargin(u, d)) else 0
  {
    LimitPassesIff(s, caller, reg[p.seriesId], p);
    hide LimitPasses;
    var series := reg[p.seriesId];
    var r := PlaceLimitOrder(s, caller, series, p);
    OpenedSlack(reg, s.core, caller, u, d);
    if r.result.Ok? {
      var margin := GetRequiredMargin(series, p.price, Signed(p.side, p.qty)).value;
      PlacedSlack(reg, s.core, p.orderId,
                  LimitOrder(caller, p.seriesId, p.outcome, p.side, p.qty, p.price, margin, series.domain), u, d);
    }
  }

  lemma OpenedSlack(reg: Registry, c: Core, who: User, u: User, d: Domain)
    ensures Slack(reg, Opened(c, who), u, d) == Slack(reg, c, u, d)
  {
  }

  lemma FundSlack(reg: Registry, c: Core, who: User, d0: Domain, id: AssetId, balance: nat, u: User, d: Domain)
    ensures Slack(reg, WithBalance(c, who, d0, id, balance), u, d) == Slack(reg, c, u, d)
  {
    BalancesAreExact(AccountOf(c.accounts, who), d0, id, balance, d0, id);
  }

  lemma MintedSlack(reg: Registry, c: Core, caller: User, sid: SeriesId, outcomes: seq<OutcomeId>, qty: nat, u: User, d: Domain)
    requires outcomes != []
    ensures Slack(reg, Minted(c, caller, sid, outcomes, DomainOf(reg, sid), qty), u, d) == Slack(reg, c, u, d)
      + if u == caller && d == DomainOf(reg, sid) then MintDust(qty, |outcomes|) else 0
  {
    GrantedMargin(reg, c.positions, caller, sid, outcomes, qty, FloorDiv(qty * UNIT, |outcomes|), u, d);
    var a := AccountOf(c.accounts, caller);
    SettersAreExact(a, DomainOf(reg, sid), 0, a.GetReserved(DomainOf(reg, sid)) + qty * UNIT, d);
  }

  lemma MintSlack(reg: Registry, s: State, caller: User, sid: SeriesId, qty: int, u: User, d: Domain)
    requires sid in reg
    ensures Slack(reg, MintCompleteSet(s, caller, sid, reg[sid], qty).state.core, u, d) == Slack(reg, s.core, u, d)
      + Gain(reg, s, Mint(caller, sid, qty), u, d)
  {
    MintPassesIff(s, caller, sid, reg[sid], qty);
    OpenedSlack(reg, s.core, caller, u, d);
    if MintCompleteSet(s, caller, sid, reg[sid], qty).result.Ok? {
      MintedSlack(reg, s.core, caller, sid, reg[sid].outcomes.value, qty, u, d);
    }
  }

  lemma RedeemSlack(reg: Registry, s: State, caller: User, sid: SeriesId, qty: int)
    requires sid in reg && DistinctOutcomes(reg[sid]) && Covered(reg, s.core)
    ensures SameSlack(reg, s.core, RedeemCompleteSet(s, caller, sid, reg[sid], qty).state.core)
  {
    var series := reg[sid];
    if qty > 0 && series.payoffType.Categorical? && series.outcomes.Some?
       && CanRedeem(s.core.positions, caller, sid, series.outcomes.value, qty) {
      RedeemedSlack(reg, s.core, caller, sid, series.outcomes.value, qty);
    }
  }

  lemma CancelSlack(reg: Registry, s: State, caller: User, id: OrderId)
    requires Covered(reg, s.core)
    ensures SameSlack(reg, s.core, CancelLimitOrder(s, caller, id).state.core)
  {
    if id in s.core.orders && s.core.orders[id].creator == caller {
      forall u, d ensures Slack(reg, Unplaced(s.core, id), u, d) == Slack(reg, s.core, u, d) {
        UnplacedSlack(reg, s.core, id, u, d);
      }
    }
  }

  lemma MatchedSlack(reg: Registry, s: State, t: TradeParams, now: nat, u: User, d: Domain)
    requires t.seriesId in reg && Covered(reg, s.core)
    requires t.buyerUnblock == 0 && t.sellerUnblock == 0
    ensures Slack(reg, ExecuteTrade(s, reg[t.seriesId], t, now).state.core, u, d) == Slack(reg, s.core, u, d)
  {
    if Executes(s, reg[t.seriesId], t) {
      TradeSlack(reg, s, reg[t.seriesId], t, OrderId(0), now, u, d);
    } else {
      FailedTradeChangesNothing(s, reg[t.seriesId], t, now);
    }
  }

  // Each step other than a re-key changes every account's slack by exactly Gain, which is never
  // negative: no subtraction from reserved margin clamps anywhere.
  lemma StepSlack(reg: Registry, s: State, step: Step, u: User, d: Domain)
    requires Inv(reg, s) && Enabled(reg, s, step) && Ordinary(reg, step)
    requires !step.Reassign?
    ensures Slack(reg, After(reg, s, step).core, u, d) == Slack(reg, s.core, u, d) + Gain(reg, s, step, u, d)
    ensures Gain(reg, s, step, u, d) >= 0
  {
    match step {
      case Cache(_) =>
      case Reprice(_) =>
      case Fund(user, d0, id, balance) =>
        FundSlack(reg, s.core, user, d0, id, balance, u, d);
      case Limit(caller, p) =>
        LimitSlack(reg, s, caller, p, u, d);
      case Fill(taker, id, seen, tradeId, requested, now) =>
        FillSlack(reg, s, taker, id, seen, tradeId, requested, now, u, d);
      case Cancel(caller, id) =>
        CancelSlack(reg, s, caller, id);
      case Matched(t, now) =>
        MatchedSlack(reg, s, t, now, u, d);
      case Mint(caller, sid, qty) =>
        MintSlack(reg, s, caller, sid, qty, u, d);
        MintGainIsDust(reg, s, caller, sid, qty, u, d);
      case Redeem(caller, sid, qty) =>
        RedeemSlack(reg, s, caller, sid, qty);
      case Settle(sid, settlement, keys, ids, running, now) =>
        FrameSettles(reg, s, sid);
        SettleSlack(reg, s, sid, settlement, keys, ids, running, now);
    }
  }

  lemma MintGainIsDust(reg: Registry, s: State, caller: User, sid: SeriesId, qty: int, u: User, d: Domain)
    requires sid in reg
    ensures Gain(reg, s, Mint(caller, sid, qty), u, d) >= 0
  {
    if MintPasses(s, caller, reg[sid], qty) {
      DustIsRemainder(qty, |reg[sid].outcomes.value|);
    }
  }

  // ---------------------------------------------------------------- the rest of the invariant

  // What a step must keep besides coverage: no account disappears from under a position or a plan.
  ghost predicate Frame(reg: Registry, c: Core) {
    OrdersExact(reg, c.orders) && PlansSound(reg, c) && PositionsKnown(reg, c)
  }

  lemma FrameSettles(reg: Registry, s: State, sid: SeriesId)
    requires Frame(reg, s.core) && CachedKnown(reg, s.ops)
    ensures Settleable(reg, s, sid)
  {
    if sid in s.core.plans { assert PlanSound(reg, s.core, sid, s.core.plans[sid]); }
  }

  lemma AccountsGrow(reg: Registry, c: Core, accounts: map<User, Account>)
    requires Frame(reg, c) && c.accounts.Keys <= accounts.Keys
    ensures Frame(reg, c.(accounts := accounts))
  {
    forall sid | sid in c.plans ensures PlanSound(reg, c.(accounts := accounts), sid, c.plans[sid]) {
      assert PlanSound(reg, c, sid, c.plans[sid]);
    }
  }

  lemma PositionsChange(reg: Registry, c: Core, positions: map<PosKey, Position>)
    requires Frame(reg, c)
    requires forall k :: k in positions ==> k.user in c.accounts && k.series in reg
    ensures Frame(reg, c.(positions := positions))
  {
    forall sid | sid in c.plans ensures PlanSound(reg, c.(positions := positions), sid, c.plans[sid]) {
      assert PlanSound(reg, c, sid, c.plans[sid]);
    }
  }

  lemma OrdersChange(reg: Registry, c: Core, orders: map<OrderId, LimitOrder>)
    requires Frame(reg, c) && OrdersExact(reg, orders)
    ensures Frame(reg, c.(orders := orders))
  {
    forall sid | sid in c.plans ensures PlanSound(reg, c.(orders := orders), sid, c.plans[sid]) {
      assert PlanSound(reg, c, sid, c.plans[sid]);
    }
  }

  lemma TradedFrame(reg: Registry, c: Core, d: Domain, t: TradeParams, b: Leg, l: Leg)
    requires Frame(reg, c) && t.seriesId in reg
    ensures Frame(reg, Traded(c, d, t, b, l))
  {
    var c' := Traded(c, d, t, b, l);
    AccountsGrow(reg, c, c'.accounts);
    PositionsChange(reg, c.(accounts := c'.accounts), c'.positions);
    assert c' == c.(accounts := c'.accounts).(positions := c'.positions);
  }

  lemma TradeFrame(reg: Registry, s: State, series: Series, t: TradeParams, now: nat)
    requires Frame(reg, s.core) && t.seriesId in reg
    ensures Frame(reg, ExecuteTrade(s, series, t, now).state.core)
    ensures ExecuteTrade(s, series, t, now).state.core.orders == s.core.orders
    ensures ExecuteTrade(s, series, t, now).state.ops.cached == s.ops.cached
  {
    if Executes(s, series, t) {
      ExecutedCore(s, series, t, now);
      TradedFrame(reg, s.core, series.domain, t, BuyerLeg(s.core, series, t).value, SellerLeg(s.core, series, t).value);
    } else {
      FailedTradeChangesNothing(s, series, t, now);
    }
  }

  lemma LimitFrame(reg: Registry, s: State, caller: User, p: OrderParams)
    requires Frame(reg, s.core) && p.seriesId in reg && p.qty > 0
    ensures Frame(reg, PlaceLimitOrder(s, caller, reg[p.seriesId], p).state.core)
  {
    var r := PlaceLimitOrder(s, caller, reg[p.seriesId], p);
    var c' := r.state.core;
    if r.result.Ok? {
      AccountsGrow(reg, s.core, c'.accounts);
      assert OrderExact(reg, c'.orders[p.orderId]);
      OrdersChange(reg, s.core.(accounts := c'.accounts), c'.orders);
      assert c' == s.core.(accounts := c'.accounts).(orders := c'.orders);
    } else {
      AccountsGrow(reg, s.core, Opened(s.core, caller).accounts);
    }
  }

  lemma FillFrame(reg: Registry, s: State, taker: User, id: OrderId, seen: LimitOrder, tradeId: TradeId,
                  requested: Option<int>, now: nat)
    requires Frame(reg, s.core) && seen.series in reg
    ensures Frame(reg, FillOrder(s, taker, id, seen, tradeId, reg[seen.series], requested, now).state.core)
    ensures FillOrder(s, taker, id, seen, tradeId, reg[seen.series], requested, now).state.ops.cached == s.ops.cached
  {
    FillShape(reg, s, taker, id, seen, tradeId, requested, now);
    if Fills(reg, s, taker, id, seen, tradeId, requested, now) {
      var o := s.core.orders[id];
      var fill := FillQty(requested, o.qty);
      var traded := ExecuteTrade(s, reg[o.series], FillTrade(reg, o, taker, tradeId, fill), now);
      TradeFrame(reg, s, reg[o.series], FillTrade(reg, o, taker, tradeId, fill), now);
      RestIsExact(reg, o, fill);
      AfterTradeDone(traded, id, Rest(reg, o, fill));
      OrdersChange(reg, traded.state.core, Shrunk(traded.state.core, id, Rest(reg, o, fill)).orders);
    }
  }

  lemma CancelFrame(reg: Registry, c: Core, id: OrderId)
    requires Frame(reg, c) && id in c.orders
    ensures Frame(reg, Unplaced(c, id))
  {
    var c' := Unplaced(c, id);
    AccountsGrow(reg, c, c'.accounts);
    OrdersChange(reg, c.(accounts := c'.accounts), c'.orders);
  }

  lemma {:induction false} GrantedKeys(positions: map<PosKey, Position>, u: User, sid: SeriesId, outcomes: seq<OutcomeId>,
                                       qty: int, share: nat, k: PosKey)
    requires k in Granted(positions, u, sid, outcomes, qty, share)
    ensures k in positions || (k.user == u && k.series == sid)
    decreases |outcomes|
  {
    if outcomes == [] {
    } else {
      var k0 := SetKey(u, sid, outcomes[0]);
      var p := PositionOf(positions, k0);
      GrantedKeys(positions[k0 := Position(p.netQty + qty, p.margin + share)], u, sid, outcomes[1..], qty, share, k);
    }
  }

  lemma MintFrame(reg: Registry, s: State, caller: User, sid: SeriesId, qty: int)
    requires Frame(reg, s.core) && sid in reg
    ensures Frame(reg, MintCompleteSet(s, caller, sid, reg[sid], qty).state.core)
  {
    var r := MintCompleteSet(s, caller, sid, reg[sid], qty);
    var c' := r.state.core;
    if r.result.Ok? {
      AccountsGrow(reg, s.core, c'.accounts);
      var outcomes := reg[sid].outcomes.value;
      forall k | k in c'.positions ensures k.user in c'.accounts && k.series in reg {
        GrantedKeys(s.core.positions, caller, sid, outcomes, qty, FloorDiv(qty * UNIT, |outcomes|), k);
      }
      PositionsChange(reg, s.core.(accounts := c'.accounts), c'.positions);
      assert c' == s.core.(accounts := c'.accounts).(positions := c'.positions);
    } else {
      AccountsGrow(reg, s.core, Opened(s.core, caller).accounts);
    }
  }

  lemma {:induction false} RedeemedFrame(reg: Registry, c: Core, u: User, d: Domain, sid: SeriesId, outcomes: seq<OutcomeId>, qty: nat)
    requires Frame(reg, c)
    ensures Redeemed(c, u, d, sid, outcomes, qty).Some? ==> Frame(reg, Redeemed(c, u, d, sid, outcomes, qty).value)
    decreases |outcomes|
  {
    if outcomes == [] {
    } else {
      var k := SetKey(u, sid, outcomes[0]);
      if k !in c.positions {
        RedeemedFrame(reg, c, u, d, sid, outcomes[1..], qty);
      } else {
        var c' := RedeemOne(c, u, d, k, qty);
        AccountsGrow(reg, c, c'.accounts);
        PositionsChange(reg, c.(accounts := c'.accounts), c'.positions);
        assert c' == c.(accounts := c'.accounts).(positions := c'.positions);
        RedeemedFrame(reg, c', u, d, sid, outcomes[1..], qty);
      }
    }
  }

  lemma PreparedFrame(reg: Registry, c: Core, sid: SeriesId, plan: SettlementPlan, keys: seq<PosKey>, ids: seq<OrderId>)
    requires Frame(reg, c) && Listings(c, sid, keys, ids)
    requires sid in reg && plan.domain == reg[sid].domain
    requires plan.cursor == 0 && !plan.applied && plan.status.Planned?
    requires EntriesHaveAccounts(Prepared(c, sid, plan, keys, ids), plan)
    ensures Frame(reg, Prepared(c, sid, plan, keys, ids))
  {
    var c' := Prepared(c, sid, plan, keys, ids);
    ReleaseKeepsAccounts(c.accounts, c.orders, ids);
    forall i | i in c'.plans ensures PlanSound(reg, c', i, c'.plans[i]) {
      if i != sid { assert PlanSound(reg, c, i, c.plans[i]); }
    }
  }

  lemma DrivenFrame(reg: Registry, c: Core, sid: SeriesId, plan: SettlementPlan, end: nat)
    requires Frame(reg, c) && sid in c.plans && c.plans[sid] == plan && Reaches(plan, end)
    requires DrivenCore(c, sid, plan, end).accounts.Keys == c.accounts.Keys
    ensures Frame(reg, DrivenCore(c, sid, plan, end))
  {
    var c' := DrivenCore(c, sid, plan, end);
    assert PlanSound(reg, c, sid, plan);
    forall i | i in c'.plans ensures PlanSound(reg, c', i, c'.plans[i]) {
      if i != sid { assert PlanSound(reg, c, i, c.plans[i]); }
    }
  }

  lemma {:induction false} ApplyKeepsAccounts(accounts: map<User, Account>, d: Domain, entries: seq<SettlementPosition>, lo: nat, hi: nat)
    requires lo <= hi <= |entries|
    ensures ApplyEntries(accounts, d, entries, lo, hi).Keys == accounts.Keys
    decreases hi
  {
    if lo == hi {
    } else {
      ApplyKeepsAccounts(accounts, d, entries, lo, hi - 1);
    }
  }

  lemma DriveFrame(reg: Registry, s: State, sid: SeriesId, plan: SettlementPlan, end: nat, now: nat)
    requires Frame(reg, s.core) && CachedKnown(reg, s.ops)
    requires sid in s.core.plans && s.core.plans[sid] == plan && Reaches(plan, end)
    ensures Frame(reg, DriveTo(s, sid, plan, end, now).state.core)
    ensures CachedKnown(reg, DriveTo(s, sid, plan, end, now).state.ops)
  {
    hide Frame;
    ApplyKeepsAccounts(s.core.accounts, plan.domain, plan.positions, plan.cursor, end);
    DrivenFrame(reg, s.core, sid, plan, end);
  }

  lemma SettleFrame(reg: Registry, s: State, sid: SeriesId, settlement: SettlementInput,
                    keys: seq<PosKey>, ids: seq<OrderId>, running: set<nat>, now: nat)
    requires Frame(reg, s.core) && CachedKnown(reg, s.ops)
    requires PlansInRange(s.core.plans) && Listings(s.core, sid, keys, ids)
    ensures Frame(reg, SettleSeries(s, sid, settlement, keys, ids, running, now).state.core)
    ensures CachedKnown(reg, SettleSeries(s, sid, settlement, keys, ids, running, now).state.ops)
  {
    hide SettleSeries, Prepares, Prepared, DrivenCore, LinesOf, DrivenLog, Frame;
    SettleShape(s, sid, settlement, keys, ids, running, now);
    FrameSettles(reg, s, sid);
    if Resumes(s, sid, settlement) {
      var plan := s.core.plans[sid];
      DriveFrame(reg, s, sid, plan, EndFor(plan, running), now);
    } else if Prepares(s, sid, settlement, keys, ids, now) {
      var plan := OpenedPlan(s, sid, settlement, keys, ids, now);
      OpenedPlanFacts(reg, s, sid, settlement, keys, ids, now);
      PreparedFrame(reg, s.core, sid, plan, keys, ids);
      DriveFrame(reg, OpenedState(s, sid, settlement, keys, ids, now), sid, plan, EndFor(plan, running), now);
    }
  }

  lemma RekeyFrame(reg: Registry, c: Core, from: User, to: User, keys: seq<PosKey>)
    requires Frame(reg, c)
    requires CanRekey(c, from, to) && Lists(keys, KeysOfUser(c.positions, from))
    ensures Frame(reg, Rekeyed(c, from, to, keys))
    ensures FinalisedMeansDone(c.plans)
  {
    var c' := Rekeyed(c, from, to, keys);
    RekeyMovesEverything(c, from, to, keys);
    forall k | k in c'.positions ensures k.user in c'.accounts && k.series in reg {
      if k.user == to {
        assert Owned(k, from) in c.positions;
      }
    }
    forall i | i in c.plans ensures PlanSound(reg, c', i, c.plans[i]) && (c.plans[i].status.Finalised? ==> Pending(c.plans[i]) == []) {
      assert PlanSound(reg, c, i, c.plans[i]);
      assert !Awaits(c.plans[i], from);
    }
  }

  lemma StepFrame(reg: Registry, s: State, step: Step)
    requires Frame(reg, s.core) && CachedKnown(reg, s.ops) && Enabled(reg, s, step)
    ensures Frame(reg, After(reg, s, step).core)
    ensures CachedKnown(reg, After(reg, s, step).ops)
  {
    match step {
      case Cache(_) =>
      case Reprice(_) =>
      case Fund(user, d, id, balance) => AccountsGrow(reg, s.core, WithBalance(s.core, user, d, id, balance).accounts);
      case Limit(caller, p) => LimitFrame(reg, s, caller, p);
      case Fill(taker, id, seen, tradeId, requested, now) => FillFrame(reg, s, taker, id, seen, tradeId, requested, now);
      case Cancel(caller, id) =>
        if id in s.core.orders && s.core.orders[id].creator == caller { CancelFrame(reg, s.core, id); }
      case Matched(t, now) => TradeFrame(reg, s, reg[t.seriesId], t, now);
      case Mint(caller, sid, qty) => MintFrame(reg, s, caller, sid, qty);
      case Redeem(caller, sid, qty) =>
        if qty > 0 && reg[sid].outcomes.Some? { RedeemedFrame(reg, s.core, caller, reg[sid].domain, sid, reg[sid].outcomes.value, qty); }
      case Settle(sid, settlement, keys, ids, running, now) => SettleFrame(reg, s, sid, settlement, keys, ids, running, now);
      case Reassign(from, to, keys) => RekeyFrame(reg, s.core, from, to, keys);
    }
  }

  lemma {:induction false} RunKeepsFrame(reg: Registry, s: State, steps: seq<Step>)
    requires Frame(reg, s.core) && CachedKnown(reg, s.ops) && ValidRun(reg, s, steps)
    ensures Frame(reg, RunAll(reg, s, steps).core) && CachedKnown(reg, RunAll(reg, s, steps).ops)
    decreases |steps|
  {
    if steps == [] {
    } else {
      StepFrame(reg, s, steps[0]);
      RunKeepsFrame(reg, After(reg, s, steps[0]), steps[1..]);
    }
  }

  // ---------------------------------------------------------------- every reachable state

  lemma StepKeepsInv(reg: Registry, s: State, step: Step)
    requires Inv(reg, s) && Enabled(reg, s, step) && Ordinary(reg, step)
    ensures Inv(reg, After(reg, s, step))
  {
    StepFrame(reg, s, step);
    forall u, d ensures Slack(reg, After(reg, s, step).core, u, d) >= 0 {
      assert Slack(reg, s.core, u, d) >= 0;
      if step.Reassign? {
        RekeyFrame(reg, s.core, step.from, step.to, step.keys);
        assert Slack(reg, s.core, step.from, d) >= 0;
        RekeySlack(reg, s.core, step.from, step.to, step.keys, u, d);
      } else {
        StepSlack(reg, s, step, u, d);
      }
    }
  }

  ghost predicate OrdinaryRun(reg: Registry, steps: seq<Step>) {
    forall i :: 0 <= i < |steps| ==> Ordinary(reg, steps[i])
  }

  // In every state of every run each account's reserved margin covers its positions, its resting
  // orders, and its settlement entries still to come.
  lemma {:induction false} MarginIsAlwaysCovered(reg: Registry, s: State, steps: seq<Step>)
    requires Inv(reg, s) && ValidRun(reg, s, steps) && OrdinaryRun(reg, steps)
    ensures Inv(reg, RunAll(reg, s, steps))
    ensures Covered(reg, RunAll(reg, s, steps).core)
    decreases |steps|
  {
    if steps == [] {
    } else {
      StepKeepsInv(reg, s, steps[0]);
      MarginIsAlwaysCovered(reg, After(reg, s, steps[0]), steps[1..]);
    }
  }

  // Whose account u's was before a step: another's when the step re-keyed it to u, and nobody's when the
  // step took u's away.
  function Before(step: Step, u: User): Option<User> {
    if step.Reassign? && u == step.to then Some(step.from)
    else if step.Reassign? && u == step.from then None
    else Some(u)
  }

  // Where the account that u holds after a run comes from.
  function Origin(steps: seq<Step>, u: User): Option<User> {
    if steps == [] then Some(u)
    else
      match Origin(steps[1..], u)
      case Some(w) => Before(steps[0], w)
      case None => None
  }

  lemma {:induction false} NoRekeyNoMove(steps: seq<Step>, u: User)
    requires forall i :: 0 <= i < |steps| ==> !steps[i].Reassign?
    ensures Origin(steps, u) == Some(u)
  {
    if steps == [] {
    } else {
      NoRekeyNoMove(steps[1..], u);
    }
  }

  ghost function SlackOf(reg: Registry, c: Core, who: Option<User>, d: Domain): int {
    if who.Some? then Slack(reg, c, who.value, d) else 0
  }

  ghost function GainOf(reg: Registry, s: State, step: Step, who: Option<User>, d: Domain): int
    requires Enabled(reg, s, step)
  {
    if who.Some? then Gain(reg, s, step, who.value, d) else 0
  }

  // The slack that u's account gains over a run, step by step, under whichever owner it had.
  ghost function TotalGain(reg: Registry, s: State, steps: seq<Step>, u: User, d: Domain): int
    requires ValidRun(reg, s, steps)
    decreases |steps|
  {
    if steps == [] then 0
    else GainOf(reg, s, steps[0], Origin(steps, u), d) + TotalGain(reg, After(reg, s, steps[0]), steps[1..], u, d)
  }

  lemma StepCarriesSlack(reg: Registry, s: State, step: Step, u: User, d: Domain)
    requires Inv(reg, s) && Enabled(reg, s, step) && Ordinary(reg, step)
    ensures Slack(reg, After(reg, s, step).core, u, d)
         == SlackOf(reg, s.core, Before(step, u), d) + GainOf(reg, s, step, Before(step, u), d)
    ensures GainOf(reg, s, step, Before(step, u), d) >= 0
  {
    if step.Reassign? {
      RekeyFrame(reg, s.core, step.from, step.to, step.keys);
      RekeySlack(reg, s.core, step.from, step.to, step.keys, u, d);
      hide Slack, CanRekey, Rekeyed, Covered, Frame;
    } else {
      StepSlack(reg, s, step, u, d);
      hide Slack, After, Enabled, Inv, Gain;
    }
  }

  // Over any run, re-keys included, reserved margin tracks what it covers exactly, up to overwritten
  // orders and minting dust: an account's slack is what it was under the owner it comes from, and these.
  lemma {:induction false} SlackIsAccountedFor(reg: Registry, s: State, steps: seq<Step>, u: User, d: Domain)
    requires Inv(reg, s) && ValidRun(reg, s, steps) && OrdinaryRun(reg, steps)
    ensures Slack(reg, RunAll(reg, s, steps).core, u, d)
         == SlackOf(reg, s.core, Origin(steps, u), d) + TotalGain(reg, s, steps, u, d)
    ensures TotalGain(reg, s, steps, u, d) >= 0
    ensures (forall i :: 0 <= i < |steps| ==> !steps[i].Reassign?) ==> Origin(steps, u) == Some(u)
    decreases |steps|
  {
    hide Inv, Slack, After, Enabled, Gain, Before;
    if forall i :: 0 <= i < |steps| ==> !steps[i].Reassign? { NoRekeyNoMove(steps, u); }
    if steps == [] {
    } else {
      var w := Origin(steps[1..], u);
      if w.Some? { StepCarriesSlack(reg, s, steps[0], w.value, d); }
      StepKeepsInv(reg, s, steps[0]);
      SlackIsAccountedFor(reg, After(reg, s, steps[0]), steps[1..], u, d);
    }
  }

  // Placing under a fresh id and minting where the outcome count divides a unit gain nothing.
  ghost predicate Tight(reg: Registry, s: State, step: Step)
    requires Enabled(reg, s, step)
  {
    match step
    case Limit(_, p) => p.orderId !in s.core.orders
    case Mint(_, sid, qty) =>
      reg[sid].outcomes.Some? && reg[sid].outcomes.value != [] ==> qty * UNIT % |reg[sid].outcomes.value| == 0
    case _ => true
  }

  lemma TightGainsNothing(reg: Registry, s: State, step: Step, u: User, d: Domain)
    requires Enabled(reg, s, step) && Tight(reg, s, step)
    ensures Gain(reg, s, step, u, d) == 0
  {
    if step.Mint? && MintPasses(s, step.caller, reg[step.sid], step.qty) {
      DustIsRemainder(step.qty, |reg[step.sid].outcomes.value|);
    }
  }

  ghost predicate TightRun(reg: Registry, s: State, steps: seq<Step>)
    requires ValidRun(reg, s, steps)
    decreases |steps|
  {
    steps == [] || (Tight(reg, s, steps[0]) && TightRun(reg, After(reg, s, steps[0]), steps[1..]))
  }

  lemma {:induction false} TightRunsGainNothing(reg: Registry, s: State, steps: seq<Step>, u: User, d: Domain)
    requires ValidRun(reg, s, steps) && TightRun(reg, s, steps)
    ensures TotalGain(reg, s, steps, u, d) == 0
    decreases |steps|
  {
    hide Tight, Gain, After, Enabled, Origin;
    if steps == [] {
    } else {
      var who := Origin(steps, u);
      if who.Some? { TightGainsNothing(reg, s, steps[0], who.value, d); }
      TightRunsGainNothing(reg, After(reg, s, steps[0]), steps[1..], u, d);
    }
  }

  // On such runs, whoever the accounts are re-keyed to, their slack does not move: reserved margin that
  // was exactly equal to what it covers stays so.
  lemma TightRunsAreExact(reg: Registry, s: State, steps: seq<Step>, u: User, d: Domain)
    requires Inv(reg, s) && ValidRun(reg, s, steps) && OrdinaryRun(reg, steps) && TightRun(reg, s, steps)
    ensures Slack(reg, RunAll(reg, s, steps).core, u, d) == SlackOf(reg, s.core, Origin(steps, u), d)
    ensures (forall v :: Slack(reg, s.core, v, d) == 0) ==> Slack(reg, RunAll(reg, s, steps).core, u, d) == 0
  {
    SlackIsAccountedFor(reg, s, steps, u, d);
    TightRunsGainNothing(reg, s, steps, u, d);
    hide Slack, Inv, RunAll, ValidRun, TotalGain, Origin;
  }
}
