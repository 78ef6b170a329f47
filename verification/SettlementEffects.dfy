// What settlement does to the accounts it reaches: free margin never falls, and total equity ends
// where the solvency check computed it would.
module SettlementEffects {
  import opened Base
  import opened Payoffs
  import opened Types
  import opened Totals
  import opened Book
  import opened Clearing
  import opened Coverage
  import opened SettlementCoverage
  import opened Rekey
  import opened Runs
  import opened CoverageRuns
  import opened CoverageTheorem
  import opened SettlementRuns

  ghost function EquityOf(c: Core, m: Market, u: User, d: Domain): int {
    AccountOf(c.accounts, u).RawEquity(d, m.configs, m.metrics)
  }

  ghost function FreeMargin(c: Core, m: Market, u: User, d: Domain): int {
    EquityOf(c, m, u, d) - AccountOf(c.accounts, u).GetReserved(d)
  }

  // ---------------------------------------------------------------- entries

  // What applying an entry leaves its account over: cashflow and released margin together.
  ghost function LeftOver(u: User): SettlementPosition -> int {
    (e: SettlementPosition) => if e.user == u then e.cashflow + e.margin else 0
  }

  ghost predicate Generous(entries: seq<SettlementPosition>) {
    forall i :: 0 <= i < |entries| ==> entries[i].cashflow + entries[i].margin >= 0
  }

  // For every payoff type an entry leaves over exactly its payoff less both fees, which is not
  // negative while the two ratios stay within 10000 bps.
  lemma LineLeavesPayoffLessFees(series: Series, k: PosKey, p: Position, settlement: SettlementInput, iBps: nat, pBps: nat)
    requires LineOf(series, k, p, settlement, iBps, pBps).Ok?
    ensures var line := LineOf(series, k, p, settlement, iBps, pBps).value;
      && GetSettlementValue(series, p.netQty, k.outcome, settlement) == Ok(line.payoff)
      && line.entry.margin == p.margin && line.entry.user == k.user && line.entry.outcome == k.outcome
      && line.entry.cashflow + line.entry.margin == line.payoff - line.insuranceFee - line.fee
      && (iBps + pBps <= BPS_BASE ==> line.entry.cashflow + line.entry.margin >= 0)
  {
    var line := LineOf(series, k, p, settlement, iBps, pBps).value;
    if iBps + pBps <= BPS_BASE { FeesWithinPayoff(line.payoff, iBps, pBps); }
  }

  lemma PlansAreGenerous(positions: map<PosKey, Position>, m: Market, series: Series, keys: seq<PosKey>, settlement: SettlementInput)
    requires AllIn(keys, positions)
    requires LinesOf(positions, m, series, keys, settlement).Ok?
    requires m.insuranceBps + m.protocolBps <= BPS_BASE
    ensures Generous(Entries(LinesOf(positions, m, series, keys, settlement).value))
  {
    LinesMatch(positions, m, series, keys, settlement);
    forall i | 0 <= i < |keys|
      ensures var e := LinesOf(positions, m, series, keys, settlement).value[i].entry; e.cashflow + e.margin >= 0
    {
      LineLeavesPayoffLessFees(series, keys[i], positions[keys[i]], settlement, m.insuranceBps, m.protocolBps);
    }
  }

  // ---------------------------------------------------------------- free margin

  lemma EntryEquity(accounts: map<User, Account>, d0: Domain, e: SettlementPosition, u: User, d: Domain, m: Market)
    requires e.user in accounts
    ensures AccountOf(ApplyEntry(accounts, d0, e), u).RawEquity(d, m.configs, m.metrics)
         == AccountOf(accounts, u).RawEquity(d, m.configs, m.metrics) + if u == e.user && d == d0 then e.cashflow else 0
  {
  }

  lemma OneEntryFree(reg: Registry, c: Core, m: Market, sid: SeriesId, u: User, d: Domain)
    requires Covered(reg, c) && HasNext(c, sid)
    ensures var plan := c.plans[sid];
      FreeMargin(OneApplied(c, sid), m, u, d) == FreeMargin(c, m, u, d)
      + if d == plan.domain then LeftOver(u)(plan.positions[plan.cursor]) else 0
  {
    var plan := c.plans[sid];
    var e := plan.positions[plan.cursor];
    OneEntrySlack(reg, c, sid, u, d);
    EntryReserves(c.accounts, plan.domain, e, u, d);
    EntryEquity(c.accounts, plan.domain, e, u, d, m);
  }

  lemma {:induction false} AppliedFree(reg: Registry, c: Core, m: Market, sid: SeriesId, plan: SettlementPlan, hi: nat, u: User, d: Domain)
    requires Covered(reg, c)
    requires sid in c.plans && c.plans[sid] == plan
    requires plan.cursor <= hi <= |plan.positions| && EntriesHaveAccounts(c, plan)
    ensures FreeMargin(AppliedTo(c, sid, plan, hi), m, u, d) == FreeMargin(c, m, u, d)
      + if d == plan.domain then SeqSum(plan.positions[plan.cursor..hi], LeftOver(u)) else 0
    decreases hi
  {
    hide FreeMargin, OneApplied, Covered, ApplyEntries, LeftOver;
    if hi == plan.cursor {
      AppliedNothing(c, sid, plan);
    } else {
      var c1 := AppliedTo(c, sid, plan, hi - 1);
      AppliedFree(reg, c, m, sid, plan, hi - 1, u, d);
      AppliedSlack(reg, c, sid, plan, hi - 1);
      SlackKeepsCover(reg, c, c1);
      AppliedUnfolds(c, sid, plan, hi);
      OneEntryFree(reg, c1, m, sid, u, d);
      SeqSumExtend(plan.positions, plan.cursor, hi, LeftOver(u));
    }
  }

  // Driving a plan raises the free margin of each account by what its entries leave over.
  lemma DrivenFree(reg: Registry, c: Core, m: Market, sid: SeriesId, plan: SettlementPlan, end: nat, u: User, d: Domain)
    requires Covered(reg, c)
    requires sid in c.plans && c.plans[sid] == plan && Reaches(plan, end) && EntriesHaveAccounts(c, plan)
    ensures FreeMargin(DrivenCore(c, sid, plan, end), m, u, d) == FreeMargin(c, m, u, d)
      + if d == plan.domain && !plan.applied then SeqSum(plan.positions[plan.cursor..end], LeftOver(u)) else 0
  {
    AppliedFree(reg, c, m, sid, plan, DrivenPlan(plan, end).cursor, u, d);
    assert plan.positions[plan.cursor..plan.cursor] == [];
  }

  lemma UnplacedFree(reg: Registry, c: Core, m: Market, id: OrderId, u: User, d: Domain)
    requires Covered(reg, c) && id in c.orders
    ensures FreeMargin(Unplaced(c, id), m, u, d) >= FreeMargin(c, m, u, d)
  {
  }

  lemma {:induction false} WithoutOrdersFree(reg: Registry, c: Core, m: Market, ids: seq<OrderId>, u: User, d: Domain)
    requires Covered(reg, c) && AllIn(ids, c.orders) && Different(ids)
    ensures FreeMargin(WithoutOrders(c, ids), m, u, d) >= FreeMargin(c, m, u, d)
    decreases |ids|
  {
    if ids == [] {
    } else {
      var c1 := Unplaced(c, ids[0]);
      forall v, e ensures Slack(reg, c1, v, e) == Slack(reg, c, v, e) { UnplacedSlack(reg, c, ids[0], v, e); }
      UnplacedFree(reg, c, m, ids[0], u, d);
      WithoutOrdersUnfolds(c, ids);
      SlackKeepsCover(reg, c, c1);
      WithoutOrdersFree(reg, c1, m, ids[1..], u, d);
    }
  }

  lemma LeftOversAreGains(entries: seq<SettlementPosition>, lo: nat, hi: nat, u: User)
    requires lo <= hi <= |entries| && Generous(entries)
    ensures SeqSum(entries[lo..hi], LeftOver(u)) >= 0
  {
    SeqSumNonNegative(entries[lo..hi], LeftOver(u));
  }

  lemma CallNeverErodes(reg: Registry, s: State, sid: SeriesId, settlement: SettlementInput,
                              keys: seq<PosKey>, ids: seq<OrderId>, running: set<nat>, now: nat, u: User, d: Domain)
    requires Inv(reg, s)
    requires PlansInRange(s.core.plans) && Listings(s.core, sid, keys, ids)
    requires sid in s.core.plans ==> Generous(s.core.plans[sid].positions)
    requires sid !in s.core.plans ==> s.market.insuranceBps + s.market.protocolBps <= BPS_BASE
    ensures var s' := SettleSeries(s, sid, settlement, keys, ids, running, now).state;
      && FreeMargin(s'.core, s.market, u, d) >= FreeMargin(s.core, s.market, u, d)
      && (sid in s'.core.plans ==> Generous(s'.core.plans[sid].positions))
  {
    hide FreeMargin, LinesOf, PostEquityTotal, DrivenLog, Prepared;
    if sid in s.core.plans {
      var plan := s.core.plans[sid];
      assert PlanSound(reg, s.core, sid, plan);
      var end := EndFor(plan, running);
      DrivenFree(reg, s.core, s.market, sid, plan, end, u, d);
      LeftOversAreGains(plan.positions, plan.cursor, end, u);
    } else if sid in s.ops.cached {
      var series := s.ops.cached[sid];
      var prepared := PrepareSettlement(s, sid, series, settlement, keys, ids, now);
      if prepared.result.Ok? {
        PreparedNeverErodes(reg, s, sid, settlement, keys, ids, running, now, u, d);
      }
    }
  }

  lemma PreparedNeverErodes(reg: Registry, s: State, sid: SeriesId, settlement: SettlementInput,
                            keys: seq<PosKey>, ids: seq<OrderId>, running: set<nat>, now: nat, u: User, d: Domain)
    requires Inv(reg, s)
    requires Listings(s.core, sid, keys, ids)
    requires sid !in s.core.plans && sid in s.ops.cached
    requires s.market.insuranceBps + s.market.protocolBps <= BPS_BASE
    requires PrepareSettlement(s, sid, s.ops.cached[sid], settlement, keys, ids, now).result.Ok?
    ensures var s1 := PrepareSettlement(s, sid, s.ops.cached[sid], settlement, keys, ids, now).state;
      var plan := s1.core.plans[sid];
      && PlanInRange(plan) && Generous(plan.positions)
      && FreeMargin(DrivenCore(s1.core, sid, plan, EndFor(plan, running)), s.market, u, d) >= FreeMargin(s.core, s.market, u, d)
  {
    var series := s.ops.cached[sid];
    var c1 := PrepareSettlement(s, sid, series, settlement, keys, ids, now).state.core;
    var plan := c1.plans[sid];
    var end := EndFor(plan, running);
    PlansAreGenerous(s.core.positions, s.market, series, keys, settlement);
    WithoutOrdersFree(reg, s.core, s.market, ids, u, d);
    PreparedSlack(reg, s.core, s.market, sid, series, settlement, plan, keys, ids);
    SlackKeepsCover(reg, s.core, c1);
    PreparedEntriesHaveAccounts(s.core, s.market, sid, series, settlement, plan, keys, ids);
    DrivenFree(reg, c1, s.market, sid, plan, end, u, d);
    LeftOversAreGains(plan.positions, plan.cursor, end, u);
  }

  // Every plan leaves each of its entries something or nothing, and the fee ratios in force are within a payoff.
  ghost predicate FairPlans(s: State) {
    && s.market.insuranceBps + s.market.protocolBps <= BPS_BASE
    && forall sid :: sid in s.core.plans ==> Generous(s.core.plans[sid].positions)
  }

  // Ratios that a run sets stay within a payoff.
  ghost predicate FairStep(step: Step) {
    step.Reprice? ==> step.market.insuranceBps + step.market.protocolBps <= BPS_BASE
  }

  lemma SettleKeepsFair(reg: Registry, s: State, step: Step)
    requires Inv(reg, s) && Enabled(reg, s, step) && step.Settle? && FairPlans(s)
    ensures FairPlans(After(reg, s, step)) && After(reg, s, step).market == s.market
  {
    var Settle(sid, settlement, keys, ids, running, now) := step;
    CallNeverErodes(reg, s, sid, settlement, keys, ids, running, now, User(0), Settlement);
    SettleShape(s, sid, settlement, keys, ids, running, now);
    hide SettleSeries, Prepares, LinesOf, Generous, Listings, FreeMargin, Inv;
  }

  lemma TradeKeepsMarket(s: State, series: Series, t: TradeParams, now: nat)
    ensures ExecuteTrade(s, series, t, now).state.market == s.market
  {
    hide TradeRefusal, Traded;
  }

  lemma FillKeepsMarket(reg: Registry, s: State, taker: User, id: OrderId, seen: LimitOrder, tradeId: TradeId,
                        requested: Option<int>, now: nat)
    requires seen.series in reg && OrdersExact(reg, s.core.orders)
    ensures FillOrder(s, taker, id, seen, tradeId, reg[seen.series], requested, now).state.market == s.market
  {
    FillShape(reg, s, taker, id, seen, tradeId, requested, now);
    if Fills(reg, s, taker, id, seen, tradeId, requested, now) {
      var o := s.core.orders[id];
      var fill := FillQty(requested, o.qty);
      var t := FillTrade(reg, o, taker, tradeId, fill);
      TradeKeepsMarket(s, reg[o.series], t, now);
      AfterTradeDone(ExecuteTrade(s, reg[o.series], t, now), id, Rest(reg, o, fill));
    }
  }

  lemma QuietKeepsMarket(reg: Registry, s: State, step: Step)
    requires Enabled(reg, s, step) && Quiet(step) && !step.Reprice?
    ensures After(reg, s, step).market == s.market
  {
    hide NoArbitrage, GetRequiredMargin, RawEquity, Redeemed, CanRedeem, CanRekey;
  }

  lemma StepKeepsFair(reg: Registry, s: State, step: Step)
    requires Inv(reg, s) && Enabled(reg, s, step) && FairStep(step) && FairPlans(s)
    ensures FairPlans(After(reg, s, step))
  {
    hide ExecuteTrade, PlaceLimitOrder, MintCompleteSet, FillOrder, SettleSeries, RedeemCompleteSet, Generous;
    match step {
      case Settle(_, _, _, _, _, _) => SettleKeepsFair(reg, s, step);
      case Fill(taker, id, seen, tradeId, requested, now) =>
        FillLeavesPlans(reg, s, taker, id, seen, tradeId, requested, now);
        FillKeepsMarket(reg, s, taker, id, seen, tradeId, requested, now);
      case Matched(t, now) =>
        TradeLeavesPlans(s, reg[t.seriesId], t, now);
        TradeKeepsMarket(s, reg[t.seriesId], t, now);
      case Reprice(market) =>
      case _ =>
        QuietSteps(reg, s, step);
        QuietKeepsMarket(reg, s, step);
    }
  }

  // In every state reached while the two ratios stay within 10000 bps every plan, however many and
  // however far along, leaves each entry at least nothing.
  lemma {:induction false} PlansStayFair(reg: Registry, s: State, steps: seq<Step>)
    requires Inv(reg, s) && FairPlans(s) && ValidRun(reg, s, steps) && OrdinaryRun(reg, steps)
    requires forall i :: 0 <= i < |steps| ==> FairStep(steps[i])
    ensures FairPlans(RunAll(reg, s, steps))
    decreases |steps|
  {
    hide Inv, FairPlans, After, Enabled;
    if steps == [] {
    } else {
      StepKeepsInv(reg, s, steps[0]);
      StepKeepsFair(reg, s, steps[0]);
      PlansStayFair(reg, After(reg, s, steps[0]), steps[1..]);
    }
  }

  // Settling never lowers anyone's free margin: over any sequence of settle calls, on any series in any
  // order, from their preparations to their last chunks.
  lemma {:induction false} SettlementNeverErodes(reg: Registry, s: State, steps: seq<Step>, u: User, d: Domain)
    requires Inv(reg, s) && FairPlans(s) && ValidRun(reg, s, steps)
    requires forall i :: 0 <= i < |steps| ==> steps[i].Settle?
    ensures var s' := RunAll(reg, s, steps);
      s'.market == s.market && FreeMargin(s'.core, s.market, u, d) >= FreeMargin(s.core, s.market, u, d)
    decreases |steps|
  {
    hide FreeMargin, Inv, Generous, SettleSeries, Listings;
    if steps == [] {
    } else {
      var Settle(sid, settlement, keys, ids, running, now) := steps[0];
      StepKeepsInv(reg, s, steps[0]);
      SettleKeepsFair(reg, s, steps[0]);
      CallNeverErodes(reg, s, sid, settlement, keys, ids, running, now, u, d);
      SettlementNeverErodes(reg, After(reg, s, steps[0]), steps[1..], u, d);
    }
  }

  // ---------------------------------------------------------------- the solvency check

  lemma {:induction false} AppliedEquity(accounts: map<User, Account>, d: Domain, entries: seq<SettlementPosition>, hi: nat,
                                         u: User, m: Market)
    requires hi <= |entries| && u in accounts
    ensures u in ApplyEntries(accounts, d, entries, 0, hi)
    ensures ApplyEntries(accounts, d, entries, 0, hi)[u].RawEquity(d, m.configs, m.metrics)
         == accounts[u].RawEquity(d, m.configs, m.metrics) + CashflowOf(entries[..hi], u)
    decreases hi
  {
    if hi == 0 {
    } else {
      AppliedEquity(accounts, d, entries, hi - 1, u, m);
      ApplyKeepsAccounts(accounts, d, entries, 0, hi - 1);
      var e := entries[hi - 1];
      assert entries[..hi][..hi - 1] == entries[..hi - 1] && entries[..hi][hi - 1] == e;
      var before := ApplyEntries(accounts, d, entries, 0, hi - 1);
      if e.user in before { EntryEquity(before, d, e, u, d, m); }
    }
  }

  lemma {:induction false} ReleasedEquity(accounts: map<User, Account>, orders: map<OrderId, LimitOrder>, ids: seq<OrderId>, u: User, d: Domain, m: Market)
    requires AllIn(ids, orders)
    ensures AccountOf(ReleaseAll(accounts, orders, ids), u).RawEquity(d, m.configs, m.metrics)
         == AccountOf(accounts, u).RawEquity(d, m.configs, m.metrics)
    decreases |ids|
  {
    if ids == [] {
    } else {
      var o := orders[ids[0]];
      ReleasedEquity(Release(accounts, o.creator, o.domain, o.blocked), orders, ids[1..], u, d, m);
    }
  }

  // calculate_equity_usd of every account, summed.
  ghost function ClampedEquity(d: Domain, m: Market): (User, Account) -> int {
    (u: User, a: Account) => Max(0, a.RawEquity(d, m.configs, m.metrics))
  }

  // The total the check compares with the outflows is the total of clamped equities once the last
  // chunk is applied, whatever the chunking.
  lemma SolvencyCheckPredicts(s: State, sid: SeriesId, series: Series, settlement: SettlementInput,
                              keys: seq<PosKey>, ids: seq<OrderId>, now: nat, calls: seq<Call>)
    requires Listings(s.core, sid, keys, ids) && sid !in s.core.plans
    requires LinesOf(s.core.positions, s.market, series, keys, settlement).Ok?
    requires PrepareSettlement(s, sid, series, settlement, keys, ids, now).result.Ok?
    requires |calls| > |keys|
    ensures var s1 := PrepareSettlement(s, sid, series, settlement, keys, ids, now).state;
      && Open(s1, sid)
      && Total(DriveAll(s1, sid, calls).core.accounts, ClampedEquity(series.domain, s.market))
         == PostEquityTotal(s, series.domain, Entries(LinesOf(s.core.positions, s.market, series, keys, settlement).value))
  {
    var s1 := PrepareSettlement(s, sid, series, settlement, keys, ids, now).state;
    LinesMatch(s.core.positions, s.market, series, keys, settlement);
    var plan := s1.core.plans[sid];
    var entries, d := plan.positions, series.domain;
    assert Open(s1, sid);
    EnoughChunksAreTheWholePass(s1, sid, calls, now);
    FinalEquityTotal(s.core.accounts, s.core.orders, ids, entries, d, s.market);
  }

  lemma FinalEquityOf(accounts: map<User, Account>, orders: map<OrderId, LimitOrder>, ids: seq<OrderId>,
                      entries: seq<SettlementPosition>, d: Domain, m: Market, u: User)
    requires AllIn(ids, orders) && u in accounts
    ensures var final := ApplyEntries(ReleaseAll(accounts, orders, ids), d, entries, 0, |entries|);
      u in final && PostEquity(d, entries, m.configs, m.metrics)(u, accounts[u]) == ClampedEquity(d, m)(u, final[u])
  {
    hide ReleaseAll, ApplyEntries, CashflowOf;
    ReleaseKeepsAccounts(accounts, orders, ids);
    ReleasedEquity(accounts, orders, ids, u, d, m);
    AppliedEquity(ReleaseAll(accounts, orders, ids), d, entries, |entries|, u, m);
    assert entries[..|entries|] == entries;
  }

  lemma FinalEquityTotal(accounts: map<User, Account>, orders: map<OrderId, LimitOrder>, ids: seq<OrderId>,
                         entries: seq<SettlementPosition>, d: Domain, m: Market)
    requires AllIn(ids, orders)
    ensures Total(ApplyEntries(ReleaseAll(accounts, orders, ids), d, entries, 0, |entries|), ClampedEquity(d, m))
         == Total(accounts, PostEquity(d, entries, m.configs, m.metrics))
  {
    hide ReleaseAll, ApplyEntries, PostEquity, ClampedEquity;
    var released := ReleaseAll(accounts, orders, ids);
    var final := ApplyEntries(released, d, entries, 0, |entries|);
    ReleaseKeepsAccounts(accounts, orders, ids);
    ApplyKeepsAccounts(released, d, entries, 0, |entries|);
    forall u | u in accounts
      ensures PostEquity(d, entries, m.configs, m.metrics)(u, accounts[u]) == ClampedEquity(d, m)(u, final[u])
    {
      FinalEquityOf(accounts, orders, ids, entries, d, m, u);
    }
    TotalSameKeys(accounts, PostEquity(d, entries, m.configs, m.metrics), final, ClampedEquity(d, m));
  }

  // Payoffs are defined and outflows are within the total the check compares.
  ghost predicate Payable(s: State, series: Series, keys: seq<PosKey>, settlement: SettlementInput)
    requires AllIn(keys, s.core.positions)
  {
    && LinesOf(s.core.positions, s.market, series, keys, settlement).Ok?
    && var lines := LinesOf(s.core.positions, s.market, series, keys, settlement).value;
       Outflows(lines) <= PostEquityTotal(s, series.domain, Entries(lines))
  }

  // A settle call fails exactly when it names another input than the one locked, or opens a settlement of
  // a series that is not cached or not payable; a call that fails changes nothing, and one that does not
  // leaves a plan with the input it named, or one finalised before.
  lemma FailedCallsChangeNothing(s: State, sid: SeriesId, settlement: SettlementInput,
                                 keys: seq<PosKey>, ids: seq<OrderId>, running: set<nat>, now: nat)
    requires PlansInRange(s.core.plans) && Listings(s.core, sid, keys, ids)
    ensures var r := SettleSeries(s, sid, settlement, keys, ids, running, now);
      && (r.result.Err? ==> r.state == s)
      && (r.result.Err? <==>
            if sid in s.core.plans
            then !s.core.plans[sid].status.Finalised? && s.core.plans[sid].settlement != settlement
            else sid !in s.ops.cached || !Payable(s, s.ops.cached[sid], keys, settlement))
      && (r.result.Ok? ==>
            (sid in r.state.core.plans
            && (r.result.value <==> r.state.core.plans[sid].status.Finalised?)
            && (r.state.core.plans[sid].settlement == settlement || r.state == s)))
  {
    hide LinesOf, PostEquityTotal, DrivenLog, Outflows;
  }
}
