// While a reassignment is pending, nothing brings its old owner back: the guards at work over every
// interleaving with the steps of the clearing book.
module Drained {
  import opened Base
  import opened Payoffs
  import opened Types
  import opened Totals
  import opened Book
  import opened Clearing
  import opened Coverage
  import opened SettlementCoverage
  import opened Rekey
  import opened Runs
  import opened CoverageRuns
  import opened CoverageTheorem
  import opened SettlementRuns
  import opened BookRuns
  import opened Reassignment

  // ---------------------------------------------------------------- the book's runs inside the machine's

  // The steps of the book that an action takes.
  ghost function StepsOf(reg: Registry, d: Desk, a: Action): seq<Step>
    requires Possible(reg, d, a)
  {
    match a
    case Leave(call, step) => if Revalidates(d.marks, d.calls[call]) then [step] else []
    case Free(step) => [step]
    case Begin(key, to, keys, _, e) =>
      if OutcomeOf(d.s.core, d.marks, d.plans, key, to, e).Opens? then [Reassign(key.owner, to, keys)] else []
    case _ => []
  }

  lemma ActionIsSteps(reg: Registry, d: Desk, a: Action)
    requires Possible(reg, d, a)
    ensures ValidRun(reg, d.s, StepsOf(reg, d, a))
    ensures RunAll(reg, d.s, StepsOf(reg, d, a)) == Next(reg, d, a).s
  {
    hide RekeyRefusal, Rekeyed, MoveKeys;
    if a.Begin? && OutcomeOf(d.s.core, d.marks, d.plans, a.key, a.to, a.elsewhere).Opens? {
      OpensMeansFree(d, a.key, a.to, a.elsewhere);
    }
    var steps := StepsOf(reg, d, a);
    if steps != [] {
      assert steps[1..] == [];
      assert Enabled(reg, d.s, steps[0]);
    }
  }

  ghost function BookSteps(reg: Registry, d: Desk, acts: seq<Action>): seq<Step>
    requires PossibleRun(reg, d, acts)
    decreases |acts|
  {
    if acts == [] then [] else StepsOf(reg, d, acts[0]) + BookSteps(reg, Next(reg, d, acts[0]), acts[1..])
  }

  lemma {:induction false} RunsJoin(reg: Registry, s: State, a: seq<Step>, b: seq<Step>)
    requires ValidRun(reg, s, a) && ValidRun(reg, RunAll(reg, s, a), b)
    ensures ValidRun(reg, s, a + b) && RunAll(reg, s, a + b) == RunAll(reg, RunAll(reg, s, a), b)
    decreases |a|
  {
    hide Enabled, After;
    if a == [] {
      assert a + b == b;
    } else {
      RunsJoin(reg, After(reg, s, a[0]), a[1..], b);
      assert (a + b)[1..] == a[1..] + b && (a + b)[0] == a[0];
    }
  }

  // Whatever the interleaving, the book itself has taken a run of its own steps: all that is proved of
  // every run holds here too.
  lemma {:induction false} InterleavingsAreRuns(reg: Registry, d: Desk, acts: seq<Action>)
    requires PossibleRun(reg, d, acts)
    ensures ValidRun(reg, d.s, BookSteps(reg, d, acts))
    ensures RunAll(reg, d.s, BookSteps(reg, d, acts)) == RunOf(reg, d, acts).s
    decreases |acts|
  {
    hide Possible, Next, StepsOf;
    if acts == [] {
    } else {
      var d1 := Next(reg, d, acts[0]);
      ActionIsSteps(reg, d, acts[0]);
      InterleavingsAreRuns(reg, d1, acts[1..]);
      RunsJoin(reg, d.s, StepsOf(reg, d, acts[0]), BookSteps(reg, d1, acts[1..]));
    }
  }

  // ---------------------------------------------------------------- a vacant principal

  // No account, no position, no order, no settlement entry still to come.
  ghost predicate Vacant(c: Core, u: User) {
    && u !in c.accounts
    && (forall k :: k in c.positions ==> k.user != u)
    && (forall id :: id in c.orders ==> c.orders[id].creator != u)
    && (forall sid :: sid in c.plans ==> !Awaits(c.plans[sid], u))
  }

  lemma RekeyVacates(c: Core, from: User, to: User, keys: seq<PosKey>)
    requires CanRekey(c, from, to) && Lists(keys, KeysOfUser(c.positions, from))
    ensures Vacant(Rekeyed(c, from, to, keys), from)
  {
    RekeyMovesEverything(c, from, to, keys);
    hide MoveKeys;
    forall sid | sid in c.plans ensures !Awaits(c.plans[sid], from) {
    }
  }

  lemma RekeySpares(c: Core, from: User, to: User, keys: seq<PosKey>, u: User)
    requires CanRekey(c, from, to) && Lists(keys, KeysOfUser(c.positions, from))
    requires Vacant(c, u) && u != from && u != to
    ensures Vacant(Rekeyed(c, from, to, keys), u)
  {
    RekeyMovesEverything(c, from, to, keys);
    hide MoveKeys;
  }

  // The principals a step acts for, makers of filled orders aside.
  predicate ActsFor(step: Step, u: User) {
    match step
    case Fund(user, _, _, _) => user == u
    case Limit(caller, _) => caller == u
    case Fill(taker, _, _, _, _, _) => taker == u
    case Matched(t, _) => t.buyer == u || t.seller == u
    case Mint(caller, _, _) => caller == u
    case Redeem(caller, _, _) => caller == u
    case _ => false
  }

  lemma TradedSpares(c: Core, d: Domain, t: TradeParams, b: Leg, l: Leg, u: User)
    requires Vacant(c, u) && t.buyer != u && t.seller != u
    ensures Vacant(Traded(c, d, t, b, l), u)
  {
  }

  lemma TradeSpares(s: State, series: Series, t: TradeParams, now: nat, u: User)
    requires Vacant(s.core, u) && t.buyer != u && t.seller != u
    ensures Vacant(ExecuteTrade(s, series, t, now).state.core, u)
  {
    if Executes(s, series, t) {
      ExecutedCore(s, series, t, now);
      TradedSpares(s.core, series.domain, t, BuyerLeg(s.core, series, t).value, SellerLeg(s.core, series, t).value, u);
    } else {
      FailedTradeChangesNothing(s, series, t, now);
    }
  }

  lemma FillSpares(reg: Registry, s: State, step: Step, u: User)
    requires step.Fill? && step.seen.series in reg && OrdersExact(reg, s.core.orders)
    requires Vacant(s.core, u) && step.taker != u
    ensures Vacant(After(reg, s, step).core, u)
  {
    hide Executes, ExecuteTrade;
    var Fill(taker, id, seen, tradeId, requested, now) := step;
    FillShape(reg, s, taker, id, seen, tradeId, requested, now);
    if Fills(reg, s, taker, id, seen, tradeId, requested, now) {
      var o := s.core.orders[id];
      var fill := FillQty(requested, o.qty);
      var t := FillTrade(reg, o, taker, tradeId, fill);
      var traded := ExecuteTrade(s, reg[o.series], t, now);
      TradeSpares(s, reg[o.series], t, now, u);
      assert traded.result.Ok? by { FillExecutes(reg, s, step); }
      AfterTradeDone(traded, id, Rest(reg, o, fill));
    }
  }

  lemma LimitSparesVacant(s: State, caller: User, series: Series, p: OrderParams, u: User)
    requires Vacant(s.core, u) && caller != u
    ensures Vacant(PlaceLimitOrder(s, caller, series, p).state.core, u)
  {
    hide NoArbitrage, RawEquity, GetRequiredMargin;
  }

  lemma MintSpares(s: State, caller: User, sid: SeriesId, series: Series, qty: int, u: User)
    requires Vacant(s.core, u) && caller != u
    ensures Vacant(MintCompleteSet(s, caller, sid, series, qty).state.core, u)
  {
    hide RawEquity;
    var r := MintCompleteSet(s, caller, sid, series, qty);
    if r.result.Ok? {
      var outcomes := series.outcomes.value;
      forall k | k in r.state.core.positions ensures k.user != u {
        GrantedKeys(s.core.positions, caller, sid, outcomes, qty, FloorDiv(qty * UNIT, |outcomes|), k);
      }
    }
  }

  lemma {:induction false} RedeemedSpares(c: Core, v: User, d: Domain, sid: SeriesId, outcomes: seq<OutcomeId>, qty: nat, u: User)
    requires Vacant(c, u)
    ensures var r := Redeemed(c, v, d, sid, outcomes, qty); r.Some? ==> Vacant(r.value, u)
    decreases |outcomes|
  {
    if outcomes == [] {
    } else {
      var k := SetKey(v, sid, outcomes[0]);
      if k !in c.positions {
        RedeemedSpares(c, v, d, sid, outcomes[1..], qty, u);
      } else {
        RedeemedSpares(RedeemOne(c, v, d, k, qty), v, d, sid, outcomes[1..], qty, u);
      }
    }
  }

  lemma DriveSpares(s: State, sid: SeriesId, plan: SettlementPlan, end: nat, now: nat, u: User)
    requires sid in s.core.plans && s.core.plans[sid] == plan && Reaches(plan, end)
    requires Vacant(s.core, u) && !plan.status.Finalised?
    ensures Vacant(DriveTo(s, sid, plan, end, now).state.core, u)
  {
    ApplyKeepsAccounts(s.core.accounts, plan.domain, plan.positions, plan.cursor, end);
    hide ApplyEntries, EntryEvents;
    assert !Awaits(plan, u) && !Awaits(DrivenPlan(plan, end), u);
  }

  lemma OpenedSpares(s: State, sid: SeriesId, settlement: SettlementInput, keys: seq<PosKey>, ids: seq<OrderId>, now: nat, u: User)
    requires Listings(s.core, sid, keys, ids) && Prepares(s, sid, settlement, keys, ids, now)
    requires Vacant(s.core, u)
    ensures var s1 := OpenedState(s, sid, settlement, keys, ids, now);
      && Vacant(s1.core, u) && sid in s1.core.plans && s1.core.plans[sid] == OpenedPlan(s, sid, settlement, keys, ids, now)
      && s1.core.plans[sid].status.Planned?
  {
    var series := s.ops.cached[sid];
    ReleaseKeepsAccounts(s.core.accounts, s.core.orders, ids);
    LinesMatch(s.core.positions, s.market, series, keys, settlement);
    hide LinesOf, ReleaseAll, PostEquityTotal, LineOf, ProtocolFees, InsuranceFees, Outflows, PrepareSettlement;
    var plan := OpenedPlan(s, sid, settlement, keys, ids, now);
    forall i | 0 <= i < |plan.positions| ensures plan.positions[i].user != u {
      assert keys[i] in s.core.positions;
    }
  }

  lemma SettleSparesVacant(s: State, sid: SeriesId, settlement: SettlementInput, keys: seq<PosKey>, ids: seq<OrderId>,
                           running: set<nat>, now: nat, u: User)
    requires PlansInRange(s.core.plans) && Listings(s.core, sid, keys, ids)
    requires Vacant(s.core, u)
    ensures Vacant(SettleSeries(s, sid, settlement, keys, ids, running, now).state.core, u)
  {
    hide SettleSeries, Prepares, Vacant, DriveTo, OpenedState, OpenedPlan;
    SettleShape(s, sid, settlement, keys, ids, running, now);
    if Resumes(s, sid, settlement) {
      DriveSpares(s, sid, s.core.plans[sid], EndFor(s.core.plans[sid], running), now, u);
    } else if Prepares(s, sid, settlement, keys, ids, now) {
      var plan := OpenedPlan(s, sid, settlement, keys, ids, now);
      OpenedSpares(s, sid, settlement, keys, ids, now, u);
      DriveSpares(OpenedState(s, sid, settlement, keys, ids, now), sid, plan, EndFor(plan, running), now, u);
    }
  }

  // Only a step taken for u itself can give u anything.
  lemma StepSpares(reg: Registry, s: State, step: Step, u: User)
    requires Enabled(reg, s, step) && OrdersExact(reg, s.core.orders)
    requires Vacant(s.core, u) && !ActsFor(step, u) && !step.Reassign?
    ensures Vacant(After(reg, s, step).core, u)
  {
    hide Vacant, ExecuteTrade, MintCompleteSet, FillOrder, SettleSeries, RedeemCompleteSet, PlaceLimitOrder, Redeemed;
    match step {
      case Limit(caller, p) => LimitSparesVacant(s, caller, reg[p.seriesId], p, u);
      case Fill(_, _, _, _, _, _) => FillSpares(reg, s, step, u);
      case Fund(user, d, id, balance) => FundSpares(s.core, user, d, id, balance, u);
      case Cancel(caller, id) => CancelSparesVacant(s, caller, id, u);
      case Matched(t, now) => TradeSpares(s, reg[t.seriesId], t, now, u);
      case Mint(caller, sid, qty) => MintSpares(s, caller, sid, reg[sid], qty, u);
      case Redeem(caller, sid, qty) => RedeemSpares(s, caller, sid, reg[sid], qty, u);
      case Settle(sid, settlement, keys, ids, running, now) => SettleSparesVacant(s, sid, settlement, keys, ids, running, now, u);
      case _ =>
    }
  }

  lemma FundSpares(c: Core, who: User, d: Domain, id: AssetId, balance: nat, u: User)
    requires Vacant(c, u) && who != u
    ensures Vacant(WithBalance(c, who, d, id, balance), u)
  {
  }

  lemma CancelSparesVacant(s: State, caller: User, id: OrderId, u: User)
    requires Vacant(s.core, u)
    ensures Vacant(CancelLimitOrder(s, caller, id).state.core, u)
  {
  }

  lemma RedeemSpares(s: State, caller: User, sid: SeriesId, series: Series, qty: int, u: User)
    requires Vacant(s.core, u)
    ensures Vacant(RedeemCompleteSet(s, caller, sid, series, qty).state.core, u)
  {
    hide Vacant, Redeemed;
    if qty > 0 && series.outcomes.Some? {
      RedeemedSpares(s.core, caller, series.domain, sid, series.outcomes.value, qty, u);
    }
  }

  // ---------------------------------------------------------------- while the lock is held

  // The one step that takes no guard: a trade the operator matched.
  predicate TradesFor(a: Action, u: User) { a.Free? && a.step.Matched? && ActsFor(a.step, u) }

  lemma ActionSpares(reg: Registry, d: Desk, a: Action, u: User)
    requires Possible(reg, d, a) && Frame(reg, d.s.core)
    requires MarkOf(d.marks, u).locked && Vacant(d.s.core, u) && !TradesFor(a, u)
    ensures Vacant(Next(reg, d, a).s.core, u)
  {
    hide Vacant, After, RekeyRefusal, Rekeyed;
    match a {
      case Leave(call, step) =>
        if Revalidates(d.marks, d.calls[call]) { StepSpares(reg, d.s, step, u); }
      case Free(step) => StepSpares(reg, d.s, step, u);
      case Begin(key, to, keys, _, e) =>
        if OutcomeOf(d.s.core, d.marks, d.plans, key, to, e).Opens? {
          OpensMeansFree(d, key, to, e);
          RekeySpares(d.s.core, key.owner, to, keys, u);
        }
      case _ =>
    }
  }

  lemma ActionFrame(reg: Registry, d: Desk, a: Action)
    requires Possible(reg, d, a) && Frame(reg, d.s.core) && CachedKnown(reg, d.s.ops)
    ensures Frame(reg, Next(reg, d, a).s.core) && CachedKnown(reg, Next(reg, d, a).s.ops)
  {
    hide Frame, CachedKnown, RekeyRefusal, Rekeyed;
    var steps := StepsOf(reg, d, a);
    ActionIsSteps(reg, d, a);
    if steps != [] {
      StepFrame(reg, d.s, steps[0]);
      assert steps[1..] == [];
    }
  }

  // The plan is pending in every state of the run but perhaps the last.
  ghost predicate PendingThroughout(reg: Registry, d: Desk, acts: seq<Action>, key: PlanKey)
    requires PossibleRun(reg, d, acts)
    decreases |acts|
  {
    acts == []
    || (key in d.plans && !d.plans[key].status.Finalised? && PendingThroughout(reg, Next(reg, d, acts[0]), acts[1..], key))
  }

  ghost predicate NoTradesFor(acts: seq<Action>, u: User) { forall i :: 0 <= i < |acts| ==> !TradesFor(acts[i], u) }

  // From the re-key until its plan is finalised the old owner keeps nothing and is given nothing, over
  // every interleaving of suspended calls, failed sweeps, other reassignments and upgrades, as long as
  // no matched trade names it.
  lemma {:induction false} DrainedStaysDrained(reg: Registry, d: Desk, acts: seq<Action>, key: PlanKey)
    requires LocksSound(d) && Frame(reg, d.s.core) && CachedKnown(reg, d.s.ops)
    requires PossibleRun(reg, d, acts) && PendingThroughout(reg, d, acts, key) && NoTradesFor(acts, key.owner)
    requires Vacant(d.s.core, key.owner)
    ensures Vacant(RunOf(reg, d, acts).s.core, key.owner)
    decreases |acts|
  {
    hide Possible, Next, Vacant, Frame, CachedKnown, LocksSound;
    if acts == [] {
    } else {
      PendingIsLocked(d, key);
      FrameOrders(reg, d.s.core);
      ActionSpares(reg, d, acts[0], key.owner);
      ActionFrame(reg, d, acts[0]);
      NextKeepsLocks(reg, d, acts[0]);
      DrainedStaysDrained(reg, Next(reg, d, acts[0]), acts[1..], key);
    }
  }

  lemma FrameOrders(reg: Registry, c: Core)
    requires Frame(reg, c)
    ensures OrdersExact(reg, c.orders)
  {
  }

  lemma PendingIsLocked(d: Desk, key: PlanKey)
    requires LocksSound(d) && key in d.plans && !d.plans[key].status.Finalised?
    ensures MarkOf(d.marks, key.owner).locked
  {
    assert Claims(d.plans, key, key.owner);
  }

  // The call that opens the plan leaves its old owner vacant.
  lemma OpeningVacates(reg: Registry, d: Desk, a: Action)
    requires a.Begin? && Possible(reg, d, a)
    requires OutcomeOf(d.s.core, d.marks, d.plans, a.key, a.to, a.elsewhere).Opens?
    ensures Vacant(Next(reg, d, a).s.core, a.key.owner)
    ensures MarkOf(Next(reg, d, a).marks, a.key.owner).locked && MarkOf(Next(reg, d, a).marks, a.to).locked
  {
    hide RekeyRefusal, Vacant;
    OpensMeansFree(d, a.key, a.to, a.elsewhere);
    RekeyVacates(d.s.core, a.key.owner, a.to, a.keys);
  }

  // A matched trade is the exception, and always: one with a fresh id that validation lets through for a
  // vacant principal gives it an account, locked or not.
  lemma MatchedTradesRevive(reg: Registry, s: State, t: TradeParams, now: nat, u: User)
    requires t.seriesId in reg && Vacant(s.core, u)
    ensures Vacant(ExecuteTrade(s, reg[t.seriesId], t, now).state.core, u)
        <==> !(Executes(s, reg[t.seriesId], t) && (t.buyer == u || t.seller == u))
  {
    if Executes(s, reg[t.seriesId], t) {
      ExecutedCore(s, reg[t.seriesId], t, now);
      if t.buyer != u && t.seller != u {
        TradeSpares(s, reg[t.seriesId], t, now, u);
      } else {
        assert u in ExecuteTrade(s, reg[t.seriesId], t, now).state.core.accounts;
      }
    } else {
      FailedTradeChangesNothing(s, reg[t.seriesId], t, now);
    }
  }
}
