// Runs of the clearing canister: sequences of steps, each one stretch of code between two awaits.
// A step may be taken in any state in which its caller could have been suspended before it.
module Runs {
  import opened Base
  import opened Payoffs
  import opened Types
  import opened Totals
  import opened Book
  import opened Clearing
  import opened Coverage
  import opened SettlementCoverage
  import opened Rekey

  datatype Step =
    | Cache(sid: SeriesId)
    | Reprice(market: Market)
    | Fund(user: User, domain: Domain, asset: AssetId, balance: nat)
    | Limit(caller: User, p: OrderParams)
    | Fill(taker: User, id: OrderId, seen: LimitOrder, tradeId: TradeId, requested: Option<int>, now: nat)
    | Cancel(caller: User, id: OrderId)
    | Matched(t: TradeParams, now: nat)
    | Mint(caller: User, sid: SeriesId, qty: int)
    | Redeem(caller: User, sid: SeriesId, qty: int)
    | Settle(sid: SeriesId, settlement: SettlementInput, keys: seq<PosKey>, ids: seq<OrderId>, running: set<nat>, now: nat)
    | Reassign(from: User, to: User, keys: seq<PosKey>)

  predicate DistinctOutcomes(series: Series) { series.outcomes.Some? ==> NoRepeats(series.outcomes.value) }

  // What has been checked before the step's first await and cannot have changed since: parameters,
  // the registered contract, and for a re-key the guards that run in the same message.
  ghost predicate Enabled(reg: Registry, s: State, step: Step) {
    match step
    case Cache(sid) => sid in reg
    case Reprice(_) => true
    case Fund(_, _, _, _) => true
    case Limit(_, p) => p.seriesId in reg && p.qty > 0 && p.price.value > 0
    case Fill(_, _, seen, _, _, _) => seen.series in reg
    case Cancel(_, _) => true
    case Matched(t, _) => t.seriesId in reg && t.qty > 0 && t.price.value > 0
    case Mint(_, sid, _) => sid in reg
    case Redeem(_, sid, _) => sid in reg
    case Settle(sid, _, keys, ids, _, _) => PlansInRange(s.core.plans) && Listings(s.core, sid, keys, ids)
    case Reassign(from, to, keys) => CanRekey(s.core, from, to) && Lists(keys, KeysOfUser(s.core.positions, from))
  }

  ghost function After(reg: Registry, s: State, step: Step): State
    requires Enabled(reg, s, step)
  {
    match step
    case Cache(sid) => s.(ops := s.ops.(cached := s.ops.cached[sid := reg[sid]]))
    case Reprice(market) => s.(market := market)
    case Fund(user, d, id, balance) => s.(core := WithBalance(s.core, user, d, id, balance))
    case Limit(caller, p) => PlaceLimitOrder(s, caller, reg[p.seriesId], p).state
    case Fill(taker, id, seen, tradeId, requested, now) =>
      FillOrder(s, taker, id, seen, tradeId, reg[seen.series], requested, now).state
    case Cancel(caller, id) => CancelLimitOrder(s, caller, id).state
    case Matched(t, now) => ExecuteTrade(s, reg[t.seriesId], t, now).state
    case Mint(caller, sid, qty) => MintCompleteSet(s, caller, sid, reg[sid], qty).state
    case Redeem(caller, sid, qty) => RedeemCompleteSet(s, caller, sid, reg[sid], qty).state
    case Settle(sid, settlement, keys, ids, running, now) => SettleSeries(s, sid, settlement, keys, ids, running, now).state
    case Reassign(from, to, keys) => s.(core := Rekeyed(s.core, from, to, keys))
  }

  ghost predicate ValidRun(reg: Registry, s: State, steps: seq<Step>)
    decreases |steps|
  {
    steps == [] || (Enabled(reg, s, steps[0]) && ValidRun(reg, After(reg, s, steps[0]), steps[1..]))
  }

  ghost function RunAll(reg: Registry, s: State, steps: seq<Step>): State
    requires ValidRun(reg, s, steps)
    decreases |steps|
  {
    if steps == [] then s else RunAll(reg, After(reg, s, steps[0]), steps[1..])
  }

  // ---------------------------------------------------------------- what every state satisfies

  // A resting order blocks exactly the margin of what is left of it, in its series' own domain.
  ghost predicate OrderExact(reg: Registry, o: LimitOrder) {
    && o.series in reg && o.domain == reg[o.series].domain && o.qty > 0
    && GetRequiredMargin(reg[o.series], o.price, Signed(o.side, o.qty)) == Ok(o.blocked)
  }

  ghost predicate OrdersExact(reg: Registry, orders: map<OrderId, LimitOrder>) {
    forall id :: id in orders ==> OrderExact(reg, orders[id])
  }

  ghost predicate PlanSound(reg: Registry, c: Core, sid: SeriesId, plan: SettlementPlan) {
    && PlanInRange(plan) && EntriesHaveAccounts(c, plan)
    && (plan.applied <==> plan.status.Finalised?)
    && (plan.applied ==> plan.cursor == |plan.positions|)
    && sid in reg && plan.domain == reg[sid].domain
  }

  ghost predicate PlansSound(reg: Registry, c: Core) {
    forall sid :: sid in c.plans ==> PlanSound(reg, c, sid, c.plans[sid])
  }

  ghost predicate PositionsKnown(reg: Registry, c: Core) {
    forall k :: k in c.positions ==> k.user in c.accounts && k.series in reg
  }

  ghost predicate CachedKnown(reg: Registry, ops: Ops) {
    forall sid :: sid in ops.cached ==> sid in reg && ops.cached[sid] == reg[sid]
  }

  ghost predicate CoreInv(reg: Registry, c: Core) {
    Covered(reg, c) && OrdersExact(reg, c.orders) && PlansSound(reg, c) && PositionsKnown(reg, c)
  }

  ghost predicate Inv(reg: Registry, s: State) { CoreInv(reg, s.core) && CachedKnown(reg, s.ops) }

  lemma EmptyIsCovered(reg: Registry, s: State)
    requires s.core.positions == map[] && s.core.orders == map[] && s.core.plans == map[]
    requires CachedKnown(reg, s.ops)
    ensures Inv(reg, s)
  {
    forall u, d ensures Slack(reg, s.core, u, d) >= 0 {
    }
  }

  // ---------------------------------------------------------------- slack gained by a step

  // What submit_limit_order checks between its last await and the placement.
  ghost predicate LimitPasses(s: State, caller: User, series: Series, p: OrderParams) {
    var margin := GetRequiredMargin(series, p.price, Signed(p.side, p.qty));
    && NoArbitrage(s.core.orders, p.seriesId, series, p.side, p.outcome, p.price).Ok?
    && margin.Ok?
    && Max(0, RawEquity(s, caller, series.domain)) >= AccountOf(s.core.accounts, caller).GetReserved(series.domain) + margin.value
  }

  // What minting checks.
  ghost predicate MintPasses(s: State, caller: User, series: Series, qty: int) {
    && qty > 0 && series.payoffType.Categorical? && series.outcomes.Some? && series.outcomes.value != []
    && RawEquity(s, caller, series.domain) >= AccountOf(s.core.accounts, caller).GetReserved(series.domain) + qty * UNIT
  }

  // What redeeming checks.
  predicate RedeemPasses(s: State, caller: User, sid: SeriesId, series: Series, qty: int) {
    && qty > 0 && series.payoffType.Categorical? && series.outcomes.Some?
    && CanRedeem(s.core.positions, caller, sid, series.outcomes.value, qty)
  }

  // A limit order is placed exactly when it passes; one refused for lack of margin is told its equity and
  // what would be reserved.
  lemma LimitPassesIff(s: State, caller: User, series: Series, p: OrderParams)
    ensures var r, d := PlaceLimitOrder(s, caller, series, p).result, series.domain;
      var margin := GetRequiredMargin(series, p.price, Signed(p.side, p.qty));
      && (r.Ok? <==> LimitPasses(s, caller, series, p))
      && (NoArbitrage(s.core.orders, p.seriesId, series, p.side, p.outcome, p.price).Ok? && margin.Ok? && r.Err? ==>
            r == Err(InsufficientMargin(caller, Max(0, RawEquity(s, caller, d)), AccountOf(s.core.accounts, caller).GetReserved(d) + margin.value)))
  {
    hide NoArbitrage, RawEquity, GetRequiredMargin;
  }

  // So is a mint, for a positive quantity of a categorical contract that declares outcomes.
  lemma MintPassesIff(s: State, caller: User, sid: SeriesId, series: Series, qty: int)
    ensures var r, d := MintCompleteSet(s, caller, sid, series, qty).result, series.domain;
      && (r.Ok? <==> MintPasses(s, caller, series, qty))
      && (qty > 0 && series.payoffType.Categorical? && series.outcomes.Some? && series.outcomes.value != [] && r.Err? ==>
            r == Err(InsufficientMargin(caller, Max(0, RawEquity(s, caller, d)), AccountOf(s.core.accounts, caller).GetReserved(d) + qty * UNIT)))
  {
    hide RawEquity, Granted;
  }

  // How much a step adds to u's slack in d: what an overwritten order had blocked, and what minting
  // rounds away. Every other step leaves slack alone, matched trades aside.
  ghost function Gain(reg: Registry, s: State, step: Step, u: User, d: Domain): int
    requires Enabled(reg, s, step)
  {
    match step
    case Limit(caller, p) =>
      if LimitPasses(s, caller, reg[p.seriesId], p) then At(s.core.orders, p.orderId, OrderMargin(u, d)) else 0
    case Mint(caller, sid, qty) =>
      if MintPasses(s, caller, reg[sid], qty) && u == caller && d == reg[sid].domain
      then MintDust(qty, |reg[sid].outcomes.value|) else 0
    case _ => 0
  }

  // What distributing qty units over n outcomes leaves over.
  function MintDust(qty: int, n: nat): int {
    if n == 0 || qty < 0 then 0 else qty * UNIT - n * FloorDiv(qty * UNIT, n)
  }

  lemma DustIsRemainder(qty: nat, n: nat)
    requires n > 0
    ensures 0 <= MintDust(qty, n) < n
    ensures MintDust(qty, n) == qty * UNIT % n
  {
    assert qty * UNIT == n * (qty * UNIT / n) + qty * UNIT % n;
  }
}
