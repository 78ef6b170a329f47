// The clearing book as a state machine. Each function here gives the state and the reply of one
// stretch of code that runs without an await; ClearingHouse holds the code itself.
module Clearing {
  import opened Base
  import opened Payoffs
  import opened Types
  import opened Totals
  import opened Book

  // Accounts and everything that reserves or moves what they hold.
  datatype Core = Core(
    accounts: map<User, Account>,
    positions: map<PosKey, Position>,
    orders: map<OrderId, LimitOrder>,
    plans: map<SeriesId, SettlementPlan>)

  // The series cache, the trade ids already executed, and the two fee funds.
  datatype Ops = Ops(cached: map<SeriesId, Series>, executed: map<TradeId, nat>, treasury: nat, insurance: nat)

  datatype Log = Log(events: seq<Event>, next: nat)

  // Collateral valuation and fee ratios, which no step here changes.
  datatype Market = Market(
    configs: map<AssetId, AssetConfig>, metrics: map<AssetId, AssetMetric>, insuranceBps: nat, protocolBps: nat)

  datatype State = State(core: Core, ops: Ops, log: Log, market: Market)

  datatype Reply<+E> = Reply(state: State, result: Result<bool, E>)

  function AccountOf(accounts: map<User, Account>, u: User): Account {
    if u in accounts then accounts[u] else NEW_ACCOUNT
  }

  function PositionOf(positions: map<PosKey, Position>, k: PosKey): Position {
    if k in positions then positions[k] else FLAT
  }

  ghost function RawEquity(s: State, u: User, d: Domain): int {
    AccountOf(s.core.accounts, u).RawEquity(d, s.market.configs, s.market.metrics)
  }

  // What a deposit that arrived, a withdrawal, or the refund of one that failed does to the book: one
  // balance of one account is set, and the account opened when it was missing.
  function WithBalance(c: Core, u: User, d: Domain, id: AssetId, balance: nat): Core {
    c.(accounts := c.accounts[u := AccountOf(c.accounts, u).SetBalance(d, id, balance)])
  }

  // ---------------------------------------------------------------- trades

  datatype TradeParams = TradeParams(
    tradeId: TradeId, seriesId: SeriesId, outcome: Option<OutcomeId>, buyer: User, seller: User,
    qty: int, price: Price, buyerUnblock: nat, sellerUnblock: nat)

  // One counterparty's share of a trade: realised cash, change of reserved margin, new cost basis.
  datatype Leg = Leg(cashDelta: int, reservedDelta: int, newMargin: nat)

  function LegOf(series: Series, price: Price, held: Position, newQty: int, unblock: nat): Result<Leg, TradeError> {
    var newMargin := GetRequiredMargin(series, price, newQty);
    var oldAtPrice := GetRequiredMargin(series, price, held.netQty);
    if newMargin.Err? || oldAtPrice.Err? then Err(Internal)
    else Ok(Leg(held.margin - oldAtPrice.value, newMargin.value - held.margin - unblock, newMargin.value))
  }

  function Adjusted(reserved: nat, delta: int): nat {
    if delta > 0 then reserved + delta else SatSub(reserved, -delta)
  }

  function ApplyLeg(a: Account, d: Domain, leg: Leg): Account {
    a.SetCash(d, a.GetCash(d) - leg.cashDelta).SetReserved(d, Adjusted(a.GetReserved(d), leg.reservedDelta))
  }

  ghost function Insufficient(s: State, u: User, d: Domain, leg: Leg): Option<TradeError> {
    var target := Adjusted(AccountOf(s.core.accounts, u).GetReserved(d), leg.reservedDelta);
    if RawEquity(s, u, d) < target then Some(InsufficientMargin(u, Max(0, RawEquity(s, u, d)), target)) else None
  }

  function KeyOf(t: TradeParams, u: User): PosKey { PosKey(u, t.seriesId, t.outcome) }

  function TradeEvents(t: TradeParams, id: nat, now: nat): seq<Event> {
    [Event(id, t.seriesId, t.buyer, t.qty, t.price, Executed, now),
     Event(id, t.seriesId, t.seller, -t.qty, t.price, Executed, now)]
  }

  function Traded(c: Core, d: Domain, t: TradeParams, b: Leg, l: Leg): Core {
    var accounts := c.accounts[t.buyer := ApplyLeg(AccountOf(c.accounts, t.buyer), d, b)];
    var kb, ks := KeyOf(t, t.buyer), KeyOf(t, t.seller);
    var positions := c.positions[kb := Position(PositionOf(c.positions, kb).netQty + t.qty, b.newMargin)];
    c.(accounts := accounts[t.seller := ApplyLeg(AccountOf(accounts, t.seller), d, l)],
       positions := positions[ks := Position(PositionOf(positions, ks).netQty - t.qty, l.newMargin)])
  }

  function Append(log: Log, events: seq<Event>, ids: nat): Log { Log(log.events + events, log.next + ids) }

  function BuyerLeg(c: Core, series: Series, t: TradeParams): Result<Leg, TradeError> {
    var held := PositionOf(c.positions, KeyOf(t, t.buyer));
    LegOf(series, t.price, held, held.netQty + t.qty, t.buyerUnblock)
  }

  function SellerLeg(c: Core, series: Series, t: TradeParams): Result<Leg, TradeError> {
    var held := PositionOf(c.positions, KeyOf(t, t.seller));
    LegOf(series, t.price, held, held.netQty - t.qty, t.sellerUnblock)
  }

  function Recorded(s: State, t: TradeParams, now: nat): State {
    s.(log := Append(s.log, TradeEvents(t, s.log.next, now), 1),
       ops := s.ops.(executed := s.ops.executed[t.tradeId := s.log.next]))
  }

  // The validation phase: nothing has been written when it refuses.
  ghost function TradeRefusal(s: State, series: Series, t: TradeParams): Option<TradeError> {
    if t.buyer == t.seller then Some(SelfTrading)
    else
      var b, l := BuyerLeg(s.core, series, t), SellerLeg(s.core, series, t);
      if b.Err? || l.Err? then Some(Internal)
      else if series.domain == Social then None
      else
        var noBuyer := Insufficient(s, t.buyer, series.domain, b.value);
        if noBuyer.Some? then noBuyer else Insufficient(s, t.seller, series.domain, l.value)
  }

  ghost function TradeDone(s: State, series: Series, t: TradeParams, now: nat): State
    requires TradeRefusal(s, series, t).None?
  {
    var core := Traded(s.core, series.domain, t, BuyerLeg(s.core, series, t).value, SellerLeg(s.core, series, t).value);
    Recorded(s.(core := core), t, now)
  }

  ghost function ExecuteTrade(s: State, series: Series, t: TradeParams, now: nat): Reply<TradeError> {
    if t.tradeId in s.ops.executed then Reply(s, Ok(true))
    else
      var refusal := TradeRefusal(s, series, t);
      if refusal.Some? then Reply(s, Err(refusal.value)) else Reply(TradeDone(s, series, t, now), Ok(true))
  }

  // ---------------------------------------------------------------- limit orders

  datatype OrderParams = OrderParams(
    orderId: OrderId, seriesId: SeriesId, outcome: Option<OutcomeId>, side: Side, qty: int, price: Price)

  function Signed(side: Side, qty: int): int { if side == Sell then -qty else qty }

  // entry(u).or_insert_with: an account without state appears even when the call then fails.
  function Opened(c: Core, u: User): Core { c.(accounts := c.accounts[u := AccountOf(c.accounts, u)]) }

  function Placed(c: Core, id: OrderId, o: LimitOrder): Core {
    var a := AccountOf(c.accounts, o.creator);
    c.(accounts := c.accounts[o.creator := a.SetReserved(o.domain, a.GetReserved(o.domain) + o.blocked)],
       orders := c.orders[id := o])
  }

  // The part of submit_limit_order after its awaits.
  ghost function PlaceLimitOrder(s: State, caller: User, series: Series, p: OrderParams): Reply<TradeError> {
    var arbitrage := NoArbitrage(s.core.orders, p.seriesId, series, p.side, p.outcome, p.price);
    var margin := GetRequiredMargin(series, p.price, Signed(p.side, p.qty));
    if arbitrage.Err? then Reply(s, arbitrage)
    else if margin.Err? then Reply(s, Err(Internal))
    else
      var d := series.domain;
      var equity := Max(0, RawEquity(s, caller, d));
      var target := AccountOf(s.core.accounts, caller).GetReserved(d) + margin.value;
      if equity < target then
        Reply(s.(core := Opened(s.core, caller)), Err(InsufficientMargin(caller, equity, target)))
      else
        var order := LimitOrder(caller, p.seriesId, p.outcome, p.side, p.qty, p.price, margin.value, d);
        Reply(s.(core := Placed(s.core, p.orderId, order)), Ok(true))
  }

  // The whole call when nothing suspends it between its first check and the placement.
  ghost function SubmitLimitOrder(s: State, caller: User, series: Series, p: OrderParams): Reply<TradeError> {
    if p.qty <= 0 || p.price.value == 0 then Reply(s, Err(InvalidInput))
    else if p.orderId in s.core.orders then Reply(s, Ok(true))
    else PlaceLimitOrder(s, caller, series, p)
  }

  // ---------------------------------------------------------------- fills and cancellations

  function FillQty(requested: Option<int>, resting: int): int {
    if requested.None? then resting else Min(requested.value, resting)
  }

  // The margin the rest of an order keeps blocked once fill contracts are taken from it.
  function StillBlocked(series: Series, o: LimitOrder, fill: int): Result<nat, PayoffError> {
    if o.qty - fill == 0 then Ok(0) else GetRequiredMargin(series, o.price, Signed(o.side, o.qty - fill))
  }

  predicate SameOrder(o: LimitOrder, seen: LimitOrder) {
    && o.creator == seen.creator && o.series == seen.series && o.outcome == seen.outcome
    && o.side == seen.side && o.price == seen.price
  }

  function FillParams(o: LimitOrder, taker: User, tradeId: TradeId, fill: int, unblock: nat): TradeParams {
    if o.side.Buy? then TradeParams(tradeId, o.series, o.outcome, o.creator, taker, fill, o.price, unblock, 0)
    else TradeParams(tradeId, o.series, o.outcome, taker, o.creator, fill, o.price, 0, unblock)
  }

  function Shrunk(c: Core, id: OrderId, rest: LimitOrder): Core {
    c.(orders := if rest.qty == 0 then c.orders - {id} else c.orders[id := rest])
  }

  // The book changes only once the trade has succeeded.
  function AfterTrade(traded: Reply<TradeError>, id: OrderId, rest: LimitOrder): Reply<TradeError> {
    if traded.result.Err? then traded
    else Reply(traded.state.(core := Shrunk(traded.state.core, id, rest)), Ok(true))
  }

  ghost function TradeAndShrink(s: State, series: Series, t: TradeParams, id: OrderId, rest: LimitOrder, now: nat): Reply<TradeError> {
    AfterTrade(ExecuteTrade(s, series, t, now), id, rest)
  }

  // checked_sub of what stays blocked from what was blocked.
  predicate Affordable(o: LimitOrder, kept: Result<nat, PayoffError>) { kept.Ok? && kept.value <= o.blocked }

  // The order as it stands now, filled as far as requested.
  ghost function FillLive(s: State, taker: User, id: OrderId, o: LimitOrder, tradeId: TradeId, series: Series, fill: int, now: nat)
    : Reply<TradeError>
  {
    var kept := StillBlocked(series, o, fill);
    if Affordable(o, kept) then
      TradeAndShrink(s, series, FillParams(o, taker, tradeId, fill, o.blocked - kept.value),
                     id, o.(qty := o.qty - fill, blocked := kept.value), now)
    else Reply(s, Err(Internal))
  }

  // submit_market_order_impl; seen is the copy of the order read before the awaits.
  ghost function FillOrder(s: State, taker: User, id: OrderId, seen: LimitOrder, tradeId: TradeId,
                           series: Series, requested: Option<int>, now: nat): Reply<TradeError>
  {
    if requested.Some? && requested.value <= 0 then Reply(s, Err(InvalidInput))
    else if tradeId in s.ops.executed then Reply(s, Ok(true))
    else if id !in s.core.orders || !SameOrder(s.core.orders[id], seen) then Reply(s, Err(OrderNotFound(id)))
    else
      var o := s.core.orders[id];
      FillLive(s, taker, id, o, tradeId, series, FillQty(requested, o.qty), now)
  }

  function Release(accounts: map<User, Account>, u: User, d: Domain, amount: nat): map<User, Account> {
    if u !in accounts then accounts
    else accounts[u := accounts[u].SetReserved(d, SatSub(accounts[u].GetReserved(d), amount))]
  }

  function Unplaced(c: Core, id: OrderId): Core
    requires id in c.orders
  {
    var o := c.orders[id];
    c.(orders := c.orders - {id}, accounts := Release(c.accounts, o.creator, o.domain, o.blocked))
  }

  function CancelLimitOrder(s: State, caller: User, id: OrderId): Reply<TradeError> {
    if id !in s.core.orders then Reply(s, Err(OrderNotFound(id)))
    else if s.core.orders[id].creator != caller then Reply(s, Err(NotOrderCreator))
    else Reply(s.(core := Unplaced(s.core, id)), Ok(true))
  }

  // ---------------------------------------------------------------- complete sets

  function SetKey(u: User, sid: SeriesId, o: OutcomeId): PosKey { PosKey(u, sid, Some(o)) }

  function Granted(positions: map<PosKey, Position>, u: User, sid: SeriesId, outcomes: seq<OutcomeId>,
                   qty: int, share: nat): map<PosKey, Position>
    decreases |outcomes|
  {
    if outcomes == [] then positions
    else
      var k := SetKey(u, sid, outcomes[0]);
      var p := PositionOf(positions, k);
      Granted(positions[k := Position(p.netQty + qty, p.margin + share)], u, sid, outcomes[1..], qty, share)
  }

  function Minted(c: Core, caller: User, sid: SeriesId, outcomes: seq<OutcomeId>, d: Domain, qty: nat): Core
    requires outcomes != []
  {
    var a := AccountOf(c.accounts, caller);
    c.(accounts := c.accounts[caller := a.SetReserved(d, a.GetReserved(d) + qty * UNIT)],
       positions := Granted(c.positions, caller, sid, outcomes, qty, FloorDiv(qty * UNIT, |outcomes|)))
  }

  ghost function MintCompleteSet(s: State, caller: User, sid: SeriesId, series: Series, qty: int): Reply<TradeError> {
    if qty <= 0 || !series.payoffType.Categorical? then Reply(s, Err(InvalidInput))
    else if series.outcomes.None? then Reply(s, Err(Internal))
    else
      var outcomes, d, cost := series.outcomes.value, series.domain, qty * UNIT;
      var target := AccountOf(s.core.accounts, caller).GetReserved(d) + cost;
      if RawEquity(s, caller, d) < target then
        Reply(s.(core := Opened(s.core, caller)), Err(InsufficientMargin(caller, Max(0, RawEquity(s, caller, d)), target)))
      else if outcomes == [] then Reply(s, Err(Trapped))
      else Reply(s.(core := Minted(s.core, caller, sid, outcomes, d, qty)), Ok(true))
  }

  // What redeeming qty contracts of one position frees: its stored cost basis per contract, rounded down.
  function Freed(p: Position, qty: nat): nat {
    if CastUnsigned(p.netQty) == 0 then 0 else FloorDiv(p.margin, CastUnsigned(p.netQty)) * qty
  }

  function RedeemOne(c: Core, u: User, d: Domain, k: PosKey, qty: nat): Core
    requires k in c.positions
  {
    var p, freed := c.positions[k], Freed(c.positions[k], qty);
    c.(accounts := Release(c.accounts, u, d, freed),
       positions := c.positions[k := Position(p.netQty - qty, SatSub(p.margin, freed))])
  }

  // None stands for the trap on a zero quantity, which undoes the whole message.
  function Redeemed(c: Core, u: User, d: Domain, sid: SeriesId, outcomes: seq<OutcomeId>, qty: nat): Option<Core>
    decreases |outcomes|
  {
    if outcomes == [] then Some(c)
    else
      var k := SetKey(u, sid, outcomes[0]);
      if k !in c.positions then Redeemed(c, u, d, sid, outcomes[1..], qty)
      else if CastUnsigned(c.positions[k].netQty) == 0 then None
      else Redeemed(RedeemOne(c, u, d, k, qty), u, d, sid, outcomes[1..], qty)
  }

  predicate CanRedeem(positions: map<PosKey, Position>, caller: User, sid: SeriesId, outcomes: seq<OutcomeId>, qty: int) {
    forall o :: o in outcomes ==> PositionOf(positions, SetKey(caller, sid, o)).netQty >= qty
  }

  function RedeemCompleteSet(s: State, caller: User, sid: SeriesId, series: Series, qty: int): Reply<TradeError> {
    if qty <= 0 || !series.payoffType.Categorical? then Reply(s, Err(InvalidInput))
    else if series.outcomes.None? then Reply(s, Err(Internal))
    else if !CanRedeem(s.core.positions, caller, sid, series.outcomes.value, qty) then Reply(s, Err(InvalidInput))
    else
      match Redeemed(s.core, caller, series.domain, sid, series.outcomes.value, qty)
      case None => Reply(s, Err(Trapped))
      case Some(c) => Reply(s.(core := c), Ok(true))
  }

  // ---------------------------------------------------------------- settlement: the plan

  // keys lists each element of a set once: the order in which the canister walks a map.
  ghost predicate Lists<K(!new)>(keys: seq<K>, elements: set<K>) {
    && (forall i :: 0 <= i < |keys| ==> keys[i] in elements)
    && (forall k :: k in elements ==> k in keys)
    && (forall i, j :: 0 <= i < j < |keys| ==> keys[i] != keys[j])
  }

  function KeysOfSeries(positions: map<PosKey, Position>, sid: SeriesId): set<PosKey> {
    set k | k in positions && k.series == sid
  }

  function OrdersOfSeries(orders: map<OrderId, LimitOrder>, sid: SeriesId): set<OrderId> {
    set id | id in orders && orders[id].series == sid
  }

  // A position's payoff, both fees, and the plan entry that nets them against its margin.
  datatype Line = Line(payoff: nat, insuranceFee: nat, fee: nat, entry: SettlementPosition)

  function LineOf(series: Series, k: PosKey, p: Position, settlement: SettlementInput, iBps: nat, pBps: nat)
    : Result<Line, PayoffError>
  {
    match GetSettlementValue(series, p.netQty, k.outcome, settlement)
    case Err(e) => Err(e)
    case Ok(payoff) =>
      var i, f := SettlementFee(payoff, iBps), SettlementFee(payoff, pBps);
      Ok(Line(payoff, i, f, SettlementPosition(k.user, k.outcome, p.netQty, p.margin, payoff - p.margin - i - f)))
  }

  function LinesOf(positions: map<PosKey, Position>, m: Market, series: Series, keys: seq<PosKey>, settlement: SettlementInput)
    : Result<seq<Line>, PayoffError>
    requires forall i :: 0 <= i < |keys| ==> keys[i] in positions
  {
    if keys == [] then Ok([])
    else
      var n := |keys| - 1;
      match LinesOf(positions, m, series, keys[..n], settlement)
      case Err(e) => Err(e)
      case Ok(lines) =>
        match LineOf(series, keys[n], positions[keys[n]], settlement, m.insuranceBps, m.protocolBps)
        case Err(e) => Err(e)
        case Ok(line) => Ok(lines + [line])
  }

  function Entries(lines: seq<Line>): (r: seq<SettlementPosition>)
    ensures |r| == |lines|
    ensures forall i :: 0 <= i < |r| ==> r[i] == lines[i].entry
  {
    seq(|lines|, i requires 0 <= i < |lines| => lines[i].entry)
  }

  function InsuranceFees(lines: seq<Line>): (r: nat) {
    if lines == [] then 0 else InsuranceFees(lines[..|lines| - 1]) + lines[|lines| - 1].insuranceFee
  }

  function ProtocolFees(lines: seq<Line>): (r: nat) {
    if lines == [] then 0 else ProtocolFees(lines[..|lines| - 1]) + lines[|lines| - 1].fee
  }

  // Only positive cashflows count as outflows.
  function Outflows(lines: seq<Line>): (r: nat) {
    if lines == [] then 0
    else Outflows(lines[..|lines| - 1]) + Max(0, lines[|lines| - 1].entry.cashflow)
  }

  // The cashflow a list of plan entries brings one user.
  function CashflowOf(entries: seq<SettlementPosition>, u: User): int {
    if entries == [] then 0
    else
      var n := |entries| - 1;
      CashflowOf(entries[..n], u) + if entries[n].user == u then entries[n].cashflow else 0
  }

  ghost function PostEquity(d: Domain, entries: seq<SettlementPosition>,
                            configs: map<AssetId, AssetConfig>, metrics: map<AssetId, AssetMetric>): (User, Account) -> int
  {
    (u: User, a: Account) => Max(0, a.RawEquity(d, configs, metrics) + CashflowOf(entries, u))
  }

  ghost function PostEquityTotal(s: State, d: Domain, entries: seq<SettlementPosition>): int {
    Total(s.core.accounts, PostEquity(d, entries, s.market.configs, s.market.metrics))
  }

  function ReleaseAll(accounts: map<User, Account>, orders: map<OrderId, LimitOrder>, ids: seq<OrderId>): map<User, Account>
    requires forall i :: 0 <= i < |ids| ==> ids[i] in orders
  {
    if ids == [] then accounts
    else
      var o := orders[ids[0]];
      ReleaseAll(Release(accounts, o.creator, o.domain, o.blocked), orders, ids[1..])
  }

  ghost function SetOf<K(!new)>(keys: seq<K>): set<K> { set k | k in keys }

  ghost predicate Listings(c: Core, sid: SeriesId, keys: seq<PosKey>, ids: seq<OrderId>) {
    Lists(keys, KeysOfSeries(c.positions, sid)) && Lists(ids, OrdersOfSeries(c.orders, sid))
  }

  function NewPlan(settlement: SettlementInput, lines: seq<Line>, d: Domain, now: nat): SettlementPlan {
    SettlementPlan(settlement, ProtocolFees(lines), InsuranceFees(lines), Entries(lines), 0, false, Planned, d, now)
  }

  ghost function Prepared(c: Core, sid: SeriesId, plan: SettlementPlan, keys: seq<PosKey>, ids: seq<OrderId>): Core
    requires Listings(c, sid, keys, ids)
  {
    Core(ReleaseAll(c.accounts, c.orders, ids), c.positions - SetOf(keys), c.orders - SetOf(ids), c.plans[sid := plan])
  }

  // prepare_settlement_impl, called only when the series has no plan.
  ghost function PrepareSettlement(s: State, sid: SeriesId, series: Series, settlement: SettlementInput,
                                   keys: seq<PosKey>, ids: seq<OrderId>, now: nat): Reply<SettlementError>
    requires Listings(s.core, sid, keys, ids)
  {
    match LinesOf(s.core.positions, s.market, series, keys, settlement)
    case Err(_) => Reply(s, Err(PayoffFailed))
    case Ok(lines) =>
      var outflow, equity := Outflows(lines), PostEquityTotal(s, series.domain, Entries(lines));
      if outflow > equity then Reply(s, Err(SolvencyViolation(outflow, equity)))
      else
        var plan := NewPlan(settlement, lines, series.domain, now);
        Reply(s.(core := Prepared(s.core, sid, plan, keys, ids)), Ok(true))
  }

  // ---------------------------------------------------------------- settlement: the accounting

  function ApplyEntry(accounts: map<User, Account>, d: Domain, e: SettlementPosition): map<User, Account> {
    if e.user !in accounts then accounts
    else
      var a := accounts[e.user];
      var paid := a.SetCash(d, a.GetCash(d) + e.cashflow);
      accounts[e.user := paid.SetReserved(d, SatSub(paid.GetReserved(d), e.margin))]
  }

  function ApplyEntries(accounts: map<User, Account>, d: Domain, entries: seq<SettlementPosition>, lo: nat, hi: nat)
    : map<User, Account>
    requires lo <= hi <= |entries|
    decreases hi - lo
  {
    if lo == hi then accounts else ApplyEntry(ApplyEntries(accounts, d, entries, lo, hi - 1), d, entries[hi - 1])
  }

  // Settled events carry the settlement price, or 1 when an outcome was declared.
  function EventPrice(settlement: SettlementInput): Price {
    if settlement.PriceInput? then settlement.price else Price(1, 0, 0)
  }

  function EntryEvents(accounts: map<User, Account>, sid: SeriesId, plan: SettlementPlan, lo: nat, hi: nat,
                       next: nat, now: nat): seq<Event>
    requires lo <= hi <= |plan.positions|
    decreases hi - lo
  {
    if lo == hi then []
    else
      var before := EntryEvents(accounts, sid, plan, lo, hi - 1, next, now);
      var e := plan.positions[hi - 1];
      if e.user !in accounts then before
      else before + [Event(next + |before|, sid, e.user, e.cashflow, EventPrice(plan.settlement), Settled, now)]
  }

  // Where a call stops: at the end, or at a multiple of 100 where the instruction counter is running.
  function ChunkEnd(from: nat, n: nat, running: set<nat>): (end: nat)
    requires from <= n
    ensures from <= end <= n
    ensures from < n ==> from < end
    decreases n - from
  {
    if from == n then n
    else if (from + 1) % 100 == 0 && from + 1 in running then from + 1
    else ChunkEnd(from + 1, n, running)
  }

  predicate PlanInRange(plan: SettlementPlan) { plan.cursor <= |plan.positions| }

  // What one run of apply_settlement_accounting_logic up to entry end, and the finalising that may
  // follow it, do to the accounts and to the plan.
  function DrivenPlan(plan: SettlementPlan, end: nat): SettlementPlan {
    var done := plan.applied || end == |plan.positions|;
    plan.(cursor := if plan.applied then plan.cursor else end, applied := done, status := if done then Finalised else Executing)
  }

  predicate Reaches(plan: SettlementPlan, end: nat) { plan.cursor <= end <= |plan.positions| }

  function DrivenCore(c: Core, sid: SeriesId, plan: SettlementPlan, end: nat): Core
    requires Reaches(plan, end)
  {
    c.(accounts := if plan.applied then c.accounts
                   else ApplyEntries(c.accounts, plan.domain, plan.positions, plan.cursor, end),
       plans := c.plans[sid := DrivenPlan(plan, end)])
  }

  function DrivenOps(ops: Ops, sid: SeriesId, plan: SettlementPlan, end: nat): Ops {
    var credited := !plan.applied && end == |plan.positions|;
    Ops(if plan.applied || credited then ops.cached - {sid} else ops.cached,
        ops.executed,
        ops.treasury + if credited then plan.fee else 0,
        ops.insurance + if credited then plan.insuranceFee else 0)
  }

  function DrivenLog(log: Log, accounts: map<User, Account>, sid: SeriesId, plan: SettlementPlan, end: nat, now: nat): Log
    requires Reaches(plan, end)
  {
    if plan.applied then log
    else
      var emitted := EntryEvents(accounts, sid, plan, plan.cursor, end, log.next, now);
      Append(log, emitted, |emitted|)
  }

  // Phases B and C of settle_series_inner on a plan that is not finalised.
  function DriveTo(s: State, sid: SeriesId, plan: SettlementPlan, end: nat, now: nat): Reply<SettlementError>
    requires Reaches(plan, end)
  {
    Reply(State(DrivenCore(s.core, sid, plan, end), DrivenOps(s.ops, sid, plan, end),
                DrivenLog(s.log, s.core.accounts, sid, plan, end, now), s.market),
          Ok(plan.applied || end == |plan.positions|))
  }

  function EndFor(plan: SettlementPlan, running: set<nat>): (end: nat)
    requires PlanInRange(plan)
    ensures Reaches(plan, end)
  {
    ChunkEnd(plan.cursor, |plan.positions|, running)
  }

  ghost predicate PlansInRange(plans: map<SeriesId, SettlementPlan>) {
    forall sid :: sid in plans ==> PlanInRange(plans[sid])
  }

  // settle_series_inner. Ok(true) is the finished reply, Ok(false) the processing one.
  ghost function SettleSeries(s: State, sid: SeriesId, settlement: SettlementInput,
                              keys: seq<PosKey>, ids: seq<OrderId>, running: set<nat>, now: nat): Reply<SettlementError>
    requires PlansInRange(s.core.plans)
    requires Listings(s.core, sid, keys, ids)
  {
    if sid in s.core.plans then
      var plan := s.core.plans[sid];
      if plan.status.Finalised? then Reply(s, Ok(true))
      else if plan.settlement != settlement then Reply(s, Err(InconsistentSettlement(plan.settlement, settlement)))
      else DriveTo(s, sid, plan, EndFor(plan, running), now)
    else if sid !in s.ops.cached then Reply(s, Err(Unauthorized))
    else
      var prepared := PrepareSettlement(s, sid, s.ops.cached[sid], settlement, keys, ids, now);
      if prepared.result.Err? then prepared
      else
        var plan := prepared.state.core.plans[sid];
        DriveTo(prepared.state, sid, plan, EndFor(plan, running), now)
  }
}
