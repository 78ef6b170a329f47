// The records of the clearing canister: accounts, positions, orders, settlement plans, events.
module Types {
  import opened Base
  import opened Payoffs
  import opened Totals

  const TWO_127: int := 0x8000_0000_0000_0000_0000_0000_0000_0000
  const TWO_128: int := 0x1_0000_0000_0000_0000_0000_0000_0000_0000

  // i128/u128 reinterpretation casts
  function CastSigned(v: nat): int {
    var w := v % TWO_128;
    if w < TWO_127 then w else w - TWO_128
  }

  function CastUnsigned(v: int): nat { if v >= 0 then v else CastUp(v) }

  function CastUp(v: int): nat { v % TWO_128 }

  datatype AssetConfig = AssetConfig(enabled: bool, decimals: nat, icrc: bool)

  datatype AssetMetric = AssetMetric(priceValue: nat, priceDecimals: nat, haircutBps: nat)

  // One asset's haircut value in USD base units; a value beyond u128 clamps before the signed cast.
  function AssetValue(balance: nat, config: AssetConfig, metric: AssetMetric): int {
    var numerator := balance * metric.priceValue * SatSub(BPS_BASE, metric.haircutBps);
    var source := config.decimals + metric.priceDecimals;
    var value :=
      if source >= USD_DECIMALS then FloorDiv(numerator, BPS_BASE * Pow10(source - USD_DECIMALS))
      else FloorDiv(numerator * Pow10(USD_DECIMALS - source), BPS_BASE);
    CastSigned(if value < TWO_128 then value else TWO_128 - 1)
  }

  ghost function HeldValue(configs: map<AssetId, AssetConfig>, metrics: map<AssetId, AssetMetric>): (AssetId, nat) -> int {
    (id: AssetId, balance: nat) =>
      if id in configs && id in metrics && configs[id].enabled then AssetValue(balance, configs[id], metrics[id]) else 0
  }

  // Entries equal to zero are removed, so a map without entries means an account without state.
  datatype Account = Account(
    balances: map<Domain, map<AssetId, nat>>,
    cash: map<Domain, int>,
    reserved: map<Domain, nat>)
  {
    function GetBalance(d: Domain, id: AssetId): nat {
      if d in balances && id in balances[d] then balances[d][id] else 0
    }

    function SetBalance(d: Domain, id: AssetId, amount: nat): Account {
      var held := if d in balances then balances[d] else map[];
      if amount > 0 then this.(balances := balances[d := held[id := amount]])
      else if held - {id} == map[] then this.(balances := balances - {d})
      else this.(balances := balances[d := held - {id}])
    }

    function GetCash(d: Domain): int { if d in cash then cash[d] else 0 }

    function SetCash(d: Domain, amount: int): Account {
      this.(cash := if amount == 0 then cash - {d} else cash[d := amount])
    }

    function GetReserved(d: Domain): nat { if d in reserved then reserved[d] else 0 }

    function SetReserved(d: Domain, amount: nat): Account {
      this.(reserved := if amount == 0 then reserved - {d} else reserved[d := amount])
    }

    ghost function Collateral(d: Domain, configs: map<AssetId, AssetConfig>, metrics: map<AssetId, AssetMetric>): int {
      if d in balances then Total(balances[d], HeldValue(configs, metrics)) else 0
    }

    ghost function RawEquity(d: Domain, configs: map<AssetId, AssetConfig>, metrics: map<AssetId, AssetMetric>): int {
      GetCash(d) + Collateral(d, configs, metrics)
    }
  }

  const NEW_ACCOUNT := Account(map[], map[], map[])

  // Setting one balance and reading any balance back: the setters change what they name and no more.
  lemma SettersAreExact(a: Account, d: Domain, x: int, m: nat, d': Domain)
    ensures a.SetCash(d, x).GetCash(d') == if d' == d then x else a.GetCash(d')
    ensures a.SetReserved(d, m).GetReserved(d') == if d' == d then m else a.GetReserved(d')
    ensures a.SetCash(d, x).reserved == a.reserved && a.SetReserved(d, m).cash == a.cash
    ensures a.SetCash(d, x).balances == a.balances == a.SetReserved(d, m).balances
  {
  }

  lemma BalancesAreExact(a: Account, d: Domain, id: AssetId, m: nat, d': Domain, id': AssetId)
    ensures a.SetBalance(d, id, m).GetBalance(d', id') == if d' == d && id' == id then m else a.GetBalance(d', id')
    ensures a.SetBalance(d, id, m).cash == a.cash && a.SetBalance(d, id, m).reserved == a.reserved
  {
    var held := if d in a.balances then a.balances[d] else map[];
    if id' in held && id' != id { assert id' in held - {id}; }
  }

  datatype PosKey = PosKey(user: User, series: SeriesId, outcome: Option<OutcomeId>)

  datatype Position = Position(netQty: int, margin: nat)

  const FLAT := Position(0, 0)

  datatype Side = Buy | Sell

  datatype LimitOrder = LimitOrder(
    creator: User, series: SeriesId, outcome: Option<OutcomeId>, side: Side,
    qty: int, price: Price, blocked: nat, domain: Domain)

  datatype PlanStatus = Planned | Executing | Finalised

  datatype SettlementPosition = SettlementPosition(
    user: User, outcome: Option<OutcomeId>, netQty: int, margin: nat, cashflow: int)

  datatype SettlementPlan = SettlementPlan(
    settlement: SettlementInput, fee: nat, insuranceFee: nat, positions: seq<SettlementPosition>,
    cursor: nat, applied: bool, status: PlanStatus, domain: Domain, createdNs: nat)

  datatype EventKind = OrderPlaced | Executed | Settled | Liquidated

  datatype Event = Event(
    eventId: nat, series: SeriesId, user: User, qty: int, price: Price, kind: EventKind, timestamp: nat)

  datatype TradeError =
    | SelfTrading
    | InsufficientMargin(user: User, balance: nat, required: nat)
    | OrderNotFound(order: OrderId)
    | NotOrderCreator
    | InvalidInput
    | Internal
    | ArbitrageLimitExceeded(sum: nat, limit: nat)
    | Trapped

  datatype SettlementError =
    | Unauthorized
    | InconsistentSettlement(existing: SettlementInput, requested: SettlementInput)
    | PayoffFailed
    | SolvencyViolation(payoff: nat, equity: int)
}
