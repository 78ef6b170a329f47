// Shared vocabulary: identifiers, results, and the records of the registry that clearing caches.
module Base {

  datatype Option<+T> = None | Some(value: T) {
    function Or(d: T): T { if Some? then value else d }
  }

  datatype Result<+T, +E> = Ok(value: T) | Err(error: E)

  // Identifiers are opaque values of which only equality and order matter.
  datatype User = User(principal: nat)
  datatype SeriesId = SeriesId(hash: nat)
  datatype OutcomeId = OutcomeId(name: nat)
  datatype OrderId = OrderId(name: nat)
  datatype TradeId = TradeId(name: nat)
  datatype AssetId = AssetId(name: nat)

  const USD_DECIMALS := 4
  // One unit of collateral in USD base units: 10^USD_DECIMALS.
  const UNIT: int := 10_000
  const BPS_BASE: int := 10_000

  // The canister is a 32-bit machine; ids and limits are 64-bit numbers.
  const USIZE_MAX: int := 0xFFFF_FFFF
  const U64_MAX: int := 0xFFFF_FFFF_FFFF_FFFF

  const NANOS_PER_DAY: int := 86_400_000_000_000

  datatype Domain = Playground | Settlement | ViciXp | Social

  datatype PayoffType = Binary | Call | Put | Categorical

  // tag stands for the optional timestamp and oracle id, which only equality can see.
  datatype Price = Price(value: nat, decimals: nat, tag: nat)

  datatype Series = Series(
    payoffType: PayoffType,
    strike: Option<Price>,
    outcomes: Option<seq<OutcomeId>>,
    domain: Domain)

  datatype SettlementInput = PriceInput(price: Price) | OutcomeInput(outcome: OutcomeId)

  function Max(a: int, b: int): int { if a < b then b else a }
  function Min(a: int, b: int): int { if a < b then a else b }
  function Abs(a: int): nat { if a < 0 then -a else a }

  // u128::saturating_sub
  function SatSub(a: nat, b: nat): nat { if a < b then 0 else a - b }
}
