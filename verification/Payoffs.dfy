// src/clearing/src/payoffs: scaling, unit payoffs, settlement values, required margin, fees.
module Payoffs {
  import opened Base

  datatype RoundingMode = Floor | Ceil

  datatype PayoffError = InvalidSettlementType | MissingStrike

  function Pow10(n: nat): (r: nat)
    ensures r > 0
  {
    if n == 0 then 1 else 10 * Pow10(n - 1)
  }

  function FloorDiv(a: nat, b: nat): nat
    requires b > 0
  {
    a / b
  }

  // u128::div_ceil
  function CeilDiv(a: nat, b: nat): nat
    requires b > 0
  {
    FloorDiv(a, b) + if a % b == 0 then 0 else 1
  }

  function ScalePrice(value: nat, target: nat, source: nat, mode: RoundingMode): nat {
    if target >= source then value * Pow10(target - source)
    else if mode.Floor? then FloorDiv(value, Pow10(source - target))
    else CeilDiv(value, Pow10(source - target))
  }

  // The price in USD base units, rounded up, as margin and book checks use it.
  function CeilUsd(p: Price): nat { ScalePrice(p.value, USD_DECIMALS, p.decimals, Ceil) }

  function FloorUsd(p: Price): nat { ScalePrice(p.value, USD_DECIMALS, p.decimals, Floor) }

  // The strike of a Call or Put at the precision of the settlement price.
  function StrikeAt(strike: Option<Price>, precision: nat): Result<nat, PayoffError> {
    match strike
    case Some(p) => Ok(ScalePrice(p.value, precision, p.decimals, Floor))
    case None => Err(MissingStrike)
  }

  function GetUnitPayoff(series: Series, outcome: Option<OutcomeId>, settlement: SettlementInput)
    : Result<nat, PayoffError>
  {
    if series.domain == Social then Ok(0)
    else match series.payoffType
      case Categorical =>
        if settlement.OutcomeInput? then Ok(if outcome == Some(settlement.outcome) then UNIT else 0)
        else Err(InvalidSettlementType)
      case Binary =>
        if settlement.PriceInput? then Ok(FloorUsd(settlement.price)) else Err(InvalidSettlementType)
      case Call =>
        if settlement.OutcomeInput? then Err(InvalidSettlementType)
        else (
          var p := settlement.price;
          match StrikeAt(series.strike, p.decimals)
          case Err(e) => Err(e)
          case Ok(k) => Ok(ScalePrice(SatSub(p.value, k), USD_DECIMALS, p.decimals, Floor)))
      case Put =>
        if settlement.OutcomeInput? then Err(InvalidSettlementType)
        else (
          var p := settlement.price;
          match StrikeAt(series.strike, p.decimals)
          case Err(e) => Err(e)
          case Ok(k) => Ok(ScalePrice(SatSub(k, p.value), USD_DECIMALS, p.decimals, Floor)))
  }

  predicate FullCollateral(series: Series) { series.payoffType.Binary? || series.payoffType.Categorical? }

  function GetSettlementValue(series: Series, netQty: int, outcome: Option<OutcomeId>, settlement: SettlementInput)
    : Result<nat, PayoffError>
  {
    match GetUnitPayoff(series, outcome, settlement)
    case Err(e) => Err(e)
    case Ok(unit) =>
      if FullCollateral(series) && netQty < 0 then Ok(Abs(netQty) * SatSub(UNIT, unit))
      else Ok(Abs(netQty) * unit)
  }

  function GetRequiredMargin(series: Series, price: Price, qty: int): Result<nat, PayoffError> {
    if series.domain == Social then Ok(0)
    else
      var scaled := CeilUsd(price);
      match series.payoffType
      case Binary | Categorical =>
        if qty > 0 then Ok(Abs(qty) * scaled)
        else if qty < 0 then Ok(Abs(qty) * SatSub(UNIT, scaled))
        else Ok(0)
      case Call => Ok(Abs(qty) * scaled)
      case Put =>
        if qty < 0 then
          match series.strike
          case Some(k) => Ok(Abs(qty) * CeilUsd(k))
          case None => Err(MissingStrike)
        else Ok(Abs(qty) * scaled)
  }

  function SettlementFee(payoff: nat, bps: nat): nat { payoff * bps / BPS_BASE }

  // ---------------------------------------------------------------- what these promise

  function Short(q: int): nat { if q < 0 then -q else 0 }

  // The part of a price above one unit, which the short side's saturating margin ignores.
  function Excess(p: nat): nat { SatSub(p, UNIT) }

  // Valuing q contracts at x from the long side, or at what x leaves of one unit from the short side.
  function SignedValue(q: int, x: nat): nat {
    if q >= 0 then q * x else -q * SatSub(UNIT, x)
  }

  lemma SignedValueSplits(q: int, x: nat)
    ensures SignedValue(q, x) == q * x + (UNIT + Excess(x)) * Short(q)
  {
    if q < 0 {
      var n := -q;
      assert -q * x == n * x;
      if x <= UNIT {
        assert n * (UNIT - x) == n * UNIT - n * x;
      } else {
        assert (UNIT + (x - UNIT)) * n == x * n;
      }
    }
  }

  // Fully collateralised margin is the signed value of the position plus one unit for each contract
  // short; a price above one unit adds its excess for each contract short.
  lemma MarginIsSignedValue(series: Series, price: Price, q: int)
    requires FullCollateral(series) && series.domain != Social
    ensures GetRequiredMargin(series, price, q).Ok?
    ensures GetRequiredMargin(series, price, q).value
         == q * CeilUsd(price) + (UNIT + Excess(CeilUsd(price))) * Short(q)
  {
    SignedValueSplits(q, CeilUsd(price));
    assert GetRequiredMargin(series, price, q).value == SignedValue(q, CeilUsd(price));
  }

  // Settlement pays the signed value plus one unit for each contract short, and again the excess.
  lemma SettlementIsSignedValue(series: Series, q: int, o: Option<OutcomeId>, settlement: SettlementInput)
    requires FullCollateral(series) && series.domain != Social
    requires GetUnitPayoff(series, o, settlement).Ok?
    ensures GetSettlementValue(series, q, o, settlement).Ok?
    ensures var u := GetUnitPayoff(series, o, settlement).value;
      GetSettlementValue(series, q, o, settlement).value == q * u + (UNIT + Excess(u)) * Short(q)
  {
    var u := GetUnitPayoff(series, o, settlement).value;
    SignedValueSplits(q, u);
    assert GetSettlementValue(series, q, o, settlement).value == SignedValue(q, u);
  }

  // Margin is linear in the size of a one-sided quantity, for every payoff type.
  lemma MarginAdds(series: Series, price: Price, a: int, b: int)
    requires (a >= 0 && b >= 0) || (a <= 0 && b <= 0)
    requires GetRequiredMargin(series, price, a + b).Ok?
    ensures GetRequiredMargin(series, price, a).Ok? && GetRequiredMargin(series, price, b).Ok?
    ensures GetRequiredMargin(series, price, a + b).value
         == GetRequiredMargin(series, price, a).value + GetRequiredMargin(series, price, b).value
  {
    assert Abs(a + b) == Abs(a) + Abs(b);
    var p := CeilUsd(price);
    Spread(Abs(a), Abs(b), p);
    Spread(Abs(a), Abs(b), SatSub(UNIT, p));
    if series.strike.Some? { Spread(Abs(a), Abs(b), CeilUsd(series.strike.value)); }
  }

  lemma Spread(a: int, b: int, x: int)
    ensures (a + b) * x == a * x + b * x
  {
  }

  // With ratios of at most 10000 bps together, fees never exceed the payoff they are taken from.
  lemma FeesWithinPayoff(payoff: nat, i: nat, p: nat)
    requires i + p <= BPS_BASE
    ensures SettlementFee(payoff, i) + SettlementFee(payoff, p) <= payoff
  {
    Spread(i, p, payoff);
    assert payoff * i + payoff * p <= payoff * BPS_BASE by {
      assert payoff * i + payoff * p == (i + p) * payoff;
      assert (i + p) * payoff <= BPS_BASE * payoff;
    }
    assert payoff * i / BPS_BASE * BPS_BASE <= payoff * i;
    assert payoff * p / BPS_BASE * BPS_BASE <= payoff * p;
  }
}
