// What scaling, payoffs and margins come to, stated on the prices themselves: each amount is fixed by the
// two bounds of its rounding, cross-multiplied, for prices and strikes of any precision.
module Pricing {
  import opened Base
  import opened Payoffs

  // ---------------------------------------------------------------- rounding

  // v is num/den rounded down, or up: each has exactly one solution.
  predicate FloorOf(v: int, num: int, den: int) { v * den <= num < (v + 1) * den }

  predicate CeilOf(v: int, num: int, den: int) { (v - 1) * den < num <= v * den }

  lemma OneQuotient(v: int, w: int, num: int, den: int)
    requires den > 0
    requires (FloorOf(v, num, den) && FloorOf(w, num, den)) || (CeilOf(v, num, den) && CeilOf(w, num, den))
    ensures v == w
  {
    if v < w { Ordered(v + 1, w, den); }
    if w < v { Ordered(w + 1, v, den); }
    assert (v + 1 - 1) * den == v * den && (w + 1 - 1) * den == w * den;
    if v < w { Ordered(v, w - 1, den); }
    if w < v { Ordered(w, v - 1, den); }
  }

  lemma Ordered(a: int, b: int, c: int)
    requires a <= b && c >= 0
    ensures a * c <= b * c
  {
    assert b * c - a * c == (b - a) * c;
  }

  lemma FloorDivIsFloor(a: nat, b: nat)
    requires b > 0
    ensures FloorOf(FloorDiv(a, b), a, b)
  {
    var q := a / b;
    assert a == b * q + a % b;
    assert (q + 1) * b == q * b + b && q * b == b * q;
  }

  lemma CeilDivIsCeil(a: nat, b: nat)
    requires b > 0
    ensures CeilOf(CeilDiv(a, b), a, b)
  {
    var q := a / b;
    assert a == b * q + a % b;
    assert (q + 1) * b == q * b + b && q * b == b * q && (q - 1) * b == q * b - b;
  }

  // Scaling both sides of a quotient leaves it alone.
  lemma FloorScales(v: int, num: int, den: int, c: int)
    requires c > 0
    ensures FloorOf(v, num * c, den * c) <==> FloorOf(v, num, den)
  {
    assert v * (den * c) == (v * den) * c && (v + 1) * (den * c) == ((v + 1) * den) * c;
    LessScales(num, v * den, c);
    LessScales(num, (v + 1) * den, c);
  }

  lemma CeilScales(v: int, num: int, den: int, c: int)
    requires c > 0
    ensures CeilOf(v, num * c, den * c) <==> CeilOf(v, num, den)
  {
    assert v * (den * c) == (v * den) * c && (v - 1) * (den * c) == ((v - 1) * den) * c;
    LessScales((v - 1) * den, num, c);
    LessScales(v * den, num, c);
  }

  lemma LessScales(a: int, b: int, c: int)
    requires c > 0
    ensures a * c < b * c <==> a < b
  {
    assert b * c - a * c == (b - a) * c;
    if a < b { assert (b - a) * c > 0; } else { Ordered(b, a, c); }
  }

  lemma {:induction false} PowerAdds(a: nat, b: nat)
    ensures Pow10(a + b) == Pow10(a) * Pow10(b)
    decreases a
  {
    if a == 0 {
    } else {
      PowerAdds(a - 1, b);
      assert 10 * (Pow10(a - 1) * Pow10(b)) == (10 * Pow10(a - 1)) * Pow10(b);
    }
  }

  lemma ExactQuotient(v: int, num: int, den: int)
    requires num == v * den && den > 0
    ensures FloorOf(v, num, den) && CeilOf(v, num, den)
  {
    assert (v - 1) * den == v * den - den && (v + 1) * den == v * den + den;
  }

  lemma Associates(a: int, b: int, c: int)
    ensures a * (b * c) == (a * b) * c
  {
  }

  lemma ScaleUp(value: nat, extra: nat, source: nat)
    ensures FloorOf(value * Pow10(extra), value * Pow10(extra + source), Pow10(source))
    ensures CeilOf(value * Pow10(extra), value * Pow10(extra + source), Pow10(source))
  {
    PowerAdds(extra, source);
    hide *;
    Associates(value, Pow10(extra), Pow10(source));
    ExactQuotient(value * Pow10(extra), value * Pow10(extra + source), Pow10(source));
  }

  lemma ScaleDown(value: nat, target: nat, extra: nat)
    ensures FloorOf(FloorDiv(value, Pow10(extra)), value * Pow10(target), Pow10(extra + target))
    ensures CeilOf(CeilDiv(value, Pow10(extra)), value * Pow10(target), Pow10(extra + target))
  {
    PowerAdds(extra, target);
    FloorDivIsFloor(value, Pow10(extra));
    CeilDivIsCeil(value, Pow10(extra));
    FloorScales(FloorDiv(value, Pow10(extra)), value, Pow10(extra), Pow10(target));
    CeilScales(CeilDiv(value, Pow10(extra)), value, Pow10(extra), Pow10(target));
  }

  // A scaled price is the quotient itself: value * 10^target / 10^source, rounded as asked.
  lemma ScaleIsExact(value: nat, target: nat, source: nat)
    ensures FloorOf(ScalePrice(value, target, source, Floor), value * Pow10(target), Pow10(source))
    ensures CeilOf(ScalePrice(value, target, source, Ceil), value * Pow10(target), Pow10(source))
  {
    hide FloorOf, CeilOf, FloorDiv, CeilDiv, Pow10;
    if target >= source { ScaleUp(value, target - source, source); } else { ScaleDown(value, target, source - target); }
  }

  // ---------------------------------------------------------------- what one contract pays

  // The strike truncated to a precision.
  predicate Truncates(at: int, strike: Price, precision: nat) {
    FloorOf(at, strike.value * Pow10(precision), Pow10(strike.decimals))
  }

  // An amount at a precision in USD base units, rounded down.
  predicate InUsd(u: int, amount: int, precision: nat) { FloorOf(u, amount * UNIT, Pow10(precision)) }

  // What a long contract pays, in terms of the contract and the settlement input.
  ghost predicate Pays(series: Series, outcome: Option<OutcomeId>, settlement: SettlementInput, u: int) {
    if series.domain == Social then u == 0
    else match settlement
      case OutcomeInput(declared) => series.payoffType.Categorical? && u == if outcome == Some(declared) then UNIT else 0
      case PriceInput(p) =>
        match series.payoffType
        case Categorical => false
        case Binary => InUsd(u, p.value, p.decimals)
        case Call =>
          series.strike.Some? && exists at: int :: Truncates(at, series.strike.value, p.decimals) && InUsd(u, Max(p.value - at, 0), p.decimals)
        case Put =>
          series.strike.Some? && exists at: int :: Truncates(at, series.strike.value, p.decimals) && InUsd(u, Max(at - p.value, 0), p.decimals)
  }

  // The input is of the contract's kind, and a call or put has its strike.
  predicate Fits(series: Series, settlement: SettlementInput) {
    || series.domain == Social
    || (series.payoffType.Categorical? && settlement.OutcomeInput?)
    || (series.payoffType.Binary? && settlement.PriceInput?)
    || ((series.payoffType.Call? || series.payoffType.Put?) && settlement.PriceInput? && series.strike.Some?)
  }

  lemma PowerOfUsd()
    ensures Pow10(USD_DECIMALS) == UNIT
  {
    assert Pow10(0) == 1 && Pow10(1) == 10 && Pow10(2) == 100 && Pow10(3) == 1000;
  }

  lemma OnePayoff(series: Series, outcome: Option<OutcomeId>, settlement: SettlementInput, u: int, v: int)
    requires Pays(series, outcome, settlement, u) && Pays(series, outcome, settlement, v)
    ensures u == v
  {
    if series.domain != Social && settlement.PriceInput? {
      var p := settlement.price;
      if series.payoffType.Binary? {
        OneQuotient(u, v, p.value * UNIT, Pow10(p.decimals));
      } else if series.payoffType.Call? {
        var at :| Truncates(at, series.strike.value, p.decimals) && InUsd(u, Max(p.value - at, 0), p.decimals);
        var at' :| Truncates(at', series.strike.value, p.decimals) && InUsd(v, Max(p.value - at', 0), p.decimals);
        OneQuotient(at, at', series.strike.value.value * Pow10(p.decimals), Pow10(series.strike.value.decimals));
        OneQuotient(u, v, Max(p.value - at, 0) * UNIT, Pow10(p.decimals));
      } else {
        var at :| Truncates(at, series.strike.value, p.decimals) && InUsd(u, Max(at - p.value, 0), p.decimals);
        var at' :| Truncates(at', series.strike.value, p.decimals) && InUsd(v, Max(at' - p.value, 0), p.decimals);
        OneQuotient(at, at', series.strike.value.value * Pow10(p.decimals), Pow10(series.strike.value.decimals));
        OneQuotient(u, v, Max(at - p.value, 0) * UNIT, Pow10(p.decimals));
      }
    }
  }

  lemma UsdOf(amount: nat, precision: nat)
    ensures InUsd(ScalePrice(amount, USD_DECIMALS, precision, Floor), amount, precision)
  {
    PowerOfUsd();
    ScaleIsExact(amount, USD_DECIMALS, precision);
  }

  // get_unit_payoff pays exactly that, and fails exactly when the input does not fit the contract: an
  // input of the wrong kind first, then a missing strike.
  lemma UnitPayoffIsExact(series: Series, outcome: Option<OutcomeId>, settlement: SettlementInput, u: nat)
    ensures GetUnitPayoff(series, outcome, settlement) == Ok(u) <==> Pays(series, outcome, settlement, u)
    ensures GetUnitPayoff(series, outcome, settlement).Ok? <==> Fits(series, settlement)
    ensures GetUnitPayoff(series, outcome, settlement) == Err(MissingStrike)
        <==> !Fits(series, settlement) && settlement.PriceInput? && !series.payoffType.Categorical?
  {
    hide ScalePrice, InUsd, Truncates;
    var r := GetUnitPayoff(series, outcome, settlement);
    if r.Ok? {
      if series.domain != Social && settlement.PriceInput? {
        var p := settlement.price;
        UsdOf(p.value, p.decimals);
        if series.strike.Some? { StrikeIsTruncated(series.strike.value, p); }
      }
      assert Pays(series, outcome, settlement, r.value);
      if Pays(series, outcome, settlement, u) { OnePayoff(series, outcome, settlement, u, r.value); }
    }
  }

  lemma StrikeIsTruncated(strike: Price, p: Price)
    ensures var at := ScalePrice(strike.value, p.decimals, strike.decimals, Floor);
      && Truncates(at, strike, p.decimals)
      && InUsd(ScalePrice(SatSub(p.value, at), USD_DECIMALS, p.decimals, Floor), Max(p.value - at, 0), p.decimals)
      && InUsd(ScalePrice(SatSub(at, p.value), USD_DECIMALS, p.decimals, Floor), Max(at - p.value, 0), p.decimals)
  {
    var at := ScalePrice(strike.value, p.decimals, strike.decimals, Floor);
    ScaleIsExact(strike.value, p.decimals, strike.decimals);
    assert Truncates(at, strike, p.decimals);
    UsdOf(SatSub(p.value, at), p.decimals);
    UsdOf(SatSub(at, p.value), p.decimals);
    hide ScalePrice, InUsd, Truncates;
  }

  // ---------------------------------------------------------------- what one contract reserves

  // A price in USD base units, rounded up.
  predicate UsdAbove(c: int, p: Price) { CeilOf(c, p.value * UNIT, Pow10(p.decimals)) }

  // The margin of each contract of a quantity: the price for a long position and for a short call, the
  // strike for a short put, and for other short positions what the price leaves of one unit.
  ghost predicate Reserves(series: Series, price: Price, q: int, rate: int) {
    if series.domain == Social then rate == 0
    else if q >= 0 || series.payoffType.Call? then UsdAbove(rate, price)
    else if series.payoffType.Put? then series.strike.Some? && UsdAbove(rate, series.strike.value)
    else exists c: int :: UsdAbove(c, price) && rate == Max(UNIT - c, 0)
  }

  lemma OneRate(series: Series, price: Price, q: int, rate: int, rate': int)
    requires Reserves(series, price, q, rate) && Reserves(series, price, q, rate')
    ensures rate == rate'
  {
    if series.domain == Social {
    } else if q >= 0 || series.payoffType.Call? {
      OneQuotient(rate, rate', price.value * UNIT, Pow10(price.decimals));
    } else if series.payoffType.Put? {
      OneQuotient(rate, rate', series.strike.value.value * UNIT, Pow10(series.strike.value.decimals));
    } else {
      var c :| UsdAbove(c, price) && rate == Max(UNIT - c, 0);
      var c' :| UsdAbove(c', price) && rate' == Max(UNIT - c', 0);
      OneQuotient(c, c', price.value * UNIT, Pow10(price.decimals));
    }
  }

  lemma CeilUsdIsAbove(p: Price)
    ensures UsdAbove(CeilUsd(p), p)
  {
    PowerOfUsd();
    ScaleIsExact(p.value, USD_DECIMALS, p.decimals);
  }

  // get_required_margin reserves that rate for each contract, and fails only for a short put without strike.
  lemma MarginIsExact(series: Series, price: Price, q: int, rate: int)
    ensures GetRequiredMargin(series, price, q).Err? <==> series.domain != Social && series.payoffType.Put? && q < 0 && series.strike.None?
    ensures Reserves(series, price, q, rate) ==> rate >= 0 && GetRequiredMargin(series, price, q) == Ok(Abs(q) * rate)
  {
    CeilUsdIsAbove(price);
    if series.strike.Some? { CeilUsdIsAbove(series.strike.value); }
    hide CeilUsd, UsdAbove;
    if Reserves(series, price, q, rate) {
      var own: int := if series.domain == Social then 0
                 else if q >= 0 || series.payoffType.Call? then CeilUsd(price)
                 else if series.payoffType.Put? then CeilUsd(series.strike.value)
                 else SatSub(UNIT, CeilUsd(price));
      assert Reserves(series, price, q, own);
      OneRate(series, price, q, rate, own);
      assert Abs(q) * own == if q == 0 then 0 else Abs(q) * own;
    }
  }

  // A short put reserves its strike in full, whatever the trade price: no settlement pays more on it.
  lemma ShortPutCoversStrike(series: Series, price: Price, q: int, outcome: Option<OutcomeId>, settled: Price)
    requires series.domain != Social && series.payoffType.Put? && series.strike.Some? && q < 0
    ensures var k, m := series.strike.value, GetRequiredMargin(series, price, q);
      && m.Ok? && m.value * Pow10(k.decimals) >= Abs(q) * (k.value * UNIT)
      && GetSettlementValue(series, q, outcome, PriceInput(settled)).Ok?
      && GetSettlementValue(series, q, outcome, PriceInput(settled)).value <= m.value
  {
    var k := series.strike.value;
    var rate, b, n := CeilUsd(k), Pow10(k.decimals), Abs(q);
    CeilUsdIsAbove(k);
    StrikeIsTruncated(k, settled);
    var at := ScalePrice(k.value, settled.decimals, k.decimals, Floor);
    var u := ScalePrice(SatSub(at, settled.value), USD_DECIMALS, settled.decimals, Floor);
    assert InUsd(u, Max(at - settled.value, 0), settled.decimals) && Truncates(at, k, settled.decimals) && UsdAbove(rate, k);
    WithinStrike(u, at, settled.value, Pow10(settled.decimals), k.value, b, rate);
    assert GetRequiredMargin(series, price, q) == Ok(n * rate);
    assert GetSettlementValue(series, q, outcome, PriceInput(settled)) == Ok(n * u);
    hide *;
    OnEach(n, u, rate, k.value * UNIT, b);
  }

  lemma OnEach(n: int, u: int, rate: int, x: int, b: int)
    requires n >= 0 && u <= rate && x <= rate * b
    ensures n * u <= n * rate && n * x <= n * rate * b
  {
    Ordered(u, rate, n);
    Ordered(x, rate * b, n);
    assert n * (rate * b) == n * rate * b;
  }

  lemma WithinStrike(u: int, at: int, s: int, d: int, k: int, b: int, rate: int)
    requires FloorOf(u, Max(at - s, 0) * UNIT, d) && FloorOf(at, k * d, b) && CeilOf(rate, k * UNIT, b)
    requires d > 0 && b > 0 && s >= 0 && at >= 0
    ensures u <= rate
  {
    Ordered(Max(at - s, 0), at, UNIT);
    Ordered(u * d, at * UNIT, b);
    Ordered(at * b, k * d, UNIT);
    assert at * UNIT * b == at * b * UNIT && k * d * UNIT == k * UNIT * d && u * d * b == u * b * d;
    if u * b > k * UNIT { LessScales(k * UNIT, u * b, d); }
    assert (rate + 1) * b == rate * b + b;
    if u > rate { Ordered(rate + 1, u, b); }
  }
}
