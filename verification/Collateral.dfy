// What collateral is worth to an account: src/clearing/src/types/margin.rs, calculate_raw_equity_i128,
// stated on balances, prices and haircuts themselves.
module Collateral {
  import opened Base
  import opened Payoffs
  import opened Types
  import opened Totals
  import opened Pricing

  // What a haircut leaves of 10000 basis points.
  function Kept(haircutBps: nat): nat { if haircutBps < BPS_BASE then BPS_BASE - haircutBps else 0 }

  // v is balance times price times what the haircut leaves, in USD base units, rounded down.
  predicate Worth(v: int, balance: nat, config: AssetConfig, metric: AssetMetric) {
    FloorOf(v, balance * metric.priceValue * Kept(metric.haircutBps) * UNIT,
            BPS_BASE * Pow10(config.decimals + metric.priceDecimals))
  }

  // The signed number a worth becomes: its own value below 2^127, wrapped below 2^128, and -1 beyond.
  function AsSigned(v: int): int { if v < TWO_127 then v else if v < TWO_128 then v - TWO_128 else -1 }

  lemma OneWorth(v: int, w: int, balance: nat, config: AssetConfig, metric: AssetMetric)
    requires Worth(v, balance, config, metric) && Worth(w, balance, config, metric)
    ensures v == w
  {
    OneQuotient(v, w, balance * metric.priceValue * Kept(metric.haircutBps) * UNIT, BPS_BASE * Pow10(config.decimals + metric.priceDecimals));
  }

  lemma WorthBelow(num: nat, source: nat)
    requires source >= USD_DECIMALS
    ensures var v := FloorDiv(num, BPS_BASE * Pow10(source - USD_DECIMALS)); FloorOf(v, num * UNIT, BPS_BASE * Pow10(source))
  {
    var c := Pow10(source - USD_DECIMALS);
    PowerOfUsd();
    PowerAdds(source - USD_DECIMALS, USD_DECIMALS);
    assert BPS_BASE * c * UNIT == BPS_BASE * Pow10(source);
    hide Pow10, FloorDiv;
    FloorDivIsFloor(num, BPS_BASE * c);
    FloorScales(FloorDiv(num, BPS_BASE * c), num, BPS_BASE * c, UNIT);
  }

  lemma WorthAbove(num: nat, source: nat)
    requires source < USD_DECIMALS
    ensures var v := FloorDiv(num * Pow10(USD_DECIMALS - source), BPS_BASE); FloorOf(v, num * UNIT, BPS_BASE * Pow10(source))
  {
    var c := Pow10(USD_DECIMALS - source);
    PowerOfUsd();
    PowerAdds(USD_DECIMALS - source, source);
    assert c * Pow10(source) == UNIT;
    hide Pow10, FloorDiv;
    FloorDivIsFloor(num * c, BPS_BASE);
    FloorScales(FloorDiv(num * c, BPS_BASE), num * c, BPS_BASE, Pow10(source));
    Associates(num, c, Pow10(source));
  }

  lemma WorthOf(balance: nat, config: AssetConfig, metric: AssetMetric) returns (v: nat)
    ensures Worth(v, balance, config, metric) && AssetValue(balance, config, metric) == AsSigned(v)
  {
    var num := balance * metric.priceValue * Kept(metric.haircutBps);
    var source := config.decimals + metric.priceDecimals;
    assert SatSub(BPS_BASE, metric.haircutBps) == Kept(metric.haircutBps);
    hide Pow10, FloorDiv, FloorOf;
    if source >= USD_DECIMALS {
      v := FloorDiv(num, BPS_BASE * Pow10(source - USD_DECIMALS));
      WorthBelow(num, source);
    } else {
      v := FloorDiv(num * Pow10(USD_DECIMALS - source), BPS_BASE);
      WorthAbove(num, source);
    }
  }

  // An asset counts for its worth.
  lemma AssetCountsForItsWorth(v: int, balance: nat, config: AssetConfig, metric: AssetMetric)
    requires Worth(v, balance, config, metric)
    ensures AssetValue(balance, config, metric) == AsSigned(v)
  {
    var w := WorthOf(balance, config, metric);
    OneWorth(v, w, balance, config, metric);
  }

  // A worth rises with the balance and with the price, falls as the haircut grows, and is nothing under a
  // haircut of 10000 basis points or more.
  lemma WorthMoves(v: int, w: int, balance: nat, balance': nat, config: AssetConfig, metric: AssetMetric, metric': AssetMetric)
    requires Worth(v, balance, config, metric) && Worth(w, balance', config, metric')
    requires metric'.priceDecimals == metric.priceDecimals
    requires balance <= balance' && metric.priceValue <= metric'.priceValue && metric.haircutBps >= metric'.haircutBps
    ensures 0 <= v <= w
    ensures metric.haircutBps >= BPS_BASE ==> v == 0
  {
    var d := BPS_BASE * Pow10(config.decimals + metric.priceDecimals);
    var x := balance * metric.priceValue * Kept(metric.haircutBps) * UNIT;
    var y := balance' * metric'.priceValue * Kept(metric'.haircutBps) * UNIT;
    assert d > 0;
    assert 0 <= x <= y by {
      hide Pow10, Worth;
      ProductGrows(balance, balance', metric.priceValue, metric'.priceValue);
      ProductGrows(balance * metric.priceValue, balance' * metric'.priceValue, Kept(metric.haircutBps), Kept(metric'.haircutBps));
    }
    hide Pow10;
    if v < 0 { Ordered(v + 1, 0, d); }
    if w < v { Ordered(w + 1, v, d); }
    if metric.haircutBps >= BPS_BASE {
      assert x == 0;
      if v > 0 { Ordered(1, v, d); }
    }
  }

  lemma ProductGrows(a: nat, a': nat, b: nat, b': nat)
    requires a <= a' && b <= b'
    ensures 0 <= a * b <= a' * b'
  {
    Ordered(a, a', b);
    Ordered(b, b', a');
    assert a' * b == b * a' && a' * b' == b' * a';
    Ordered(0, a, b);
  }

  // One entry for each balance: an asset that is configured, enabled and priced counts for its worth, any
  // other for nothing.
  ghost predicate Appraises(worth: map<AssetId, int>, balances: map<AssetId, nat>, configs: map<AssetId, AssetConfig>,
                            metrics: map<AssetId, AssetMetric>)
  {
    && worth.Keys == balances.Keys
    && forall id :: id in worth ==>
         if id in configs && id in metrics && configs[id].enabled
         then exists v: int :: Worth(v, balances[id], configs[id], metrics[id]) && worth[id] == AsSigned(v)
         else worth[id] == 0
  }

  ghost function Each(): (AssetId, int) -> int { (id: AssetId, x: int) => x }

  function BalancesIn(a: Account, d: Domain): map<AssetId, nat> { if d in a.balances then a.balances[d] else map[] }

  // Raw equity is cash plus what every balance counts for.
  lemma EquityIsCashAndWorth(a: Account, d: Domain, configs: map<AssetId, AssetConfig>, metrics: map<AssetId, AssetMetric>,
                             worth: map<AssetId, int>)
    requires Appraises(worth, BalancesIn(a, d), configs, metrics)
    ensures a.RawEquity(d, configs, metrics) == a.GetCash(d) + Total(worth, Each())
  {
    var balances := BalancesIn(a, d);
    forall id | id in balances ensures HeldValue(configs, metrics)(id, balances[id]) == Each()(id, worth[id]) {
      if id in configs && id in metrics && configs[id].enabled {
        var v: int :| Worth(v, balances[id], configs[id], metrics[id]) && worth[id] == AsSigned(v);
        AssetCountsForItsWorth(v, balances[id], configs[id], metrics[id]);
      }
    }
    TotalSameKeys(balances, HeldValue(configs, metrics), worth, Each());
  }

  // Every account can be appraised, in one way.
  lemma Appraisal(balances: map<AssetId, nat>, configs: map<AssetId, AssetConfig>, metrics: map<AssetId, AssetMetric>)
    returns (worth: map<AssetId, int>)
    ensures Appraises(worth, balances, configs, metrics)
  {
    worth := map id | id in balances :: HeldValue(configs, metrics)(id, balances[id]);
    forall id | id in worth && id in configs && id in metrics && configs[id].enabled
      ensures exists v: int :: Worth(v, balances[id], configs[id], metrics[id]) && worth[id] == AsSigned(v)
    {
      var v := WorthOf(balances[id], configs[id], metrics[id]);
      assert Worth(v, balances[id], configs[id], metrics[id]);
    }
  }
}
