// What calls and puts pay as the settlement price moves, for strikes and prices of any precision.
module OptionPayoffs {
  import opened Base
  import opened Payoffs
  import opened Pricing

  predicate IsOption(series: Series) {
    series.domain != Social && (series.payoffType.Call? || series.payoffType.Put?) && series.strike.Some?
  }

  function UnitAt(series: Series, p: Price): nat
    requires IsOption(series)
  {
    match GetUnitPayoff(series, None, PriceInput(p))
    case Ok(u) => u
    case Err(_) => 0
  }

  // The strike as a settlement price of that precision sees it.
  function Seen(series: Series, precision: nat): nat
    requires IsOption(series)
  {
    ScalePrice(series.strike.value.value, precision, series.strike.value.decimals, Floor)
  }

  // How far in the money a price is, at its own precision.
  function PaidOn(series: Series, p: Price): int
    requires IsOption(series)
  {
    Max(if series.payoffType.Call? then p.value - Seen(series, p.decimals) else Seen(series, p.decimals) - p.value, 0)
  }

  lemma PaysWhatIsSeen(series: Series, p: Price)
    requires IsOption(series)
    ensures Truncates(Seen(series, p.decimals), series.strike.value, p.decimals)
    ensures InUsd(UnitAt(series, p), PaidOn(series, p), p.decimals)
  {
    hide ScalePrice, Truncates, InUsd, Pow10;
    StrikeIsTruncated(series.strike.value, p);
  }

  // ---------------------------------------------------------------- against the exact strike

  // The strike less the price, both at the product of their precisions.
  function Distance(series: Series, p: Price): int
    requires IsOption(series)
  {
    series.strike.value.value * Pow10(p.decimals) - p.value * Pow10(series.strike.value.decimals)
  }

  // What the strike loses when it is truncated to the price's precision, which nothing does when the
  // price is at least as precise.
  lemma TruncationLoses(series: Series, precision: nat)
    requires IsOption(series)
    ensures var k := series.strike.value;
      var lost := k.value * Pow10(precision) - Seen(series, precision) * Pow10(k.decimals);
      0 <= lost < Pow10(k.decimals) && (k.decimals <= precision ==> lost == 0)
  {
    var k := series.strike.value;
    var b := Pow10(k.decimals);
    ScaleIsExact(k.value, precision, k.decimals);
    assert (Seen(series, precision) + 1) * b == Seen(series, precision) * b + b;
    if k.decimals <= precision {
      PowerAdds(precision - k.decimals, k.decimals);
      Associates(k.value, Pow10(precision - k.decimals), b);
    }
  }

  // An amount of base units, less what is lost of it, between its two bounds.
  lemma PaidBetween(u: int, x: int, gap: int, lost: int, p: int, b: int)
    requires u * p <= x * UNIT < (u + 1) * p && p > 0 && b > 0
    requires gap == x * b + lost
    ensures u * (p * b) + lost * UNIT <= gap * UNIT < (u + 1) * (p * b) + lost * UNIT
  {
    Associates(u, p, b);
    Associates(u + 1, p, b);
    Ordered(u * p, x * UNIT, b);
    LessScales(x * UNIT, (u + 1) * p, b);
    assert x * UNIT * b == x * b * UNIT;
    assert (x * b + lost) * UNIT == x * b * UNIT + lost * UNIT;
  }

  lemma DistanceIs(a: int, b: int, at: int, x: int, lost: int)
    requires a == at * b + lost
    ensures a - x * b == (at - x) * b + lost
  {
  }

  lemma Unpaid(u: int, x: int, gap: int, lost: int, d: int, b: int)
    requires u * d <= 0 * UNIT < (u + 1) * d && d > 0 && b > 0 && x <= 0
    requires gap == x * b + lost && lost < b
    ensures u == 0 && gap < b && u * (d * b) == 0 && (u + 1) * (d * b) == d * b > 0
    ensures gap <= lost && gap * UNIT <= lost * UNIT <= UNIT * b
  {
    ZeroPays(u, d);
    Ordered(x, 0, b);
    LessScales(0, d, b);
  }

  lemma ZeroPays(u: int, d: int)
    requires u * d <= 0 * UNIT < (u + 1) * d && d > 0
    ensures u == 0
  {
    OneQuotient(u, 0, 0, d);
  }

  lemma AtLeastOne(x: int, b: int)
    requires x >= 1 && b > 0
    ensures x * b >= b
  {
    Ordered(1, x, b);
  }

  // A put pays nothing once the price reaches the strike at the price's precision. Below that it pays the
  // strike less the price, short of it by less than one base unit and what truncating the strike loses.
  lemma PutPays(series: Series, p: Price)
    requires IsOption(series) && series.payoffType.Put?
    ensures var u, k, gap := UnitAt(series, p), series.strike.value, Distance(series, p);
      var scale, step := Pow10(p.decimals) * Pow10(k.decimals), UNIT * Pow10(k.decimals);
      && (gap < Pow10(k.decimals) ==> u == 0)
      && (gap >= 0 ==> u * scale <= gap * UNIT < (u + 1) * scale + if k.decimals <= p.decimals then 0 else step)
  {
    var k, at := series.strike.value, Seen(series, p.decimals);
    var u, gap, b, d := UnitAt(series, p), Distance(series, p), Pow10(k.decimals), Pow10(p.decimals);
    PaysWhatIsSeen(series, p);
    TruncationLoses(series, p.decimals);
    var lost := k.value * d - at * b;
    DistanceIs(k.value * d, b, at, p.value, lost);
    assert gap == (at - p.value) * b + lost;
    assert u * d <= Max(at - p.value, 0) * UNIT < (u + 1) * d;
    assert 0 <= lost < b && (k.decimals <= p.decimals ==> lost == 0);
    hide *;
    PutBounds(u, at - p.value, gap, lost, d, b);
  }

  lemma PutBounds(u: int, x: int, gap: int, lost: int, d: int, b: int)
    requires u * d <= Max(x, 0) * UNIT < (u + 1) * d && d > 0 && b > 0
    requires gap == x * b + lost && 0 <= lost < b
    ensures gap < b ==> u == 0
    ensures gap >= 0 ==> u * (d * b) <= gap * UNIT < (u + 1) * (d * b) + if lost == 0 then 0 else UNIT * b
  {
    if x <= 0 {
      Unpaid(u, x, gap, lost, d, b);
    } else {
      AtLeastOne(x, b);
      PaidBetween(u, x, gap, lost, d, b);
    }
  }

  // A call pays nothing until the price exceeds the strike at the price's precision. Above that it pays the
  // price less the strike, with up to what truncating the strike loses on top, rounded down.
  lemma CallPays(series: Series, p: Price)
    requires IsOption(series) && series.payoffType.Call?
    ensures var u, k, gap := UnitAt(series, p), series.strike.value, -Distance(series, p);
      var scale, step := Pow10(p.decimals) * Pow10(k.decimals), UNIT * Pow10(k.decimals);
      && (gap + Pow10(k.decimals) <= 0 ==> u == 0)
      && (k.decimals <= p.decimals && gap <= 0 ==> u == 0)
      && (gap > 0 ==> u * scale <= gap * UNIT + (if k.decimals <= p.decimals then 0 else step) && gap * UNIT < (u + 1) * scale)
  {
    var k, at := series.strike.value, Seen(series, p.decimals);
    var u, gap, b, d := UnitAt(series, p), -Distance(series, p), Pow10(k.decimals), Pow10(p.decimals);
    PaysWhatIsSeen(series, p);
    TruncationLoses(series, p.decimals);
    var lost := k.value * d - at * b;
    DistanceIs(k.value * d, b, at, p.value, lost);
    Negated(at - p.value, b);
    assert gap == (p.value - at) * b - lost;
    assert u * d <= Max(p.value - at, 0) * UNIT < (u + 1) * d;
    assert 0 <= lost < b && (k.decimals <= p.decimals ==> lost == 0);
    hide *;
    CallBounds(u, p.value - at, gap, lost, d, b);
  }

  lemma Negated(x: int, b: int)
    ensures (-x) * b == -(x * b)
  {
  }

  lemma CallBounds(u: int, x: int, gap: int, lost: int, d: int, b: int)
    requires u * d <= Max(x, 0) * UNIT < (u + 1) * d && d > 0 && b > 0
    requires gap == x * b - lost && 0 <= lost < b
    ensures gap <= -b || (lost == 0 && gap <= 0) ==> u == 0
    ensures gap > 0 ==> u * (d * b) <= gap * UNIT + (if lost == 0 then 0 else UNIT * b) && gap * UNIT < (u + 1) * (d * b)
  {
    if x <= 0 {
      ZeroPays(u, d);
      Ordered(x, 0, b);
    } else {
      AtLeastOne(x, b);
      PaidBetween(u, x, gap, -lost, d, b);
    }
  }

  // Of a call and a put on one strike at most one pays, whatever the price.
  lemma AtMostOnePays(call: Series, put: Series, p: Price)
    requires IsOption(call) && IsOption(put) && call.payoffType.Call? && put.payoffType.Put? && call.strike == put.strike
    ensures UnitAt(call, p) == 0 || UnitAt(put, p) == 0
  {
    PaysWhatIsSeen(call, p);
    PaysWhatIsSeen(put, p);
    if Seen(call, p.decimals) >= p.value { ZeroPays(UnitAt(call, p), Pow10(p.decimals)); } else { ZeroPays(UnitAt(put, p), Pow10(p.decimals)); }
  }

  // ---------------------------------------------------------------- as the price moves

  // p is not above q.
  predicate NotAbove(p: Price, q: Price) { p.value * Pow10(q.decimals) <= q.value * Pow10(p.decimals) }

  // No price of the second precision pays more, or less, than a price of the first that it is not below.
  ghost predicate NeverRises(series: Series, from: nat, to: nat)
    requires IsOption(series)
  {
    forall p: Price, q: Price :: p.decimals == from && q.decimals == to && NotAbove(p, q) ==> UnitAt(series, q) <= UnitAt(series, p)
  }

  ghost predicate NeverFalls(series: Series, from: nat, to: nat)
    requires IsOption(series)
  {
    forall p: Price, q: Price :: p.decimals == from && q.decimals == to && NotAbove(p, q) ==> UnitAt(series, p) <= UnitAt(series, q)
  }

  // A price of the second precision sees no more digits of the strike than one of the first.
  predicate SeesNoMore(series: Series, from: nat, to: nat)
    requires IsOption(series) && from <= to
  {
    Seen(series, to) == Seen(series, from) * Pow10(to - from)
  }

  lemma Nested(series: Series, from: nat, to: nat)
    requires IsOption(series) && from <= to
    ensures var m := Pow10(to - from); Seen(series, from) * m <= Seen(series, to) < (Seen(series, from) + 1) * m
  {
    var k, m := series.strike.value, Pow10(to - from);
    var at, at', b := Seen(series, from), Seen(series, to), Pow10(k.decimals);
    ScaleIsExact(k.value, from, k.decimals);
    ScaleIsExact(k.value, to, k.decimals);
    PowerAdds(from, to - from);
    Associates(k.value, Pow10(from), m);
    assert FloorOf(at, k.value * Pow10(from), b) && FloorOf(at', k.value * Pow10(from) * m, b);
    hide *;
    FloorsNest(at, at', k.value * Pow10(from), b, m);
  }

  lemma FloorsNest(v: int, w: int, x: int, b: int, m: int)
    requires FloorOf(v, x, b) && FloorOf(w, x * m, b) && b > 0 && m > 0
    ensures v * m <= w < (v + 1) * m
  {
    Ordered(v * b, x, m);
    LessScales(x, (v + 1) * b, m);
    Swapped(v, b, m);
    Swapped(v + 1, b, m);
    LessScales(v * m, w + 1, b);
    LessScales(w, (v + 1) * m, b);
  }

  lemma Swapped(a: int, b: int, c: int)
    ensures a * b * c == a * c * b
  {
  }

  // From a price to one of the same or less precision that is not below it: both see the move.
  lemma CoarserSees(series: Series, p: Price, q: Price)
    requires IsOption(series) && q.decimals <= p.decimals && NotAbove(p, q)
    ensures var m := Pow10(p.decimals - q.decimals);
      p.value <= q.value * m && Seen(series, p.decimals) >= Seen(series, q.decimals) * m
  {
    var m := Pow10(p.decimals - q.decimals);
    PowerAdds(q.decimals, p.decimals - q.decimals);
    Nested(series, q.decimals, p.decimals);
    hide Seen, Pow10;
    Regrouped(q.value, Pow10(q.decimals), m);
    if q.value * m < p.value { LessScales(q.value * m, p.value, Pow10(q.decimals)); }
  }

  lemma PaidBounds(series: Series, p: Price)
    requires IsOption(series)
    ensures var u, d := UnitAt(series, p), Pow10(p.decimals); u * d <= PaidOn(series, p) * UNIT < (u + 1) * d
  {
    PaysWhatIsSeen(series, p);
  }

  // More at one precision is paid no less at another, coarser or finer.
  lemma NoLess(u: int, x: int, d: int, v: int, y: int, e: int, m: int)
    requires u * d <= x * UNIT < (u + 1) * d && v * e <= y * UNIT < (v + 1) * e
    requires d > 0 && e > 0 && m > 0
    requires (d == e * m && x <= y * m) || (e == d * m && x * m <= y)
    ensures u <= v
  {
    if v < u {
      if d == e * m && x <= y * m {
        LessScales(y * UNIT, (v + 1) * e, m);
        Swapped(y, UNIT, m);
        Ordered(x, y * m, UNIT);
        Associates(v + 1, e, m);
        Ordered(v + 1, u, d);
      } else {
        Ordered(u * d, x * UNIT, m);
        Associates(u, d, m);
        Swapped(x, UNIT, m);
        Ordered(x * m, y, UNIT);
        Ordered(v + 1, u, e);
      }
    }
  }

  lemma ClampScales(x: int, y: int, m: int)
    requires m > 0
    ensures x <= y * m ==> Max(x, 0) <= Max(y, 0) * m
    ensures x * m <= y ==> Max(x, 0) * m <= Max(y, 0)
  {
    if x <= 0 { Ordered(x, 0, m); } else { Ordered(0, x, m); }
    if y <= 0 { Ordered(y, 0, m); } else { Ordered(0, y, m); }
    if x * m <= y && x > 0 { AtLeastOne(x, m); }
  }

  lemma PutFallsCoarser(series: Series, p: Price, q: Price)
    requires IsOption(series) && series.payoffType.Put? && q.decimals <= p.decimals && NotAbove(p, q)
    ensures UnitAt(series, q) <= UnitAt(series, p)
  {
    var m := Pow10(p.decimals - q.decimals);
    CoarserSees(series, p, q);
    PaidBounds(series, p);
    PaidBounds(series, q);
    PowerAdds(q.decimals, p.decimals - q.decimals);
    var x, y := Seen(series, q.decimals) - q.value, Seen(series, p.decimals) - p.value;
    assert PaidOn(series, q) == Max(x, 0) && PaidOn(series, p) == Max(y, 0);
    hide *;
    TakesOut(Seen(series, q.decimals), q.value, m);
    ClampScales(x, y, m);
    NoLess(UnitAt(series, q), Max(x, 0), Pow10(q.decimals), UnitAt(series, p), Max(y, 0), Pow10(p.decimals), m);
  }

  lemma CallRisesCoarser(series: Series, p: Price, q: Price)
    requires IsOption(series) && series.payoffType.Call? && q.decimals <= p.decimals && NotAbove(p, q)
    ensures UnitAt(series, p) <= UnitAt(series, q)
  {
    var m := Pow10(p.decimals - q.decimals);
    CoarserSees(series, p, q);
    PaidBounds(series, p);
    PaidBounds(series, q);
    PowerAdds(q.decimals, p.decimals - q.decimals);
    var x, y := p.value - Seen(series, p.decimals), q.value - Seen(series, q.decimals);
    assert PaidOn(series, p) == Max(x, 0) && PaidOn(series, q) == Max(y, 0);
    hide *;
    TakesOut(q.value, Seen(series, q.decimals), m);
    ClampScales(x, y, m);
    NoLess(UnitAt(series, p), Max(x, 0), Pow10(p.decimals), UnitAt(series, q), Max(y, 0), Pow10(q.decimals), m);
  }

  // From a price to a finer one that is not below it.
  lemma FinerSees(series: Series, p: Price, q: Price)
    requires IsOption(series) && p.decimals <= q.decimals && NotAbove(p, q)
    ensures var m := Pow10(q.decimals - p.decimals); p.value * m <= q.value
  {
    var m := Pow10(q.decimals - p.decimals);
    PowerAdds(p.decimals, q.decimals - p.decimals);
    hide Pow10;
    Regrouped(p.value, Pow10(p.decimals), m);
    if q.value < p.value * m { LessScales(q.value, p.value * m, Pow10(p.decimals)); }
  }

  lemma CallRisesFiner(series: Series, p: Price, q: Price)
    requires IsOption(series) && series.payoffType.Call? && p.decimals <= q.decimals && NotAbove(p, q)
    requires SeesNoMore(series, p.decimals, q.decimals)
    ensures UnitAt(series, p) <= UnitAt(series, q)
  {
    var m := Pow10(q.decimals - p.decimals);
    FinerSees(series, p, q);
    PaidBounds(series, p);
    PaidBounds(series, q);
    PowerAdds(p.decimals, q.decimals - p.decimals);
    var x, y := p.value - Seen(series, p.decimals), q.value - Seen(series, q.decimals);
    assert PaidOn(series, p) == Max(x, 0) && PaidOn(series, q) == Max(y, 0);
    assert Seen(series, q.decimals) == Seen(series, p.decimals) * m;
    hide *;
    TakesOut(p.value, Seen(series, p.decimals), m);
    ClampScales(x, y, m);
    NoLess(UnitAt(series, p), Max(x, 0), Pow10(p.decimals), UnitAt(series, q), Max(y, 0), Pow10(q.decimals), m);
  }

  lemma TakesOut(a: int, b: int, m: int)
    ensures (a - b) * m == a * m - b * m
  {
  }

  // Between two precisions a call never pays less for a price that is not below exactly when the second
  // is no finer, or sees no more of the strike.
  lemma CallNeverFallsIff(series: Series, from: nat, to: nat)
    requires IsOption(series) && series.payoffType.Call?
    ensures NeverFalls(series, from, to) <==> to <= from || SeesNoMore(series, from, to)
  {
    if to <= from || SeesNoMore(series, from, to) {
      forall p: Price, q: Price | p.decimals == from && q.decimals == to && NotAbove(p, q)
        ensures UnitAt(series, p) <= UnitAt(series, q)
      {
        if to <= from { CallRisesCoarser(series, p, q); } else { CallRisesFiner(series, p, q); }
      }
    } else {
      CallFalls(series, from, to);
    }
  }

  lemma MoreSeen(series: Series, from: nat, to: nat)
    requires IsOption(series) && from <= to && !SeesNoMore(series, from, to)
    ensures Seen(series, to) >= Seen(series, from) * Pow10(to - from) + 1
  {
    Nested(series, from, to);
  }

  lemma ShowsFall(series: Series, p: Price, q: Price)
    requires IsOption(series) && NotAbove(p, q) && UnitAt(series, q) < UnitAt(series, p)
    ensures !NeverFalls(series, p.decimals, q.decimals)
  {
  }

  lemma ShowsRise(series: Series, p: Price, q: Price)
    requires IsOption(series) && NotAbove(p, q) && UnitAt(series, p) < UnitAt(series, q)
    ensures !NeverRises(series, p.decimals, q.decimals)
  {
  }

  // One dollar in the money at the first precision, and less at the second.
  lemma CallFalls(series: Series, from: nat, to: nat)
    requires IsOption(series) && series.payoffType.Call? && from < to && !SeesNoMore(series, from, to)
    ensures !NeverFalls(series, from, to)
  {
    hide Pow10, Seen, UnitAt, SeesNoMore, NeverFalls;
    var d, m, at := Pow10(from), Pow10(to - from), Seen(series, from);
    var p := Price(at + d, from, 0);
    var q := Price((at + d) * m, to, 0);
    PowerAdds(from, to - from);
    MoreSeen(series, from, to);
    PaidBounds(series, p);
    PaidBounds(series, q);
    assert PaidOn(series, p) == d && PaidOn(series, q) == Max(q.value - Seen(series, to), 0);
    hide PaidOn;
    ADollarOn(at, d, m, Seen(series, to));
    ADollarLess(UnitAt(series, p), UnitAt(series, q), PaidOn(series, q), d, d * m);
    ShowsFall(series, p, q);
  }

  lemma ADollarOn(at: int, d: int, m: int, at': int)
    requires d > 0 && m > 0
    ensures (at + d) * (d * m) == (at + d) * m * d && d * m > 0
    ensures at' > at * m ==> Max((at + d) * m - at', 0) < d * m
  {
    LessScales(0, d, m);
    assert (at + d) * m == at * m + d * m;
  }

  lemma ADollarLess(u: int, v: int, y: int, d: int, e: int)
    requires u * d <= d * UNIT < (u + 1) * d && v * e <= y * UNIT && y < e && d > 0 && e > 0
    ensures v < u == UNIT
  {
    assert UNIT * d == d * UNIT;
    ExactQuotient(UNIT, d * UNIT, d);
    OneQuotient(UNIT, u, d * UNIT, d);
    LessScales(y, e, UNIT);
    if v >= UNIT { Ordered(UNIT, v, e); }
  }

  // With four decimals or more, or with nothing more to see within four, what a finer price adds to the
  // strike is less than a base unit.
  lemma PutFallsFiner(series: Series, p: Price, q: Price)
    requires IsOption(series) && series.payoffType.Put? && p.decimals <= q.decimals && NotAbove(p, q)
    requires SeesNoMore(series, p.decimals, Within(p.decimals, q.decimals))
    ensures UnitAt(series, q) <= UnitAt(series, p)
  {
    var mid := Within(p.decimals, q.decimals);
    var n, m, d := Pow10(mid - p.decimals), Pow10(q.decimals - mid), Pow10(p.decimals);
    FinerSees(series, p, q);
    PaidBounds(series, p);
    PaidBounds(series, q);
    PowerAdds(mid - p.decimals, q.decimals - mid);
    PowerAdds(p.decimals, mid - p.decimals);
    PowerAdds(mid, q.decimals - mid);
    Nested(series, mid, q.decimals);
    var c := DigitsOfUnit(p.decimals, mid, q.decimals);
    var at, at' := Seen(series, p.decimals), Seen(series, q.decimals);
    assert PaidOn(series, q) == Max(at' - q.value, 0) && PaidOn(series, p) == Max(at - p.value, 0);
    assert at' < (at * n + 1) * m && p.value * (n * m) <= q.value && Pow10(q.decimals) == d * n * m;
    assert mid == p.decimals ==> n == 1;
    assert mid == q.decimals ==> m == 1;
    hide *;
    GainWithin(at, p.value, at', q.value, n, m);
    FinerPays(UnitAt(series, p), at - p.value, d, UnitAt(series, q), at' - q.value, n, m, c);
  }

  // How far into a finer price's digits the strike still counts: to the four decimals of a base unit.
  function Within(from: nat, to: nat): nat
    requires from <= to
    ensures from <= Within(from, to) <= to
  {
    Max(from, Min(to, USD_DECIMALS))
  }

  lemma GainWithin(at: int, p: int, at': int, q: int, n: int, m: int)
    requires at' < (at * n + 1) * m && p * (n * m) <= q
    ensures at' - q < ((at - p) * n + 1) * m
  {
    Associates(p, n, m);
    TakesOut(at, p, n);
    TakesOut(at * n + 1, p * n, m);
  }

  lemma DigitsOfUnit(from: nat, mid: nat, to: nat) returns (c: int)
    requires from <= to && mid == Within(from, to)
    ensures c > 0
    ensures (UNIT == Pow10(from) * Pow10(mid - from) * c && (mid == to || c == 1)) || (mid == from && Pow10(from) == UNIT * c)
  {
    PowerOfUsd();
    if mid <= USD_DECIMALS {
      PowerAdds(from, mid - from);
      PowerAdds(mid, USD_DECIMALS - mid);
      c := Pow10(USD_DECIMALS - mid);
    } else {
      PowerAdds(USD_DECIMALS, from - USD_DECIMALS);
      c := Pow10(from - USD_DECIMALS);
    }
  }

  lemma FinerPays(u: int, x: int, d: int, v: int, y: int, n: int, m: int, c: int)
    requires u * d <= Max(x, 0) * UNIT < (u + 1) * d
    requires v * (d * n * m) <= Max(y, 0) * UNIT < (v + 1) * (d * n * m)
    requires d > 0 && n > 0 && m > 0 && c > 0 && y < (x * n + 1) * m
    requires (UNIT == d * n * c && (m == 1 || c == 1)) || (n == 1 && d == UNIT * c)
    ensures v <= u
  {
    LessScales(0, d, n);
    LessScales(0, d * n, m);
    if y <= 0 {
      ZeroPays(v, d * n * m);
      if u < 0 { Ordered(u + 1, 0, d); }
    } else if v > u {
      if x < 0 {
        AtLeastOne(-x, n);
        Negated(x, n);
        Ordered(x * n + 1, 0, m);
      }
      if UNIT == d * n * c { WithinDigits(u, x, d, y, n, m, c); } else { BeyondDigits(u, x, d, y, m, c); }
      Ordered(u + 1, v, d * n * m);
    }
  }

  lemma WholeDigits(u: int, x: int, d: int, n: int, c: int)
    requires u * d <= x * UNIT < (u + 1) * d && d > 0 && UNIT == d * n * c
    ensures u == x * n * c
  {
    assert x * (d * n * c) == x * n * c * d;
    ExactQuotient(x * n * c, x * UNIT, d);
    OneQuotient(u, x * n * c, x * UNIT, d);
  }

  lemma WithinDigits(u: int, x: int, d: int, y: int, n: int, m: int, c: int)
    requires u * d <= x * UNIT < (u + 1) * d && y < (x * n + 1) * m
    requires d > 0 && n > 0 && m > 0 && c > 0 && d * n > 0
    requires UNIT == d * n * c && (m == 1 || c == 1)
    ensures y * UNIT < (u + 1) * (d * n * m)
  {
    WholeDigits(u, x, d, n, c);
    if m == 1 { Ordered(y, x * n, c); }
    assert y * c < (u + 1) * m;
    Regrouped(u + 1, d * n, m);
    Regrouped(y, d * n, c);
    LessScales(y * c, (u + 1) * m, d * n);
  }

  lemma Regrouped(a: int, b: int, c: int)
    ensures a * (b * c) == a * c * b
  {
  }

  lemma BeyondDigits(u: int, x: int, d: int, y: int, m: int, c: int)
    requires u * d <= x * UNIT < (u + 1) * d && y < (x * 1 + 1) * m
    requires d > 0 && m > 0 && c > 0 && d == UNIT * c
    ensures y * UNIT < (u + 1) * (d * 1 * m)
  {
    assert (u + 1) * (UNIT * c) == (u + 1) * c * UNIT;
    LessScales(x, (u + 1) * c, UNIT);
    Ordered(x + 1, (u + 1) * c, m);
    LessScales(y, (u + 1) * c * m, UNIT);
    assert (u + 1) * (UNIT * c * m) == (u + 1) * c * m * UNIT;
  }

  // Between two precisions a put never pays more for a price that is not below exactly when the second is
  // no finer, or sees no more of the strike within four decimals.
  lemma PutNeverRisesIff(series: Series, from: nat, to: nat)
    requires IsOption(series) && series.payoffType.Put?
    ensures NeverRises(series, from, to) <==> to <= from || SeesNoMore(series, from, Within(from, to))
  {
    if to <= from || SeesNoMore(series, from, Within(from, to)) {
      forall p: Price, q: Price | p.decimals == from && q.decimals == to && NotAbove(p, q)
        ensures UnitAt(series, q) <= UnitAt(series, p)
      {
        if to <= from { PutFallsCoarser(series, p, q); } else { PutFallsFiner(series, p, q); }
      }
    } else {
      PutRises(series, from, to);
    }
  }

  lemma SeesItself(series: Series, from: nat)
    requires IsOption(series)
    ensures SeesNoMore(series, from, from)
  {
    assert Pow10(0) == 1;
  }

  // At a price of nothing the put pays the strike as each precision sees it.
  lemma PutRises(series: Series, from: nat, to: nat)
    requires IsOption(series) && series.payoffType.Put? && from < to && !SeesNoMore(series, from, Within(from, to))
    ensures !NeverRises(series, from, to)
  {
    hide Pow10, Seen, UnitAt, SeesNoMore, NeverRises;
    var mid := Within(from, to);
    var p, q := Price(0, from, 0), Price(0, to, 0);
    var d, n, m := Pow10(from), Pow10(mid - from), Pow10(to - mid);
    SeesItself(series, from);
    MoreSeen(series, from, mid);
    Nested(series, mid, to);
    PowerAdds(from, mid - from);
    PowerAdds(mid, to - mid);
    var c := DigitsOfUnit(from, mid, to);
    PaidBounds(series, p);
    PaidBounds(series, q);
    assert PaidOn(series, p) == Seen(series, from) && PaidOn(series, q) == Seen(series, to);
    hide PaidOn;
    Ordered(Seen(series, from) * n + 1, Seen(series, mid), m);
    DigitsSeen(UnitAt(series, p), Seen(series, from), d, UnitAt(series, q), Seen(series, to), n, m, c);
    ShowsRise(series, p, q);
  }

  lemma DigitsSeen(u: int, x: int, d: int, v: int, y: int, n: int, m: int, c: int)
    requires u * d <= x * UNIT < (u + 1) * d && v * (d * n * m) <= y * UNIT < (v + 1) * (d * n * m)
    requires d > 0 && n > 0 && m > 0 && c > 0 && y >= (x * n + 1) * m && UNIT == d * n * c
    ensures v > u
  {
    LessScales(0, d, n);
    LessScales(0, d * n, m);
    assert x * (d * n * c) == x * n * c * d;
    ExactQuotient(x * n * c, x * UNIT, d);
    OneQuotient(u, x * n * c, x * UNIT, d);
    Ordered((x * n + 1) * m, y, UNIT);
    assert (x * n + 1) * m * (d * n * c) == (x * n + 1) * c * (d * n * m);
    assert (x * n + 1) * c == u + c;
    LessScales(u + c, v + 1, d * n * m);
  }
}
