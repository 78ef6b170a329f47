// The zero-sum law of fully collateralised series. Money here is cash, what settlement plans still
// owe, the two fee funds, and the unit of collateral behind every contract short and every complete
// set, less the cost basis that positions carry.
module Conservation {
  import opened Base
  import opened Payoffs
  import opened Types
  import opened Totals
  import opened Clearing
  import opened Coverage
  import opened SettlementCoverage
  import opened Rekey
  import opened Runs
  import opened CoverageRuns
  import opened CoverageTheorem

  predicate Funded(series: Series) { FullCollateral(series) && series.domain != Social }

  function CashOf(a: Account): int {
    a.GetCash(Playground) + a.GetCash(Settlement) + a.GetCash(ViciXp) + a.GetCash(Social)
  }

  ghost function CashWeight(): (User, Account) -> int { (u: User, a: Account) => CashOf(a) }

  ghost function Cashflow(): SettlementPosition -> int { (e: SettlementPosition) => e.cashflow }

  ghost function Owed(): (SeriesId, SettlementPlan) -> int {
    (sid: SeriesId, plan: SettlementPlan) =>
      SeqSum(Pending(plan), Cashflow()) + if plan.applied then 0 else plan.fee + plan.insuranceFee
  }

  function Declared(series: Series): seq<OutcomeId> { if series.outcomes.Some? then series.outcomes.value else [] }

  // The outcome whose long positions count the complete sets in circulation.
  predicate CountsSets(series: Series, o: Option<OutcomeId>) {
    series.payoffType.Categorical? && Declared(series) != [] && o == Some(Declared(series)[0])
  }

  function Sets(series: Series, o: Option<OutcomeId>, q: int): int { if CountsSets(series, o) then q else 0 }

  function Backed1(series: Series, o: Option<OutcomeId>, p: Position): int {
    UNIT * Short(p.netQty) + UNIT * Sets(series, o, p.netQty) - p.margin
  }

  ghost function Backing(reg: Registry): (PosKey, Position) -> int {
    (k: PosKey, p: Position) => if k.series in reg && Funded(reg[k.series]) then Backed1(reg[k.series], k.outcome, p) else 0
  }

  ghost function Money(reg: Registry, s: State): int {
    Total(s.core.accounts, CashWeight()) + Total(s.core.plans, Owed()) + s.ops.treasury + s.ops.insurance
    + Total(s.core.positions, Backing(reg))
  }

  // ---------------------------------------------------------------- trades

  // How many contracts short a trade opens on balance; the same number is opened long.
  function Opens(c: Core, t: TradeParams): int {
    var qb, qs := PositionOf(c.positions, KeyOf(t, t.buyer)).netQty, PositionOf(c.positions, KeyOf(t, t.seller)).netQty;
    Short(qb + t.qty) - Short(qb) + Short(qs - t.qty) - Short(qs)
  }

  lemma LegCash(a: Account, d: Domain, leg: Leg)
    ensures CashOf(ApplyLeg(a, d, leg)) == CashOf(a) - leg.cashDelta
  {
    SettersAreExact(a, d, a.GetCash(d) - leg.cashDelta, 0, Playground);
    SettersAreExact(a, d, a.GetCash(d) - leg.cashDelta, 0, Settlement);
    SettersAreExact(a, d, a.GetCash(d) - leg.cashDelta, 0, ViciXp);
    SettersAreExact(a, d, a.GetCash(d) - leg.cashDelta, 0, Social);
  }

  lemma CashAt(accounts: map<User, Account>, u: User)
    ensures At(accounts, u, CashWeight()) == CashOf(AccountOf(accounts, u))
  {
  }

  lemma TradedCash(c: Core, d: Domain, t: TradeParams, b: Leg, l: Leg)
    requires t.buyer != t.seller
    ensures Total(Traded(c, d, t, b, l).accounts, CashWeight()) == Total(c.accounts, CashWeight()) - b.cashDelta - l.cashDelta
  {
    var ab, al := ApplyLeg(AccountOf(c.accounts, t.buyer), d, b), ApplyLeg(AccountOf(c.accounts, t.seller), d, l);
    TotalPutTwo(c.accounts, t.buyer, ab, t.seller, al, CashWeight());
    CashAt(c.accounts, t.buyer);
    CashAt(c.accounts, t.seller);
    LegCash(AccountOf(c.accounts, t.buyer), d, b);
    LegCash(AccountOf(c.accounts, t.seller), d, l);
  }

  lemma BackingAt(reg: Registry, positions: map<PosKey, Position>, k: PosKey)
    requires k.series in reg && Funded(reg[k.series])
    ensures At(positions, k, Backing(reg)) == Backed1(reg[k.series], k.outcome, PositionOf(positions, k))
  {
  }

  lemma TradedBacking(reg: Registry, c: Core, d: Domain, t: TradeParams, b: Leg, l: Leg)
    requires t.buyer != t.seller && t.seriesId in reg && Funded(reg[t.seriesId])
    ensures var w := Backing(reg);
      var pb, ps := PositionOf(c.positions, KeyOf(t, t.buyer)), PositionOf(c.positions, KeyOf(t, t.seller));
      Total(Traded(c, d, t, b, l).positions, w) == Total(c.positions, w)
        + UNIT * Opens(c, t) - (b.newMargin - pb.margin) - (l.newMargin - ps.margin)
  {
    hide Funded, ApplyLeg, Backed1, Opens, CountsSets;
    var kb, ks := KeyOf(t, t.buyer), KeyOf(t, t.seller);
    var pb, ps := PositionOf(c.positions, kb), PositionOf(c.positions, ks);
    var pb', ps' := Position(pb.netQty + t.qty, b.newMargin), Position(ps.netQty - t.qty, l.newMargin);
    TotalPutTwo(c.positions, kb, pb', ks, ps', Backing(reg));
    BackingAt(reg, c.positions, kb);
    BackingAt(reg, c.positions, ks);
    assert Backing(reg)(kb, pb') == Backed1(reg[t.seriesId], t.outcome, pb');
    assert Backing(reg)(ks, ps') == Backed1(reg[t.seriesId], t.outcome, ps');
    BackingOpens(reg[t.seriesId], c, t, b.newMargin, l.newMargin);
  }

  // What is bought on one side is sold on the other, so sets cancel and only contracts short count.
  lemma BackingOpens(series: Series, c: Core, t: TradeParams, mb: nat, ms: nat)
    ensures var pb, ps := PositionOf(c.positions, KeyOf(t, t.buyer)), PositionOf(c.positions, KeyOf(t, t.seller));
      Backed1(series, t.outcome, Position(pb.netQty + t.qty, mb)) - Backed1(series, t.outcome, pb)
      + Backed1(series, t.outcome, Position(ps.netQty - t.qty, ms)) - Backed1(series, t.outcome, ps)
      == UNIT * Opens(c, t) - (mb - pb.margin) - (ms - ps.margin)
  {
    hide PositionOf;
  }

  // Cash received on one side of a trade less the cost basis it adds.
  function LegNet(leg: Leg, held: Position): int { -leg.cashDelta - (leg.newMargin - held.margin) }

  // One side of a trade at price p: the realised cash and the change of cost basis come to the
  // signed value of what was bought, plus a unit and the excess for each contract opened short.
  lemma LegBalance(series: Series, price: Price, held: Position, bought: int, unblock: nat)
    requires Funded(series)
    ensures LegOf(series, price, held, held.netQty + bought, unblock).Ok?
    ensures var p := CeilUsd(price);
      LegNet(LegOf(series, price, held, held.netQty + bought, unblock).value, held)
      == -(bought * p) - (UNIT + Excess(p)) * (Short(held.netQty + bought) - Short(held.netQty))
  {
    var p, q := CeilUsd(price), held.netQty + bought;
    MarginIsSignedValue(series, price, q);
    MarginIsSignedValue(series, price, held.netQty);
    OneSide(held.netQty, bought, p, UNIT + Excess(p), Short(held.netQty), Short(q));
  }

  lemma OneSide(q: int, bought: int, p: int, k: int, s0: int, s1: int)
    ensures (q * p + k * s0) - ((q + bought) * p + k * s1) == -(bought * p) - k * (s1 - s0)
  {
    assert (q + bought) * p == q * p + bought * p;
    assert k * (s1 - s0) == k * s1 - k * s0;
  }

  // From any prior positions, a trade moves the total by exactly the excess of its price over one
  // unit on each contract short it opens: nothing when the price is at most one unit.
  lemma TradedMoney(reg: Registry, c: Core, t: TradeParams)
    requires t.buyer != t.seller && t.seriesId in reg && Funded(reg[t.seriesId])
    ensures BuyerLeg(c, reg[t.seriesId], t).Ok? && SellerLeg(c, reg[t.seriesId], t).Ok?
    ensures var series := reg[t.seriesId];
      var c' := Traded(c, series.domain, t, BuyerLeg(c, series, t).value, SellerLeg(c, series, t).value);
      Total(c'.accounts, CashWeight()) + Total(c'.positions, Backing(reg))
      == Total(c.accounts, CashWeight()) + Total(c.positions, Backing(reg)) - Excess(CeilUsd(t.price)) * Opens(c, t)
  {
    var series := reg[t.seriesId];
    LegsBalance(series, c, t);
    var b, l := BuyerLeg(c, series, t).value, SellerLeg(c, series, t).value;
    TradedCash(c, series.domain, t, b, l);
    TradedBacking(reg, c, series.domain, t, b, l);
  }

  // What a position held is worth at a price beyond its cost basis, as a leg realises it.
  function Revaluation(series: Series, price: Price, held: Position): int {
    match GetRequiredMargin(series, price, held.netQty)
    case Ok(m) => m - held.margin
    case Err(_) => 0
  }

  // On a call, a put or a Social series a trade turns into cash what both positions held are worth
  // beyond their cost basis: nothing there is backed by a unit.
  lemma UnbackedTradedMoney(reg: Registry, c: Core, t: TradeParams)
    requires t.buyer != t.seller && t.seriesId in reg && !Funded(reg[t.seriesId])
    requires BuyerLeg(c, reg[t.seriesId], t).Ok? && SellerLeg(c, reg[t.seriesId], t).Ok?
    ensures var series := reg[t.seriesId];
      var c' := Traded(c, series.domain, t, BuyerLeg(c, series, t).value, SellerLeg(c, series, t).value);
      Total(c'.accounts, CashWeight()) + Total(c'.positions, Backing(reg))
      == Total(c.accounts, CashWeight()) + Total(c.positions, Backing(reg))
         + Revaluation(series, t.price, PositionOf(c.positions, KeyOf(t, t.buyer)))
         + Revaluation(series, t.price, PositionOf(c.positions, KeyOf(t, t.seller)))
  {
    hide GetRequiredMargin, ApplyLeg, Funded, Backed1;
    var series := reg[t.seriesId];
    var b, l := BuyerLeg(c, series, t).value, SellerLeg(c, series, t).value;
    TradedCash(c, series.domain, t, b, l);
    var kb, ks := KeyOf(t, t.buyer), KeyOf(t, t.seller);
    var pb, ps := PositionOf(c.positions, kb), PositionOf(c.positions, ks);
    TotalPutTwo(c.positions, kb, Position(pb.netQty + t.qty, b.newMargin), ks, Position(ps.netQty - t.qty, l.newMargin), Backing(reg));
  }

  lemma {:induction false} UnbackedGrants(reg: Registry, positions: map<PosKey, Position>, u: User, sid: SeriesId,
                                          outcomes: seq<OutcomeId>, qty: int, share: nat)
    requires sid in reg && !Funded(reg[sid])
    ensures Total(Granted(positions, u, sid, outcomes, qty, share), Backing(reg)) == Total(positions, Backing(reg))
    decreases |outcomes|
  {
    hide Funded, Backed1;
    if outcomes == [] {
    } else {
      var k := SetKey(u, sid, outcomes[0]);
      var p := PositionOf(positions, k);
      var p' := Position(p.netQty + qty, p.margin + share);
      TotalPut(positions, k, p', Backing(reg));
      UnbackedGrants(reg, positions[k := p'], u, sid, outcomes[1..], qty, share);
    }
  }

  // Minting and redeeming outside fully collateralised series move margin only.
  lemma UnbackedMint(reg: Registry, c: Core, u: User, sid: SeriesId, outcomes: seq<OutcomeId>, qty: nat)
    requires sid in reg && !Funded(reg[sid]) && outcomes != []
    ensures var c' := Minted(c, u, sid, outcomes, reg[sid].domain, qty);
      Total(c'.accounts, CashWeight()) + Total(c'.positions, Backing(reg))
      == Total(c.accounts, CashWeight()) + Total(c.positions, Backing(reg))
  {
    hide CashOf, Granted, Backing;
    var a := AccountOf(c.accounts, u);
    var a' := a.SetReserved(reg[sid].domain, a.GetReserved(reg[sid].domain) + qty * UNIT);
    ReserveKeepsCash(a, reg[sid].domain, a.GetReserved(reg[sid].domain) + qty * UNIT);
    TotalPut(c.accounts, u, a', CashWeight());
    CashAt(c.accounts, u);
    UnbackedGrants(reg, c.positions, u, sid, outcomes, qty, FloorDiv(qty * UNIT, |outcomes|));
  }

  lemma {:induction false} UnbackedRedeem(reg: Registry, c: Core, u: User, sid: SeriesId, outcomes: seq<OutcomeId>, qty: nat)
    requires sid in reg && !Funded(reg[sid])
    ensures var r := Redeemed(c, u, reg[sid].domain, sid, outcomes, qty);
      r.Some? ==>
        (r.value.plans == c.plans
        && Total(r.value.accounts, CashWeight()) + Total(r.value.positions, Backing(reg))
           == Total(c.accounts, CashWeight()) + Total(c.positions, Backing(reg)))
    decreases |outcomes|
  {
    hide CashOf, Funded, Backed1, Freed;
    if outcomes == [] {
    } else {
      var d, k := reg[sid].domain, SetKey(u, sid, outcomes[0]);
      if k !in c.positions {
        UnbackedRedeem(reg, c, u, sid, outcomes[1..], qty);
      } else {
        var p, freed := c.positions[k], Freed(c.positions[k], qty);
        ReleaseKeepsCash(c.accounts, u, d, freed);
        TotalPut(c.positions, k, Position(p.netQty - qty, SatSub(p.margin, freed)), Backing(reg));
        UnbackedRedeem(reg, RedeemOne(c, u, d, k, qty), u, sid, outcomes[1..], qty);
      }
    }
  }

  // Both sides together: the signed values cancel, and a unit is freed for each contract opened.
  lemma LegsBalance(series: Series, c: Core, t: TradeParams)
    requires Funded(series)
    ensures BuyerLeg(c, series, t).Ok? && SellerLeg(c, series, t).Ok?
    ensures var pb, ps := PositionOf(c.positions, KeyOf(t, t.buyer)), PositionOf(c.positions, KeyOf(t, t.seller));
      LegNet(BuyerLeg(c, series, t).value, pb) + LegNet(SellerLeg(c, series, t).value, ps)
      == -(UNIT * Opens(c, t)) - Excess(CeilUsd(t.price)) * Opens(c, t)
  {
    hide GetRequiredMargin, CeilUsd, Short, Funded, Excess;
    var pb, ps := PositionOf(c.positions, KeyOf(t, t.buyer)), PositionOf(c.positions, KeyOf(t, t.seller));
    LegBalance(series, t.price, pb, t.qty, t.buyerUnblock);
    LegBalance(series, t.price, ps, -t.qty, t.sellerUnblock);
    TwoSides(LegNet(BuyerLeg(c, series, t).value, pb), LegNet(SellerLeg(c, series, t).value, ps), t.qty,
             CeilUsd(t.price), Excess(CeilUsd(t.price)), Short(pb.netQty + t.qty) - Short(pb.netQty),
             Short(ps.netQty - t.qty) - Short(ps.netQty));
  }

  lemma TwoSides(a: int, b: int, q: int, p: int, e: int, x: int, y: int)
    requires a == -(q * p) - (UNIT + e) * x && b == -(-q * p) - (UNIT + e) * y
    ensures a + b == -(UNIT * (x + y)) - e * (x + y)
  {
    assert (UNIT + e) * x == UNIT * x + e * x;
    assert (UNIT + e) * y == UNIT * y + e * y;
    assert e * (x + y) == e * x + e * y;
    assert -q * p == -(q * p);
  }

  // ---------------------------------------------------------------- complete sets

  // Contracts short that qty more of an outcome would buy back without a trade.
  ghost function BuysBack(positions: map<PosKey, Position>, u: User, sid: SeriesId, qty: int): OutcomeId -> int {
    (o: OutcomeId) =>
      var q := PositionOf(positions, SetKey(u, sid, o)).netQty;
      Short(q) - Short(q + qty)
  }

  ghost function SetsIn(series: Series, qty: int): OutcomeId -> int { (o: OutcomeId) => Sets(series, Some(o), qty) }

  // What granting one outcome adds to the total.
  ghost function GrantNet(series: Series, positions: map<PosKey, Position>, u: User, sid: SeriesId, qty: int, share: int)
    : OutcomeId -> int
  {
    (o: OutcomeId) => UNIT * SetsIn(series, qty)(o) - UNIT * BuysBack(positions, u, sid, qty)(o) - share
  }

  lemma OneGrant(reg: Registry, positions: map<PosKey, Position>, u: User, sid: SeriesId, o: OutcomeId, qty: int, share: nat)
    requires sid in reg && Funded(reg[sid])
    ensures var k := SetKey(u, sid, o);
      var p := PositionOf(positions, k);
      Total(positions[k := Position(p.netQty + qty, p.margin + share)], Backing(reg))
      == Total(positions, Backing(reg)) + GrantNet(reg[sid], positions, u, sid, qty, share)(o)
  {
    var k := SetKey(u, sid, o);
    var p := PositionOf(positions, k);
    var p' := Position(p.netQty + qty, p.margin + share);
    TotalPut(positions, k, p', Backing(reg));
    BackingAt(reg, positions, k);
    assert Backing(reg)(k, p') == Backed1(reg[sid], k.outcome, p');
    assert BuysBack(positions, u, sid, qty)(o) == Short(p.netQty) - Short(p.netQty + qty);
    assert SetsIn(reg[sid], qty)(o) == Sets(reg[sid], Some(o), qty);
  }

  lemma {:induction false} GrantedMoney(reg: Registry, positions: map<PosKey, Position>, u: User, sid: SeriesId,
                                        outcomes: seq<OutcomeId>, qty: int, share: nat)
    requires sid in reg && Funded(reg[sid]) && NoRepeats(outcomes)
    ensures Total(Granted(positions, u, sid, outcomes, qty, share), Backing(reg))
         == Total(positions, Backing(reg)) + SeqSum(outcomes, GrantNet(reg[sid], positions, u, sid, qty, share))
    decreases |outcomes|
  {
    hide GrantNet, Funded, Backing, PositionOf, Total;
    if outcomes == [] {
    } else {
      var o := outcomes[0];
      var k := SetKey(u, sid, o);
      var p := PositionOf(positions, k);
      var next := positions[k := Position(p.netQty + qty, p.margin + share)];
      OneGrant(reg, positions, u, sid, o, qty, share);
      GrantedMoney(reg, next, u, sid, outcomes[1..], qty, share);
      OtherOutcomesUnmoved(reg[sid], positions, u, sid, o, next[k], outcomes[1..], qty, share);
    }
  }

  lemma OtherOutcomesUnmoved(series: Series, positions: map<PosKey, Position>, u: User, sid: SeriesId, o: OutcomeId,
                             p: Position, others: seq<OutcomeId>, qty: int, share: int)
    requires o !in others
    ensures SeqSum(others, GrantNet(series, positions[SetKey(u, sid, o) := p], u, sid, qty, share))
         == SeqSum(others, GrantNet(series, positions, u, sid, qty, share))
  {
    var next := positions[SetKey(u, sid, o) := p];
    forall i | 0 <= i < |others|
      ensures GrantNet(series, next, u, sid, qty, share)(others[i]) == GrantNet(series, positions, u, sid, qty, share)(others[i])
    {
      assert BuysBack(next, u, sid, qty)(others[i]) == BuysBack(positions, u, sid, qty)(others[i]);
    }
    SeqSumAgree(others, GrantNet(series, next, u, sid, qty, share), GrantNet(series, positions, u, sid, qty, share));
  }

  lemma {:induction false} GrantNetSplits(series: Series, positions: map<PosKey, Position>, u: User, sid: SeriesId,
                                          outcomes: seq<OutcomeId>, qty: int, share: int)
    ensures SeqSum(outcomes, GrantNet(series, positions, u, sid, qty, share))
         == UNIT * SeqSum(outcomes, SetsIn(series, qty)) - UNIT * SeqSum(outcomes, BuysBack(positions, u, sid, qty))
            - |outcomes| * share
    decreases |outcomes|
  {
    if outcomes == [] {
    } else {
      GrantNetSplits(series, positions, u, sid, outcomes[1..], qty, share);
      Spread(|outcomes| - 1, 1, share);
    }
  }

  lemma {:induction false} OneSetIn(series: Series, outcomes: seq<OutcomeId>, qty: int)
    requires series.payoffType.Categorical? && Declared(series) != []
    requires NoRepeats(outcomes)
    ensures SeqSum(outcomes, SetsIn(series, qty)) == if Declared(series)[0] in outcomes then qty else 0
    decreases |outcomes|
  {
    if outcomes == [] {
    } else {
      OneSetIn(series, outcomes[1..], qty);
    }
  }

  lemma ReserveKeepsCash(a: Account, d: Domain, amount: nat)
    ensures CashOf(a.SetReserved(d, amount)) == CashOf(a)
  {
  }

  // Minting adds the dust of its rounding, and takes a unit for every contract short it buys back.
  lemma MintedMoney(reg: Registry, c: Core, u: User, sid: SeriesId, qty: nat)
    requires sid in reg && Funded(reg[sid]) && reg[sid].payoffType.Categorical?
    requires Declared(reg[sid]) != [] && NoRepeats(Declared(reg[sid]))
    ensures var outcomes := Declared(reg[sid]);
      var c' := Minted(c, u, sid, outcomes, reg[sid].domain, qty);
      Total(c'.accounts, CashWeight()) + Total(c'.positions, Backing(reg))
      == Total(c.accounts, CashWeight()) + Total(c.positions, Backing(reg))
         + MintDust(qty, |outcomes|) - UNIT * SeqSum(outcomes, BuysBack(c.positions, u, sid, qty))
  {
    hide CashOf, GrantNet, BuysBack, Granted, Backing;
    ReserveKeepsCash(AccountOf(c.accounts, u), reg[sid].domain, AccountOf(c.accounts, u).GetReserved(reg[sid].domain) + qty * UNIT);
    var outcomes := Declared(reg[sid]);
    var a := AccountOf(c.accounts, u);
    TotalPut(c.accounts, u, a.SetReserved(reg[sid].domain, a.GetReserved(reg[sid].domain) + qty * UNIT), CashWeight());
    CashAt(c.accounts, u);
    GrantedMoney(reg, c.positions, u, sid, outcomes, qty, FloorDiv(qty * UNIT, |outcomes|));
    GrantNetSplits(reg[sid], c.positions, u, sid, outcomes, qty, FloorDiv(qty * UNIT, |outcomes|));
    OneSetIn(reg[sid], outcomes, qty);
  }

  // It takes nothing exactly when the holder is short in none of the outcomes.
  ghost predicate ShortInNone(positions: map<PosKey, Position>, u: User, sid: SeriesId, outcomes: seq<OutcomeId>) {
    forall o :: o in outcomes ==> PositionOf(positions, SetKey(u, sid, o)).netQty >= 0
  }

  lemma {:induction false} BuysBackNothing(positions: map<PosKey, Position>, u: User, sid: SeriesId, outcomes: seq<OutcomeId>, qty: int)
    requires qty > 0
    ensures SeqSum(outcomes, BuysBack(positions, u, sid, qty)) >= 0
    ensures SeqSum(outcomes, BuysBack(positions, u, sid, qty)) == 0 <==> ShortInNone(positions, u, sid, outcomes)
    decreases |outcomes|
  {
    if outcomes == [] {
    } else {
      BuysBackNothing(positions, u, sid, outcomes[1..], qty);
      assert forall o :: o in outcomes <==> o == outcomes[0] || o in outcomes[1..];
    }
  }

  lemma ReleaseKeepsCash(accounts: map<User, Account>, u: User, d: Domain, amount: nat)
    ensures Total(Release(accounts, u, d, amount), CashWeight()) == Total(accounts, CashWeight())
  {
    if u in accounts {
      TotalPut(accounts, u, accounts[u].SetReserved(d, SatSub(accounts[u].GetReserved(d), amount)), CashWeight());
      CashAt(accounts, u);
    }
  }

  ghost function FreedAt(positions: map<PosKey, Position>, u: User, sid: SeriesId, qty: nat): OutcomeId -> int {
    (o: OutcomeId) => Freed(PositionOf(positions, SetKey(u, sid, o)), qty)
  }

  lemma OneRedeemedMoney(reg: Registry, c: Core, u: User, sid: SeriesId, o: OutcomeId, qty: nat)
    requires sid in reg && Funded(reg[sid])
    requires SetKey(u, sid, o) in c.positions && 0 < qty <= c.positions[SetKey(u, sid, o)].netQty
    ensures var c' := RedeemOne(c, u, reg[sid].domain, SetKey(u, sid, o), qty);
      Total(c'.accounts, CashWeight()) + Total(c'.positions, Backing(reg))
      == Total(c.accounts, CashWeight()) + Total(c.positions, Backing(reg))
         + FreedAt(c.positions, u, sid, qty)(o) - UNIT * Sets(reg[sid], Some(o), qty)
  {
    var k := SetKey(u, sid, o);
    var p := c.positions[k];
    var freed := Freed(p, qty);
    FreedWithinMargin(p, qty);
    var p' := Position(p.netQty - qty, p.margin - freed);
    ReleaseKeepsCash(c.accounts, u, reg[sid].domain, freed);
    TotalPut(c.positions, k, p', Backing(reg));
    BackingAt(reg, c.positions, k);
    assert Backing(reg)(k, p') == Backed1(reg[sid], k.outcome, p');
  }

  // Redeeming turns the stored cost basis loose and retires a unit per set; no cash is paid.
  lemma {:induction false} RedeemedMoney(reg: Registry, c: Core, u: User, sid: SeriesId, outcomes: seq<OutcomeId>, qty: nat)
    requires sid in reg && Funded(reg[sid]) && NoRepeats(outcomes) && qty > 0
    requires CanRedeem(c.positions, u, sid, outcomes, qty)
    ensures var r := Redeemed(c, u, reg[sid].domain, sid, outcomes, qty);
      && r.Some? && r.value.plans == c.plans
      && Total(r.value.accounts, CashWeight()) + Total(r.value.positions, Backing(reg))
         == Total(c.accounts, CashWeight()) + Total(c.positions, Backing(reg))
            + SeqSum(outcomes, FreedAt(c.positions, u, sid, qty)) - UNIT * SeqSum(outcomes, SetsIn(reg[sid], qty))
    decreases |outcomes|
  {
    if outcomes == [] {
    } else {
      var o := outcomes[0];
      assert o in outcomes;
      var c1 := RedeemOne(c, u, reg[sid].domain, SetKey(u, sid, o), qty);
      OneRedeemedMoney(reg, c, u, sid, o, qty);
      forall x | x in outcomes[1..] ensures PositionOf(c1.positions, SetKey(u, sid, x)).netQty >= qty {
        assert x in outcomes && x != o;
      }
      RedeemedMoney(reg, c1, u, sid, outcomes[1..], qty);
      SeqSumAgree(outcomes[1..], FreedAt(c1.positions, u, sid, qty), FreedAt(c.positions, u, sid, qty));
    }
  }
}
