// Net quantities: every outcome of a series is held on balance as often as any other, so that a
// settlement at a declared outcome, or at a price within one unit, creates and destroys nothing.
module Balance {
  import opened Base
  import opened Payoffs
  import opened Types
  import opened Totals
  import opened Book
  import opened Clearing
  import opened Coverage
  import opened SettlementCoverage
  import opened Rekey
  import opened Runs
  import opened CoverageRuns
  import opened CoverageTheorem
  import opened Conservation
  import opened ConservationSettlement
  import opened ConservationTheorem

  ghost predicate SeriesBalanced(series: Series, sid: SeriesId, positions: map<PosKey, Position>) {
    && (series.payoffType.Binary? ==> Total(positions, NetAll(sid)) == 0)
    && (series.payoffType.Categorical? ==>
          forall o: Option<OutcomeId> :: Total(positions, Net(sid, o))
            == if o.Some? && o.value in Declared(series) then SetsOut(series, sid, positions) else 0)
  }

  ghost predicate Balanced(reg: Registry, positions: map<PosKey, Position>) {
    forall sid :: sid in reg && Funded(reg[sid]) ==> SeriesBalanced(reg[sid], sid, positions)
  }

  // ---------------------------------------------------------------- weights that see only quantities

  // The two families of weights above, as one: the quantity of the entries a filter selects.
  datatype Filter = OneOutcome(sid: SeriesId, o: Option<OutcomeId>) | WholeSeries(sid: SeriesId)

  predicate Selects(f: Filter, k: PosKey) {
    k.series == f.sid && (f.OneOutcome? ==> k.outcome == f.o)
  }

  ghost function Quantity(f: Filter): (PosKey, Position) -> int {
    (k: PosKey, p: Position) => if k.series == f.sid && (f.OneOutcome? ==> k.outcome == f.o) then p.netQty else 0
  }

  lemma QuantityIsNet(positions: map<PosKey, Position>, sid: SeriesId, o: Option<OutcomeId>)
    ensures Total(positions, Quantity(OneOutcome(sid, o))) == Total(positions, Net(sid, o))
    ensures Total(positions, Quantity(WholeSeries(sid))) == Total(positions, NetAll(sid))
  {
    TotalAgree(positions, Quantity(OneOutcome(sid, o)), Net(sid, o));
    TotalAgree(positions, Quantity(WholeSeries(sid)), NetAll(sid));
  }

  lemma PutQuantity(positions: map<PosKey, Position>, k: PosKey, p: Position, f: Filter)
    ensures Total(positions[k := p], Quantity(f))
         == Total(positions, Quantity(f)) + if Selects(f, k) then p.netQty - PositionOf(positions, k).netQty else 0
  {
    TotalPut(positions, k, p, Quantity(f));
  }

  lemma TradedQuantity(c: Core, d: Domain, t: TradeParams, b: Leg, l: Leg, f: Filter)
    requires t.buyer != t.seller
    ensures Total(Traded(c, d, t, b, l).positions, Quantity(f)) == Total(c.positions, Quantity(f))
  {
    var kb, ks := KeyOf(t, t.buyer), KeyOf(t, t.seller);
    var pb := Position(PositionOf(c.positions, kb).netQty + t.qty, b.newMargin);
    var ps := Position(PositionOf(c.positions, ks).netQty - t.qty, l.newMargin);
    PutQuantity(c.positions, kb, pb, f);
    PutQuantity(c.positions[kb := pb], ks, ps, f);
  }

  // Each time an outcome occurs in the list its filter gains qty.
  ghost function Hits(f: Filter, u: User, sid: SeriesId): OutcomeId -> int {
    (o: OutcomeId) => if Selects(f, SetKey(u, sid, o)) then 1 else 0
  }

  lemma {:induction false} GrantedQuantity(positions: map<PosKey, Position>, u: User, sid: SeriesId, outcomes: seq<OutcomeId>,
                                           qty: int, share: nat, f: Filter)
    ensures Total(Granted(positions, u, sid, outcomes, qty, share), Quantity(f))
         == Total(positions, Quantity(f)) + SeqSum(outcomes, Hits(f, u, sid)) * qty
    decreases |outcomes|
  {
    if outcomes == [] {
    } else {
      var k := SetKey(u, sid, outcomes[0]);
      var p := PositionOf(positions, k);
      var p' := Position(p.netQty + qty, p.margin + share);
      PutQuantity(positions, k, p', f);
      GrantedQuantity(positions[k := p'], u, sid, outcomes[1..], qty, share, f);
      Spread(Hits(f, u, sid)(outcomes[0]), SeqSum(outcomes[1..], Hits(f, u, sid)), qty);
    }
  }

  lemma {:induction false} RedeemedQuantity(c: Core, u: User, d: Domain, sid: SeriesId, outcomes: seq<OutcomeId>, qty: nat, f: Filter)
    requires NoRepeats(outcomes) && qty > 0 && CanRedeem(c.positions, u, sid, outcomes, qty)
    ensures Redeemed(c, u, d, sid, outcomes, qty).Some?
    ensures Total(Redeemed(c, u, d, sid, outcomes, qty).value.positions, Quantity(f))
         == Total(c.positions, Quantity(f)) - SeqSum(outcomes, Hits(f, u, sid)) * qty
    decreases |outcomes|
  {
    if outcomes == [] {
    } else {
      var o := outcomes[0];
      var k := SetKey(u, sid, o);
      assert o in outcomes;
      var c1 := RedeemOne(c, u, d, k, qty);
      PutQuantity(c.positions, k, c1.positions[k], f);
      forall x | x in outcomes[1..] ensures PositionOf(c1.positions, SetKey(u, sid, x)).netQty >= qty {
        assert x in outcomes && x != o;
      }
      RedeemedQuantity(c1, u, d, sid, outcomes[1..], qty, f);
      Spread(Hits(f, u, sid)(o), SeqSum(outcomes[1..], Hits(f, u, sid)), qty);
    }
  }

  lemma {:induction false} HitsOnce(outcomes: seq<OutcomeId>, sid: SeriesId, o: Option<OutcomeId>, u: User, sid': SeriesId)
    requires NoRepeats(outcomes)
    ensures SeqSum(outcomes, Hits(OneOutcome(sid, o), u, sid'))
         == if sid == sid' && o.Some? && o.value in outcomes then 1 else 0
    decreases |outcomes|
  {
    if outcomes == [] {
    } else {
      HitsOnce(outcomes[1..], sid, o, u, sid');
      assert o.Some? ==> (o.value in outcomes <==> o.value == outcomes[0] || o.value in outcomes[1..]);
    }
  }

  lemma {:induction false} HitsNoOther(outcomes: seq<OutcomeId>, f: Filter, u: User, sid: SeriesId)
    requires f.sid != sid
    ensures SeqSum(outcomes, Hits(f, u, sid)) == 0
    decreases |outcomes|
  {
    if outcomes == [] {
    } else {
      HitsNoOther(outcomes[1..], f, u, sid);
    }
  }

  lemma WithoutSeriesQuantity(positions: map<PosKey, Position>, sid: SeriesId, keys: seq<PosKey>, f: Filter)
    requires Lists(keys, KeysOfSeries(positions, sid))
    ensures Total(positions - SetOf(keys), Quantity(f)) == if f.sid == sid then 0 else Total(positions, Quantity(f))
  {
    TotalRemoveAll(positions, keys, Quantity(f));
    assert SetOf(keys) == (set k | k in keys);
    if f.sid == sid {
      forall k | k in positions && k !in keys ensures Quantity(f)(k, positions[k]) == 0 {
        assert k in KeysOfSeries(positions, sid) ==> k in keys;
      }
      SumAtAll(keys, positions, Quantity(f));
    } else {
      NoneSelected(keys, positions, sid, f);
    }
  }

  lemma {:induction false} NoneSelected(keys: seq<PosKey>, positions: map<PosKey, Position>, sid: SeriesId, f: Filter)
    requires forall i :: 0 <= i < |keys| ==> keys[i] in KeysOfSeries(positions, sid)
    requires f.sid != sid
    ensures SumAt(keys, positions, Quantity(f)) == 0
    decreases |keys|
  {
    if keys == [] {
    } else {
      NoneSelected(keys[..|keys| - 1], positions, sid, f);
    }
  }

  // ---------------------------------------------------------------- the invariant

  // Positions whose selected quantities agree are balanced together.
  lemma SameQuantities(reg: Registry, positions: map<PosKey, Position>, positions': map<PosKey, Position>)
    requires Balanced(reg, positions)
    requires forall f :: Total(positions', Quantity(f)) == Total(positions, Quantity(f))
    ensures Balanced(reg, positions')
  {
    forall sid | sid in reg && Funded(reg[sid]) ensures SeriesBalanced(reg[sid], sid, positions') {
      assert SeriesBalanced(reg[sid], sid, positions);
      SameSeries(reg[sid], sid, positions, positions');
    }
  }

  lemma SameSeries(series: Series, sid: SeriesId, positions: map<PosKey, Position>, positions': map<PosKey, Position>)
    requires SeriesBalanced(series, sid, positions)
    requires forall f: Filter :: f.sid == sid ==> Total(positions', Quantity(f)) == Total(positions, Quantity(f))
    ensures SeriesBalanced(series, sid, positions')
  {
    forall o: Option<OutcomeId>
      ensures Total(positions', Net(sid, o)) == Total(positions, Net(sid, o))
      ensures Total(positions', NetAll(sid)) == Total(positions, NetAll(sid))
    {
      QuantityIsNet(positions, sid, o);
      QuantityIsNet(positions', sid, o);
      assert OneOutcome(sid, o).sid == sid && WholeSeries(sid).sid == sid;
    }
    assert Total(positions', Net(sid, None)) == Total(positions, Net(sid, None));
  }

  // Adding n complete sets of a categorical series, or taking n away, keeps it balanced.
  lemma SetsStayBalanced(series: Series, sid: SeriesId, u: User, positions: map<PosKey, Position>, positions': map<PosKey, Position>, n: int)
    requires series.payoffType.Categorical? && NoRepeats(Declared(series))
    requires SeriesBalanced(series, sid, positions)
    requires forall f: Filter :: Total(positions', Quantity(f)) == Total(positions, Quantity(f)) + SeqSum(Declared(series), Hits(f, u, sid)) * n
    ensures SeriesBalanced(series, sid, positions')
  {
    forall o: Option<OutcomeId>
      ensures Total(positions', Net(sid, o))
           == Total(positions, Net(sid, o)) + if o.Some? && o.value in Declared(series) then n else 0
    {
      QuantityIsNet(positions, sid, o);
      QuantityIsNet(positions', sid, o);
      HitsOnce(Declared(series), sid, o, u, sid);
      var f := OneOutcome(sid, o);
      assert Total(positions', Quantity(f)) == Total(positions, Quantity(f)) + SeqSum(Declared(series), Hits(f, u, sid)) * n;
    }
  }

  lemma SetsKeepBalance(reg: Registry, sid: SeriesId, u: User, positions: map<PosKey, Position>, positions': map<PosKey, Position>, n: int)
    requires Balanced(reg, positions)
    requires sid in reg && reg[sid].payoffType.Categorical? && (Funded(reg[sid]) ==> NoRepeats(Declared(reg[sid])))
    requires forall f: Filter :: Total(positions', Quantity(f)) == Total(positions, Quantity(f)) + SeqSum(Declared(reg[sid]), Hits(f, u, sid)) * n
    ensures Balanced(reg, positions')
  {
    forall i | i in reg && Funded(reg[i]) ensures SeriesBalanced(reg[i], i, positions') {
      assert SeriesBalanced(reg[i], i, positions);
      if i == sid {
        SetsStayBalanced(reg[sid], sid, u, positions, positions', n);
      } else {
        forall f: Filter | f.sid == i ensures Total(positions', Quantity(f)) == Total(positions, Quantity(f)) {
          HitsNoOther(Declared(reg[sid]), f, u, sid);
          assert Total(positions', Quantity(f)) == Total(positions, Quantity(f)) + SeqSum(Declared(reg[sid]), Hits(f, u, sid)) * n;
        }
        SameSeries(reg[i], i, positions, positions');
      }
    }
  }

  lemma EmptySeriesBalanced(series: Series, sid: SeriesId, positions: map<PosKey, Position>)
    requires forall f: Filter :: f.sid == sid ==> Total(positions, Quantity(f)) == 0
    ensures SeriesBalanced(series, sid, positions)
  {
    forall o: Option<OutcomeId> ensures Total(positions, Net(sid, o)) == 0 && Total(positions, NetAll(sid)) == 0 {
      QuantityIsNet(positions, sid, o);
      assert OneOutcome(sid, o).sid == sid && WholeSeries(sid).sid == sid;
    }
    assert Total(positions, Net(sid, None)) == 0;
  }

  lemma SettledKeepsBalance(reg: Registry, positions: map<PosKey, Position>, sid: SeriesId, keys: seq<PosKey>)
    requires Balanced(reg, positions)
    requires Lists(keys, KeysOfSeries(positions, sid))
    ensures Balanced(reg, positions - SetOf(keys))
  {
    var positions' := positions - SetOf(keys);
    forall f ensures Total(positions', Quantity(f)) == if f.sid == sid then 0 else Total(positions, Quantity(f)) {
      WithoutSeriesQuantity(positions, sid, keys, f);
    }
    forall i | i in reg && Funded(reg[i]) ensures SeriesBalanced(reg[i], i, positions') {
      assert SeriesBalanced(reg[i], i, positions);
      if i == sid {
        EmptySeriesBalanced(reg[i], i, positions');
      } else {
        SameSeries(reg[i], i, positions, positions');
      }
    }
  }

  lemma TradeKeepsBalance(reg: Registry, s: State, series: Series, t: TradeParams, now: nat)
    requires Balanced(reg, s.core.positions)
    ensures Balanced(reg, ExecuteTrade(s, series, t, now).state.core.positions)
  {
    if Executes(s, series, t) {
      ExecutedCore(s, series, t, now);
      var b, l := BuyerLeg(s.core, series, t).value, SellerLeg(s.core, series, t).value;
      forall f ensures Total(Traded(s.core, series.domain, t, b, l).positions, Quantity(f)) == Total(s.core.positions, Quantity(f)) {
        TradedQuantity(s.core, series.domain, t, b, l, f);
      }
      SameQuantities(reg, s.core.positions, Traded(s.core, series.domain, t, b, l).positions);
    } else {
      FailedTradeChangesNothing(s, series, t, now);
    }
  }

  lemma FillKeepsBalance(reg: Registry, s: State, step: Step)
    requires Frame(reg, s.core) && step.Fill? && Enabled(reg, s, step)
    requires Balanced(reg, s.core.positions)
    ensures Balanced(reg, After(reg, s, step).core.positions)
  {
    var Fill(taker, id, seen, tradeId, requested, now) := step;
    FillShape(reg, s, taker, id, seen, tradeId, requested, now);
    if Fills(reg, s, taker, id, seen, tradeId, requested, now) {
      var o := s.core.orders[id];
      var fill := FillQty(requested, o.qty);
      TradeKeepsBalance(reg, s, reg[o.series], FillTrade(reg, o, taker, tradeId, fill), now);
      AfterTradeDone(ExecuteTrade(s, reg[o.series], FillTrade(reg, o, taker, tradeId, fill), now), id, Rest(reg, o, fill));
    }
  }

  lemma MintKeepsBalance(reg: Registry, s: State, step: Step)
    requires step.Mint? && Enabled(reg, s, step) && InScope(reg, step)
    requires Balanced(reg, s.core.positions)
    ensures Balanced(reg, After(reg, s, step).core.positions)
  {
    var Mint(caller, sid, qty) := step;
    if MintCompleteSet(s, caller, sid, reg[sid], qty).result.Ok? {
      var outcomes := Declared(reg[sid]);
      forall f: Filter
        ensures Total(After(reg, s, step).core.positions, Quantity(f))
             == Total(s.core.positions, Quantity(f)) + SeqSum(outcomes, Hits(f, caller, sid)) * qty
      {
        GrantedQuantity(s.core.positions, caller, sid, outcomes, qty, FloorDiv(qty * UNIT, |outcomes|), f);
      }
      SetsKeepBalance(reg, sid, caller, s.core.positions, After(reg, s, step).core.positions, qty);
    }
  }

  // Redeeming touches no other series.
  lemma {:induction false} RedeemedElsewhere(c: Core, u: User, d: Domain, sid: SeriesId, outcomes: seq<OutcomeId>, qty: nat, f: Filter)
    requires f.sid != sid
    ensures var r := Redeemed(c, u, d, sid, outcomes, qty);
      r.Some? ==> Total(r.value.positions, Quantity(f)) == Total(c.positions, Quantity(f))
    decreases |outcomes|
  {
    hide Freed, Release;
    if outcomes == [] {
    } else {
      var k := SetKey(u, sid, outcomes[0]);
      if k !in c.positions {
        RedeemedElsewhere(c, u, d, sid, outcomes[1..], qty, f);
      } else {
        var c1 := RedeemOne(c, u, d, k, qty);
        PutQuantity(c.positions, k, c1.positions[k], f);
        RedeemedElsewhere(c1, u, d, sid, outcomes[1..], qty, f);
      }
    }
  }

  lemma UnbackedRedeemKeepsBalance(reg: Registry, c: Core, u: User, sid: SeriesId, outcomes: seq<OutcomeId>, qty: nat)
    requires sid in reg && !Funded(reg[sid]) && Balanced(reg, c.positions)
    requires Redeemed(c, u, reg[sid].domain, sid, outcomes, qty).Some?
    ensures Balanced(reg, Redeemed(c, u, reg[sid].domain, sid, outcomes, qty).value.positions)
  {
    hide Redeemed, SeriesBalanced;
    var c' := Redeemed(c, u, reg[sid].domain, sid, outcomes, qty).value;
    forall i | i in reg && Funded(reg[i]) ensures SeriesBalanced(reg[i], i, c'.positions) {
      forall f: Filter | f.sid == i ensures Total(c'.positions, Quantity(f)) == Total(c.positions, Quantity(f)) {
        RedeemedElsewhere(c, u, reg[sid].domain, sid, outcomes, qty, f);
      }
      SameSeries(reg[i], i, c.positions, c'.positions);
    }
  }

  lemma RedeemKeepsBalance(reg: Registry, s: State, step: Step)
    requires step.Redeem? && Enabled(reg, s, step) && InScope(reg, step)
    requires Balanced(reg, s.core.positions)
    ensures Balanced(reg, After(reg, s, step).core.positions)
  {
    hide Redeemed, SeriesBalanced, Hits, CanRedeem;
    var Redeem(caller, sid, qty) := step;
    if RedeemCompleteSet(s, caller, sid, reg[sid], qty).result.Ok? && !Funded(reg[sid]) {
      UnbackedRedeemKeepsBalance(reg, s.core, caller, sid, Declared(reg[sid]), qty);
    } else if RedeemCompleteSet(s, caller, sid, reg[sid], qty).result.Ok? {
      var outcomes := Declared(reg[sid]);
      forall f: Filter
        ensures Total(After(reg, s, step).core.positions, Quantity(f))
             == Total(s.core.positions, Quantity(f)) + SeqSum(outcomes, Hits(f, caller, sid)) * -qty
      {
        RedeemedQuantity(s.core, caller, reg[sid].domain, sid, outcomes, qty, f);
        assert SeqSum(outcomes, Hits(f, caller, sid)) * -qty == -(SeqSum(outcomes, Hits(f, caller, sid)) * qty);
      }
      SetsKeepBalance(reg, sid, caller, s.core.positions, After(reg, s, step).core.positions, -qty);
    }
  }

  lemma RekeyKeepsBalance(reg: Registry, c: Core, from: User, to: User, keys: seq<PosKey>)
    requires CanRekey(c, from, to) && Lists(keys, KeysOfUser(c.positions, from))
    requires Balanced(reg, c.positions)
    ensures Balanced(reg, Rekeyed(c, from, to, keys).positions)
  {
    forall f ensures Total(Rekeyed(c, from, to, keys).positions, Quantity(f)) == Total(c.positions, Quantity(f)) {
      forall k, p ensures Quantity(f)(Owned(k, to), p) == Quantity(f)(k, p) {
      }
      RekeyKeepsTotals(c, from, to, keys, Quantity(f));
    }
    SameQuantities(reg, c.positions, Rekeyed(c, from, to, keys).positions);
  }

  lemma StepKeepsBalance(reg: Registry, s: State, step: Step)
    requires Frame(reg, s.core) && CachedKnown(reg, s.ops)
    requires Enabled(reg, s, step) && InScope(reg, step)
    requires Balanced(reg, s.core.positions)
    ensures Balanced(reg, After(reg, s, step).core.positions)
  {
    hide Balanced, ExecuteTrade, MintCompleteSet, FillOrder, RedeemCompleteSet, LinesOf;
    match step {
      case Cache(_) =>
      case Reprice(_) =>
      case Fund(_, _, _, _) =>
      case Limit(_, _) =>
      case Cancel(_, _) =>
      case Fill(_, _, _, _, _, _) => FillKeepsBalance(reg, s, step);
      case Matched(t, now) => TradeKeepsBalance(reg, s, reg[t.seriesId], t, now);
      case Mint(_, _, _) => MintKeepsBalance(reg, s, step);
      case Redeem(_, _, _) => RedeemKeepsBalance(reg, s, step);
      case Settle(sid, settlement, keys, ids, _, now) =>
        if Prepares(s, sid, settlement, keys, ids, now) { SettledKeepsBalance(reg, s.core.positions, sid, keys); }
      case Reassign(from, to, keys) => RekeyKeepsBalance(reg, s.core, from, to, keys);
    }
  }

  // ---------------------------------------------------------------- when a step departs from the law

  lemma NoDriftIff(series: Series, c: Core, t: TradeParams)
    requires Funded(series)
    ensures TradeDrift(series, c, t) == 0 <==> CeilUsd(t.price) <= UNIT || Opens(c, t) == 0
  {
    var e, x := Excess(CeilUsd(t.price)), Opens(c, t);
    if e != 0 && x != 0 { assert e * x != 0; }
  }

  // A trade departs from it exactly when its price is above one unit and it opens or closes contracts.
  lemma TradeIsNeutralIff(reg: Registry, s: State, t: TradeParams, now: nat)
    requires t.seriesId in reg && Funded(reg[t.seriesId]) && Executes(s, reg[t.seriesId], t)
    ensures Money(reg, ExecuteTrade(s, reg[t.seriesId], t, now).state) == Money(reg, s)
        <==> CeilUsd(t.price) <= UNIT || Opens(s.core, t) == 0
  {
    TradeMoney(reg, s, t, now);
    NoDriftIff(reg[t.seriesId], s.core, t);
    hide Money, ExecuteTrade, TradeDrift, Executes, CeilUsd, Opens;
  }

  // A settlement departs from it exactly when a binary price above one unit meets contracts short,
  // or an outcome that was never declared meets complete sets.
  ghost predicate SettlesCleanly(series: Series, sid: SeriesId, positions: map<PosKey, Position>, settlement: SettlementInput) {
    if series.payoffType.Binary? then
      settlement.PriceInput? ==> FloorUsd(settlement.price) <= UNIT || Total(positions, ShortAll(sid)) == 0
    else
      settlement.OutcomeInput? ==> settlement.outcome in Declared(series) || SetsOut(series, sid, positions) == 0
  }

  lemma SettlementIsNeutralIff(reg: Registry, positions: map<PosKey, Position>, sid: SeriesId, settlement: SettlementInput)
    requires sid in reg && Funded(reg[sid]) && Balanced(reg, positions)
    requires reg[sid].payoffType.Binary? ==> settlement.PriceInput?
    requires reg[sid].payoffType.Categorical? ==> settlement.OutcomeInput?
    ensures Total(positions, SurplusIn(sid, reg[sid], settlement)) == 0 <==> SettlesCleanly(reg[sid], sid, positions, settlement)
  {
    assert SeriesBalanced(reg[sid], sid, positions);
    if reg[sid].payoffType.Binary? {
      BinarySurplus(positions, sid, reg[sid], settlement);
      var u, n := FloorUsd(settlement.price), Total(positions, ShortAll(sid));
      assert u * 0 == 0;
      if u <= UNIT { assert Excess(u) * n == 0; } else if n != 0 { assert Excess(u) * n != 0; }
    } else {
      CategoricalSurplus(positions, sid, reg[sid], settlement);
    }
  }

  // ---------------------------------------------------------------- settling what nothing backs

  ghost function Contracts(sid: SeriesId): (PosKey, Position) -> int {
    (k: PosKey, p: Position) => if k.series == sid then Abs(p.netQty) else 0
  }

  ghost function Basis(sid: SeriesId): (PosKey, Position) -> int {
    (k: PosKey, p: Position) => if k.series == sid then p.margin else 0
  }

  // A call or a put pays each contract its unit payoff, long or short alike.
  lemma OptionPaysOut(positions: map<PosKey, Position>, sid: SeriesId, series: Series, settlement: SettlementInput, unit: nat)
    requires !FullCollateral(series) && GetUnitPayoff(series, None, settlement) == Ok(unit)
    ensures Total(positions, PaidOutIn(sid, series, settlement))
         == unit * Total(positions, Contracts(sid)) - Total(positions, Basis(sid))
  {
    var a := (k: PosKey, p: Position) => unit * Contracts(sid)(k, p);
    var b := (k: PosKey, p: Position) => -1 * Basis(sid)(k, p);
    forall k | k in positions ensures PaidOutIn(sid, series, settlement)(k, positions[k]) == a(k, positions[k]) + b(k, positions[k]) {
      OptionWeight(sid, series, settlement, unit, k, positions[k]);
    }
    TotalSum(positions, PaidOutIn(sid, series, settlement), a, b);
    TotalScale(positions, a, unit, Contracts(sid));
    TotalScale(positions, b, -1, Basis(sid));
  }

  lemma OptionWeight(sid: SeriesId, series: Series, settlement: SettlementInput, unit: nat, k: PosKey, p: Position)
    requires !FullCollateral(series) && GetUnitPayoff(series, None, settlement) == Ok(unit)
    ensures PaidOutIn(sid, series, settlement)(k, p) == unit * Contracts(sid)(k, p) - Basis(sid)(k, p)
  {
    if k.series == sid {
      assert GetSettlementValue(series, p.netQty, k.outcome, settlement) == Ok(Abs(p.netQty) * unit);
      assert Abs(p.netQty) * unit == unit * Abs(p.netQty);
    } else {
      assert unit * 0 == 0;
    }
  }

  // Settling a call or a put departs from the law unless its contracts, long and short together, are paid
  // exactly the cost basis they carry.
  lemma OptionSettlementIsNeutralIff(reg: Registry, s: State, step: Step, unit: nat)
    requires Frame(reg, s.core) && CachedKnown(reg, s.ops) && step.Settle? && Enabled(reg, s, step)
    requires Prepares(s, step.sid, step.settlement, step.keys, step.ids, step.now)
    requires !FullCollateral(s.ops.cached[step.sid]) && GetUnitPayoff(s.ops.cached[step.sid], None, step.settlement) == Ok(unit)
    ensures var p := s.core.positions;
      && Money(reg, After(reg, s, step)) == Money(reg, s) + unit * Total(p, Contracts(step.sid)) - Total(p, Basis(step.sid))
      && (Money(reg, After(reg, s, step)) == Money(reg, s)
          <==> unit * Total(p, Contracts(step.sid)) == Total(p, Basis(step.sid)))
  {
    SettleMoney(reg, s, step);
    OptionPaysOut(s.core.positions, step.sid, s.ops.cached[step.sid], step.settlement, unit);
    hide Money, After, Enabled, Frame, PrepareSettlement, GetUnitPayoff, Total, CachedKnown;
  }

  lemma SocialWeight(sid: SeriesId, series: Series, settlement: SettlementInput, k: PosKey, p: Position)
    requires FullCollateral(series) && series.domain == Social
    ensures PaidOutIn(sid, series, settlement)(k, p) == UNIT * ShortAll(sid)(k, p) - Basis(sid)(k, p)
  {
    if k.series == sid {
      assert GetUnitPayoff(series, k.outcome, settlement) == Ok(0);
      assert Abs(p.netQty) * 0 == 0;
      assert GetSettlementValue(series, p.netQty, k.outcome, settlement) == Ok(UNIT * Short(p.netQty));
    }
  }

  // A binary or categorical series of the Social domain has no payoff, and settling it pays every short a
  // unit all the same.
  lemma SocialPaysShorts(positions: map<PosKey, Position>, sid: SeriesId, series: Series, settlement: SettlementInput)
    requires FullCollateral(series) && series.domain == Social
    ensures Total(positions, PaidOutIn(sid, series, settlement))
         == UNIT * Total(positions, ShortAll(sid)) - Total(positions, Basis(sid))
  {
    var a := (k: PosKey, p: Position) => UNIT * ShortAll(sid)(k, p);
    var b := (k: PosKey, p: Position) => -1 * Basis(sid)(k, p);
    forall k | k in positions ensures PaidOutIn(sid, series, settlement)(k, positions[k]) == a(k, positions[k]) + b(k, positions[k]) {
      SocialWeight(sid, series, settlement, k, positions[k]);
    }
    TotalSum(positions, PaidOutIn(sid, series, settlement), a, b);
    TotalScale(positions, a, UNIT, ShortAll(sid));
    TotalScale(positions, b, -1, Basis(sid));
  }

  // ---------------------------------------------------------------- runs on which the law is exact

  // On fully collateralised series: trades within one unit, minting by holders short in nothing, and
  // settlement within the contract. On any other series, everything.
  ghost predicate Clean(reg: Registry, s: State, step: Step)
    requires Enabled(reg, s, step)
  {
    match step
    case Fill(_, _, seen, _, _, _) => Funded(reg[seen.series]) ==> CeilUsd(seen.price) <= UNIT
    case Matched(t, _) => Funded(reg[t.seriesId]) ==> CeilUsd(t.price) <= UNIT
    case Mint(caller, sid, _) => Funded(reg[sid]) ==> ShortInNone(s.core.positions, caller, sid, Declared(reg[sid]))
    case Settle(sid, settlement, _, _, _, _) =>
      sid in reg && Funded(reg[sid]) ==> SettlesCleanly(reg[sid], sid, s.core.positions, settlement)
    case _ => true
  }

  // What minting rounds up in the holder's disfavour.
  ghost function Dust(reg: Registry, s: State, step: Step): int
    requires Enabled(reg, s, step)
  {
    if step.Mint? && Funded(reg[step.sid]) && MintPasses(s, step.caller, reg[step.sid], step.qty)
    then step.qty * UNIT % |Declared(reg[step.sid])| else 0
  }

  // Redeeming pays no cash: it turns loose the cost basis it frees, and the units of the sets are gone.
  ghost function Retired(reg: Registry, s: State, step: Step): int
    requires Enabled(reg, s, step)
  {
    if step.Redeem? && Funded(reg[step.sid]) && RedeemPasses(s, step.caller, step.sid, reg[step.sid], step.qty)
    then SeqSum(Declared(reg[step.sid]), FreedAt(s.core.positions, step.caller, step.sid, step.qty))
         - if Declared(reg[step.sid]) == [] then 0 else step.qty * UNIT
    else 0
  }

  lemma RedeemDrifts(reg: Registry, s: State, step: Step)
    requires step.Redeem? && Enabled(reg, s, step) && OrdersExact(reg, s.core.orders) && InScope(reg, step)
    ensures Drift(reg, s, step) == Retired(reg, s, step)
  {
    hide FreedAt, Redeemed, CanRedeem, FullCollateral;
    var Redeem(caller, sid, qty) := step;
    if RedeemPasses(s, caller, sid, reg[sid], qty) && Funded(reg[sid]) && Declared(reg[sid]) != [] {
      OneSetIn(reg[sid], Declared(reg[sid]), qty);
    }
  }

  // Calls, puts and Social series are not backed unit by unit: the cash a trade realises there from the
  // positions held, and what a settlement pays there beyond their margins.
  ghost function Unbacked(reg: Registry, s: State, step: Step): int
    requires Enabled(reg, s, step) && OrdersExact(reg, s.core.orders)
  {
    match step
    case Fill(taker, id, seen, tradeId, requested, now) =>
      if !Funded(reg[seen.series]) && Fills(reg, s, taker, id, seen, tradeId, requested, now) then
        var o := s.core.orders[id];
        TradeDrift(reg[o.series], s.core, FillTrade(reg, o, taker, tradeId, FillQty(requested, o.qty)))
      else 0
    case Matched(t, now) =>
      if !Funded(reg[t.seriesId]) && Executes(s, reg[t.seriesId], t) then TradeDrift(reg[t.seriesId], s.core, t) else 0
    case Settle(sid, settlement, keys, ids, _, now) =>
      if Prepares(s, sid, settlement, keys, ids, now) && !Funded(s.ops.cached[sid])
      then PlanDrift(s.ops.cached[sid], sid, s.core.positions, settlement) else 0
    case _ => 0
  }

  lemma CleanFillDrift(reg: Registry, s: State, step: Step)
    requires Frame(reg, s.core) && step.Fill? && Enabled(reg, s, step) && Clean(reg, s, step)
    ensures Drift(reg, s, step) == Unbacked(reg, s, step)
  {
    hide TradeDrift, Executes, Funded, CeilUsd, GetRequiredMargin;
    var Fill(taker, id, seen, tradeId, requested, now) := step;
    if Fills(reg, s, taker, id, seen, tradeId, requested, now) {
      var o := s.core.orders[id];
      assert OrderExact(reg, o) && o.price == seen.price && o.series == seen.series;
      if Funded(reg[o.series]) { NoDriftIff(reg[o.series], s.core, FillTrade(reg, o, taker, tradeId, FillQty(requested, o.qty))); }
    }
  }

  lemma CleanSettleDrift(reg: Registry, s: State, step: Step)
    requires Frame(reg, s.core) && CachedKnown(reg, s.ops) && Balanced(reg, s.core.positions)
    requires step.Settle? && Enabled(reg, s, step) && Clean(reg, s, step)
    ensures Drift(reg, s, step) == Unbacked(reg, s, step)
  {
    hide Balanced, Frame, SettlesCleanly, PrepareSettlement, SurplusIn, PaidOutIn;
    var Settle(sid, settlement, keys, ids, _, now) := step;
    if Prepares(s, sid, settlement, keys, ids, now) && Funded(reg[sid]) {
      PreparedInputMatches(s, sid, reg[sid], settlement, keys, ids, now);
      if reg[sid].payoffType.Binary? <==> settlement.PriceInput? {
        SettlementIsNeutralIff(reg, s.core.positions, sid, settlement);
      } else {
        NoPositionsNoSurplus(s.core.positions, sid, reg[sid], settlement, keys);
      }
    }
  }

  lemma CleanMintDrift(reg: Registry, s: State, step: Step)
    requires step.Mint? && Enabled(reg, s, step) && OrdersExact(reg, s.core.orders) && Clean(reg, s, step)
    ensures Drift(reg, s, step) == Dust(reg, s, step)
  {
    hide BuysBack, ShortInNone, RawEquity, Granted;
    var Mint(caller, sid, qty) := step;
    if MintPasses(s, caller, reg[sid], qty) && Funded(reg[sid]) {
      BuysBackNothing(s.core.positions, caller, sid, Declared(reg[sid]), qty);
      DustIsRemainder(qty, |Declared(reg[sid])|);
    }
  }

  lemma CleanDrift(reg: Registry, s: State, step: Step)
    requires Frame(reg, s.core) && CachedKnown(reg, s.ops) && Balanced(reg, s.core.positions)
    requires Enabled(reg, s, step) && InScope(reg, step) && Clean(reg, s, step)
    ensures Drift(reg, s, step) == Dust(reg, s, step) + Unbacked(reg, s, step) + Retired(reg, s, step)
  {
    hide TradeDrift, Executes, CeilUsd, Prepares, Fills, BuysBack, ShortInNone, MintCompleteSet, RedeemCompleteSet;
    match step {
      case Fill(_, _, _, _, _, _) => CleanFillDrift(reg, s, step);
      case Matched(t, now) => if Funded(reg[t.seriesId]) { NoDriftIff(reg[t.seriesId], s.core, t); }
      case Mint(_, _, _) => CleanMintDrift(reg, s, step);
      case Redeem(_, _, _) => RedeemDrifts(reg, s, step);
      case Settle(_, _, _, _, _, _) => CleanSettleDrift(reg, s, step);
      case _ =>
    }
  }

  // A settlement input of the wrong kind only gets through when there is nothing to settle.
  lemma PreparedInputMatches(s: State, sid: SeriesId, series: Series, settlement: SettlementInput,
                             keys: seq<PosKey>, ids: seq<OrderId>, now: nat)
    requires Listings(s.core, sid, keys, ids) && Funded(series)
    requires PrepareSettlement(s, sid, series, settlement, keys, ids, now).result.Ok?
    ensures (series.payoffType.Binary? <==> settlement.PriceInput?) || keys == []
  {
    if keys != [] {
      LinesMatch(s.core.positions, s.market, series, keys, settlement);
      WrongInputFails(series, s.core.positions[keys[0]].netQty, keys[0].outcome, settlement);
    }
  }

  lemma WrongInputFails(series: Series, q: int, o: Option<OutcomeId>, settlement: SettlementInput)
    requires Funded(series)
    ensures GetSettlementValue(series, q, o, settlement).Ok? <==> (series.payoffType.Binary? <==> settlement.PriceInput?)
  {
  }

  lemma NoPositionsNoSurplus(positions: map<PosKey, Position>, sid: SeriesId, series: Series, settlement: SettlementInput, keys: seq<PosKey>)
    requires Lists(keys, KeysOfSeries(positions, sid)) && keys == []
    ensures Total(positions, SurplusIn(sid, series, settlement)) == 0
  {
    forall k | k in positions ensures SurplusIn(sid, series, settlement)(k, positions[k]) == 0 {
      assert k !in KeysOfSeries(positions, sid);
    }
    TotalOfZero(positions, SurplusIn(sid, series, settlement));
  }

  ghost predicate CleanRun(reg: Registry, s: State, steps: seq<Step>)
    requires ValidRun(reg, s, steps)
    decreases |steps|
  {
    steps == [] || (Clean(reg, s, steps[0]) && CleanRun(reg, After(reg, s, steps[0]), steps[1..]))
  }

  ghost function TotalDust(reg: Registry, s: State, steps: seq<Step>): int
    requires ValidRun(reg, s, steps)
    decreases |steps|
  {
    if steps == [] then 0 else Dust(reg, s, steps[0]) + TotalDust(reg, After(reg, s, steps[0]), steps[1..])
  }

  ghost function TotalRetired(reg: Registry, s: State, steps: seq<Step>): int
    requires ValidRun(reg, s, steps)
    decreases |steps|
  {
    if steps == [] then 0 else Retired(reg, s, steps[0]) + TotalRetired(reg, After(reg, s, steps[0]), steps[1..])
  }

  ghost function TotalUnbacked(reg: Registry, s: State, steps: seq<Step>): int
    requires Frame(reg, s.core) && CachedKnown(reg, s.ops) && ValidRun(reg, s, steps)
    decreases |steps|
  {
    if steps == [] then 0
    else
      StepFrame(reg, s, steps[0]);
      Unbacked(reg, s, steps[0]) + TotalUnbacked(reg, After(reg, s, steps[0]), steps[1..])
  }

  lemma {:induction false} CleanRunsConserve(reg: Registry, s: State, steps: seq<Step>)
    requires Frame(reg, s.core) && CachedKnown(reg, s.ops) && Balanced(reg, s.core.positions)
    requires ValidRun(reg, s, steps) && RunInScope(reg, steps) && CleanRun(reg, s, steps)
    ensures Money(reg, RunAll(reg, s, steps)) == Money(reg, s) + TotalDust(reg, s, steps) + TotalUnbacked(reg, s, steps) + TotalRetired(reg, s, steps)
    decreases |steps|
  {
    hide Money, Balanced, Frame, CachedKnown, After, Enabled, Clean, Drift, Dust, Unbacked, Retired;
    if steps == [] {
    } else {
      StepFrame(reg, s, steps[0]);
      StepMoney(reg, s, steps[0]);
      CleanDrift(reg, s, steps[0]);
      StepKeepsBalance(reg, s, steps[0]);
      CleanRunsConserve(reg, After(reg, s, steps[0]), steps[1..]);
    }
  }

  // No step of a run trades in or settles a call, a put or a Social series.
  ghost predicate AllFunded(reg: Registry, steps: seq<Step>) {
    forall i :: 0 <= i < |steps| ==>
      match steps[i]
      case Fill(_, _, seen, _, _, _) => seen.series in reg && Funded(reg[seen.series])
      case Matched(t, _) => t.seriesId in reg && Funded(reg[t.seriesId])
      case Settle(sid, _, _, _, _, _) => sid in reg && Funded(reg[sid])
      case _ => true
  }

  lemma FundedStepIsBacked(reg: Registry, s: State, step: Step)
    requires Frame(reg, s.core) && CachedKnown(reg, s.ops) && Enabled(reg, s, step) && AllFunded(reg, [step])
    ensures Unbacked(reg, s, step) == 0
  {
    hide Frame, Funded, Fills, Executes, PrepareSettlement, Listings;
    assert [step][0] == step;
  }

  lemma {:induction false} FundedRunsAreBacked(reg: Registry, s: State, steps: seq<Step>)
    requires Frame(reg, s.core) && CachedKnown(reg, s.ops) && ValidRun(reg, s, steps) && AllFunded(reg, steps)
    ensures TotalUnbacked(reg, s, steps) == 0
    decreases |steps|
  {
    hide After, Enabled, Frame, Funded, Unbacked, CachedKnown;
    if steps == [] {
    } else {
      StepFrame(reg, s, steps[0]);
      FundedStepIsBacked(reg, s, steps[0]);
      FundedRunsAreBacked(reg, After(reg, s, steps[0]), steps[1..]);
    }
  }

  predicate NoRedemption(steps: seq<Step>) { forall i :: 0 <= i < |steps| ==> !steps[i].Redeem? }

  lemma {:induction false} NothingRetired(reg: Registry, s: State, steps: seq<Step>)
    requires ValidRun(reg, s, steps) && NoRedemption(steps)
    ensures TotalRetired(reg, s, steps) == 0
    decreases |steps|
  {
    hide After, Enabled;
    if steps == [] {
    } else {
      NothingRetired(reg, After(reg, s, steps[0]), steps[1..]);
    }
  }

  // Nothing is open any more: no positions, and every plan applied to its end.
  ghost predicate AllSettled(c: Core) {
    c.positions == map[] && forall sid :: sid in c.plans ==> c.plans[sid].applied
  }

  ghost function CashInHand(s: State): int {
    Total(s.core.accounts, CashWeight()) + s.ops.treasury + s.ops.insurance
  }

  // The zero-sum law. From a start with nothing open to an end with nothing open, whatever was traded,
  // minted, redeemed and settled in between, cash and the two funds together changed by minting dust, by
  // what calls, puts and Social series realised and paid, and by what redemption freed beyond a unit for
  // each set: by dust alone where there was neither.
  lemma ZeroSum(reg: Registry, s: State, steps: seq<Step>)
    requires Frame(reg, s.core) && CachedKnown(reg, s.ops)
    requires ValidRun(reg, s, steps) && RunInScope(reg, steps) && CleanRun(reg, s, steps)
    requires AllSettled(s.core) && AllSettled(RunAll(reg, s, steps).core)
    ensures CashInHand(RunAll(reg, s, steps))
         == CashInHand(s) + TotalDust(reg, s, steps) + TotalUnbacked(reg, s, steps) + TotalRetired(reg, s, steps)
    ensures AllFunded(reg, steps) ==> TotalUnbacked(reg, s, steps) == 0
    ensures NoRedemption(steps) ==> TotalRetired(reg, s, steps) == 0
  {
    forall sid | sid in reg && Funded(reg[sid]) ensures SeriesBalanced(reg[sid], sid, s.core.positions) {
      forall f: Filter | f.sid == sid ensures Total(s.core.positions, Quantity(f)) == 0 {
      }
      EmptySeriesBalanced(reg[sid], sid, s.core.positions);
    }
    CleanRunsConserve(reg, s, steps);
    if AllFunded(reg, steps) { FundedRunsAreBacked(reg, s, steps); }
    if NoRedemption(steps) { NothingRetired(reg, s, steps); }
    RunKeepsFrame(reg, s, steps);
    SettledOwesNothing(reg, s);
    SettledOwesNothing(reg, RunAll(reg, s, steps));
  }

  lemma SettledOwesNothing(reg: Registry, s: State)
    requires Frame(reg, s.core) && AllSettled(s.core)
    ensures Money(reg, s) == CashInHand(s)
  {
    forall sid | sid in s.core.plans ensures Owed()(sid, s.core.plans[sid]) == 0 {
      var plan := s.core.plans[sid];
      assert PlanSound(reg, s.core, sid, plan);
      assert Pending(plan) == [];
    }
    TotalOfZero(s.core.plans, Owed());
    TotalOfZero(s.core.positions, Backing(reg));
  }
}
