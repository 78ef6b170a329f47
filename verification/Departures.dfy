// Where the code and the promises made for it part: one concrete case each, beside the exact condition
// proved of all inputs elsewhere or here.
module Departures {
  import opened Base
  import opened Payoffs
  import opened Types
  import opened Totals
  import opened Book
  import opened Clearing
  import opened Coverage
  import opened Rekey
  import opened Runs
  import opened CoverageRuns
  import opened SettlementCoverage
  import opened CoverageTheorem
  import opened Conservation
  import opened ConservationSettlement
  import opened ConservationTheorem
  import opened Balance
  import opened Drained
  import opened ClosedSeries
  import opened TradeMargin
  import Candles
  import OptionPayoffs
  import Reachable

  const SID := SeriesId(0)
  const YES := OutcomeId(1)
  const NO := OutcomeId(2)
  const ALICE := User(10)
  const BOB := User(11)

  const BINARY := Series(Binary, None, None, Settlement)
  const CATEGORICAL := Series(Categorical, None, Some([YES, NO]), Settlement)

  // ---------------------------------------------------------------- two funded traders and one series

  function Only(series: Series): Registry { map[SID := series] }

  function Funds(cash: int): Account { NEW_ACCOUNT.SetCash(Settlement, cash) }

  // Nothing is open yet, and cash is the only collateral.
  function TwoTraders(series: Series, alice: int, bob: int): State {
    State(Core(map[ALICE := Funds(alice), BOB := Funds(bob)], map[], map[], map[]),
          Ops(map[SID := series], map[], 0, 0), Log([], 0), Market(map[], map[], 0, 0))
  }

  lemma FundedIsSound(series: Series, alice: int, bob: int)
    ensures Reachable.Initial(Only(series), TwoTraders(series, alice, bob))
    ensures Inv(Only(series), TwoTraders(series, alice, bob)) && Frame(Only(series), TwoTraders(series, alice, bob).core)
  {
    EmptyIsCovered(Only(series), TwoTraders(series, alice, bob));
  }

  lemma Prices()
    ensures CeilUsd(Price(2, 0, 0)) == 2 * UNIT
    ensures forall p: nat :: CeilUsd(Price(p, 4, 0)) == p
  {
    assert Pow10(1) == 10 * Pow10(0);
    assert Pow10(2) == 100 && Pow10(3) == 1000;
    assert Pow10(4) == 10_000;
  }

  lemma OneUnit()
    ensures CeilUsd(Price(1, 0, 0)) == UNIT
  {
    assert Pow10(1) == 10 && Pow10(2) == 100 && Pow10(3) == 1000 && Pow10(4) == 10_000;
  }

  lemma CashIsEquity(s: State, u: User, d: Domain)
    requires AccountOf(s.core.accounts, u).balances == map[]
    ensures RawEquity(s, u, d) == AccountOf(s.core.accounts, u).GetCash(d)
  {
  }

  // A trade with known legs, both of which pass the check.
  lemma Goes(s: State, series: Series, t: TradeParams, b: Leg, l: Leg)
    requires t.tradeId !in s.ops.executed && t.buyer != t.seller
    requires BuyerLeg(s.core, series, t) == Ok(b) && SellerLeg(s.core, series, t) == Ok(l)
    requires RawEquity(s, t.buyer, series.domain) >= Adjusted(AccountOf(s.core.accounts, t.buyer).GetReserved(series.domain), b.reservedDelta)
    requires RawEquity(s, t.seller, series.domain) >= Adjusted(AccountOf(s.core.accounts, t.seller).GetReserved(series.domain), l.reservedDelta)
    ensures Executes(s, series, t)
    ensures ExecuteTrade(s, series, t, 0).state == Recorded(s.(core := Traded(s.core, series.domain, t, b, l)), t, 0)
  {
    hide BuyerLeg, SellerLeg, Adjusted, RawEquity;
    ExecutesIff(s, series, t, 0);
  }

  // Neither side held anything before the trade, and each now has its margin reserved.
  ghost predicate FirstTraded(s: State, t: TradeParams, mb: nat, ms: nat, s': State) {
    && s'.core.positions == map[KeyOf(t, t.buyer) := Position(t.qty, mb), KeyOf(t, t.seller) := Position(-t.qty, ms)]
    && s'.core.orders == s.core.orders && s'.core.plans == s.core.plans && s'.market == s.market
    && s'.ops.executed == s.ops.executed[t.tradeId := s.log.next]
    && AccountOf(s'.core.accounts, t.buyer) == AccountOf(s.core.accounts, t.buyer).SetReserved(Settlement, mb)
    && AccountOf(s'.core.accounts, t.seller) == AccountOf(s.core.accounts, t.seller).SetReserved(Settlement, ms)
  }

  // A principal with nothing but cash, and enough of it.
  predicate Flush(a: Account, cash: int) {
    a.balances == map[] && a.reserved == map[] && a.GetCash(Settlement) >= cash && (Settlement in a.cash ==> a.cash[Settlement] != 0)
  }

  lemma Reserving(a: Account, cash: int, reserve: nat)
    requires Flush(a, cash)
    ensures ApplyLeg(a, Settlement, Leg(0, reserve, reserve)) == a.SetReserved(Settlement, reserve)
    ensures Adjusted(a.GetReserved(Settlement), reserve) == reserve
  {
    assert a.SetCash(Settlement, a.GetCash(Settlement)) == a;
  }

  lemma FirstLegs(c: Core, series: Series, t: TradeParams, mb: nat, ms: nat)
    requires c.positions == map[] && t.buyerUnblock == 0 && t.sellerUnblock == 0
    requires GetRequiredMargin(series, t.price, t.qty) == Ok(mb) && GetRequiredMargin(series, t.price, -t.qty) == Ok(ms)
    requires GetRequiredMargin(series, t.price, 0) == Ok(0)
    ensures BuyerLeg(c, series, t) == Ok(Leg(0, mb, mb)) && SellerLeg(c, series, t) == Ok(Leg(0, ms, ms))
  {
    hide GetRequiredMargin;
  }

  lemma FirstTradeGoes(s: State, series: Series, t: TradeParams, mb: nat, ms: nat)
    requires t.tradeId !in s.ops.executed && t.buyer != t.seller && series.domain == Settlement
    requires s.core.positions == map[] && t.buyerUnblock == 0 && t.sellerUnblock == 0
    requires GetRequiredMargin(series, t.price, t.qty) == Ok(mb) && GetRequiredMargin(series, t.price, -t.qty) == Ok(ms)
    requires GetRequiredMargin(series, t.price, 0) == Ok(0)
    requires Flush(AccountOf(s.core.accounts, t.buyer), mb) && Flush(AccountOf(s.core.accounts, t.seller), ms)
    ensures Executes(s, series, t)
    ensures FirstTraded(s, t, mb, ms, ExecuteTrade(s, series, t, 0).state)
  {
    hide GetRequiredMargin, BuyerLeg, SellerLeg, ApplyLeg, Adjusted, ExecuteTrade, Executes;
    FirstLegs(s.core, series, t, mb, ms);
    Reserving(AccountOf(s.core.accounts, t.buyer), mb, mb);
    Reserving(AccountOf(s.core.accounts, t.seller), ms, ms);
    CashIsEquity(s, t.buyer, Settlement);
    CashIsEquity(s, t.seller, Settlement);
    Goes(s, series, t, Leg(0, mb, mb), Leg(0, ms, ms));
    assert KeyOf(t, t.buyer) != KeyOf(t, t.seller);
  }

  lemma TwoSteps(reg: Registry, s: State, a: Step, b: Step)
    requires Enabled(reg, s, a) && Enabled(reg, After(reg, s, a), b)
    ensures ValidRun(reg, s, [a, b])
    ensures RunAll(reg, s, [a, b]) == After(reg, After(reg, s, a), b)
  {
    hide Enabled, After;
    var s1 := After(reg, s, a);
    assert [a, b][1..] == [b] && [b][1..] == [];
    assert ValidRun(reg, s1, [b]) && RunAll(reg, s1, [b]) == After(reg, s1, b);
  }

  // ---------------------------------------------------------------- overpriced asks

  const ASK := OrderParams(OrderId(0), SID, None, Sell, 1, Price(2, 0, 0))

  const RESTING_ASK := LimitOrder(ALICE, SID, None, Sell, 1, Price(2, 0, 0), 0, Settlement)

  lemma AskRests(s: State)
    requires s == TwoTraders(BINARY, 30_000, 30_000)
    ensures PlaceLimitOrder(s, ALICE, BINARY, ASK).result.Ok?
    ensures PlaceLimitOrder(s, ALICE, BINARY, ASK).state == s.(core := s.core.(orders := map[OrderId(0) := RESTING_ASK]))
  {
    Prices();
    CashIsEquity(s, ALICE, Settlement);
    assert GetRequiredMargin(BINARY, Price(2, 0, 0), -1) == Ok(0);
    assert s.core.accounts[ALICE := Funds(30_000)] == s.core.accounts;
  }

  const ASK_FILL := TradeParams(TradeId(0), SID, None, BOB, ALICE, 1, Price(2, 0, 0), 0, 0)

  lemma AskIsExact()
    ensures OrderExact(Only(BINARY), RESTING_ASK)
    ensures FillTrade(Only(BINARY), RESTING_ASK, BOB, TradeId(0), 1) == ASK_FILL
  {
    Prices();
    assert GetRequiredMargin(BINARY, Price(2, 0, 0), -1) == Ok(0);
  }

  lemma AskTrades(s: State)
    requires s.core.accounts == map[ALICE := Funds(30_000), BOB := Funds(30_000)] && s.core.positions == map[] && s.ops.executed == map[]
    ensures Executes(s, BINARY, ASK_FILL)
  {
    Prices();
    hide CeilUsd;
    var p := Price(2, 0, 0);
    assert GetRequiredMargin(BINARY, p, -1) == Ok(0) && GetRequiredMargin(BINARY, p, 1) == Ok(20_000) && GetRequiredMargin(BINARY, p, 0) == Ok(0);
    hide GetRequiredMargin, Executes, FirstTraded, ExecuteTrade;
    FirstTradeGoes(s, BINARY, ASK_FILL, 20_000, 0);
  }

  lemma AskFills(s: State)
    requires s.core.accounts == map[ALICE := Funds(30_000), BOB := Funds(30_000)] && s.core.positions == map[] && s.ops.executed == map[]
    requires s.core.orders == map[OrderId(0) := RESTING_ASK]
    ensures OrdersExact(Only(BINARY), s.core.orders)
    ensures Fills(Only(BINARY), s, BOB, OrderId(0), RESTING_ASK, TradeId(0), None, 0)
  {
    AskIsExact();
    AskTrades(s);
    hide Executes, OrderExact, FillTrade;
  }

  // Asks have no price cap: an ask at two units rests on an empty book, and filling it takes one unit
  // off the books. Balance.TradeIsNeutralIff has the condition.
  lemma OverpricedAsk()
    ensures var reg, s := Only(BINARY), TwoTraders(BINARY, 30_000, 30_000);
      var steps := [Limit(ALICE, ASK), Fill(BOB, OrderId(0), RESTING_ASK, TradeId(0), None, 0)];
      Inv(reg, s) && ValidRun(reg, s, steps) && Money(reg, RunAll(reg, s, steps)) == Money(reg, s) - UNIT
  {
    var reg, s := Only(BINARY), TwoTraders(BINARY, 30_000, 30_000);
    var a, b := Limit(ALICE, ASK), Fill(BOB, OrderId(0), RESTING_ASK, TradeId(0), None, 0);
    FundedIsSound(BINARY, 30_000, 30_000);
    AskRests(s);
    var s1 := After(reg, s, a);
    TwoSteps(reg, s, a, b);
    StepFrame(reg, s, a);
    LimitMoney(reg, s, ALICE, ASK);
    FillMoney(reg, s1, b);
    AskFills(s1);
    AskIsExact();
    hide PlaceLimitOrder, FillOrder, Money, Frame, Inv, Fills, OrderExact, OrdersExact, FillTrade;
    Prices();
    assert Opens(s1.core, ASK_FILL) == 1;
  }

  // ---------------------------------------------------------------- minting over a short position

  const SOLD := TradeParams(TradeId(0), SID, Some(YES), BOB, ALICE, 1, Price(5000, 4, 0), 0, 0)

  lemma SaleGoes(s: State)
    requires s == TwoTraders(CATEGORICAL, 30_000, 30_000)
    ensures Executes(s, CATEGORICAL, SOLD)
    ensures FirstTraded(s, SOLD, 5000, 5000, ExecuteTrade(s, CATEGORICAL, SOLD, 0).state)
  {
    Prices();
    hide CeilUsd;
    var p := SOLD.price;
    assert GetRequiredMargin(CATEGORICAL, p, 1) == Ok(5000) && GetRequiredMargin(CATEGORICAL, p, 0) == Ok(0) && GetRequiredMargin(CATEGORICAL, p, -1) == Ok(5000);
    hide GetRequiredMargin, Executes, FirstTraded, ExecuteTrade;
    FirstTradeGoes(s, CATEGORICAL, SOLD, 5000, 5000);
  }

  lemma MintBuysBack(positions: map<PosKey, Position>)
    requires positions == map[SetKey(BOB, SID, YES) := Position(1, 5000), SetKey(ALICE, SID, YES) := Position(-1, 5000)]
    ensures SeqSum([YES, NO], BuysBack(positions, ALICE, SID, 1)) == 1
  {
    var w := BuysBack(positions, ALICE, SID, 1);
    assert [YES, NO][1..] == [NO] && [NO][1..] == [];
    assert w(YES) == 1 && w(NO) == 0;
    assert SeqSum([NO], w) == 0;
    assert SeqSum([YES, NO], w) == w([YES, NO][0]) + SeqSum([YES, NO][1..], w);
  }

  lemma MintGoes(s: State)
    requires AccountOf(s.core.accounts, ALICE) == Funds(30_000).SetReserved(Settlement, 5000)
    requires s.core.positions == map[SetKey(BOB, SID, YES) := Position(1, 5000), SetKey(ALICE, SID, YES) := Position(-1, 5000)]
    ensures MintCompleteSet(s, ALICE, SID, CATEGORICAL, 1).result.Ok? && MintPasses(s, ALICE, CATEGORICAL, 1)
    ensures MintDust(1, 2) == 0 && SeqSum([YES, NO], BuysBack(s.core.positions, ALICE, SID, 1)) == 1
  {
    CashIsEquity(s, ALICE, Settlement);
    MintBuysBack(s.core.positions);
    hide RawEquity, BuysBack, Granted;
  }

  lemma SaleThenMint(reg: Registry, s: State)
    requires reg == Only(CATEGORICAL) && s == TwoTraders(CATEGORICAL, 30_000, 30_000)
    ensures var s1 := ExecuteTrade(s, CATEGORICAL, SOLD, 0).state;
      Money(reg, MintCompleteSet(s1, ALICE, SID, CATEGORICAL, 1).state) == Money(reg, s) - UNIT
  {
    hide ExecuteTrade, Money, Executes, RawEquity, BuysBack, MintCompleteSet;
    SaleGoes(s);
    var s1 := ExecuteTrade(s, CATEGORICAL, SOLD, 0).state;
    assert AccountOf(s.core.accounts, ALICE) == Funds(30_000);
    TradeMoney(reg, s, SOLD, 0);
    assert TradeDrift(CATEGORICAL, s.core, SOLD) == 0 by { Prices(); }
    MintGoes(s1);
    assert Declared(CATEGORICAL) == [YES, NO] && Funded(CATEGORICAL);
    hide TradeDrift, FirstTraded, Funded;
    assert OrdersExact(reg, s1.core.orders);
    MintMoney(reg, s1, Mint(ALICE, SID, 1));
  }

  lemma TradeThenMint(reg: Registry, s: State, t: TradeParams, u: User, sid: SeriesId, qty: int)
    requires t.seriesId in reg && t.qty > 0 && t.price.value > 0 && sid in reg
    ensures ValidRun(reg, s, [Matched(t, 0), Mint(u, sid, qty)])
    ensures RunAll(reg, s, [Matched(t, 0), Mint(u, sid, qty)])
         == MintCompleteSet(ExecuteTrade(s, reg[t.seriesId], t, 0).state, u, sid, reg[sid], qty).state
  {
    hide ExecuteTrade, MintCompleteSet;
    assert Enabled(reg, s, Matched(t, 0)) && Enabled(reg, After(reg, s, Matched(t, 0)), Mint(u, sid, qty));
    TwoSteps(reg, s, Matched(t, 0), Mint(u, sid, qty));
    hide ValidRun, RunAll;
  }

  // A trader who sold one contract short and then mints one set buys that contract back, and its unit
  // leaves the books. Conservation.BuysBackNothing has the condition.
  lemma MintOverShort()
    ensures var reg, s := Only(CATEGORICAL), TwoTraders(CATEGORICAL, 30_000, 30_000);
      var steps := [Matched(SOLD, 0), Mint(ALICE, SID, 1)];
      Inv(reg, s) && ValidRun(reg, s, steps) && Money(reg, RunAll(reg, s, steps)) == Money(reg, s) - UNIT
  {
    FundedIsSound(CATEGORICAL, 30_000, 30_000);
    SaleThenMint(Only(CATEGORICAL), TwoTraders(CATEGORICAL, 30_000, 30_000));
    hide Inv, Money, TwoTraders, ExecuteTrade, MintCompleteSet;
    TradeThenMint(Only(CATEGORICAL), TwoTraders(CATEGORICAL, 30_000, 30_000), SOLD, ALICE, SID, 1);
    hide ValidRun, RunAll;
  }

  // ---------------------------------------------------------------- an undeclared outcome

  const HELD_YES := SetKey(ALICE, SID, YES)
  const HELD_NO := SetKey(ALICE, SID, NO)
  const NEITHER := OutcomeInput(OutcomeId(3))

  lemma SetMinted(s: State)
    requires s == TwoTraders(CATEGORICAL, 30_000, 30_000)
    ensures var s1 := MintCompleteSet(s, ALICE, SID, CATEGORICAL, 1).state;
      && MintCompleteSet(s, ALICE, SID, CATEGORICAL, 1).result.Ok?
      && s1.core.positions == map[HELD_YES := Position(1, 5000), HELD_NO := Position(1, 5000)]
      && s1.core.orders == map[] && s1.core.plans == map[] && s1.ops == s.ops && s1.market == s.market
  {
    CashIsEquity(s, ALICE, Settlement);
    assert FloorDiv(1 * UNIT, 2) == 5000;
    assert [YES, NO][1..] == [NO] && [NO][1..] == [];
    var none: map<PosKey, Position> := map[];
    assert Granted(none[HELD_YES := Position(1, 5000)], ALICE, SID, [NO], 1, 5000)
        == none[HELD_YES := Position(1, 5000)][HELD_NO := Position(1, 5000)];
    assert Granted(none, ALICE, SID, [YES, NO], 1, 5000) == Granted(none[HELD_YES := Position(1, 5000)], ALICE, SID, [YES, NO][1..], 1, 5000);
  }

  lemma LosesItsMargin(k: PosKey, o: OutcomeId, iBps: nat, pBps: nat)
    requires k == SetKey(ALICE, SID, o) && o != OutcomeId(3)
    ensures LineOf(CATEGORICAL, k, Position(1, 5000), NEITHER, iBps, pBps)
         == Ok(Line(0, 0, 0, SettlementPosition(ALICE, Some(o), 1, 5000, -5000)))
  {
    NoFeeOfNothing(iBps);
    NoFeeOfNothing(pBps);
    assert GetSettlementValue(CATEGORICAL, 1, Some(o), NEITHER) == Ok(0);
  }

  lemma TwoLines(positions: map<PosKey, Position>, m: Market)
    requires positions == map[HELD_YES := Position(1, 5000), HELD_NO := Position(1, 5000)]
    ensures LinesOf(positions, m, CATEGORICAL, [HELD_YES, HELD_NO], NEITHER).Ok?
    ensures Outflows(LinesOf(positions, m, CATEGORICAL, [HELD_YES, HELD_NO], NEITHER).value) == 0
    ensures |LinesOf(positions, m, CATEGORICAL, [HELD_YES, HELD_NO], NEITHER).value| == 2
  {
    var line := Line(0, 0, 0, SettlementPosition(ALICE, Some(YES), 1, 5000, -5000));
    var line' := Line(0, 0, 0, SettlementPosition(ALICE, Some(NO), 1, 5000, -5000));
    LosesItsMargin(HELD_YES, YES, m.insuranceBps, m.protocolBps);
    LosesItsMargin(HELD_NO, NO, m.insuranceBps, m.protocolBps);
    hide LineOf;
    assert [HELD_YES, HELD_NO][..1] == [HELD_YES] && [HELD_YES][..0] == [];
    assert [] + [line] == [line] && [line] + [line'] == [line, line'];
    assert LinesOf(positions, m, CATEGORICAL, [], NEITHER) == Ok([]);
    assert LinesOf(positions, m, CATEGORICAL, [HELD_YES], NEITHER) == Ok([line]);
    assert LinesOf(positions, m, CATEGORICAL, [HELD_YES, HELD_NO], NEITHER) == Ok([line, line']);
    assert [line, line'][..1] == [line] && [line][..0] == [];
    assert Outflows([line]) == 0 && Outflows([line, line']) == 0;
  }

  lemma NobodyIsPaid(s: State)
    requires s.core.positions == map[HELD_YES := Position(1, 5000), HELD_NO := Position(1, 5000)]
    requires s.core.orders == map[] && s.core.plans == map[] && SID in s.ops.cached && s.ops.cached[SID] == CATEGORICAL
    ensures Listings(s.core, SID, [HELD_YES, HELD_NO], [])
    ensures Prepares(s, SID, NEITHER, [HELD_YES, HELD_NO], [], 0)
    ensures |OpenedPlan(s, SID, NEITHER, [HELD_YES, HELD_NO], [], 0).positions| == 2
  {
    var keys := [HELD_YES, HELD_NO];
    assert HELD_YES in keys && HELD_NO in keys;
    TwoLines(s.core.positions, s.market);
    hide LinesOf;
    var entries := Entries(LinesOf(s.core.positions, s.market, CATEGORICAL, keys, NEITHER).value);
    var w := PostEquity(Settlement, entries, s.market.configs, s.market.metrics);
    forall u | u in s.core.accounts ensures w(u, s.core.accounts[u]) >= 0 {
      assert w(u, s.core.accounts[u]) == Max(0, s.core.accounts[u].RawEquity(Settlement, s.market.configs, s.market.metrics) + CashflowOf(entries, u));
    }
    TotalNonNegative(s.core.accounts, w);
  }

  lemma NoFeeOfNothing(bps: nat)
    ensures SettlementFee(0, bps) == 0
  {
    assert 0 * bps == 0;
  }

  lemma SetLosesItsUnit()
    ensures Total(map[HELD_YES := Position(1, 5000), HELD_NO := Position(1, 5000)], SurplusIn(SID, CATEGORICAL, NEITHER)) == -UNIT
  {
    var p := Position(1, 5000);
    var none: map<PosKey, Position> := map[];
    var w := SurplusIn(SID, CATEGORICAL, NEITHER);
    TotalPutTwo(none, HELD_YES, p, HELD_NO, p, w);
    assert none[HELD_YES := p][HELD_NO := p] == map[HELD_YES := p, HELD_NO := p];
    assert w(HELD_YES, p) == -UNIT && w(HELD_NO, p) == 0;
  }

  // One set is minted and its series is resolved, in one call, to an outcome the contract never declared:
  // nothing is open at the end, and one unit of all the cash there was is gone.
  // Balance.SettlementIsNeutralIff has the condition.
  lemma UndeclaredOutcome()
    ensures var reg, s := Only(CATEGORICAL), TwoTraders(CATEGORICAL, 30_000, 30_000);
      var steps := [Mint(ALICE, SID, 1), Settle(SID, NEITHER, [HELD_YES, HELD_NO], [], {}, 0)];
      && Inv(reg, s) && ValidRun(reg, s, steps) && AllSettled(s.core) && AllSettled(RunAll(reg, s, steps).core)
      && CashInHand(RunAll(reg, s, steps)) == CashInHand(s) - UNIT
  {
    var reg, s := Only(CATEGORICAL), TwoTraders(CATEGORICAL, 30_000, 30_000);
    var keys := [HELD_YES, HELD_NO];
    var a, b := Mint(ALICE, SID, 1), Settle(SID, NEITHER, keys, [], {}, 0);
    FundedIsSound(CATEGORICAL, 30_000, 30_000);
    SetMinted(s);
    var s1 := After(reg, s, a);
    NobodyIsPaid(s1);
    TwoSteps(reg, s, a, b);
    StepFrame(reg, s, a);
    MintMoney(reg, s, a);
    SettleMoney(reg, s1, b);
    StepFrame(reg, s1, b);
    SettledAtOnce(s1);
    SettledOwesNothing(reg, s);
    SettledOwesNothing(reg, After(reg, s1, b));
    hide MintCompleteSet, SettleSeries, Money, Frame, Inv, Prepares, Listings, SurplusIn, RunAll, ValidRun, CashInHand, AllSettled, BuysBack;
    assert MintDust(1, 2) == 0;
    BuysNothing(s);
    SetLosesItsUnit();
  }

  lemma BuysNothing(s: State)
    requires s.core.positions == map[]
    ensures SeqSum([YES, NO], BuysBack(s.core.positions, ALICE, SID, 1)) == 0
  {
    BuysBackNothing(s.core.positions, ALICE, SID, [YES, NO], 1);
  }

  lemma SettledAtOnce(s: State)
    requires s.core.positions == map[HELD_YES := Position(1, 5000), HELD_NO := Position(1, 5000)]
    requires s.core.orders == map[] && s.core.plans == map[] && SID in s.ops.cached && s.ops.cached[SID] == CATEGORICAL
    requires Listings(s.core, SID, [HELD_YES, HELD_NO], []) && Prepares(s, SID, NEITHER, [HELD_YES, HELD_NO], [], 0)
    requires |OpenedPlan(s, SID, NEITHER, [HELD_YES, HELD_NO], [], 0).positions| == 2
    ensures AllSettled(SettleSeries(s, SID, NEITHER, [HELD_YES, HELD_NO], [], {}, 0).state.core)
  {
    var keys := [HELD_YES, HELD_NO];
    SettleShape(s, SID, NEITHER, keys, [], {}, 0);
    var plan := OpenedPlan(s, SID, NEITHER, keys, [], 0);
    assert ChunkEnd(1, 2, {}) == 2 && ChunkEnd(0, 2, {}) == 2;
    assert EndFor(plan, {}) == 2;
    assert HELD_YES in SetOf(keys) && HELD_NO in SetOf(keys);
    assert s.core.positions - SetOf(keys) == map[];
    hide SettleSeries, LinesOf, Prepares, EntryEvents, ApplyEntries;
  }

  // ---------------------------------------------------------------- a realised loss

  const FIRST_BUY := TradeParams(TradeId(0), SID, None, ALICE, BOB, 1, Price(9000, 4, 0), 0, 0)
  const SECOND_BUY := TradeParams(TradeId(1), SID, None, ALICE, BOB, 1, Price(1000, 4, 0), 0, 0)

  lemma FirstBuyGoes(s: State)
    requires s == TwoTraders(BINARY, 9000, 30_000)
    ensures Executes(s, BINARY, FIRST_BUY)
    ensures FirstTraded(s, FIRST_BUY, 9000, 1000, ExecuteTrade(s, BINARY, FIRST_BUY, 0).state)
  {
    Prices();
    hide CeilUsd;
    var p := FIRST_BUY.price;
    assert GetRequiredMargin(BINARY, p, 1) == Ok(9000) && GetRequiredMargin(BINARY, p, 0) == Ok(0) && GetRequiredMargin(BINARY, p, -1) == Ok(1000);
    hide GetRequiredMargin, Executes, FirstTraded, ExecuteTrade;
    FirstTradeGoes(s, BINARY, FIRST_BUY, 9000, 1000);
  }

  lemma SecondBuyGoes(s: State)
    requires s.core.positions == map[KeyOf(FIRST_BUY, ALICE) := Position(1, 9000), KeyOf(FIRST_BUY, BOB) := Position(-1, 1000)]
    requires AccountOf(s.core.accounts, ALICE) == Funds(9000).SetReserved(Settlement, 9000)
    requires AccountOf(s.core.accounts, BOB) == Funds(30_000).SetReserved(Settlement, 1000)
    requires TradeId(1) !in s.ops.executed
    ensures Executes(s, BINARY, SECOND_BUY)
    ensures var s2 := ExecuteTrade(s, BINARY, SECOND_BUY, 0).state;
      AccountOf(s2.core.accounts, ALICE) == Funds(1000).SetReserved(Settlement, 2000)
  {
    Prices();
    CashIsEquity(s, ALICE, Settlement);
    CashIsEquity(s, BOB, Settlement);
    var p := SECOND_BUY.price;
    assert GetRequiredMargin(BINARY, p, 2) == Ok(2000) && GetRequiredMargin(BINARY, p, 1) == Ok(1000);
    assert GetRequiredMargin(BINARY, p, -2) == Ok(18_000) && GetRequiredMargin(BINARY, p, -1) == Ok(9000);
    Goes(s, BINARY, SECOND_BUY, Leg(8000, -7000, 2000), Leg(-8000, 17_000, 18_000));
  }

  lemma BothBuysGo(s: State)
    requires s == TwoTraders(BINARY, 9000, 30_000)
    ensures var s1 := ExecuteTrade(s, BINARY, FIRST_BUY, 0).state;
      var s2 := ExecuteTrade(s1, BINARY, SECOND_BUY, 0).state;
      && Executes(s, BINARY, FIRST_BUY) && Executes(s1, BINARY, SECOND_BUY)
      && RawEquity(s2, ALICE, Settlement) == 1000 && ReservedOf(s2, ALICE, Settlement) == 2000
  {
    hide ExecuteTrade, Executes, RawEquity, GetRequiredMargin;
    FirstBuyGoes(s);
    var s1 := ExecuteTrade(s, BINARY, FIRST_BUY, 0).state;
    assert AccountOf(s.core.accounts, ALICE) == Funds(9000) && AccountOf(s.core.accounts, BOB) == Funds(30_000);
    SecondBuyGoes(s1);
    CashIsEquity(ExecuteTrade(s1, BINARY, SECOND_BUY, 0).state, ALICE, Settlement);
  }

  lemma TwoTrades(reg: Registry, s: State, t: TradeParams, t': TradeParams)
    requires t.seriesId in reg && t.qty > 0 && t.price.value > 0 && t'.seriesId in reg && t'.qty > 0 && t'.price.value > 0
    ensures ValidRun(reg, s, [Matched(t, 0), Matched(t', 0)])
    ensures RunAll(reg, s, [Matched(t, 0), Matched(t', 0)])
         == ExecuteTrade(ExecuteTrade(s, reg[t.seriesId], t, 0).state, reg[t'.seriesId], t', 0).state
  {
    hide ExecuteTrade;
    assert Enabled(reg, s, Matched(t, 0)) && Enabled(reg, After(reg, s, Matched(t, 0)), Matched(t', 0));
    TwoSteps(reg, s, Matched(t, 0), Matched(t', 0));
    hide ValidRun, RunAll;
  }

  // A trader with 9000 in cash buys one contract at 9000 and another at 1000. The check of the second
  // trade sees 9000 against 2000; the trade leaves 1000 against 2000 reserved.
  // TradeMargin.CoveredAfterIff has the condition.
  lemma RealisedLossUncovered()
    ensures var reg, s := Only(BINARY), TwoTraders(BINARY, 9000, 30_000);
      var steps := [Matched(FIRST_BUY, 0), Matched(SECOND_BUY, 0)];
      && Inv(reg, s) && ValidRun(reg, s, steps)
      && RawEquity(RunAll(reg, s, steps), ALICE, Settlement) == 1000
      && ReservedOf(RunAll(reg, s, steps), ALICE, Settlement) == 2000
  {
    var reg, s := Only(BINARY), TwoTraders(BINARY, 9000, 30_000);
    FundedIsSound(BINARY, 9000, 30_000);
    BothBuysGo(s);
    hide ExecuteTrade, Inv, Executes, RawEquity, ReservedOf, TwoTraders;
    TwoTrades(reg, s, FIRST_BUY, SECOND_BUY);
    hide ValidRun, RunAll;
  }

  // ---------------------------------------------------------------- orders and accounts left behind

  const BID := OrderParams(OrderId(0), SID, None, Buy, 1, Price(5000, 4, 0))

  const RESTING_BID := LimitOrder(ALICE, SID, None, Buy, 1, Price(5000, 4, 0), 5000, Settlement)

  lemma BidRests(s: State, reserved: nat)
    requires AccountOf(s.core.accounts, ALICE) == Funds(30_000).SetReserved(Settlement, reserved) && reserved <= 5000
    ensures var r := PlaceLimitOrder(s, ALICE, BINARY, BID);
      && r.result.Ok? && r.state.core.orders == s.core.orders[OrderId(0) := RESTING_BID]
      && AccountOf(r.state.core.accounts, ALICE) == Funds(30_000).SetReserved(Settlement, reserved + 5000)
      && r.state.core.positions == s.core.positions && r.state.core.plans == s.core.plans
  {
    Prices();
    CashIsEquity(s, ALICE, Settlement);
    assert GetRequiredMargin(BINARY, BID.price, 1) == Ok(5000);
  }

  // Two bids that were suspended under one id are placed one over the other. Once the second is
  // cancelled nothing is open, and what the first had blocked is still reserved: Runs.Gain has the
  // amount of every such step.
  lemma ReplacedOrder()
    ensures var reg, s := Only(BINARY), TwoTraders(BINARY, 30_000, 30_000);
      var steps := [Limit(ALICE, BID), Limit(ALICE, BID)];
      && Inv(reg, s) && ValidRun(reg, s, steps)
      && var c := CancelLimitOrder(RunAll(reg, s, steps), ALICE, OrderId(0)).state.core;
         && c.orders == map[] && c.positions == map[] && c.plans == map[]
         && AccountOf(c.accounts, ALICE).GetReserved(Settlement) == 5000 && Slack(reg, c, ALICE, Settlement) == 5000
  {
    var reg, s := Only(BINARY), TwoTraders(BINARY, 30_000, 30_000);
    FundedIsSound(BINARY, 30_000, 30_000);
    assert Funds(30_000).SetReserved(Settlement, 0) == Funds(30_000);
    BidRests(s, 0);
    var s1 := After(reg, s, Limit(ALICE, BID));
    BidRests(s1, 5000);
    TwoSteps(reg, s, Limit(ALICE, BID), Limit(ALICE, BID));
    hide PlaceLimitOrder, Inv;
  }

  // What a refusal leaves behind when it leaves anything.
  ghost function WithShell(s: State, caller: User): State { s.(core := s.core.(accounts := s.core.accounts[caller := NEW_ACCOUNT])) }

  // A limit order turned away leaves a trace exactly when all it lacked was margin and its caller had no
  // account: an empty one, and nothing else.
  lemma RefusedOrderOpensAccountIff(s: State, caller: User, series: Series, p: OrderParams)
    ensures var r, d := PlaceLimitOrder(s, caller, series, p), series.domain;
      var margin := GetRequiredMargin(series, p.price, Signed(p.side, p.qty));
      && (r.result.Err? && r.state != s <==>
            NoArbitrage(s.core.orders, p.seriesId, series, p.side, p.outcome, p.price).Ok? && margin.Ok?
            && Max(0, RawEquity(s, caller, d)) < AccountOf(s.core.accounts, caller).GetReserved(d) + margin.value
            && caller !in s.core.accounts)
      && (r.result.Err? && r.state != s ==> r.state == WithShell(s, caller))
  {
    hide NoArbitrage, GetRequiredMargin, RawEquity;
    OpenedIffAbsent(s.core, caller);
  }

  lemma OpenedIffAbsent(c: Core, u: User)
    ensures Opened(c, u) != c <==> u !in c.accounts
  {
    if u in c.accounts { assert c.accounts[u := c.accounts[u]] == c.accounts; }
  }

  // So does a mint that is for a positive number of sets of a categorical contract with outcomes declared.
  lemma RefusedMintOpensAccountIff(s: State, caller: User, sid: SeriesId, series: Series, qty: int)
    ensures var r, d := MintCompleteSet(s, caller, sid, series, qty), series.domain;
      && (r.result.Err? && r.state != s <==>
            qty > 0 && series.payoffType.Categorical? && series.outcomes.Some? && caller !in s.core.accounts
            && RawEquity(s, caller, d) < AccountOf(s.core.accounts, caller).GetReserved(d) + qty * UNIT)
      && (r.result.Err? && r.state != s ==> r.state == WithShell(s, caller))
  {
    hide RawEquity, Granted;
    OpenedIffAbsent(s.core, caller);
  }

  // A principal without funds who bids is turned away and has an account from then on.
  lemma RefusedOrder()
    ensures var s, carol := TwoTraders(BINARY, 30_000, 30_000), User(12);
      var r := PlaceLimitOrder(s, carol, BINARY, BID);
      r.result.Err? && carol !in s.core.accounts && carol in r.state.core.accounts && r.state.core.accounts[carol] == NEW_ACCOUNT
  {
    var s, carol := TwoTraders(BINARY, 30_000, 30_000), User(12);
    Prices();
    CashIsEquity(s, carol, Settlement);
    assert GetRequiredMargin(BINARY, BID.price, 1) == Ok(5000);
  }

  // Settling a call or a put pays a short position what it pays a long one of the same size: two
  // opposite positions in the money are both paid, so no zero-sum law can hold of them.
  lemma OptionShortsArePaid(series: Series, q: int, settlement: SettlementInput, unit: nat)
    requires !FullCollateral(series) && q > 0
    requires GetUnitPayoff(series, None, settlement) == Ok(unit)
    ensures GetSettlementValue(series, -q, None, settlement) == GetSettlementValue(series, q, None, settlement) == Ok(q * unit)
    ensures unit > 0 ==> q * unit + q * unit > 0
  {
    assert Abs(-q) == q == Abs(q);
  }

  const CALL_AT_HALF := Series(Call, Some(Price(5, 1, 0)), None, Settlement)
  const PUT_AT_HALF := Series(Put, Some(Price(5, 1, 0)), None, Settlement)

  // A strike of one half is nothing to a price without decimals: at a price of one the call pays one unit,
  // and half a unit when the same price is given with a decimal; at nothing the put pays nothing, or half.
  lemma TruncatedStrike()
    ensures OptionPayoffs.UnitAt(CALL_AT_HALF, Price(1, 0, 0)) == UNIT && OptionPayoffs.UnitAt(CALL_AT_HALF, Price(10, 1, 0)) == UNIT / 2
    ensures OptionPayoffs.UnitAt(PUT_AT_HALF, Price(0, 0, 0)) == 0 && OptionPayoffs.UnitAt(PUT_AT_HALF, Price(0, 1, 0)) == UNIT / 2
  {
    assert Pow10(0) == 1 && Pow10(1) == 10 && Pow10(2) == 100 && Pow10(3) == 1000 && Pow10(4) == 10_000;
  }

  // ---------------------------------------------------------------- a late order

  const AT_ONE := PriceInput(Price(1, 0, 0))

  const LATE_ASK := OrderParams(OrderId(0), SID, None, Sell, 1, Price(1, 0, 0))

  lemma NothingToSettle(s: State)
    requires s.core.positions == map[] && s.core.orders == map[] && s.core.plans == map[] && SID in s.ops.cached
    ensures Listings(s.core, SID, [], []) && PlansInRange(s.core.plans)
    ensures var s1 := SettleSeries(s, SID, AT_ONE, [], [], {}, 0).state;
      && s1.core.accounts == s.core.accounts && s1.core.positions == map[] && s1.core.orders == map[] && s1.market == s.market
      && SID in s1.core.plans && s1.core.plans[SID].status.Finalised?
  {
    var series, m := s.ops.cached[SID], s.market;
    assert LinesOf(s.core.positions, m, series, [], AT_ONE) == Ok([]);
    var w := PostEquity(series.domain, Entries([]), m.configs, m.metrics);
    forall u | u in s.core.accounts ensures w(u, s.core.accounts[u]) >= 0 {
      assert w(u, s.core.accounts[u]) == Max(0, s.core.accounts[u].RawEquity(series.domain, m.configs, m.metrics) + CashflowOf(Entries([]), u));
    }
    TotalNonNegative(s.core.accounts, w);
    assert Prepares(s, SID, AT_ONE, [], [], 0);
    SettleShape(s, SID, AT_ONE, [], [], {}, 0);
    hide SettleSeries, LinesOf, PostEquityTotal, Prepares;
    assert ApplyEntries(ReleaseAll(s.core.accounts, s.core.orders, []), series.domain, [], 0, 0) == s.core.accounts;
  }

  lemma LateAskRests(s: State)
    requires AccountOf(s.core.accounts, ALICE) == Funds(30_000)
    ensures PlaceLimitOrder(s, ALICE, BINARY, LATE_ASK).result.Ok?
    ensures var s1 := PlaceLimitOrder(s, ALICE, BINARY, LATE_ASK).state;
      OrderId(0) in s1.core.orders && s1.core.orders[OrderId(0)].series == SID && s1.core.plans == s.core.plans
  {
    OneUnit();
    assert GetRequiredMargin(BINARY, Price(1, 0, 0), -1) == Ok(0);
    CashIsEquity(s, ALICE, Settlement);
    hide RawEquity, GetRequiredMargin, CeilUsd;
  }

  // An order that was suspended while its series was settled is placed all the same: the settle call leaves
  // a finalised plan and a closed book, and the order rests on it. ClosedSeries.ClosedIff has the condition.
  lemma LateOrder()
    ensures var reg, s := Only(BINARY), TwoTraders(BINARY, 30_000, 30_000);
      var steps, late := [Cache(SID), Settle(SID, AT_ONE, [], [], {}, 0)], Limit(ALICE, LATE_ASK);
      && Inv(reg, s) && ValidRun(reg, s, steps)
      && var s2 := RunAll(reg, s, steps);
         && SID in s2.core.plans && s2.core.plans[SID].status.Finalised? && Closed(s2.core)
         && Enabled(reg, s2, late) && !Closed(After(reg, s2, late).core)
         && OrderId(0) in After(reg, s2, late).core.orders
  {
    var reg, s := Only(BINARY), TwoTraders(BINARY, 30_000, 30_000);
    FundedIsSound(BINARY, 30_000, 30_000);
    NothingToSettle(s);
    assert AccountOf(s.core.accounts, ALICE) == Funds(30_000);
    CacheThenSettle(reg, s);
    hide SettleSeries, PlaceLimitOrder, Inv, TwoTraders, Listings;
    var s2 := SettleSeries(s, SID, AT_ONE, [], [], {}, 0).state;
    LateAskRests(s2);
    ThenAsk(reg, s2);
    hide ValidRun, RunAll, After, Enabled;
  }

  lemma CacheThenSettle(reg: Registry, s: State)
    requires reg == Only(BINARY) && s == TwoTraders(BINARY, 30_000, 30_000)
    requires PlansInRange(s.core.plans) && Listings(s.core, SID, [], [])
    ensures ValidRun(reg, s, [Cache(SID), Settle(SID, AT_ONE, [], [], {}, 0)])
    ensures RunAll(reg, s, [Cache(SID), Settle(SID, AT_ONE, [], [], {}, 0)]) == SettleSeries(s, SID, AT_ONE, [], [], {}, 0).state
  {
    hide SettleSeries, Listings;
    var a, b := Cache(SID), Settle(SID, AT_ONE, [], [], {}, 0);
    assert s.ops.cached[SID := BINARY] == s.ops.cached;
    assert Enabled(reg, s, a) && After(reg, s, a) == s;
    TwoSteps(reg, s, a, b);
    hide ValidRun, RunAll;
  }

  lemma ThenAsk(reg: Registry, s: State)
    requires reg == Only(BINARY)
    ensures Enabled(reg, s, Limit(ALICE, LATE_ASK))
    ensures After(reg, s, Limit(ALICE, LATE_ASK)) == PlaceLimitOrder(s, ALICE, BINARY, LATE_ASK).state
  {
    hide PlaceLimitOrder;
  }

  // ---------------------------------------------------------------- calls pay both sides

  const CALL := Series(Call, Some(Price(1000, 4, 0)), None, Settlement)
  const CALL_SOLD := TradeParams(TradeId(0), SID, None, BOB, ALICE, 1, Price(5000, 4, 0), 0, 0)
  const IN_THE_MONEY := PriceInput(Price(9000, 4, 0))
  const LONG_CALL := PosKey(BOB, SID, None)
  const SHORT_CALL := PosKey(ALICE, SID, None)

  lemma CallMargins()
    ensures GetRequiredMargin(CALL, CALL_SOLD.price, 1) == Ok(5000) && GetRequiredMargin(CALL, CALL_SOLD.price, -1) == Ok(5000)
    ensures GetRequiredMargin(CALL, CALL_SOLD.price, 0) == Ok(0)
  {
    Prices();
    hide CeilUsd;
  }

  lemma CallGoes(s: State)
    requires s == TwoTraders(CALL, 30_000, 30_000)
    ensures Executes(s, CALL, CALL_SOLD)
    ensures FirstTraded(s, CALL_SOLD, 5000, 5000, ExecuteTrade(s, CALL, CALL_SOLD, 0).state)
  {
    CallMargins();
    hide GetRequiredMargin, Executes, FirstTraded, ExecuteTrade;
    FirstTradeGoes(s, CALL, CALL_SOLD, 5000, 5000);
  }

  lemma CallDrifts(s: State)
    requires s == TwoTraders(CALL, 30_000, 30_000)
    ensures TradeDrift(CALL, s.core, CALL_SOLD) == 0
  {
    CallMargins();
    hide GetRequiredMargin;
  }

  lemma InTheMoney()
    ensures GetUnitPayoff(CALL, None, IN_THE_MONEY) == Ok(8000)
  {
    assert Pow10(0) == 1;
  }

  lemma CallLine(u: User, q: int)
    requires q == 1 || q == -1
    ensures LineOf(CALL, PosKey(u, SID, None), Position(q, 5000), IN_THE_MONEY, 0, 0)
         == Ok(Line(8000, 0, 0, SettlementPosition(u, None, q, 5000, 3000)))
  {
    InTheMoney();
    hide GetUnitPayoff;
    assert GetSettlementValue(CALL, q, None, IN_THE_MONEY) == Ok(8000);
    assert SettlementFee(8000, 0) == 0;
  }

  lemma CallLines(positions: map<PosKey, Position>, m: Market)
    requires positions == map[LONG_CALL := Position(1, 5000), SHORT_CALL := Position(-1, 5000)] && m.insuranceBps == 0 && m.protocolBps == 0
    ensures LinesOf(positions, m, CALL, [LONG_CALL, SHORT_CALL], IN_THE_MONEY).Ok?
    ensures var lines := LinesOf(positions, m, CALL, [LONG_CALL, SHORT_CALL], IN_THE_MONEY).value;
      |lines| == 2 && Outflows(lines) == 6000 && CashflowOf(Entries(lines), ALICE) == 3000
  {
    var a := Line(8000, 0, 0, SettlementPosition(BOB, None, 1, 5000, 3000));
    var b := Line(8000, 0, 0, SettlementPosition(ALICE, None, -1, 5000, 3000));
    CallLine(BOB, 1);
    CallLine(ALICE, -1);
    hide LineOf;
    assert [LONG_CALL, SHORT_CALL][..1] == [LONG_CALL] && [LONG_CALL][..0] == [];
    assert [] + [a] == [a] && [a] + [b] == [a, b];
    assert LinesOf(positions, m, CALL, [], IN_THE_MONEY) == Ok([]);
    assert LinesOf(positions, m, CALL, [LONG_CALL], IN_THE_MONEY) == Ok([a]);
    assert LinesOf(positions, m, CALL, [LONG_CALL, SHORT_CALL], IN_THE_MONEY) == Ok([a, b]);
    assert [a, b][..1] == [a] && [a][..0] == [];
    assert Outflows([a][..0]) == 0 && Outflows([a]) == 3000;
    assert Outflows([a, b]) == Outflows([a, b][..1]) + 3000;
    var e := Entries([a, b]);
    assert e[..1] == [a.entry] && [a.entry][..0] == [];
    assert CashflowOf([a.entry], ALICE) == 0;
  }

  lemma CallPrepares(s: State)
    requires s.core.positions == map[LONG_CALL := Position(1, 5000), SHORT_CALL := Position(-1, 5000)]
    requires s.core.orders == map[] && s.core.plans == map[] && SID in s.ops.cached && s.ops.cached[SID] == CALL
    requires s.market == Market(map[], map[], 0, 0)
    requires ALICE in s.core.accounts && s.core.accounts[ALICE] == Funds(30_000).SetReserved(Settlement, 5000)
    ensures Listings(s.core, SID, [LONG_CALL, SHORT_CALL], [])
    ensures Prepares(s, SID, IN_THE_MONEY, [LONG_CALL, SHORT_CALL], [], 0)
    ensures |OpenedPlan(s, SID, IN_THE_MONEY, [LONG_CALL, SHORT_CALL], [], 0).positions| == 2
  {
    var keys := [LONG_CALL, SHORT_CALL];
    assert LONG_CALL in keys && SHORT_CALL in keys;
    CallLines(s.core.positions, s.market);
    hide LinesOf, CashflowOf;
    var entries := Entries(LinesOf(s.core.positions, s.market, CALL, keys, IN_THE_MONEY).value);
    var w := PostEquity(Settlement, entries, map[], map[]);
    forall u | u in s.core.accounts ensures w(u, s.core.accounts[u]) >= 0 {
      assert w(u, s.core.accounts[u]) == Max(0, s.core.accounts[u].RawEquity(Settlement, map[], map[]) + CashflowOf(entries, u));
    }
    assert w(ALICE, s.core.accounts[ALICE]) == 33_000 by { CashIsEquity(s, ALICE, Settlement); }
    TotalNonNegative(s.core.accounts, w);
  }

  lemma CallSettles(s: State)
    requires s.core.positions == map[LONG_CALL := Position(1, 5000), SHORT_CALL := Position(-1, 5000)]
    requires s.core.orders == map[] && s.core.plans == map[]
    requires Listings(s.core, SID, [LONG_CALL, SHORT_CALL], []) && Prepares(s, SID, IN_THE_MONEY, [LONG_CALL, SHORT_CALL], [], 0)
    requires |OpenedPlan(s, SID, IN_THE_MONEY, [LONG_CALL, SHORT_CALL], [], 0).positions| == 2
    ensures AllSettled(SettleSeries(s, SID, IN_THE_MONEY, [LONG_CALL, SHORT_CALL], [], {}, 0).state.core)
  {
    var keys := [LONG_CALL, SHORT_CALL];
    SettleShape(s, SID, IN_THE_MONEY, keys, [], {}, 0);
    var plan := OpenedPlan(s, SID, IN_THE_MONEY, keys, [], 0);
    assert ChunkEnd(1, 2, {}) == 2 && ChunkEnd(0, 2, {}) == 2;
    assert EndFor(plan, {}) == 2;
    assert LONG_CALL in SetOf(keys) && SHORT_CALL in SetOf(keys);
    assert s.core.positions - SetOf(keys) == map[];
    hide SettleSeries, LinesOf, Prepares, EntryEvents, ApplyEntries;
  }

  lemma OfTheSeries(k: PosKey, q: int, m: nat)
    requires k.series == SID
    ensures Contracts(SID)(k, Position(q, m)) == Abs(q) && Basis(SID)(k, Position(q, m)) == m
  {
  }

  lemma CallCounts(positions: map<PosKey, Position>)
    requires positions == map[LONG_CALL := Position(1, 5000), SHORT_CALL := Position(-1, 5000)]
    ensures Total(positions, Contracts(SID)) == 2 && Total(positions, Basis(SID)) == 10_000
  {
    var none: map<PosKey, Position> := map[];
    assert none[LONG_CALL := Position(1, 5000)][SHORT_CALL := Position(-1, 5000)] == positions;
    OfTheSeries(LONG_CALL, 1, 5000);
    OfTheSeries(SHORT_CALL, -1, 5000);
    hide Contracts, Basis;
    TotalPutTwo(none, LONG_CALL, Position(1, 5000), SHORT_CALL, Position(-1, 5000), Contracts(SID));
    TotalPutTwo(none, LONG_CALL, Position(1, 5000), SHORT_CALL, Position(-1, 5000), Basis(SID));
  }

  // A call is sold at 0.50 and settled 0.80 in the money: both sides are paid, and with nothing left open
  // there is 0.60 more cash than at first. Balance.OptionSettlementIsNeutralIff has the condition.
  lemma OptionsPayBoth()
    ensures var reg, s := Only(CALL), TwoTraders(CALL, 30_000, 30_000);
      var steps := [Matched(CALL_SOLD, 0), Settle(SID, IN_THE_MONEY, [LONG_CALL, SHORT_CALL], [], {}, 0)];
      && Inv(reg, s) && ValidRun(reg, s, steps) && AllSettled(s.core) && AllSettled(RunAll(reg, s, steps).core)
      && CashInHand(RunAll(reg, s, steps)) == CashInHand(s) + 6000
  {
    var reg, s := Only(CALL), TwoTraders(CALL, 30_000, 30_000);
    var a, b := Matched(CALL_SOLD, 0), Settle(SID, IN_THE_MONEY, [LONG_CALL, SHORT_CALL], [], {}, 0);
    FundedIsSound(CALL, 30_000, 30_000);
    StepFrame(reg, s, a);
    CallMoney(reg, s);
    CallEnds(reg, s);
    hide ExecuteTrade, SettleSeries, Money, Frame, Inv, AllSettled, CashInHand, Listings;
    TwoSteps(reg, s, a, b);
    StepFrame(reg, After(reg, s, a), b);
    SettledOwesNothing(reg, s) by { assert AllSettled(s.core) by { NothingOpen(s); } }
    SettledOwesNothing(reg, After(reg, After(reg, s, a), b));
    NothingOpen(s);
    hide RunAll, ValidRun, After;
  }

  lemma NothingOpen(s: State)
    requires s.core.positions == map[] && s.core.plans == map[]
    ensures AllSettled(s.core)
  {
  }

  lemma CallEnds(reg: Registry, s: State)
    requires reg == Only(CALL) && s == TwoTraders(CALL, 30_000, 30_000)
    ensures var s1 := ExecuteTrade(s, CALL, CALL_SOLD, 0).state;
      && PlansInRange(s1.core.plans) && Listings(s1.core, SID, [LONG_CALL, SHORT_CALL], [])
      && AllSettled(SettleSeries(s1, SID, IN_THE_MONEY, [LONG_CALL, SHORT_CALL], [], {}, 0).state.core)
  {
    CallTraded(s);
    var s1 := ExecuteTrade(s, CALL, CALL_SOLD, 0).state;
    hide ExecuteTrade, SettleSeries, AllSettled, Listings, Prepares;
    CallPrepares(s1);
    CallSettles(s1);
  }

  lemma CallTraded(s: State)
    requires s == TwoTraders(CALL, 30_000, 30_000)
    ensures var s1 := ExecuteTrade(s, CALL, CALL_SOLD, 0).state;
      && s1.core.positions == map[LONG_CALL := Position(1, 5000), SHORT_CALL := Position(-1, 5000)]
      && s1.core.orders == map[] && s1.core.plans == map[] && s1.market == s.market
      && s1.ops.cached == s.ops.cached
      && ALICE in s1.core.accounts && s1.core.accounts[ALICE] == Funds(30_000).SetReserved(Settlement, 5000)
  {
    CallGoes(s);
    assert AccountOf(s.core.accounts, ALICE) == Funds(30_000);
    var s1 := ExecuteTrade(s, CALL, CALL_SOLD, 0).state;
    assert ALICE in s1.core.accounts && s1.ops.cached == s.ops.cached by { TradeOpens(s, CALL, CALL_SOLD); }
    hide ExecuteTrade, Executes;
  }

  lemma TradeOpens(s: State, series: Series, t: TradeParams)
    requires Executes(s, series, t)
    ensures var s1 := ExecuteTrade(s, series, t, 0).state;
      t.buyer in s1.core.accounts && t.seller in s1.core.accounts && s1.ops.cached == s.ops.cached
  {
    hide BuyerLeg, SellerLeg, Insufficient;
  }

  lemma CallSettleMoney(reg: Registry, s: State)
    requires Frame(reg, s.core) && CachedKnown(reg, s.ops) && SID in s.ops.cached && s.ops.cached[SID] == CALL
    requires s.core.positions == map[LONG_CALL := Position(1, 5000), SHORT_CALL := Position(-1, 5000)]
    requires PlansInRange(s.core.plans) && Listings(s.core, SID, [LONG_CALL, SHORT_CALL], [])
    requires Prepares(s, SID, IN_THE_MONEY, [LONG_CALL, SHORT_CALL], [], 0)
    ensures Money(reg, SettleSeries(s, SID, IN_THE_MONEY, [LONG_CALL, SHORT_CALL], [], {}, 0).state) == Money(reg, s) + 6000
  {
    CallCounts(s.core.positions);
    InTheMoney();
    assert !FullCollateral(CALL);
    var step := Settle(SID, IN_THE_MONEY, [LONG_CALL, SHORT_CALL], [], {}, 0);
    assert Enabled(reg, s, step) && After(reg, s, step) == SettleSeries(s, SID, IN_THE_MONEY, [LONG_CALL, SHORT_CALL], [], {}, 0).state;
    hide Enabled, After, Contracts, Basis, Money, SettleSeries, Listings, Prepares, GetUnitPayoff, Frame, CachedKnown, Total;
    OptionSettlementIsNeutralIff(reg, s, step, 8000);
  }

  lemma CallMoney(reg: Registry, s: State)
    requires reg == Only(CALL) && s == TwoTraders(CALL, 30_000, 30_000)
    ensures var s1 := ExecuteTrade(s, CALL, CALL_SOLD, 0).state;
      && PlansInRange(s1.core.plans) && Listings(s1.core, SID, [LONG_CALL, SHORT_CALL], [])
      && Money(reg, SettleSeries(s1, SID, IN_THE_MONEY, [LONG_CALL, SHORT_CALL], [], {}, 0).state) == Money(reg, s) + 6000
  {
    hide ExecuteTrade, Money, SettleSeries, Listings, Prepares, Executes, TradeDrift, FirstTraded, Frame, CachedKnown;
    CallGoes(s);
    CallDrifts(s);
    CallTraded(s);
    var s1 := ExecuteTrade(s, CALL, CALL_SOLD, 0).state;
    TradeMoney(reg, s, CALL_SOLD, 0);
    CallPrepares(s1);
    TradeIsFramed(reg, s);
    CallSettleMoney(reg, s1);
  }

  lemma TradeIsFramed(reg: Registry, s: State)
    requires reg == Only(CALL) && s == TwoTraders(CALL, 30_000, 30_000)
    ensures var s1 := ExecuteTrade(s, CALL, CALL_SOLD, 0).state; Frame(reg, s1.core) && CachedKnown(reg, s1.ops)
  {
    FundedIsSound(CALL, 30_000, 30_000);
    StepFrame(reg, s, Matched(CALL_SOLD, 0));
    hide ExecuteTrade, Frame, CachedKnown;
  }

  // Two trades in one hour, at 5 and at 0.40: the candle's high is 0.40. Candles.PrecisionDecides has the
  // condition.
  lemma FalseHigh()
    ensures var five, forty := Price(5, 0, 0), Price(40, 2, 0);
      var candles := Candles.Naive(Candles.Hour, [Candles.Point(0, five, 1, 0), Candles.Point(1, forty, 1, 0)]);
      && |candles| == 1 && candles[0].high == forty && candles[0].low == five
      && Candles.AtMost(forty, five) && !Candles.AtMost(five, forty)
  {
    var a, b := Candles.Point(0, Price(5, 0, 0), 1, 0), Candles.Point(1, Price(40, 2, 0), 1, 0);
    assert [a, b][..1] == [a] && [a][..0] == [];
    assert Candles.Naive(Candles.Hour, [a]) == [Candles.Opened(Candles.Hour, a)];
    assert Pow10(0) == 1 && Pow10(1) == 10 && Pow10(2) == 100;
  }

  // ---------------------------------------------------------------- redeeming over a repeated outcome

  const TWICE := Series(Categorical, None, Some([YES, YES]), Settlement)
  const TWICE_BID := OrderParams(OrderId(0), SID, Some(YES), Buy, 1, Price(5000, 4, 0))
  const RESTING_TWICE := LimitOrder(ALICE, SID, Some(YES), Buy, 1, Price(5000, 4, 0), 5000, Settlement)

  lemma FourMinted(s: State)
    requires s == TwoTraders(TWICE, 60_000, 30_000)
    ensures var r := MintCompleteSet(s, ALICE, SID, TWICE, 4);
      && r.result.Ok? && r.state.core.positions == map[HELD_YES := Position(8, 40_000)]
      && r.state.core.orders == map[] && r.state.core.plans == map[] && r.state.market == s.market
      && AccountOf(r.state.core.accounts, ALICE) == Funds(60_000).SetReserved(Settlement, 40_000)
  {
    CashIsEquity(s, ALICE, Settlement);
    assert FloorDiv(4 * UNIT, 2) == 20_000;
    var none: map<PosKey, Position> := map[];
    var once := none[HELD_YES := Position(4, 20_000)];
    assert [YES, YES][1..] == [YES] && [YES][1..] == [];
    assert Granted(once, ALICE, SID, [YES], 4, 20_000) == once[HELD_YES := Position(8, 40_000)];
    assert Granted(none, ALICE, SID, [YES, YES], 4, 20_000) == Granted(once, ALICE, SID, [YES, YES][1..], 4, 20_000);
  }

  lemma BidWithin()
    ensures NoArbitrage(map[], SID, TWICE, Buy, Some(YES), Price(5000, 4, 0)).Ok?
  {
    Prices();
    var w := BidsWith(map[], SID, Some(YES), 5000);
    var none: map<OutcomeId, ()> := map[];
    assert Distinct([YES, YES]) == none[YES := ()];
    TotalPut(none, YES, (), w);
    assert w(YES, ()) == 5000;
  }

  lemma TwiceBidRests(s: State)
    requires s.core.orders == map[] && AccountOf(s.core.accounts, ALICE) == Funds(60_000).SetReserved(Settlement, 40_000)
    ensures var r := PlaceLimitOrder(s, ALICE, TWICE, TWICE_BID);
      && r.result.Ok? && r.state.core.orders == map[OrderId(0) := RESTING_TWICE]
      && r.state.core.positions == s.core.positions && r.state.core.plans == s.core.plans
      && ALICE in r.state.core.accounts && r.state.core.accounts[ALICE] == Funds(60_000).SetReserved(Settlement, 45_000)
  {
    BidWithin();
    Prices();
    CashIsEquity(s, ALICE, Settlement);
    hide CeilUsd, NoArbitrage, RawEquity;
    assert GetRequiredMargin(TWICE, TWICE_BID.price, 1) == Ok(5000);
  }

  // Two passes over the one position free 25000 each, where only 40000 carry it.
  lemma FiveRedeemed(s: State)
    requires s.core.positions == map[HELD_YES := Position(8, 40_000)]
    requires ALICE in s.core.accounts && s.core.accounts[ALICE] == Funds(60_000).SetReserved(Settlement, 45_000)
    ensures var r := RedeemCompleteSet(s, ALICE, SID, TWICE, 5);
      && r.result.Ok? && r.state.core.positions == map[HELD_YES := Position(-2, 0)]
      && r.state.core.orders == s.core.orders && r.state.core.plans == s.core.plans
      && AccountOf(r.state.core.accounts, ALICE).GetReserved(Settlement) == 0
  {
    assert Freed(Position(8, 40_000), 5) == 25_000 && Freed(Position(3, 15_000), 5) == 25_000;
    hide Freed;
    var c1 := RedeemOne(s.core, ALICE, Settlement, HELD_YES, 5);
    assert c1.positions == map[HELD_YES := Position(3, 15_000)] && c1.accounts[ALICE].GetReserved(Settlement) == 20_000;
    var c2 := RedeemOne(c1, ALICE, Settlement, HELD_YES, 5);
    assert c2.positions == map[HELD_YES := Position(-2, 0)] && c2.accounts[ALICE].GetReserved(Settlement) == 0;
    assert [YES, YES][1..] == [YES] && [YES][1..] == [];
    assert Redeemed(c2, ALICE, Settlement, SID, [], 5) == Some(c2);
    assert Redeemed(c1, ALICE, Settlement, SID, [YES], 5) == Some(c2);
    assert Redeemed(s.core, ALICE, Settlement, SID, [YES, YES], 5) == Some(c2);
  }

  lemma NothingLeftToCover(reg: Registry, c: Core)
    requires reg == Only(TWICE) && c.positions == map[HELD_YES := Position(-2, 0)] && c.plans == map[]
    requires c.orders == map[OrderId(0) := RESTING_TWICE] && AccountOf(c.accounts, ALICE).GetReserved(Settlement) == 0
    ensures Slack(reg, c, ALICE, Settlement) == -5000
  {
    var none: map<PosKey, Position> := map[];
    var orders: map<OrderId, LimitOrder> := map[];
    TotalPut(none, HELD_YES, Position(-2, 0), PositionMargin(reg, ALICE, Settlement));
    assert none[HELD_YES := Position(-2, 0)] == c.positions;
    TotalPut(orders, OrderId(0), RESTING_TWICE, OrderMargin(ALICE, Settlement));
    assert orders[OrderId(0) := RESTING_TWICE] == c.orders;
  }

  lemma TwiceCovered(reg: Registry, s: State)
    requires reg == Only(TWICE) && s == TwoTraders(TWICE, 60_000, 30_000)
    ensures var s1 := MintCompleteSet(s, ALICE, SID, TWICE, 4).state;
      Inv(reg, s) && Inv(reg, PlaceLimitOrder(s1, ALICE, TWICE, TWICE_BID).state)
  {
    FundedIsSound(TWICE, 60_000, 30_000);
    hide MintCompleteSet, PlaceLimitOrder, Inv, TwoTraders;
    StepKeepsInv(reg, s, Mint(ALICE, SID, 4));
    StepKeepsInv(reg, MintCompleteSet(s, ALICE, SID, TWICE, 4).state, Limit(ALICE, TWICE_BID));
  }

  lemma TwiceBroken(reg: Registry, s: State)
    requires reg == Only(TWICE) && s == TwoTraders(TWICE, 60_000, 30_000)
    ensures var s1 := MintCompleteSet(s, ALICE, SID, TWICE, 4).state;
      var s2 := PlaceLimitOrder(s1, ALICE, TWICE, TWICE_BID).state;
      Slack(reg, RedeemCompleteSet(s2, ALICE, SID, TWICE, 5).state.core, ALICE, Settlement) == -5000
  {
    FourMinted(s);
    hide MintCompleteSet, PlaceLimitOrder, RedeemCompleteSet, Slack;
    var s1 := MintCompleteSet(s, ALICE, SID, TWICE, 4).state;
    TwiceBidRests(s1);
    var s2 := PlaceLimitOrder(s1, ALICE, TWICE, TWICE_BID).state;
    FiveRedeemed(s2);
    NothingLeftToCover(reg, RedeemCompleteSet(s2, ALICE, SID, TWICE, 5).state.core);
  }

  lemma MintThenBid(reg: Registry, s: State)
    requires reg == Only(TWICE)
    ensures ValidRun(reg, s, [Mint(ALICE, SID, 4), Limit(ALICE, TWICE_BID)])
    ensures RunAll(reg, s, [Mint(ALICE, SID, 4), Limit(ALICE, TWICE_BID)])
         == PlaceLimitOrder(MintCompleteSet(s, ALICE, SID, TWICE, 4).state, ALICE, TWICE, TWICE_BID).state
  {
    hide MintCompleteSet, PlaceLimitOrder;
    var a, b := Mint(ALICE, SID, 4), Limit(ALICE, TWICE_BID);
    assert Enabled(reg, s, a) && Enabled(reg, After(reg, s, a), b);
    TwoSteps(reg, s, a, b);
    hide ValidRun, RunAll;
  }

  lemma ThenRedeem(reg: Registry, s: State)
    requires reg == Only(TWICE)
    ensures Enabled(reg, s, Redeem(ALICE, SID, 5))
    ensures After(reg, s, Redeem(ALICE, SID, 5)) == RedeemCompleteSet(s, ALICE, SID, TWICE, 5).state
  {
    hide RedeemCompleteSet;
  }

  // On a contract that declares its outcome twice a trader mints four sets, bids, and redeems five: the run
  // starts and stays covered up to the redemption, which leaves the bid's 5000 without cover.
  lemma RedeemedTwice()
    ensures var reg, s := Only(TWICE), TwoTraders(TWICE, 60_000, 30_000);
      var steps, last := [Mint(ALICE, SID, 4), Limit(ALICE, TWICE_BID)], Redeem(ALICE, SID, 5);
      && Inv(reg, s) && ValidRun(reg, s, steps)
      && var s2 := RunAll(reg, s, steps);
         Inv(reg, s2) && Enabled(reg, s2, last) && Slack(reg, After(reg, s2, last).core, ALICE, Settlement) == -5000
  {
    var reg, s := Only(TWICE), TwoTraders(TWICE, 60_000, 30_000);
    TwiceCovered(reg, s);
    TwiceBroken(reg, s);
    hide MintCompleteSet, PlaceLimitOrder, RedeemCompleteSet, Slack, Inv, TwoTraders;
    MintThenBid(reg, s);
    ThenRedeem(reg, RunAll(reg, s, [Mint(ALICE, SID, 4), Limit(ALICE, TWICE_BID)]));
    hide ValidRun, RunAll, After, Enabled;
  }

  function Unnamed(sid: SeriesId): PosKey { PosKey(ALICE, sid, None) }

  // A holder of three contracts of o at a basis of three, whose reserved margin covers one more.
  ghost function Holder(d: Domain, sid: SeriesId, o: OutcomeId, outcomes: seq<OutcomeId>): Core {
    Core(map[ALICE := NEW_ACCOUNT.SetReserved(d, 4)],
         (map x | x in outcomes :: SetKey(ALICE, sid, x) := if x == o then Position(3, 3) else Position(2 * |outcomes| + 3, 0))
         [Unnamed(sid) := Position(0, 1)],
         map[], map[])
  }

  // Where such a holder stands once o has come up k times: never at a quantity of zero, and from the
  // second time on with nothing reserved.
  ghost predicate Redeeming(d: Domain, sid: SeriesId, c: Core, o: OutcomeId, left: seq<OutcomeId>, k: nat) {
    && ALICE in c.accounts && c.accounts[ALICE].GetReserved(d) == (if k == 0 then 4 else if k == 1 then 2 else 0)
    && Unnamed(sid) in c.positions && c.positions[Unnamed(sid)].margin == 1
    && (forall x :: x in left ==> SetKey(ALICE, sid, x) in c.positions && Odd(c.positions[SetKey(ALICE, sid, x)].netQty))
    && (forall x :: x in left && x != o ==> c.positions[SetKey(ALICE, sid, x)].margin == 0)
    && (o in left ==> c.positions[SetKey(ALICE, sid, o)]
                      == if k == 0 then Position(3, 3) else if k == 1 then Position(1, 1) else Position(3 - 2 * k, 0))
  }

  predicate Odd(q: int) { q % 2 == 1 }

  lemma OddIsNotZero(q: int)
    requires Odd(q)
    ensures CastUnsigned(q) != 0
  {
    var m := q / TWO_128;
    if q < 0 { assert q == 2 * (TWO_127 * m) + q % TWO_128; }
  }

  lemma RedeemNext(d: Domain, sid: SeriesId, c: Core, o: OutcomeId, left: seq<OutcomeId>, k: nat)
    requires left != [] && Redeeming(d, sid, c, o, left, k)
    ensures var key := SetKey(ALICE, sid, left[0]);
      && key in c.positions && CastUnsigned(c.positions[key].netQty) != 0
      && Redeeming(d, sid, RedeemOne(c, ALICE, d, key, 2), o, left[1..], if left[0] == o then k + 1 else k)
  {
    var x := left[0];
    var key := SetKey(ALICE, sid, x);
    assert x in left;
    var p := c.positions[key];
    OddIsNotZero(p.netQty);
    assert Freed(p, 2) == if x == o then (if k <= 1 then 2 else 0) else 0 by { FreedHere(p, x == o, k); }
    assert Odd(p.netQty - 2);
    var c1 := RedeemOne(c, ALICE, d, key, 2);
    forall y | y in left[1..] ensures y in left && SetKey(ALICE, sid, y) in c1.positions && Odd(c1.positions[SetKey(ALICE, sid, y)].netQty) {
    }
  }

  lemma FreedHere(p: Position, same: bool, k: nat)
    requires CastUnsigned(p.netQty) != 0
    requires same ==> p == if k == 0 then Position(3, 3) else if k == 1 then Position(1, 1) else Position(3 - 2 * k, 0)
    requires !same ==> p.margin == 0
    ensures Freed(p, 2) == if same then (if k <= 1 then 2 else 0) else 0
  {
    if p.margin == 0 { assert FloorDiv(0, CastUnsigned(p.netQty)) == 0; }
  }

  function Count(outcomes: seq<OutcomeId>, o: OutcomeId): nat {
    if outcomes == [] then 0 else (if outcomes[0] == o then 1 else 0) + Count(outcomes[1..], o)
  }

  lemma {:induction false} RedeemAll(d: Domain, sid: SeriesId, c: Core, o: OutcomeId, left: seq<OutcomeId>, k: nat)
    requires Redeeming(d, sid, c, o, left, k)
    ensures var r := Redeemed(c, ALICE, d, sid, left, 2);
      r.Some? && Redeeming(d, sid, r.value, o, [], k + Count(left, o)) && r.value.orders == c.orders && r.value.plans == c.plans
    decreases |left|
  {
    if left == [] {
    } else {
      var key := SetKey(ALICE, sid, left[0]);
      RedeemNext(d, sid, c, o, left, k);
      hide Redeeming;
      RedeemAll(d, sid, RedeemOne(c, ALICE, d, key, 2), o, left[1..], if left[0] == o then k + 1 else k);
    }
  }

  lemma {:induction false} CountsTwice(outcomes: seq<OutcomeId>, i: nat, j: nat)
    requires i < j < |outcomes| && outcomes[i] == outcomes[j]
    ensures Count(outcomes, outcomes[i]) >= 2
  {
    if i > 0 { CountsTwice(outcomes[1..], i - 1, j - 1); } else { CountsOnce(outcomes[1..], j - 1); }
  }

  lemma {:induction false} CountsOnce(outcomes: seq<OutcomeId>, j: nat)
    requires j < |outcomes|
    ensures Count(outcomes, outcomes[j]) >= 1
  {
    if j == 0 {
    } else {
      CountsOnce(outcomes[1..], j - 1);
    }
  }

  // Redeeming keeps every holder's margin covered, from every covered state, exactly when the contract
  // declares no outcome twice; nothing in registration requires that.
  ghost predicate RedeemsSafely(reg: Registry, sid: SeriesId, outcomes: seq<OutcomeId>) {
    forall c, u, qty: nat ::
      Covered(reg, c) && qty > 0 && CanRedeem(c.positions, u, sid, outcomes, qty)
      && Redeemed(c, u, DomainOf(reg, sid), sid, outcomes, qty).Some?
      ==> Covered(reg, Redeemed(c, u, DomainOf(reg, sid), sid, outcomes, qty).value)
  }

  lemma RedeemIsSafeIff(reg: Registry, sid: SeriesId, outcomes: seq<OutcomeId>)
    ensures RedeemsSafely(reg, sid, outcomes) <==> NoRepeats(outcomes)
  {
    if NoRepeats(outcomes) {
      forall c, u, qty: nat | Covered(reg, c) && qty > 0 && CanRedeem(c.positions, u, sid, outcomes, qty)
        ensures Redeemed(c, u, DomainOf(reg, sid), sid, outcomes, qty).Some?
        ensures Covered(reg, Redeemed(c, u, DomainOf(reg, sid), sid, outcomes, qty).value)
      {
        RedeemedSlack(reg, c, u, sid, outcomes, qty);
        SlackKeepsCover(reg, c, Redeemed(c, u, DomainOf(reg, sid), sid, outcomes, qty).value);
      }
    } else {
      var i, j :| 0 <= i < j < |outcomes| && outcomes[i] == outcomes[j];
      RepeatBreaksCover(reg, sid, outcomes, i, j);
    }
  }

  lemma RepeatBreaksCover(reg: Registry, sid: SeriesId, outcomes: seq<OutcomeId>, i: nat, j: nat)
    requires i < j < |outcomes| && outcomes[i] == outcomes[j]
    ensures !RedeemsSafely(reg, sid, outcomes)
  {
    var o, d := outcomes[i], DomainOf(reg, sid);
    var c := Holder(d, sid, o, outcomes);
    HolderIsCovered(reg, sid, o, outcomes);
    HolderRedeems(d, sid, o, outcomes);
    RedeemAll(d, sid, c, o, outcomes, 0);
    CountsTwice(outcomes, i, j);
    hide Holder, Covered, Redeemed, CanRedeem;
    NoCoverLeft(reg, sid, Redeemed(c, ALICE, d, sid, outcomes, 2).value);
  }

  lemma HolderRedeems(d: Domain, sid: SeriesId, o: OutcomeId, outcomes: seq<OutcomeId>)
    ensures Redeeming(d, sid, Holder(d, sid, o, outcomes), o, outcomes, 0)
    ensures CanRedeem(Holder(d, sid, o, outcomes).positions, ALICE, sid, outcomes, 2)
  {
  }

  lemma NoCoverLeft(reg: Registry, sid: SeriesId, c: Core)
    requires ALICE in c.accounts && c.accounts[ALICE].GetReserved(DomainOf(reg, sid)) == 0
    requires Unnamed(sid) in c.positions && c.positions[Unnamed(sid)].margin == 1
    ensures !Covered(reg, c)
  {
    var d := DomainOf(reg, sid);
    PositionMargins(reg, c.positions, ALICE, d);
    PartsAreNonNegative(reg, c, ALICE, d);
    assert Slack(reg, c, ALICE, d) < 0;
  }

  lemma HolderIsCovered(reg: Registry, sid: SeriesId, o: OutcomeId, outcomes: seq<OutcomeId>)
    requires o in outcomes
    ensures Covered(reg, Holder(DomainOf(reg, sid), sid, o, outcomes))
  {
    var c := Holder(DomainOf(reg, sid), sid, o, outcomes);
    var key, none := SetKey(ALICE, sid, o), Unnamed(sid);
    forall u, d ensures Slack(reg, c, u, d) >= 0 {
      var w := PositionMargin(reg, u, d);
      var rest := c.positions - {key} - {none};
      TotalRemove(c.positions, key, w);
      TotalRemove(c.positions - {key}, none, w);
      forall k | k in rest ensures w(k, rest[k]) == 0 {
        assert k in c.positions && c.positions[k] == rest[k];
      }
      TotalOfZero(rest, w);
    }
  }
}
