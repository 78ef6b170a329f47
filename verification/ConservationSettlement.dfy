// The zero-sum law across settlement: what a plan owes is what the positions were backed by.
module ConservationSettlement {
  import opened Base
  import opened Payoffs
  import opened Types
  import opened Totals
  import opened Clearing
  import opened Coverage
  import opened SettlementCoverage
  import opened Conservation

  // ---------------------------------------------------------------- net quantities

  ghost function Net(sid: SeriesId, o: Option<OutcomeId>): (PosKey, Position) -> int {
    (k: PosKey, p: Position) => if k.series == sid && k.outcome == o then p.netQty else 0
  }

  ghost function NetAll(sid: SeriesId): (PosKey, Position) -> int {
    (k: PosKey, p: Position) => if k.series == sid then p.netQty else 0
  }

  ghost function ShortAll(sid: SeriesId): (PosKey, Position) -> int {
    (k: PosKey, p: Position) => if k.series == sid then Short(p.netQty) else 0
  }

  function FirstOutcome(series: Series): Option<OutcomeId> {
    if series.payoffType.Categorical? && Declared(series) != [] then Some(Declared(series)[0]) else None
  }

  // The complete sets in circulation: the net quantity held in the first declared outcome.
  ghost function SetsOut(series: Series, sid: SeriesId, positions: map<PosKey, Position>): int {
    if FirstOutcome(series).Some? then Total(positions, Net(sid, FirstOutcome(series))) else 0
  }

  // ---------------------------------------------------------------- what a plan owes

  // A position's payoff beyond its margin, as settlement computes it.
  function PaidOut(series: Series, settlement: SettlementInput, k: PosKey, p: Position): int {
    match GetSettlementValue(series, p.netQty, k.outcome, settlement)
    case Ok(v) => v - p.margin
    case Err(_) => 0
  }

  ghost function PaidOutIn(sid: SeriesId, series: Series, settlement: SettlementInput): (PosKey, Position) -> int {
    (k: PosKey, p: Position) => if k.series == sid then PaidOut(series, settlement, k, p) else 0
  }

  lemma LineOwes(series: Series, k: PosKey, p: Position, settlement: SettlementInput, iBps: nat, pBps: nat, line: Line)
    requires LineOf(series, k, p, settlement, iBps, pBps) == Ok(line)
    ensures PaidOutIn(k.series, series, settlement)(k, p) == line.entry.cashflow + line.fee + line.insuranceFee
  {
    hide GetSettlementValue, SettlementFee;
  }

  // Cashflows and fees of a plan together are the payoffs of its positions less their margins.
  lemma {:induction false} PlanOwes(positions: map<PosKey, Position>, m: Market, sid: SeriesId, series: Series,
                                    keys: seq<PosKey>, settlement: SettlementInput)
    requires AllIn(keys, positions)
    requires forall i :: 0 <= i < |keys| ==> keys[i].series == sid
    requires LinesOf(positions, m, series, keys, settlement).Ok?
    ensures var lines := LinesOf(positions, m, series, keys, settlement).value;
      SeqSum(Entries(lines), Cashflow()) + ProtocolFees(lines) + InsuranceFees(lines)
      == SumAt(keys, positions, PaidOutIn(sid, series, settlement))
    decreases |keys|
  {
    hide LineOf, PaidOut;
    if keys == [] {
    } else {
      var n := |keys| - 1;
      PlanOwes(positions, m, sid, series, keys[..n], settlement);
      LinesMatch(positions, m, series, keys, settlement);
      var lines := LinesOf(positions, m, series, keys, settlement).value;
      var before := LinesOf(positions, m, series, keys[..n], settlement).value;
      assert lines == before + [lines[n]] && lines[..n] == before;
      assert Entries(lines) == Entries(before) + [lines[n].entry];
      SeqSumAppend(Entries(before), [lines[n].entry], Cashflow());
      assert SeqSum([lines[n].entry], Cashflow()) == lines[n].entry.cashflow;
      LineOwes(series, keys[n], positions[keys[n]], settlement, m.insuranceBps, m.protocolBps, lines[n]);
    }
  }

  // ---------------------------------------------------------------- payoffs against backing

  // How far the payoff of a position exceeds what backs it.
  function Surplus(series: Series, settlement: SettlementInput, o: Option<OutcomeId>, q: int): int {
    match GetUnitPayoff(series, o, settlement)
    case Ok(u) => q * u + Excess(u) * Short(q) - UNIT * Sets(series, o, q)
    case Err(_) => 0
  }

  ghost function SurplusIn(sid: SeriesId, series: Series, settlement: SettlementInput): (PosKey, Position) -> int {
    (k: PosKey, p: Position) => if k.series == sid then Surplus(series, settlement, k.outcome, p.netQty) else 0
  }

  lemma PaidOutIsBackedPlusSurplus(series: Series, settlement: SettlementInput, k: PosKey, p: Position)
    requires Funded(series)
    requires GetSettlementValue(series, p.netQty, k.outcome, settlement).Ok?
    ensures PaidOut(series, settlement, k, p) == Backed1(series, k.outcome, p) + Surplus(series, settlement, k.outcome, p.netQty)
  {
    SettlementIsSignedValue(series, p.netQty, k.outcome, settlement);
    var u := GetUnitPayoff(series, k.outcome, settlement).value;
    Spread(UNIT, Excess(u), Short(p.netQty));
  }

  lemma PaidOutSplits(reg: Registry, positions: map<PosKey, Position>, m: Market, sid: SeriesId, keys: seq<PosKey>,
                      settlement: SettlementInput)
    requires sid in reg && Funded(reg[sid])
    requires Lists(keys, KeysOfSeries(positions, sid))
    requires LinesOf(positions, m, reg[sid], keys, settlement).Ok?
    ensures SumAt(keys, positions, PaidOutIn(sid, reg[sid], settlement))
         == SumAt(keys, positions, Backing(reg)) + Total(positions, SurplusIn(sid, reg[sid], settlement))
  {
    var series := reg[sid];
    var w, w0, w1 := PaidOutIn(sid, series, settlement), Backing(reg), SurplusIn(sid, series, settlement);
    LinesMatch(positions, m, series, keys, settlement);
    forall i | 0 <= i < |keys|
      ensures keys[i] in positions
      ensures w(keys[i], positions[keys[i]]) == w0(keys[i], positions[keys[i]]) + w1(keys[i], positions[keys[i]])
    {
      var k := keys[i];
      assert k in KeysOfSeries(positions, sid);
      PaidOutIsBackedPlusSurplus(series, settlement, k, positions[k]);
    }
    SumAtSum(keys, positions, w, w0, w1);
    forall k | k in positions && k !in keys ensures w1(k, positions[k]) == 0 {
      assert k in KeysOfSeries(positions, sid) ==> k in keys;
    }
    SumAtAll(keys, positions, w1);
  }

  // A binary series pays every contract the same, so only a payoff above one unit leaves a surplus,
  // once for each contract short.
  lemma BinarySurplus(positions: map<PosKey, Position>, sid: SeriesId, series: Series, settlement: SettlementInput)
    requires Funded(series) && series.payoffType.Binary? && settlement.PriceInput?
    ensures var u := FloorUsd(settlement.price);
      Total(positions, SurplusIn(sid, series, settlement))
      == u * Total(positions, NetAll(sid)) + Excess(u) * Total(positions, ShortAll(sid))
  {
    var u := FloorUsd(settlement.price);
    var a := (k: PosKey, p: Position) => u * NetAll(sid)(k, p);
    var b := (k: PosKey, p: Position) => Excess(u) * ShortAll(sid)(k, p);
    forall k | k in positions ensures SurplusIn(sid, series, settlement)(k, positions[k]) == a(k, positions[k]) + b(k, positions[k]) {
      BinaryWeight(sid, series, settlement, k, positions[k]);
    }
    TotalSum(positions, SurplusIn(sid, series, settlement), a, b);
    TotalScale(positions, a, u, NetAll(sid));
    TotalScale(positions, b, Excess(u), ShortAll(sid));
  }

  lemma BinaryWeight(sid: SeriesId, series: Series, settlement: SettlementInput, k: PosKey, p: Position)
    requires Funded(series) && series.payoffType.Binary? && settlement.PriceInput?
    ensures var u := FloorUsd(settlement.price);
      SurplusIn(sid, series, settlement)(k, p) == u * NetAll(sid)(k, p) + Excess(u) * ShortAll(sid)(k, p)
  {
    var u := FloorUsd(settlement.price);
    assert GetUnitPayoff(series, k.outcome, settlement) == Ok(u);
    if k.series == sid {
      assert SurplusIn(sid, series, settlement)(k, p) == p.netQty * u + Excess(u) * Short(p.netQty);
      assert p.netQty * u == u * p.netQty;
      assert NetAll(sid)(k, p) == p.netQty && ShortAll(sid)(k, p) == Short(p.netQty);
    } else {
      assert NetAll(sid)(k, p) == 0 && ShortAll(sid)(k, p) == 0;
      assert u * 0 == 0 && Excess(u) * 0 == 0;
    }
  }

  // A categorical series pays the resolved outcome one unit: the surplus is what is held in it on
  // balance beyond the complete sets.
  lemma CategoricalSurplus(positions: map<PosKey, Position>, sid: SeriesId, series: Series, settlement: SettlementInput)
    requires Funded(series) && series.payoffType.Categorical? && settlement.OutcomeInput?
    ensures Total(positions, SurplusIn(sid, series, settlement))
         == UNIT * (Total(positions, Net(sid, Some(settlement.outcome))) - SetsOut(series, sid, positions))
  {
    var first := FirstOutcome(series);
    var won := Net(sid, Some(settlement.outcome));
    var sets := (k: PosKey, p: Position) => if k.series == sid then Sets(series, k.outcome, p.netQty) else 0;
    var a := (k: PosKey, p: Position) => UNIT * won(k, p);
    var b := (k: PosKey, p: Position) => -UNIT * sets(k, p);
    forall k | k in positions ensures SurplusIn(sid, series, settlement)(k, positions[k]) == a(k, positions[k]) + b(k, positions[k]) {
      var p := positions[k];
      assert Excess(UNIT) == 0 && Excess(0) == 0;
      if k.series == sid {
        assert Surplus(series, settlement, k.outcome, p.netQty)
            == (if k.outcome == Some(settlement.outcome) then p.netQty * UNIT else p.netQty * 0) - UNIT * Sets(series, k.outcome, p.netQty);
      }
    }
    TotalSum(positions, SurplusIn(sid, series, settlement), a, b);
    TotalScale(positions, a, UNIT, won);
    TotalScale(positions, b, -UNIT, sets);
    if first.Some? {
      TotalAgree(positions, sets, Net(sid, first));
    } else {
      TotalOfZero(positions, sets);
    }
  }

  // ---------------------------------------------------------------- preparing and driving

  lemma {:induction false} ReleaseAllKeepsCash(accounts: map<User, Account>, orders: map<OrderId, LimitOrder>, ids: seq<OrderId>)
    requires AllIn(ids, orders)
    ensures Total(ReleaseAll(accounts, orders, ids), CashWeight()) == Total(accounts, CashWeight())
    decreases |ids|
  {
    if ids == [] {
    } else {
      var o := orders[ids[0]];
      ReleaseKeepsCash(accounts, o.creator, o.domain, o.blocked);
      ReleaseAllKeepsCash(Release(accounts, o.creator, o.domain, o.blocked), orders, ids[1..]);
    }
  }

  ghost function CoreMoney(reg: Registry, c: Core): int {
    Total(c.accounts, CashWeight()) + Total(c.plans, Owed()) + Total(c.positions, Backing(reg))
  }

  // What opening a plan adds to the total: on a fully collateralised series the surplus of the payoffs
  // over what backed them, on any other all that is paid out beyond the margins.
  ghost function PlanDrift(series: Series, sid: SeriesId, positions: map<PosKey, Position>, settlement: SettlementInput): int {
    if Funded(series) then Total(positions, SurplusIn(sid, series, settlement))
    else Total(positions, PaidOutIn(sid, series, settlement))
  }

  lemma PaidOutIsBackingPlusDrift(reg: Registry, positions: map<PosKey, Position>, m: Market, sid: SeriesId, keys: seq<PosKey>,
                                  settlement: SettlementInput)
    requires sid in reg
    requires Lists(keys, KeysOfSeries(positions, sid))
    requires LinesOf(positions, m, reg[sid], keys, settlement).Ok?
    ensures SumAt(keys, positions, PaidOutIn(sid, reg[sid], settlement))
         == SumAt(keys, positions, Backing(reg)) + PlanDrift(reg[sid], sid, positions, settlement)
  {
    if Funded(reg[sid]) {
      PaidOutSplits(reg, positions, m, sid, keys, settlement);
    } else {
      var w := PaidOutIn(sid, reg[sid], settlement);
      forall k | k in positions && k !in keys ensures w(k, positions[k]) == 0 {
        assert k in KeysOfSeries(positions, sid) ==> k in keys;
      }
      SumAtAll(keys, positions, w);
      forall i | 0 <= i < |keys| ensures keys[i].series == sid { assert keys[i] in KeysOfSeries(positions, sid); }
      NothingBacks(reg, positions, sid, keys);
    }
  }

  // Only fully collateralised positions are backed.
  lemma {:induction false} NothingBacks(reg: Registry, positions: map<PosKey, Position>, sid: SeriesId, keys: seq<PosKey>)
    requires sid in reg && !Funded(reg[sid])
    requires forall i :: 0 <= i < |keys| ==> keys[i].series == sid
    ensures SumAt(keys, positions, Backing(reg)) == 0
    decreases |keys|
  {
    if keys == [] {
    } else {
      NothingBacks(reg, positions, sid, keys[..|keys| - 1]);
    }
  }

  // Opening a plan moves the total by exactly that.
  lemma PreparedMoney(reg: Registry, c: Core, m: Market, sid: SeriesId, settlement: SettlementInput, keys: seq<PosKey>,
                      ids: seq<OrderId>, now: nat)
    requires sid in reg && sid !in c.plans
    requires Listings(c, sid, keys, ids)
    requires LinesOf(c.positions, m, reg[sid], keys, settlement).Ok?
    ensures var plan := NewPlan(settlement, LinesOf(c.positions, m, reg[sid], keys, settlement).value, reg[sid].domain, now);
      CoreMoney(reg, Prepared(c, sid, plan, keys, ids))
      == CoreMoney(reg, c) + PlanDrift(reg[sid], sid, c.positions, settlement)
  {
    hide PlanDrift;
    var lines := LinesOf(c.positions, m, reg[sid], keys, settlement).value;
    var plan := NewPlan(settlement, lines, reg[sid].domain, now);
    ReleaseAllKeepsCash(c.accounts, c.orders, ids);
    TotalRemoveAll(c.positions, keys, Backing(reg));
    assert Prepared(c, sid, plan, keys, ids).positions == c.positions - (set k | k in keys);
    TotalPut(c.plans, sid, plan, Owed());
    assert Pending(plan) == Entries(lines);
    assert Owed()(sid, plan) == SeqSum(Entries(lines), Cashflow()) + ProtocolFees(lines) + InsuranceFees(lines);
    forall i | 0 <= i < |keys| ensures keys[i].series == sid { assert keys[i] in KeysOfSeries(c.positions, sid); }
    PlanOwes(c.positions, m, sid, reg[sid], keys, settlement);
    PaidOutIsBackingPlusDrift(reg, c.positions, m, sid, keys, settlement);
  }

  lemma EntryCash(accounts: map<User, Account>, d: Domain, e: SettlementPosition)
    requires e.user in accounts
    ensures Total(ApplyEntry(accounts, d, e), CashWeight()) == Total(accounts, CashWeight()) + e.cashflow
  {
    var a := accounts[e.user];
    EntryPays(a, d, e);
    TotalPut(accounts, e.user, Paid(a, d, e), CashWeight());
    CashAt(accounts, e.user);
    assert ApplyEntry(accounts, d, e) == accounts[e.user := Paid(a, d, e)];
    hide CashOf, Paid, ApplyEntry;
  }

  function Paid(a: Account, d: Domain, e: SettlementPosition): Account {
    var paid := a.SetCash(d, a.GetCash(d) + e.cashflow);
    paid.SetReserved(d, SatSub(paid.GetReserved(d), e.margin))
  }

  lemma EntryPays(a: Account, d: Domain, e: SettlementPosition)
    ensures CashOf(Paid(a, d, e)) == CashOf(a) + e.cashflow
  {
    LegCash(a, d, Leg(-e.cashflow, 0, 0));
    SettersAreExact(a, d, a.GetCash(d) + e.cashflow, 0, Playground);
  }

  lemma OneEntryMoney(reg: Registry, c: Core, sid: SeriesId)
    requires HasNext(c, sid)
    ensures CoreMoney(reg, OneApplied(c, sid)) == CoreMoney(reg, c)
  {
    hide CashWeight, ApplyEntry, Owed, Pending, Total, Backing;
    var plan := c.plans[sid];
    EntryCash(c.accounts, plan.domain, plan.positions[plan.cursor]);
    TotalPut(c.plans, sid, plan.(cursor := plan.cursor + 1), Owed());
    OwesOneLess(sid, plan);
  }

  lemma OwesOneLess(sid: SeriesId, plan: SettlementPlan)
    requires plan.cursor < |plan.positions|
    ensures Owed()(sid, plan) == plan.positions[plan.cursor].cashflow + Owed()(sid, plan.(cursor := plan.cursor + 1))
  {
    var e, rest := plan.positions[plan.cursor], plan.(cursor := plan.cursor + 1);
    assert Pending(plan) == [e] + Pending(rest) && Pending(plan)[1..] == Pending(rest);
  }

  lemma {:induction false} AppliedMoney(reg: Registry, c: Core, sid: SeriesId, plan: SettlementPlan, hi: nat)
    requires sid in c.plans && c.plans[sid] == plan
    requires plan.cursor <= hi <= |plan.positions| && EntriesHaveAccounts(c, plan)
    ensures CoreMoney(reg, AppliedTo(c, sid, plan, hi)) == CoreMoney(reg, c)
    ensures AppliedTo(c, sid, plan, hi).accounts.Keys == c.accounts.Keys
    decreases hi
  {
    hide CoreMoney, OneApplied, HasNext, AppliedTo;
    if hi == plan.cursor {
      AppliedNothing(c, sid, plan);
    } else {
      AppliedMoney(reg, c, sid, plan, hi - 1);
      AppliedUnfolds(c, sid, plan, hi);
      var c1 := AppliedTo(c, sid, plan, hi - 1);
      OneEntryMoney(reg, c1, sid);
      OneAppliedKeys(c1, sid);
    }
  }

  lemma OneAppliedKeys(c: Core, sid: SeriesId)
    requires HasNext(c, sid)
    ensures OneApplied(c, sid).accounts.Keys == c.accounts.Keys
  {
  }

  lemma DrivenIsApplied(c: Core, sid: SeriesId, plan: SettlementPlan, end: nat)
    requires sid in c.plans && c.plans[sid] == plan && Reaches(plan, end)
    ensures var at := DrivenPlan(plan, end).cursor;
      var c1 := AppliedTo(c, sid, plan, at);
      Reaches(plan, at) && DrivenCore(c, sid, plan, end) == c1.(plans := c1.plans[sid := DrivenPlan(plan, end)])
  {
    var at, plan2 := DrivenPlan(plan, end).cursor, DrivenPlan(plan, end);
    assert AppliedTo(c, sid, plan, at).plans[sid := plan2] == c.plans[sid := plan2];
  }

  // What driving takes off the books of the plan it adds to the two funds.
  lemma DrivenCoreMoney(reg: Registry, c: Core, sid: SeriesId, plan: SettlementPlan, end: nat)
    requires sid in c.plans && c.plans[sid] == plan && Reaches(plan, end)
    requires EntriesHaveAccounts(c, plan)
    ensures CoreMoney(reg, DrivenCore(c, sid, plan, end))
         == CoreMoney(reg, c) - if DrivenPlan(plan, end).applied && !plan.applied then plan.fee + plan.insuranceFee else 0
  {
    var plan2 := DrivenPlan(plan, end);
    var at := plan2.cursor;
    var c1 := AppliedTo(c, sid, plan, at);
    DrivenIsApplied(c, sid, plan, end);
    AppliedMoney(reg, c, sid, plan, at);
    var plan1 := c1.plans[sid];
    TotalPut(c1.plans, sid, plan2, Owed());
    assert Pending(plan1) == Pending(plan2);
    assert Owed()(sid, plan1) == SeqSum(Pending(plan1), Cashflow()) + if plan.applied then 0 else plan.fee + plan.insuranceFee;
    assert Owed()(sid, plan2) == SeqSum(Pending(plan1), Cashflow()) + if plan2.applied then 0 else plan.fee + plan.insuranceFee;
  }

  // Driving a plan pays what it owes and no more; the fees move to the funds when it completes.
  lemma DrivenMoney(reg: Registry, s: State, sid: SeriesId, plan: SettlementPlan, end: nat, now: nat)
    requires sid in s.core.plans && s.core.plans[sid] == plan && Reaches(plan, end)
    requires EntriesHaveAccounts(s.core, plan)
    ensures Money(reg, DriveTo(s, sid, plan, end, now).state) == Money(reg, s)
  {
    DrivenCoreMoney(reg, s.core, sid, plan, end);
  }
}
