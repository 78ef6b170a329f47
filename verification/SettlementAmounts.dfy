// What settling a series pays and takes, amount by amount: src/clearing/src/api/settlement/api.rs. The
// payoffs and fees of a plan are stated on positions, prices and ratios, and followed into the two funds.
module SettlementAmounts {
  import opened Base
  import opened Payoffs
  import opened Types
  import opened Totals
  import opened Clearing
  import opened Coverage
  import opened SettlementCoverage
  import opened Rekey
  import opened Runs
  import opened CoverageRuns
  import opened CoverageTheorem
  import opened SettlementRuns
  import opened Pricing

  // ---------------------------------------------------------------- one position

  // What a position is paid: what each of its contracts pays, and for a fully collateralised one held
  // short what that leaves of a unit.
  ghost predicate Receives(series: Series, settlement: SettlementInput, k: PosKey, p: Position, payoff: int) {
    exists u: int :: Pays(series, k.outcome, settlement, u)
      && payoff == Abs(p.netQty) * if FullCollateral(series) && p.netQty < 0 then Max(UNIT - u, 0) else u
  }

  // A share of so many basis points, rounded down.
  predicate ShareOf(fee: int, payoff: int, bps: nat) { FloorOf(fee, payoff * bps, BPS_BASE) }

  lemma OneReceipt(series: Series, settlement: SettlementInput, k: PosKey, p: Position, x: int, y: int)
    requires Receives(series, settlement, k, p, x) && Receives(series, settlement, k, p, y)
    ensures x == y
  {
    var u: int :| Pays(series, k.outcome, settlement, u)
      && x == Abs(p.netQty) * if FullCollateral(series) && p.netQty < 0 then Max(UNIT - u, 0) else u;
    var v: int :| Pays(series, k.outcome, settlement, v)
      && y == Abs(p.netQty) * if FullCollateral(series) && p.netQty < 0 then Max(UNIT - v, 0) else v;
    OnePayoff(series, k.outcome, settlement, u, v);
  }

  lemma PaidIsReceived(series: Series, settlement: SettlementInput, k: PosKey, p: Position)
    requires GetSettlementValue(series, p.netQty, k.outcome, settlement).Ok?
    ensures Receives(series, settlement, k, p, GetSettlementValue(series, p.netQty, k.outcome, settlement).value)
  {
    var u := GetUnitPayoff(series, k.outcome, settlement).value;
    UnitPayoffIsExact(series, k.outcome, settlement, u);
    hide Pays, GetUnitPayoff;
    assert Max(UNIT - u, 0) == SatSub(UNIT, u);
  }

  lemma FeeIsShare(payoff: nat, bps: nat)
    ensures ShareOf(SettlementFee(payoff, bps), payoff, bps)
  {
    assert payoff * bps >= 0;
    FloorDivIsFloor(payoff * bps, BPS_BASE);
  }

  // The entry that stands for a position: who and what it was, and its payoff less its cost basis and
  // its two fees.
  ghost predicate EntryFor(series: Series, settlement: SettlementInput, m: Market, k: PosKey, p: Position, e: SettlementPosition) {
    exists payoff: int, toInsurance: int, toTreasury: int ::
      && Receives(series, settlement, k, p, payoff)
      && ShareOf(toInsurance, payoff, m.insuranceBps) && ShareOf(toTreasury, payoff, m.protocolBps)
      && e == SettlementPosition(k.user, k.outcome, p.netQty, p.margin, payoff - p.margin - toInsurance - toTreasury)
  }

  // A fee for each position of the series: its share of what the position is paid.
  ghost predicate Schedule(series: Series, settlement: SettlementInput, bps: nat, positions: map<PosKey, Position>, sid: SeriesId,
                           fees: map<PosKey, nat>)
  {
    && fees.Keys == KeysOfSeries(positions, sid)
    && forall k :: k in fees ==> FeeFor(series, settlement, bps, k, positions[k], fees[k])
  }

  ghost predicate FeeFor(series: Series, settlement: SettlementInput, bps: nat, k: PosKey, p: Position, fee: int) {
    exists payoff: int :: Receives(series, settlement, k, p, payoff) && ShareOf(fee, payoff, bps)
  }

  lemma LineIsExact(series: Series, k: PosKey, p: Position, settlement: SettlementInput, m: Market)
    requires LineOf(series, k, p, settlement, m.insuranceBps, m.protocolBps).Ok?
    ensures var line := LineOf(series, k, p, settlement, m.insuranceBps, m.protocolBps).value;
      && EntryFor(series, settlement, m, k, p, line.entry)
      && FeeFor(series, settlement, m.insuranceBps, k, p, line.insuranceFee)
      && FeeFor(series, settlement, m.protocolBps, k, p, line.fee)
  {
    var payoff := GetSettlementValue(series, p.netQty, k.outcome, settlement).value;
    PaidIsReceived(series, settlement, k, p);
    FeeIsShare(payoff, m.insuranceBps);
    FeeIsShare(payoff, m.protocolBps);
    hide Receives, ShareOf, GetSettlementValue, SettlementFee;
    assert ShareOf(SettlementFee(payoff, m.insuranceBps), payoff, m.insuranceBps);
  }

  lemma OneFee(series: Series, settlement: SettlementInput, bps: nat, k: PosKey, p: Position, x: int, y: int)
    requires FeeFor(series, settlement, bps, k, p, x) && FeeFor(series, settlement, bps, k, p, y)
    ensures x == y
  {
    var a: int :| Receives(series, settlement, k, p, a) && ShareOf(x, a, bps);
    var b: int :| Receives(series, settlement, k, p, b) && ShareOf(y, b, bps);
    OneReceipt(series, settlement, k, p, a, b);
    OneQuotient(x, y, a * bps, BPS_BASE);
  }

  // ---------------------------------------------------------------- the whole plan

  ghost function Amount(): (PosKey, nat) -> int { (k: PosKey, x: nat) => x }

  // Payoffs are defined exactly when the input fits the contract, or nothing is held.
  lemma {:induction false} LinesIff(positions: map<PosKey, Position>, m: Market, series: Series, keys: seq<PosKey>, settlement: SettlementInput)
    requires AllIn(keys, positions)
    ensures LinesOf(positions, m, series, keys, settlement).Ok? <==> keys == [] || Fits(series, settlement)
    decreases |keys|
  {
    if keys == [] {
    } else {
      var k := keys[|keys| - 1];
      LinesIff(positions, m, series, keys[..|keys| - 1], settlement);
      UnitPayoffIsExact(series, k.outcome, settlement, 0);
      hide Fits, GetUnitPayoff, Pays;
    }
  }

  lemma {:induction false} FeesAddUp(positions: map<PosKey, Position>, m: Market, sid: SeriesId, series: Series, keys: seq<PosKey>,
                                     settlement: SettlementInput, toInsurance: map<PosKey, nat>, toTreasury: map<PosKey, nat>)
    requires AllIn(keys, positions) && (forall i :: 0 <= i < |keys| ==> keys[i].series == sid)
    requires LinesOf(positions, m, series, keys, settlement).Ok?
    requires Schedule(series, settlement, m.insuranceBps, positions, sid, toInsurance)
    requires Schedule(series, settlement, m.protocolBps, positions, sid, toTreasury)
    ensures InsuranceFees(LinesOf(positions, m, series, keys, settlement).value) == SumAt(keys, toInsurance, Amount())
    ensures ProtocolFees(LinesOf(positions, m, series, keys, settlement).value) == SumAt(keys, toTreasury, Amount())
    decreases |keys|
  {
    hide LineOf, FeeFor;
    if keys == [] {
    } else {
      var n, k := |keys| - 1, keys[|keys| - 1];
      FeesAddUp(positions, m, sid, series, keys[..n], settlement, toInsurance, toTreasury);
      var lines := LinesOf(positions, m, series, keys, settlement).value;
      assert lines[..|lines| - 1] == LinesOf(positions, m, series, keys[..n], settlement).value;
      LineIsExact(series, k, positions[k], settlement, m);
      assert k in KeysOfSeries(positions, sid);
      OneFee(series, settlement, m.insuranceBps, k, positions[k], lines[|lines| - 1].insuranceFee, toInsurance[k]);
      OneFee(series, settlement, m.protocolBps, k, positions[k], lines[|lines| - 1].fee, toTreasury[k]);
    }
  }

  // The plan a settlement opens: one entry for each position of the series in the order listed, with its
  // exact cashflow, and the two totals of fees.
  lemma PlanIsExact(s: State, sid: SeriesId, settlement: SettlementInput, keys: seq<PosKey>, ids: seq<OrderId>, now: nat,
                    toInsurance: map<PosKey, nat>, toTreasury: map<PosKey, nat>)
    requires Listings(s.core, sid, keys, ids) && Prepares(s, sid, settlement, keys, ids, now)
    requires Schedule(s.ops.cached[sid], settlement, s.market.insuranceBps, s.core.positions, sid, toInsurance)
    requires Schedule(s.ops.cached[sid], settlement, s.market.protocolBps, s.core.positions, sid, toTreasury)
    ensures var plan, series := OpenedPlan(s, sid, settlement, keys, ids, now), s.ops.cached[sid];
      && |plan.positions| == |keys|
      && (forall i :: 0 <= i < |keys| ==> EntryFor(series, settlement, s.market, keys[i], s.core.positions[keys[i]], plan.positions[i]))
      && plan.insuranceFee == Total(toInsurance, Amount()) && plan.fee == Total(toTreasury, Amount())
      && plan.settlement == settlement && plan.domain == series.domain && plan.createdNs == now
  {
    var series := s.ops.cached[sid];
    LinesMatch(s.core.positions, s.market, series, keys, settlement);
    FeesAddUp(s.core.positions, s.market, sid, series, keys, settlement, toInsurance, toTreasury);
    hide EntryFor, FeeFor, LineOf, LinesOf, ProtocolFees, InsuranceFees, PostEquityTotal, Outflows;
    forall i | 0 <= i < |keys|
      ensures EntryFor(series, settlement, s.market, keys[i], s.core.positions[keys[i]], OpenedPlan(s, sid, settlement, keys, ids, now).positions[i])
    {
      LineIsExact(series, keys[i], s.core.positions[keys[i]], settlement, s.market);
    }
    SumAtAll(keys, toInsurance, Amount());
    SumAtAll(keys, toTreasury, Amount());
  }

  // Where payoffs are defined there is exactly one fee for each position.
  lemma ScheduleOf(series: Series, settlement: SettlementInput, bps: nat, positions: map<PosKey, Position>, sid: SeriesId)
    returns (fees: map<PosKey, nat>)
    requires Fits(series, settlement) || KeysOfSeries(positions, sid) == {}
    ensures Schedule(series, settlement, bps, positions, sid, fees)
  {
    fees := map k | k in KeysOfSeries(positions, sid) :: FeeOn(series, settlement, bps, k, positions[k]);
    forall k | k in fees ensures FeeFor(series, settlement, bps, k, positions[k], fees[k]) {
      UnitPayoffIsExact(series, k.outcome, settlement, 0);
      PaidIsReceived(series, settlement, k, positions[k]);
      FeeIsShare(GetSettlementValue(series, positions[k].netQty, k.outcome, settlement).value, bps);
    }
  }

  ghost function FeeOn(series: Series, settlement: SettlementInput, bps: nat, k: PosKey, p: Position): nat {
    var payoff := GetSettlementValue(series, p.netQty, k.outcome, settlement);
    if payoff.Ok? then SettlementFee(payoff.value, bps) else 0
  }

  // ---------------------------------------------------------------- when a settlement is refused

  // One exact entry for each position listed.
  ghost predicate EntriesFor(series: Series, settlement: SettlementInput, s: State, keys: seq<PosKey>, entries: seq<SettlementPosition>)
    requires AllIn(keys, s.core.positions)
  {
    && |entries| == |keys|
    && forall i :: 0 <= i < |keys| ==> EntryFor(series, settlement, s.market, keys[i], s.core.positions[keys[i]], entries[i])
  }

  lemma LinesAreExact(s: State, series: Series, settlement: SettlementInput, keys: seq<PosKey>)
    requires AllIn(keys, s.core.positions) && LinesOf(s.core.positions, s.market, series, keys, settlement).Ok?
    ensures EntriesFor(series, settlement, s, keys, Entries(LinesOf(s.core.positions, s.market, series, keys, settlement).value))
  {
    LinesMatch(s.core.positions, s.market, series, keys, settlement);
    hide EntryFor, LineOf, LinesOf;
    forall i | 0 <= i < |keys| { LineIsExact(series, keys[i], s.core.positions[keys[i]], settlement, s.market); }
  }

  lemma OneEntry(series: Series, settlement: SettlementInput, m: Market, k: PosKey, p: Position, e: SettlementPosition, e': SettlementPosition)
    requires EntryFor(series, settlement, m, k, p, e) && EntryFor(series, settlement, m, k, p, e')
    ensures e == e'
  {
    var x: int, i: int, t: int :| Receives(series, settlement, k, p, x) && ShareOf(i, x, m.insuranceBps) && ShareOf(t, x, m.protocolBps)
      && e == SettlementPosition(k.user, k.outcome, p.netQty, p.margin, x - p.margin - i - t);
    var x': int, i': int, t': int :| Receives(series, settlement, k, p, x') && ShareOf(i', x', m.insuranceBps) && ShareOf(t', x', m.protocolBps)
      && e' == SettlementPosition(k.user, k.outcome, p.netQty, p.margin, x' - p.margin - i' - t');
    OneReceipt(series, settlement, k, p, x, x');
    OneQuotient(i, i', x * m.insuranceBps, BPS_BASE);
    OneQuotient(t, t', x * m.protocolBps, BPS_BASE);
  }

  // A receipt means that the input fits.
  lemma EntryFits(series: Series, settlement: SettlementInput, m: Market, k: PosKey, p: Position, e: SettlementPosition)
    requires EntryFor(series, settlement, m, k, p, e)
    ensures Fits(series, settlement)
  {
    var x: int :| Receives(series, settlement, k, p, x);
    var u: int :| Pays(series, k.outcome, settlement, u);
  }

  ghost function Gains(): SettlementPosition -> int { (e: SettlementPosition) => Max(e.cashflow, 0) }

  lemma {:induction false} OutflowsAreGains(lines: seq<Line>)
    ensures Outflows(lines) == SeqSum(Entries(lines), Gains())
  {
    if lines == [] {
    } else {
      var n := |lines| - 1;
      OutflowsAreGains(lines[..n]);
      assert Entries(lines) == Entries(lines[..n]) + [lines[n].entry];
      SeqSumAppend(Entries(lines[..n]), [lines[n].entry], Gains());
      assert SeqSum([lines[n].entry], Gains()) == Gains()(lines[n].entry);
    }
  }

  lemma LinesAreEntries(s: State, series: Series, settlement: SettlementInput, keys: seq<PosKey>, entries: seq<SettlementPosition>)
    requires AllIn(keys, s.core.positions) && EntriesFor(series, settlement, s, keys, entries)
    ensures LinesOf(s.core.positions, s.market, series, keys, settlement).Ok?
    ensures Entries(LinesOf(s.core.positions, s.market, series, keys, settlement).value) == entries
  {
    LinesIff(s.core.positions, s.market, series, keys, settlement);
    if keys != [] { EntryFits(series, settlement, s.market, keys[0], s.core.positions[keys[0]], entries[0]); }
    LinesMatch(s.core.positions, s.market, series, keys, settlement);
    var lines := LinesOf(s.core.positions, s.market, series, keys, settlement).value;
    hide EntryFor, LineOf, LinesOf, Fits;
    forall i | 0 <= i < |keys| ensures lines[i].entry == entries[i] {
      LineIsExact(series, keys[i], s.core.positions[keys[i]], settlement, s.market);
      OneEntry(series, settlement, s.market, keys[i], s.core.positions[keys[i]], lines[i].entry, entries[i]);
    }
  }

  // A settlement is prepared exactly when the input fits what is held and the entries' gains together are
  // within the equity all accounts would end with; a refusal names both sides, and a plan has the entries.
  lemma PreparesIff(s: State, sid: SeriesId, series: Series, settlement: SettlementInput, keys: seq<PosKey>, ids: seq<OrderId>,
                    now: nat, entries: seq<SettlementPosition>)
    requires Listings(s.core, sid, keys, ids)
    ensures keys != [] && !Fits(series, settlement) ==>
      PrepareSettlement(s, sid, series, settlement, keys, ids, now) == Reply(s, Err(PayoffFailed))
    ensures EntriesFor(series, settlement, s, keys, entries) ==>
      var r := PrepareSettlement(s, sid, series, settlement, keys, ids, now);
      var gains, equity := SeqSum(entries, Gains()), PostEquityTotal(s, series.domain, entries);
      if gains > equity then gains >= 0 && r == Reply(s, Err(SolvencyViolation(gains, equity)))
      else r.result == Ok(true) && sid in r.state.core.plans && r.state.core.plans[sid].positions == entries
  {
    LinesIff(s.core.positions, s.market, series, keys, settlement);
    if EntriesFor(series, settlement, s, keys, entries) {
      LinesAreEntries(s, series, settlement, keys, entries);
      OutflowsAreGains(LinesOf(s.core.positions, s.market, series, keys, settlement).value);
    }
    hide EntriesFor, LinesOf, Outflows, PostEquityTotal, ProtocolFees, InsuranceFees, Fits, Gains, SeqSum, Listings, Prepared, Entries;
  }

  // ---------------------------------------------------------------- into the funds

  // Steps that settle no other series.
  ghost predicate SettlesOnly(steps: seq<Step>, sid: SeriesId) {
    forall i :: 0 <= i < |steps| && steps[i].Settle? ==> steps[i].sid == sid
  }

  // What the funds gain while one plan is on its way: nothing until it is applied, and then its fees.
  ghost predicate Credits(s: State, s': State, sid: SeriesId)
    requires sid in s.core.plans && sid in s'.core.plans
  {
    var before, after := s.core.plans[sid], s'.core.plans[sid];
    && (before.applied ==> after.applied) && after.fee == before.fee && after.insuranceFee == before.insuranceFee
    && s'.ops.treasury == s.ops.treasury + (if after.applied && !before.applied then before.fee else 0)
    && s'.ops.insurance == s.ops.insurance + (if after.applied && !before.applied then before.insuranceFee else 0)
  }

  lemma StepCredits(reg: Registry, s: State, step: Step, sid: SeriesId)
    requires Enabled(reg, s, step) && OrdersExact(reg, s.core.orders) && sid in s.core.plans
    requires step.Settle? ==> step.sid == sid
    ensures sid in After(reg, s, step).core.plans && Credits(s, After(reg, s, step), sid)
  {
    hide ExecuteTrade, PlaceLimitOrder, MintCompleteSet, FillOrder, SettleSeries, RedeemCompleteSet, Listings;
    match step {
      case Settle(i, settlement, keys, ids, running, now) => SettleShape(s, sid, settlement, keys, ids, running, now);
      case Fill(taker, id, seen, tradeId, requested, now) => FillLeavesPlans(reg, s, taker, id, seen, tradeId, requested, now);
      case Matched(t, now) => TradeLeavesPlans(s, reg[t.seriesId], t, now);
      case _ => QuietSteps(reg, s, step);
    }
  }

  lemma {:induction false} RunCredits(reg: Registry, s: State, steps: seq<Step>, sid: SeriesId)
    requires Frame(reg, s.core) && CachedKnown(reg, s.ops) && ValidRun(reg, s, steps)
    requires sid in s.core.plans && SettlesOnly(steps, sid)
    ensures sid in RunAll(reg, s, steps).core.plans && Credits(s, RunAll(reg, s, steps), sid)
    decreases |steps|
  {
    hide After, Enabled, Frame;
    if steps == [] {
    } else {
      var s1 := After(reg, s, steps[0]);
      StepFrame(reg, s, steps[0]);
      FrameParts(reg, s.core, sid);
      StepCredits(reg, s, steps[0], sid);
      RunCredits(reg, s1, steps[1..], sid);
    }
  }

  lemma OpeningCredits(s: State, step: Step)
    requires step.Settle? && PlansInRange(s.core.plans) && Listings(s.core, step.sid, step.keys, step.ids)
    requires Prepares(s, step.sid, step.settlement, step.keys, step.ids, step.now)
    ensures var s1 := SettleSeries(s, step.sid, step.settlement, step.keys, step.ids, step.running, step.now).state;
      var plan := OpenedPlan(s, step.sid, step.settlement, step.keys, step.ids, step.now);
      && step.sid in s1.core.plans
      && s1.core.plans[step.sid].fee == plan.fee && s1.core.plans[step.sid].insuranceFee == plan.insuranceFee
      && s1.ops.treasury == s.ops.treasury + (if s1.core.plans[step.sid].applied then plan.fee else 0)
      && s1.ops.insurance == s.ops.insurance + (if s1.core.plans[step.sid].applied then plan.insuranceFee else 0)
  {
    SettleShape(s, step.sid, step.settlement, step.keys, step.ids, step.running, step.now);
    hide SettleSeries, LinesOf, ProtocolFees, InsuranceFees, Prepares;
  }

  // A call that opens a plan, and whatever follows it in any order: once the plan is finalised the treasury
  // is up by its share of what each position of the series is paid, and the insurance fund by its own, the
  // positions being those held when the plan was opened. A ratio of zero leaves its own fund alone.
  lemma FundsGainTheirShares(reg: Registry, s: State, steps: seq<Step>, toInsurance: map<PosKey, nat>, toTreasury: map<PosKey, nat>)
    requires Frame(reg, s.core) && CachedKnown(reg, s.ops) && ValidRun(reg, s, steps)
    requires steps != [] && steps[0].Settle? && SettlesOnly(steps, steps[0].sid)
    requires steps[0].sid !in s.core.plans && steps[0].sid in After(reg, s, steps[0]).core.plans && steps[0].sid in s.ops.cached
    requires Schedule(s.ops.cached[steps[0].sid], steps[0].settlement, s.market.insuranceBps, s.core.positions, steps[0].sid, toInsurance)
    requires Schedule(s.ops.cached[steps[0].sid], steps[0].settlement, s.market.protocolBps, s.core.positions, steps[0].sid, toTreasury)
    ensures var sid, s' := steps[0].sid, RunAll(reg, s, steps);
      && sid in s'.core.plans
      && (s'.core.plans[sid].status.Finalised? ==>
            (s'.ops.treasury == s.ops.treasury + Total(toTreasury, Amount())
            && s'.ops.insurance == s.ops.insurance + Total(toInsurance, Amount())))
      && (!s'.core.plans[sid].status.Finalised? ==> s'.ops.treasury == s.ops.treasury && s'.ops.insurance == s.ops.insurance)
      && (s.market.protocolBps == 0 ==> s'.ops.treasury == s.ops.treasury)
      && (s.market.insuranceBps == 0 ==> s'.ops.insurance == s.ops.insurance)
  {
    var step, s1, s' := steps[0], After(reg, s, steps[0]), RunAll(reg, s, steps);
    var sid := step.sid;
    Opens(s, step);
    OpeningCredits(s, step);
    PlanIsExact(s, sid, step.settlement, step.keys, step.ids, step.now, toInsurance, toTreasury);
    StepFrame(reg, s, step);
    RunCredits(reg, s1, steps[1..], sid);
    RunKeepsFrame(reg, s, steps);
    FrameParts(reg, s'.core, sid);
    hide Frame, Schedule, After, SettleSeries, Prepares, OpenedPlan, Enabled;
    if s.market.protocolBps == 0 { NoShare(s.ops.cached[sid], step.settlement, s.core.positions, sid, toTreasury); }
    if s.market.insuranceBps == 0 { NoShare(s.ops.cached[sid], step.settlement, s.core.positions, sid, toInsurance); }
  }

  lemma Opens(s: State, step: Step)
    requires step.Settle? && PlansInRange(s.core.plans) && Listings(s.core, step.sid, step.keys, step.ids)
    requires step.sid !in s.core.plans
    requires step.sid in SettleSeries(s, step.sid, step.settlement, step.keys, step.ids, step.running, step.now).state.core.plans
    ensures Prepares(s, step.sid, step.settlement, step.keys, step.ids, step.now)
  {
    SettleShape(s, step.sid, step.settlement, step.keys, step.ids, step.running, step.now);
    hide SettleSeries;
  }

  lemma NoShare(series: Series, settlement: SettlementInput, positions: map<PosKey, Position>, sid: SeriesId, fees: map<PosKey, nat>)
    requires Schedule(series, settlement, 0, positions, sid, fees)
    ensures Total(fees, Amount()) == 0
  {
    forall k | k in fees ensures fees[k] == 0 {
      var payoff: int :| Receives(series, settlement, k, positions[k], payoff) && ShareOf(fees[k], payoff, 0);
    }
    TotalOfZero(fees, Amount());
  }
}
