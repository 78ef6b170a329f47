// Chunked settlement: any sequence of calls with any chunk boundaries applies each entry once, in
// order, and does what one uninterrupted pass does.
module SettlementRuns {
  import opened Base
  import opened Payoffs
  import opened Types
  import opened Totals
  import opened Book
  import opened Clearing
  import opened Coverage
  import opened SettlementCoverage
  import opened Rekey
  import opened Runs
  import opened CoverageRuns
  import opened CoverageTheorem

  // ---------------------------------------------------------------- chunks compose

  lemma {:induction false} ApplyComposes(accounts: map<User, Account>, d: Domain, entries: seq<SettlementPosition>,
                                         lo: nat, mid: nat, hi: nat)
    requires lo <= mid <= hi <= |entries|
    ensures ApplyEntries(ApplyEntries(accounts, d, entries, lo, mid), d, entries, mid, hi)
         == ApplyEntries(accounts, d, entries, lo, hi)
    decreases hi
  {
    if mid == hi {
    } else {
      ApplyComposes(accounts, d, entries, lo, mid, hi - 1);
    }
  }

  lemma DriveCoreComposes(c: Core, sid: SeriesId, plan: SettlementPlan, mid: nat, end: nat)
    requires Reaches(plan, mid) && mid <= end <= |plan.positions|
    requires !plan.applied && mid < |plan.positions|
    ensures Reaches(DrivenPlan(plan, mid), end)
    ensures DrivenCore(DrivenCore(c, sid, plan, mid), sid, DrivenPlan(plan, mid), end) == DrivenCore(c, sid, plan, end)
  {
    ApplyComposes(c.accounts, plan.domain, plan.positions, plan.cursor, mid, end);
    var c1 := DrivenCore(c, sid, plan, mid);
    var plan1 := DrivenPlan(plan, mid);
    assert plan1.cursor == mid && !plan1.applied && plan1.positions == plan.positions && plan1.domain == plan.domain;
    assert DrivenPlan(plan1, end) == DrivenPlan(plan, end);
    assert c1.plans[sid := DrivenPlan(plan, end)] == c.plans[sid := DrivenPlan(plan, end)];
  }

  lemma DriveOpsComposes(ops: Ops, sid: SeriesId, plan: SettlementPlan, mid: nat, end: nat)
    requires Reaches(plan, mid) && mid <= end <= |plan.positions|
    requires !plan.applied && mid < |plan.positions|
    ensures DrivenOps(DrivenOps(ops, sid, plan, mid), sid, DrivenPlan(plan, mid), end) == DrivenOps(ops, sid, plan, end)
  {
    assert DrivenOps(ops, sid, plan, mid) == ops;
  }

  // One call to settle, resume, or the heartbeat: where the instruction counter runs, and when.
  datatype Call = Call(running: set<nat>, now: nat)

  // A call on an open plan with the locked input, as SettleSeries makes it.
  ghost function DriveOnce(s: State, sid: SeriesId, call: Call): State
    requires sid in s.core.plans && PlanInRange(s.core.plans[sid])
  {
    var plan := s.core.plans[sid];
    if plan.status.Finalised? then s else DriveTo(s, sid, plan, EndFor(plan, call.running), call.now).state
  }

  lemma DriveOnceIsSettle(s: State, sid: SeriesId, call: Call, keys: seq<PosKey>, ids: seq<OrderId>)
    requires sid in s.core.plans && PlansInRange(s.core.plans) && Listings(s.core, sid, keys, ids)
    ensures SettleSeries(s, sid, s.core.plans[sid].settlement, keys, ids, call.running, call.now).state == DriveOnce(s, sid, call)
  {
  }

  ghost predicate Open(s: State, sid: SeriesId) {
    && sid in s.core.plans && PlanInRange(s.core.plans[sid])
    && !s.core.plans[sid].applied && !s.core.plans[sid].status.Finalised?
  }

  lemma DriveOnceIsOpen(s: State, sid: SeriesId, call: Call)
    requires Open(s, sid)
    ensures var plan, s' := s.core.plans[sid], DriveOnce(s, sid, call);
      var end := EndFor(plan, call.running);
      && s'.core == DrivenCore(s.core, sid, plan, end) && s'.ops == DrivenOps(s.ops, sid, plan, end)
      && sid in s'.core.plans && s'.core.plans[sid] == DrivenPlan(plan, end)
      && PlanInRange(s'.core.plans[sid])
      && (Open(s', sid) <==> end < |plan.positions|)
  {
  }

  ghost function DriveAll(s: State, sid: SeriesId, calls: seq<Call>): State
    requires Open(s, sid)
    decreases |calls|
  {
    if calls == [] then s
    else
      DriveOnceIsOpen(s, sid, calls[0]);
      var s1 := DriveOnce(s, sid, calls[0]);
      if Open(s1, sid) then DriveAll(s1, sid, calls[1..]) else s1
  }

  // pending_settlement_params: every plan still in flight once, with the input it locked.
  method PendingSettlementParams(plans: map<SeriesId, SettlementPlan>) returns (pending: seq<(SeriesId, SettlementInput)>)
    ensures forall sid, x :: (sid, x) in pending <==> sid in plans && !plans[sid].status.Finalised? && x == plans[sid].settlement
    ensures forall i, j :: 0 <= i < j < |pending| ==> pending[i].0 != pending[j].0
  {
    pending := [];
    var left := plans.Keys;
    while left != {}
      invariant left <= plans.Keys
      invariant forall sid, x ::
        (sid, x) in pending <==> sid in plans && sid !in left && !plans[sid].status.Finalised? && x == plans[sid].settlement
      invariant forall i, j :: 0 <= i < j < |pending| ==> pending[i].0 != pending[j].0
      decreases |left|
    {
      var sid :| sid in left;
      left := left - {sid};
      if !plans[sid].status.Finalised? {
        forall i | 0 <= i < |pending| ensures pending[i].0 != sid {
          assert (pending[i].0, pending[i].1) in pending;
        }
        pending := pending + [(sid, plans[sid].settlement)];
      }
    }
  }

  // Whatever the chunk boundaries, the accounts, the plan and the funds end as one pass over the
  // same entries leaves them.
  lemma {:induction false} ChunksAreOnePass(s: State, sid: SeriesId, calls: seq<Call>)
    requires Open(s, sid) && calls != []
    ensures sid in DriveAll(s, sid, calls).core.plans
    ensures var plan, s' := s.core.plans[sid], DriveAll(s, sid, calls);
      var end := s'.core.plans[sid].cursor;
      && Reaches(plan, end)
      && s'.core == DrivenCore(s.core, sid, plan, end)
      && s'.ops == DrivenOps(s.ops, sid, plan, end)
    decreases |calls|
  {
    var plan := s.core.plans[sid];
    DriveOnceIsOpen(s, sid, calls[0]);
    var s1 := DriveOnce(s, sid, calls[0]);
    if !Open(s1, sid) || calls[1..] == [] {
    } else {
      ChunksAreOnePass(s1, sid, calls[1..]);
      var end := DriveAll(s1, sid, calls[1..]).core.plans[sid].cursor;
      var mid := EndFor(plan, calls[0].running);
      DriveCoreComposes(s.core, sid, plan, mid, end);
      DriveOpsComposes(s.ops, sid, plan, mid, end);
    }
  }

  // positions minus cursor falls at every call, so that many calls (one for an empty plan) finalise it.
  lemma {:induction false} CallsTerminate(s: State, sid: SeriesId, calls: seq<Call>)
    requires Open(s, sid)
    requires |calls| > |s.core.plans[sid].positions| - s.core.plans[sid].cursor
    ensures var plan, s' := s.core.plans[sid], DriveAll(s, sid, calls);
      && sid in s'.core.plans
      && s'.core.plans[sid] == plan.(cursor := |plan.positions|, applied := true, status := Finalised)
      && s'.ops.treasury == s.ops.treasury + plan.fee && s'.ops.insurance == s.ops.insurance + plan.insuranceFee
    decreases |calls|
  {
    var plan := s.core.plans[sid];
    DriveOnceIsOpen(s, sid, calls[0]);
    var s1 := DriveOnce(s, sid, calls[0]);
    if !Open(s1, sid) {
    } else {
      CallsTerminate(s1, sid, calls[1..]);
    }
  }

  // A call stops before the end only at a multiple of 100 where the instruction counter is running, and at
  // the first one.
  lemma {:induction false} CallsStopAtHundreds(from: nat, n: nat, running: set<nat>)
    requires from <= n
    ensures var end := ChunkEnd(from, n, running);
      && (end < n ==> end % 100 == 0 && end in running)
      && (forall i :: from < i < end && i % 100 == 0 ==> i !in running)
    decreases n - from
  {
    if from < n && !((from + 1) % 100 == 0 && from + 1 in running) { CallsStopAtHundreds(from + 1, n, running); }
  }

  // The state a single unlimited call reaches.
  ghost function OnePass(s: State, sid: SeriesId, now: nat): State
    requires Open(s, sid)
  {
    DriveTo(s, sid, s.core.plans[sid], |s.core.plans[sid].positions|, now).state
  }

  // Enough calls, chunked in any way, reach the accounts, plan and funds of the single pass.
  lemma EnoughChunksAreTheWholePass(s: State, sid: SeriesId, calls: seq<Call>, now: nat)
    requires Open(s, sid)
    requires |calls| > |s.core.plans[sid].positions| - s.core.plans[sid].cursor
    ensures DriveAll(s, sid, calls).core == OnePass(s, sid, now).core
    ensures DriveAll(s, sid, calls).ops == OnePass(s, sid, now).ops
  {
    ChunksAreOnePass(s, sid, calls);
    CallsTerminate(s, sid, calls);
  }

  // ---------------------------------------------------------------- settle calls as chunks

  // Calls on one series that carry one input, with nothing else in between.
  ghost predicate CallsOn(steps: seq<Step>, sid: SeriesId, settlement: SettlementInput) {
    forall i :: 0 <= i < |steps| ==> steps[i].Settle? && steps[i].sid == sid && steps[i].settlement == settlement
  }

  function Chunks(steps: seq<Step>): seq<Call> {
    if steps == [] then []
    else (if steps[0].Settle? then [Call.Call(steps[0].running, steps[0].now)] else []) + Chunks(steps[1..])
  }

  lemma {:induction false} FinishedCallsChangeNothing(reg: Registry, s: State, sid: SeriesId, settlement: SettlementInput, steps: seq<Step>)
    requires sid in s.core.plans && s.core.plans[sid].status.Finalised?
    requires ValidRun(reg, s, steps) && CallsOn(steps, sid, settlement)
    ensures RunAll(reg, s, steps) == s
    decreases |steps|
  {
    if steps == [] {
    } else {
      FinishedCallsChangeNothing(reg, s, sid, settlement, steps[1..]);
    }
  }

  // settle_series called over and over with the locked input does what the chunks above do: they are
  // the calls themselves, so what is proved of them is proved of every sequence of calls.
  lemma {:induction false} CallsAreChunks(reg: Registry, s: State, sid: SeriesId, steps: seq<Step>)
    requires Open(s, sid) && ValidRun(reg, s, steps) && CallsOn(steps, sid, s.core.plans[sid].settlement)
    ensures RunAll(reg, s, steps) == DriveAll(s, sid, Chunks(steps)) && |Chunks(steps)| == |steps|
    decreases |steps|
  {
    hide SettleSeries, DriveTo, EndFor, Listings;
    if steps == [] {
    } else {
      var call := Call.Call(steps[0].running, steps[0].now);
      var s1 := After(reg, s, steps[0]);
      DriveOnceIsSettle(s, sid, call, steps[0].keys, steps[0].ids);
      DriveOnceIsOpen(s, sid, call);
      assert Chunks(steps) == [call] + Chunks(steps[1..]);
      assert Chunks(steps)[0] == call && Chunks(steps)[1..] == Chunks(steps[1..]);
      if Open(s1, sid) {
        CallsAreChunks(reg, s1, sid, steps[1..]);
      } else {
        FinishedCallsChangeNothing(reg, s1, sid, s.core.plans[sid].settlement, steps[1..]);
        CountChunks(steps[1..], sid, s.core.plans[sid].settlement);
      }
    }
  }

  lemma {:induction false} CountChunks(steps: seq<Step>, sid: SeriesId, settlement: SettlementInput)
    requires CallsOn(steps, sid, settlement)
    ensures |Chunks(steps)| == |steps|
  {
    if steps == [] {
    } else {
      CountChunks(steps[1..], sid, settlement);
    }
  }

  // ---------------------------------------------------------------- exactly once, whatever runs in between

  datatype Row = Row(user: User, qty: int)

  // The Settled rows of one series in the log, in order.
  ghost function SettledRows(events: seq<Event>, sid: SeriesId): seq<Row> {
    if events == [] then []
    else
      var e := events[|events| - 1];
      SettledRows(events[..|events| - 1], sid)
      + if e.kind.Settled? && e.series == sid then [Row(e.user, e.qty)] else []
  }

  ghost function EntryRows(entries: seq<SettlementPosition>): seq<Row> {
    seq(|entries|, i requires 0 <= i < |entries| => Row(entries[i].user, entries[i].cashflow))
  }

  lemma {:induction false} RowsAppend(a: seq<Event>, b: seq<Event>, sid: SeriesId)
    ensures SettledRows(a + b, sid) == SettledRows(a, sid) + SettledRows(b, sid)
    decreases |b|
  {
    if b == [] {
      assert a + b == a;
    } else {
      var n := |b| - 1;
      RowsAppend(a, b[..n], sid);
      assert (a + b)[..|a + b| - 1] == a + b[..n];
    }
  }

  lemma {:induction false} EmittedRows(accounts: map<User, Account>, sid: SeriesId, plan: SettlementPlan, lo: nat, hi: nat,
                                       next: nat, now: nat, sid': SeriesId)
    requires lo <= hi <= |plan.positions|
    requires forall i :: lo <= i < hi ==> plan.positions[i].user in accounts
    ensures SettledRows(EntryEvents(accounts, sid, plan, lo, hi, next, now), sid')
         == if sid' == sid then EntryRows(plan.positions[lo..hi]) else []
    decreases hi
  {
    if lo == hi {
    } else {
      EmittedRows(accounts, sid, plan, lo, hi - 1, next, now, sid');
      var before := EntryEvents(accounts, sid, plan, lo, hi - 1, next, now);
      var all := EntryEvents(accounts, sid, plan, lo, hi, next, now);
      assert all[..|all| - 1] == before;
      assert plan.positions[lo..hi] == plan.positions[lo..hi - 1] + [plan.positions[hi - 1]];
      assert EntryRows(plan.positions[lo..hi])
          == EntryRows(plan.positions[lo..hi - 1]) + [Row(plan.positions[hi - 1].user, plan.positions[hi - 1].cashflow)];
    }
  }

  // The log records, for each series, exactly the entries its plan has applied so far, in order.
  ghost predicate LogSound(s: State) {
    forall sid :: SettledRows(s.log.events, sid)
      == if sid in s.core.plans && PlanInRange(s.core.plans[sid])
         then EntryRows(s.core.plans[sid].positions[..s.core.plans[sid].cursor]) else []
  }

  lemma DrivenLogSound(s: State, sid: SeriesId, plan: SettlementPlan, end: nat, now: nat)
    requires LogSound(s)
    requires sid in s.core.plans && s.core.plans[sid] == plan && Reaches(plan, end)
    requires EntriesHaveAccounts(s.core, plan)
    ensures LogSound(DriveTo(s, sid, plan, end, now).state)
  {
    hide SettledRows, EntryRows, EntryEvents, ApplyEntries;
    var s' := DriveTo(s, sid, plan, end, now).state;
    if plan.applied {
      assert s'.log == s.log;
    } else {
      forall i ensures SettledRows(s'.log.events, i)
        == if i in s'.core.plans && PlanInRange(s'.core.plans[i])
           then EntryRows(s'.core.plans[i].positions[..s'.core.plans[i].cursor]) else []
      {
        DrivenRows(s, sid, plan, end, now, i);
      }
    }
  }

  lemma DrivenRows(s: State, sid: SeriesId, plan: SettlementPlan, end: nat, now: nat, i: SeriesId)
    requires sid in s.core.plans && s.core.plans[sid] == plan && Reaches(plan, end)
    requires EntriesHaveAccounts(s.core, plan) && !plan.applied
    requires i == sid ==> SettledRows(s.log.events, i) == EntryRows(plan.positions[..plan.cursor])
    ensures SettledRows(DrivenLog(s.log, s.core.accounts, sid, plan, end, now).events, i)
         == if i == sid then EntryRows(plan.positions[..end]) else SettledRows(s.log.events, i)
  {
    var emitted := EntryEvents(s.core.accounts, sid, plan, plan.cursor, end, s.log.next, now);
    RowsAppend(s.log.events, emitted, i);
    EmittedRows(s.core.accounts, sid, plan, plan.cursor, end, s.log.next, now, i);
    RowsJoin(plan.positions, plan.cursor, end);
  }

  lemma RowsJoin(entries: seq<SettlementPosition>, lo: nat, hi: nat)
    requires lo <= hi <= |entries|
    ensures EntryRows(entries[..hi]) == EntryRows(entries[..lo]) + EntryRows(entries[lo..hi])
  {
    assert entries[..hi] == entries[..lo] + entries[lo..hi];
  }

  lemma TradeLogSound(s: State, series: Series, t: TradeParams, now: nat)
    requires LogSound(s)
    ensures LogSound(ExecuteTrade(s, series, t, now).state)
  {
    if Executes(s, series, t) {
      ExecutedCore(s, series, t, now);
      var s' := ExecuteTrade(s, series, t, now).state;
      var rows := TradeEvents(t, s.log.next, now);
      assert s'.log.events == s.log.events + rows && s'.core.plans == s.core.plans;
      forall i ensures SettledRows(s'.log.events, i) == SettledRows(s.log.events, i) {
        RowsAppend(s.log.events, rows, i);
        assert rows[..1][..0] == [] && SettledRows(rows[..1], i) == [];
      }
    } else {
      FailedTradeChangesNothing(s, series, t, now);
    }
  }

  lemma OpenedLogSound(s: State, s1: State, sid: SeriesId, plan: SettlementPlan)
    requires LogSound(s) && s1.log == s.log
    requires sid !in s.core.plans && s1.core.plans == s.core.plans[sid := plan] && plan.cursor == 0
    ensures LogSound(s1)
  {
    assert EntryRows(plan.positions[..0]) == [];
  }

  lemma SettleLogSound(reg: Registry, s: State, sid: SeriesId, settlement: SettlementInput,
                       keys: seq<PosKey>, ids: seq<OrderId>, running: set<nat>, now: nat)
    requires LogSound(s) && Frame(reg, s.core) && CachedKnown(reg, s.ops)
    requires PlansInRange(s.core.plans) && Listings(s.core, sid, keys, ids)
    ensures LogSound(SettleSeries(s, sid, settlement, keys, ids, running, now).state)
  {
    hide SettleSeries, Prepares, LinesOf, DriveTo, LogSound, Frame, Prepared, OpenedPlan;
    SettleShape(s, sid, settlement, keys, ids, running, now);
    FrameSettles(reg, s, sid);
    if Resumes(s, sid, settlement) {
      DrivenLogSound(s, sid, s.core.plans[sid], EndFor(s.core.plans[sid], running), now);
    } else if Prepares(s, sid, settlement, keys, ids, now) {
      var s1, plan := OpenedState(s, sid, settlement, keys, ids, now), OpenedPlan(s, sid, settlement, keys, ids, now);
      OpenedIsFresh(s, sid, settlement, keys, ids, now);
      OpenedPlanFacts(reg, s, sid, settlement, keys, ids, now);
      OpenedLogSound(s, s1, sid, plan);
      DrivenLogSound(s1, sid, plan, EndFor(plan, running), now);
    }
  }

  predicate Quiet(step: Step) { !step.Fill? && !step.Matched? && !step.Settle? }

  // Everything but a trade or a settlement call leaves the log, the plans and the funds alone.
  lemma QuietSteps(reg: Registry, s: State, step: Step)
    requires Enabled(reg, s, step) && Quiet(step)
    ensures var s' := After(reg, s, step);
      && s'.log == s.log && s'.core.plans == s.core.plans
      && s'.ops.treasury == s.ops.treasury && s'.ops.insurance == s.ops.insurance
  {
    hide NoArbitrage, GetRequiredMargin, RawEquity, Redeemed, CanRedeem, CanRekey;
    if step.Redeem? { RedeemKeepsPlans(s, step.caller, step.sid, reg[step.sid], step.qty); }
  }

  lemma StepLogSound(reg: Registry, s: State, step: Step)
    requires Frame(reg, s.core) && CachedKnown(reg, s.ops) && Enabled(reg, s, step)
    requires LogSound(s)
    ensures LogSound(After(reg, s, step))
  {
    hide ExecuteTrade, LogSound, PlaceLimitOrder, MintCompleteSet, FillOrder, SettleSeries, RedeemCompleteSet;
    match step {
      case Fill(taker, id, seen, tradeId, requested, now) => FillLogSound(reg, s, taker, id, seen, tradeId, requested, now);
      case Matched(t, now) => TradeLogSound(s, reg[t.seriesId], t, now);
      case Settle(sid, settlement, keys, ids, running, now) => SettleLogSound(reg, s, sid, settlement, keys, ids, running, now);
      case _ =>
        QuietSteps(reg, s, step);
        LogSoundReads(s, After(reg, s, step));
    }
  }

  lemma LogSoundReads(s: State, s': State)
    requires LogSound(s) && s'.log == s.log && s'.core.plans == s.core.plans
    ensures LogSound(s')
  {
  }

  lemma FillLogSound(reg: Registry, s: State, taker: User, id: OrderId, seen: LimitOrder, tradeId: TradeId,
                     requested: Option<int>, now: nat)
    requires LogSound(s) && seen.series in reg && OrdersExact(reg, s.core.orders)
    ensures LogSound(FillOrder(s, taker, id, seen, tradeId, reg[seen.series], requested, now).state)
  {
    FillShape(reg, s, taker, id, seen, tradeId, requested, now);
    if Fills(reg, s, taker, id, seen, tradeId, requested, now) {
      var o := s.core.orders[id];
      var fill := FillQty(requested, o.qty);
      var t := FillTrade(reg, o, taker, tradeId, fill);
      TradeLogSound(s, reg[o.series], t, now);
      var traded := ExecuteTrade(s, reg[o.series], t, now);
      AfterTradeDone(traded, id, Rest(reg, o, fill));
      LogSoundReads(traded.state, FillOrder(s, taker, id, seen, tradeId, reg[seen.series], requested, now).state);
    }
  }

  lemma {:induction false} RedeemedPlans(c: Core, u: User, d: Domain, sid: SeriesId, outcomes: seq<OutcomeId>, qty: nat)
    ensures Redeemed(c, u, d, sid, outcomes, qty).Some? ==>
      Redeemed(c, u, d, sid, outcomes, qty).value.plans == c.plans && Redeemed(c, u, d, sid, outcomes, qty).value.orders == c.orders
    decreases |outcomes|
  {
    if outcomes == [] {
    } else {
      var k := SetKey(u, sid, outcomes[0]);
      if k !in c.positions {
        RedeemedPlans(c, u, d, sid, outcomes[1..], qty);
      } else {
        RedeemedPlans(RedeemOne(c, u, d, k, qty), u, d, sid, outcomes[1..], qty);
      }
    }
  }

  lemma RedeemKeepsPlans(s: State, caller: User, sid: SeriesId, series: Series, qty: int)
    ensures var s' := RedeemCompleteSet(s, caller, sid, series, qty).state;
      s'.core.plans == s.core.plans && s'.core.orders == s.core.orders && s'.log == s.log && s'.ops == s.ops
  {
    if qty > 0 && series.outcomes.Some? {
      RedeemedPlans(s.core, caller, series.domain, sid, series.outcomes.value, qty);
    }
  }

  // In every reachable state each planned entry up to the cursor has been applied once, and no other.
  lemma {:induction false} AppliedExactlyOnce(reg: Registry, s: State, steps: seq<Step>)
    requires Frame(reg, s.core) && CachedKnown(reg, s.ops) && ValidRun(reg, s, steps) && LogSound(s)
    ensures LogSound(RunAll(reg, s, steps))
    decreases |steps|
  {
    if steps == [] {
    } else {
      StepFrame(reg, s, steps[0]);
      StepLogSound(reg, s, steps[0]);
      AppliedExactlyOnce(reg, After(reg, s, steps[0]), steps[1..]);
    }
  }

  // ---------------------------------------------------------------- plans only move forward

  ghost predicate Progress(plan: SettlementPlan, plan': SettlementPlan) {
    && plan'.settlement == plan.settlement && plan'.positions == plan.positions && plan'.domain == plan.domain
    && plan'.fee == plan.fee && plan'.insuranceFee == plan.insuranceFee && plan'.createdNs == plan.createdNs
    && plan'.cursor >= plan.cursor && (plan.status.Finalised? ==> plan' == plan)
  }

  ghost function FeesTaken(): (SeriesId, SettlementPlan) -> int {
    (sid: SeriesId, plan: SettlementPlan) => if plan.applied then plan.fee else 0
  }

  ghost function InsuranceTaken(): (SeriesId, SettlementPlan) -> int {
    (sid: SeriesId, plan: SettlementPlan) => if plan.applied then plan.insuranceFee else 0
  }

  // What the funds hold beyond the fees of the plans applied so far; credits alone change it.
  ghost function OtherFunds(s: State): (int, int) {
    (s.ops.treasury - Total(s.core.plans, FeesTaken()), s.ops.insurance - Total(s.core.plans, InsuranceTaken()))
  }

  ghost predicate PlansAdvance(s: State, s': State) {
    && (forall sid :: sid in s.core.plans ==> sid in s'.core.plans && Progress(s.core.plans[sid], s'.core.plans[sid]))
    && OtherFunds(s') == OtherFunds(s)
  }

  lemma DrivenAdvances(s: State, sid: SeriesId, plan: SettlementPlan, end: nat, now: nat)
    requires sid in s.core.plans && s.core.plans[sid] == plan && Reaches(plan, end) && !plan.status.Finalised?
    ensures PlansAdvance(s, DriveTo(s, sid, plan, end, now).state)
  {
    TotalPut(s.core.plans, sid, DrivenPlan(plan, end), FeesTaken());
    TotalPut(s.core.plans, sid, DrivenPlan(plan, end), InsuranceTaken());
  }

  lemma NewPlanAdvances(s: State, sid: SeriesId, c: Core, plan: SettlementPlan)
    requires sid !in s.core.plans && c.plans == s.core.plans[sid := plan] && !plan.applied
    ensures PlansAdvance(s, s.(core := c))
  {
    TotalPut(s.core.plans, sid, plan, FeesTaken());
    TotalPut(s.core.plans, sid, plan, InsuranceTaken());
  }

  lemma AdvanceChains(a: State, b: State, c: State)
    requires PlansAdvance(a, b) && PlansAdvance(b, c)
    ensures PlansAdvance(a, c)
  {
  }

  lemma OpenedIsFresh(s: State, sid: SeriesId, settlement: SettlementInput, keys: seq<PosKey>, ids: seq<OrderId>, now: nat)
    requires Listings(s.core, sid, keys, ids) && Prepares(s, sid, settlement, keys, ids, now)
    ensures var plan := OpenedPlan(s, sid, settlement, keys, ids, now);
      && sid !in s.core.plans && plan.cursor == 0 && !plan.applied && plan.status.Planned?
      && OpenedState(s, sid, settlement, keys, ids, now).core.plans == s.core.plans[sid := plan]
  {
  }

  lemma SettleAdvances(s: State, sid: SeriesId, settlement: SettlementInput,
                       keys: seq<PosKey>, ids: seq<OrderId>, running: set<nat>, now: nat)
    requires PlansInRange(s.core.plans) && Listings(s.core, sid, keys, ids)
    ensures PlansAdvance(s, SettleSeries(s, sid, settlement, keys, ids, running, now).state)
  {
    hide SettleSeries, Prepares, PlansAdvance, LinesOf, DriveTo;
    SettleShape(s, sid, settlement, keys, ids, running, now);
    if Resumes(s, sid, settlement) {
      DrivenAdvances(s, sid, s.core.plans[sid], EndFor(s.core.plans[sid], running), now);
    } else if Prepares(s, sid, settlement, keys, ids, now) {
      var s1, plan := OpenedState(s, sid, settlement, keys, ids, now), OpenedPlan(s, sid, settlement, keys, ids, now);
      OpenedIsFresh(s, sid, settlement, keys, ids, now);
      NewPlanAdvances(s, sid, s1.core, plan);
      DrivenAdvances(s1, sid, plan, EndFor(plan, running), now);
      AdvanceChains(s, s1, DriveTo(s1, sid, plan, EndFor(plan, running), now).state);
    } else {
      SamePlansAdvance(s, s);
    }
  }

  // Steps that touch neither plans nor funds.
  lemma SamePlansAdvance(s: State, s': State)
    requires s'.core.plans == s.core.plans && s'.ops.treasury == s.ops.treasury && s'.ops.insurance == s.ops.insurance
    ensures PlansAdvance(s, s')
  {
  }

  lemma TradeLeavesPlans(s: State, series: Series, t: TradeParams, now: nat)
    ensures var s' := ExecuteTrade(s, series, t, now).state;
      s'.core.plans == s.core.plans && s'.ops.treasury == s.ops.treasury && s'.ops.insurance == s.ops.insurance
  {
    if Executes(s, series, t) {
      ExecutedCore(s, series, t, now);
    } else {
      FailedTradeChangesNothing(s, series, t, now);
    }
  }

  lemma FillLeavesPlans(reg: Registry, s: State, taker: User, id: OrderId, seen: LimitOrder, tradeId: TradeId,
                        requested: Option<int>, now: nat)
    requires seen.series in reg && OrdersExact(reg, s.core.orders)
    ensures var s' := FillOrder(s, taker, id, seen, tradeId, reg[seen.series], requested, now).state;
      s'.core.plans == s.core.plans && s'.ops.treasury == s.ops.treasury && s'.ops.insurance == s.ops.insurance
  {
    FillShape(reg, s, taker, id, seen, tradeId, requested, now);
    if Fills(reg, s, taker, id, seen, tradeId, requested, now) {
      var o := s.core.orders[id];
      var fill := FillQty(requested, o.qty);
      var t := FillTrade(reg, o, taker, tradeId, fill);
      TradeLeavesPlans(s, reg[o.series], t, now);
      AfterTradeDone(ExecuteTrade(s, reg[o.series], t, now), id, Rest(reg, o, fill));
    }
  }

  lemma StepAdvances(reg: Registry, s: State, step: Step)
    requires Enabled(reg, s, step) && OrdersExact(reg, s.core.orders)
    ensures PlansAdvance(s, After(reg, s, step))
  {
    hide ExecuteTrade, PlansAdvance, PlaceLimitOrder, MintCompleteSet, FillOrder, SettleSeries, RedeemCompleteSet;
    match step {
      case Settle(sid, settlement, keys, ids, running, now) => SettleAdvances(s, sid, settlement, keys, ids, running, now);
      case Fill(taker, id, seen, tradeId, requested, now) => FillLeavesPlans(reg, s, taker, id, seen, tradeId, requested, now);
      case Matched(t, now) => TradeLeavesPlans(s, reg[t.seriesId], t, now);
      case _ => QuietSteps(reg, s, step);
    }
    if !step.Settle? { SamePlansAdvance(s, After(reg, s, step)); }
  }

  // Over any run a plan keeps its input, its entries and its fees, its cursor never goes back, a
  // finalised plan never changes, and each plan's fees reach the two funds exactly when it is applied.
  lemma {:induction false} PlansOnlyAdvance(reg: Registry, s: State, steps: seq<Step>)
    requires Frame(reg, s.core) && CachedKnown(reg, s.ops) && ValidRun(reg, s, steps)
    ensures PlansAdvance(s, RunAll(reg, s, steps))
    decreases |steps|
  {
    if steps == [] {
    } else {
      var s1 := After(reg, s, steps[0]);
      StepFrame(reg, s, steps[0]);
      StepAdvances(reg, s, steps[0]);
      PlansOnlyAdvance(reg, s1, steps[1..]);
      AdvanceChains(s, s1, RunAll(reg, s, steps));
    }
  }

  // ---------------------------------------------------------------- what a caller is told, for ever after

  // Once a plan is finalised it stays as it is through any run, and any settle call on the series, with
  // whatever input, is answered as finished and changes nothing.
  lemma FinalisedAbsorbs(reg: Registry, s: State, steps: seq<Step>, sid: SeriesId, settlement: SettlementInput,
                         keys: seq<PosKey>, ids: seq<OrderId>, running: set<nat>, now: nat)
    requires Frame(reg, s.core) && CachedKnown(reg, s.ops) && ValidRun(reg, s, steps)
    requires sid in s.core.plans && s.core.plans[sid].status.Finalised?
    requires Listings(RunAll(reg, s, steps).core, sid, keys, ids)
    ensures var s' := RunAll(reg, s, steps);
      && sid in s'.core.plans && s'.core.plans[sid] == s.core.plans[sid]
      && PlansInRange(s'.core.plans)
      && SettleSeries(s', sid, settlement, keys, ids, running, now) == Reply(s', Ok(true))
  {
    PlansOnlyAdvance(reg, s, steps);
    RunKeepsFrame(reg, s, steps);
    FramePlansInRange(reg, RunAll(reg, s, steps).core);
    hide RunAll, ValidRun, Frame, Listings, DriveTo, PrepareSettlement;
  }

  lemma FramePlansInRange(reg: Registry, c: Core)
    requires Frame(reg, c)
    ensures PlansInRange(c.plans)
  {
    forall sid | sid in c.plans ensures PlanInRange(c.plans[sid]) {
      assert PlanSound(reg, c, sid, c.plans[sid]);
    }
  }

  // A call that is answered as finished and finishes the plan itself takes the series off the cache, and no
  // other call touches the cache.
  lemma FinishingUncaches(s: State, sid: SeriesId, settlement: SettlementInput, keys: seq<PosKey>, ids: seq<OrderId>,
                          running: set<nat>, now: nat)
    requires PlansInRange(s.core.plans) && Listings(s.core, sid, keys, ids)
    ensures var r := SettleSeries(s, sid, settlement, keys, ids, running, now);
      r.state.ops.cached == if r.result == Ok(true) && r.state != s then s.ops.cached - {sid} else s.ops.cached
  {
    hide LinesOf, PostEquityTotal, DrivenLog, ApplyEntries, Prepared;
  }

  // The input locked first wins: after any run a call with another one changes nothing, and until the
  // plan is finalised it is told both inputs.
  lemma OtherInputIsRefused(reg: Registry, s: State, steps: seq<Step>, sid: SeriesId, settlement: SettlementInput,
                            keys: seq<PosKey>, ids: seq<OrderId>, running: set<nat>, now: nat)
    requires Frame(reg, s.core) && CachedKnown(reg, s.ops) && ValidRun(reg, s, steps)
    requires sid in s.core.plans && settlement != s.core.plans[sid].settlement
    requires Listings(RunAll(reg, s, steps).core, sid, keys, ids)
    ensures var s' := RunAll(reg, s, steps);
      && sid in s'.core.plans && PlansInRange(s'.core.plans)
      && SettleSeries(s', sid, settlement, keys, ids, running, now)
         == Reply(s', if s'.core.plans[sid].status.Finalised? then Ok(true)
                      else Err(InconsistentSettlement(s.core.plans[sid].settlement, settlement)))
  {
    PlansOnlyAdvance(reg, s, steps);
    RunKeepsFrame(reg, s, steps);
    FramePlansInRange(reg, RunAll(reg, s, steps).core);
    hide RunAll, ValidRun, Frame, Listings, DriveTo, PrepareSettlement;
  }

  // How many calls of a run carry the locked input, whatever runs in between.
  ghost function CallsWith(steps: seq<Step>, sid: SeriesId, settlement: SettlementInput): nat {
    if steps == [] then 0
    else (if steps[0].Settle? && steps[0].sid == sid && steps[0].settlement == settlement then 1 else 0)
         + CallsWith(steps[1..], sid, settlement)
  }

  lemma LockedCallAdvances(s: State, sid: SeriesId, keys: seq<PosKey>, ids: seq<OrderId>, running: set<nat>, now: nat)
    requires Open(s, sid) && PlansInRange(s.core.plans) && Listings(s.core, sid, keys, ids)
    ensures var plan, s' := s.core.plans[sid], SettleSeries(s, sid, s.core.plans[sid].settlement, keys, ids, running, now).state;
      && sid in s'.core.plans
      && ((Open(s', sid) && s'.core.plans[sid].cursor > plan.cursor)
          || s'.core.plans[sid] == plan.(cursor := |plan.positions|, applied := true, status := Finalised))
  {
    var call := Call.Call(running, now);
    DriveOnceIsSettle(s, sid, call, keys, ids);
    DriveOnceIsOpen(s, sid, call);
    hide SettleSeries, DriveOnce, DrivenCore, DrivenOps, Listings;
  }

  // Settlement ends under any interleaving: however trades, orders, other settlements and failing calls
  // run in between, more calls with the locked input than entries are left finalise the plan with every
  // entry applied, and both funds have its fees.
  lemma {:induction false} CallsFinalise(reg: Registry, s: State, steps: seq<Step>, sid: SeriesId)
    requires Frame(reg, s.core) && CachedKnown(reg, s.ops) && ValidRun(reg, s, steps)
    requires Open(s, sid)
    requires CallsWith(steps, sid, s.core.plans[sid].settlement) > |s.core.plans[sid].positions| - s.core.plans[sid].cursor
    ensures var plan, s' := s.core.plans[sid], RunAll(reg, s, steps);
      && sid in s'.core.plans
      && s'.core.plans[sid] == plan.(cursor := |plan.positions|, applied := true, status := Finalised)
      && OtherFunds(s') == OtherFunds(s)
    decreases |steps|
  {
    hide SettleSeries, OtherFunds, Listings, PlansInRange;
    var s1 := After(reg, s, steps[0]);
    StepFrame(reg, s, steps[0]);
    StepAdvances(reg, s, steps[0]);
    StepKeepsOpen(reg, s, steps[0], sid);
    hide Frame, CachedKnown, Enabled, After;
    if s1.core.plans[sid].status.Finalised? {
      PlansOnlyAdvance(reg, s1, steps[1..]);
    } else {
      CallsFinalise(reg, s1, steps[1..], sid);
    }
  }

  // A step finishes an open plan, or leaves it open, and moves it when it is a call with the locked input.
  lemma StepKeepsOpen(reg: Registry, s: State, step: Step, sid: SeriesId)
    requires Frame(reg, s.core) && CachedKnown(reg, s.ops) && Enabled(reg, s, step) && Open(s, sid)
    ensures var plan, s' := s.core.plans[sid], After(reg, s, step);
      && sid in s'.core.plans
      && (s'.core.plans[sid].status.Finalised? ==>
            s'.core.plans[sid] == plan.(cursor := |plan.positions|, applied := true, status := Finalised))
      && (!s'.core.plans[sid].status.Finalised? ==> Open(s', sid))
      && (step.Settle? && step.sid == sid && step.settlement == plan.settlement && Open(s', sid) ==>
            s'.core.plans[sid].cursor > plan.cursor)
  {
    hide ExecuteTrade, PlaceLimitOrder, MintCompleteSet, FillOrder, SettleSeries, RedeemCompleteSet, Frame, Listings, OtherFunds;
    StepFrame(reg, s, step);
    StepAdvances(reg, s, step) by { assert OrdersExact(reg, s.core.orders) by { FrameParts(reg, s.core, sid); } }
    FrameParts(reg, After(reg, s, step).core, sid);
    FrameParts(reg, s.core, sid);
    match step {
      case Settle(i, settlement, keys, ids, running, now) =>
        if i == sid && settlement == s.core.plans[sid].settlement { LockedCallAdvances(s, sid, keys, ids, running, now); }
      case _ =>
    }
  }

  lemma FrameParts(reg: Registry, c: Core, sid: SeriesId)
    requires Frame(reg, c)
    ensures OrdersExact(reg, c.orders)
    ensures sid in c.plans ==> var plan := c.plans[sid];
      PlanInRange(plan) && (plan.applied <==> plan.status.Finalised?) && (plan.applied ==> plan.cursor == |plan.positions|)
  {
    if sid in c.plans { assert PlanSound(reg, c, sid, c.plans[sid]); }
  }
}
