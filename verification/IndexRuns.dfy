// Indexes kept step by step against indexes rebuilt from the log, over every run, with the one-shot
// backfill of settled rows: src/clearing/src/api/settlement/api.rs, backfill_settlement_events.
module IndexRuns {
  import opened Base
  import opened Payoffs
  import opened Types
  import opened Totals
  import opened Clearing
  import opened Coverage
  import opened SettlementCoverage
  import opened Runs
  import opened CoverageRuns
  import opened CoverageTheorem
  import opened SettlementRuns
  import opened EventIndexes
  import C = Candles

  // ---------------------------------------------------------------- the backfill

  ghost predicate HasSettled(events: seq<Event>, sid: SeriesId) {
    exists i :: 0 <= i < |events| && events[i].kind.Settled? && events[i].series == sid
  }

  function BackfillRow(sid: SeriesId, plan: SettlementPlan, e: SettlementPosition, id: nat): Event {
    Event(id, sid, e.user, e.cashflow, EventPrice(plan.settlement), Settled, plan.createdNs)
  }

  function BackfillRows(sid: SeriesId, plan: SettlementPlan, next: nat): (rows: seq<Event>)
    ensures |rows| == |plan.positions|
  {
    seq(|plan.positions|, i requires 0 <= i < |plan.positions| => BackfillRow(sid, plan, plan.positions[i], next + i))
  }

  ghost predicate Lacks(events: seq<Event>, plans: map<SeriesId, SettlementPlan>, sid: SeriesId) {
    sid in plans && plans[sid].status.Finalised? && !HasSettled(events, sid)
  }

  ghost function BackfillOne(log: Log, plans: map<SeriesId, SettlementPlan>, sid: SeriesId): Log {
    if Lacks(log.events, plans, sid) then Append(log, BackfillRows(sid, plans[sid], log.next), |plans[sid].positions|) else log
  }

  // The plans of these series in turn.
  ghost function BackfillAll(log: Log, plans: map<SeriesId, SettlementPlan>, keys: seq<SeriesId>): Log {
    if keys == [] then log
    else BackfillOne(BackfillAll(log, plans, keys[..|keys| - 1]), plans, keys[|keys| - 1])
  }

  // Stopping after some plans and resuming behind them is one pass.
  lemma {:induction false} BackfillResumes(log: Log, plans: map<SeriesId, SettlementPlan>, a: seq<SeriesId>, b: seq<SeriesId>)
    ensures BackfillAll(log, plans, a + b) == BackfillAll(BackfillAll(log, plans, a), plans, b)
    decreases |b|
  {
    if b == [] {
      assert a + b == a;
    } else {
      BackfillResumes(log, plans, a, b[..|b| - 1]);
      assert (a + b)[..|a + b| - 1] == a + b[..|b| - 1];
    }
  }

  lemma {:induction false} NoRows(events: seq<Event>, sid: SeriesId)
    ensures SettledRows(events, sid) == [] <==> !HasSettled(events, sid)
    decreases |events|
  {
    if events == [] {
    } else {
      var rest := events[..|events| - 1];
      NoRows(rest, sid);
      if HasSettled(rest, sid) {
        var i :| 0 <= i < |rest| && rest[i].kind.Settled? && rest[i].series == sid;
        assert events[i] == rest[i];
      }
      assert forall i :: 0 <= i < |rest| ==> events[i] == rest[i];
    }
  }

  lemma {:induction false} RowsOfBackfill(events: seq<Event>, sid: SeriesId, plan: SettlementPlan, next: nat, n: nat, i: SeriesId)
    requires n <= |plan.positions|
    requires events == BackfillRows(sid, plan, next)[..n]
    ensures SettledRows(events, i) == if i == sid then EntryRows(plan.positions[..n]) else []
    decreases n
  {
    if n == 0 {
    } else {
      assert events[..n - 1] == BackfillRows(sid, plan, next)[..n - 1];
      RowsOfBackfill(events[..n - 1], sid, plan, next, n - 1, i);
      assert plan.positions[..n][..n - 1] == plan.positions[..n - 1];
      assert EntryRows(plan.positions[..n])
          == EntryRows(plan.positions[..n - 1]) + [Row(plan.positions[n - 1].user, plan.positions[n - 1].cashflow)];
    }
  }

  lemma OneBackfill(log: Log, plans: map<SeriesId, SettlementPlan>, sid: SeriesId, i: SeriesId)
    ensures SettledRows(BackfillOne(log, plans, sid).events, i)
         == if i == sid && Lacks(log.events, plans, sid) then EntryRows(plans[sid].positions) else SettledRows(log.events, i)
  {
    if Lacks(log.events, plans, sid) {
      var rows := BackfillRows(sid, plans[sid], log.next);
      RowsAppend(log.events, rows, i);
      assert rows[..|rows|] == rows && plans[sid].positions[..|rows|] == plans[sid].positions;
      RowsOfBackfill(rows, sid, plans[sid], log.next, |rows|, i);
      NoRows(log.events, sid);
    }
  }

  // A visited finalised plan without rows gets one row for each entry, in order; every other series
  // keeps the rows it had.
  lemma {:induction false} BackfillIsExact(log: Log, plans: map<SeriesId, SettlementPlan>, keys: seq<SeriesId>, i: SeriesId)
    requires Different(keys)
    ensures SettledRows(BackfillAll(log, plans, keys).events, i)
         == if i in keys && Lacks(log.events, plans, i) then EntryRows(plans[i].positions) else SettledRows(log.events, i)
    decreases |keys|
  {
    hide BackfillOne, SettledRows, EntryRows, HasSettled;
    if keys == [] {
    } else {
      var n, last := |keys| - 1, keys[|keys| - 1];
      var before := BackfillAll(log, plans, keys[..n]);
      BackfillIsExact(log, plans, keys[..n], i);
      OneBackfill(before, plans, last, i);
      LastIsNew(keys, i);
      if i == last {
        NoRows(before.events, i);
        NoRows(log.events, i);
      }
    }
  }

  lemma LastIsNew(keys: seq<SeriesId>, i: SeriesId)
    requires Different(keys) && keys != []
    ensures var n := |keys| - 1;
      keys[n] !in keys[..n] && (i in keys <==> i in keys[..n] || i == keys[n])
  {
    assert keys == keys[..|keys| - 1] + [keys[|keys| - 1]];
  }

  // Running it again over plans already visited adds nothing.
  lemma {:induction false} BackfillIsIdempotent(log: Log, plans: map<SeriesId, SettlementPlan>, all: seq<SeriesId>, keys: seq<SeriesId>)
    requires Different(all) && forall k :: k in keys ==> k in all
    ensures BackfillAll(BackfillAll(log, plans, all), plans, keys) == BackfillAll(log, plans, all)
    decreases |keys|
  {
    if keys == [] {
    } else {
      var n, done := |keys| - 1, BackfillAll(log, plans, all);
      BackfillIsIdempotent(log, plans, all, keys[..n]);
      var k := keys[n];
      assert k in all;
      BackfillIsExact(log, plans, all, k);
      NoRows(done.events, k);
      NoRows(log.events, k);
      if Lacks(done.events, plans, k) {
        assert EntryRows(plans[k].positions) == [];
        assert |plans[k].positions| == |EntryRows(plans[k].positions)| == 0;
        assert BackfillOne(done, plans, k) == done;
      }
    }
  }

  // Where settlement itself has logged its entries, there is nothing to backfill.
  lemma {:induction false} NothingToBackfill(reg: Registry, s: State, keys: seq<SeriesId>)
    requires Frame(reg, s.core) && LogSound(s)
    ensures BackfillAll(s.log, s.core.plans, keys) == s.log
    decreases |keys|
  {
    if keys == [] {
    } else {
      var k := keys[|keys| - 1];
      NothingToBackfill(reg, s, keys[..|keys| - 1]);
      if Lacks(s.log.events, s.core.plans, k) {
        var plan := s.core.plans[k];
        assert PlanSound(reg, s.core, k, plan);
        NoRows(s.log.events, k);
        assert plan.positions[..plan.cursor] == plan.positions;
        assert |EntryRows(plan.positions)| == 0;
      }
    }
  }

  // What the call counts: finalised plans visited, their entries that had rows before it, their entries
  // that get one.
  ghost function Scanned(plans: map<SeriesId, SettlementPlan>): SeriesId -> int {
    (sid: SeriesId) => if sid in plans && plans[sid].status.Finalised? then 1 else 0
  }

  ghost function Skipped(events: seq<Event>, plans: map<SeriesId, SettlementPlan>): SeriesId -> int {
    (sid: SeriesId) => if sid in plans && plans[sid].status.Finalised? && HasSettled(events, sid) then |plans[sid].positions| else 0
  }

  ghost function Lacking(events: seq<Event>, plans: map<SeriesId, SettlementPlan>): SeriesId -> int {
    (sid: SeriesId) => if Lacks(events, plans, sid) then |plans[sid].positions| else 0
  }

  // The loop of the call: it may stop after any plan and then names it as the cursor.
  method BackfillSettlementEvents(log: Log, plans: map<SeriesId, SettlementPlan>, keys: seq<SeriesId>, exhausted: set<nat>,
                                  index: EventIndex)
    returns (log': Log, visited: nat, cursor: Option<SeriesId>, scanned: int, written: int, skipped: int)
    requires Different(keys) && forall k :: k in keys ==> k in plans
    modifies index
    ensures visited <= |keys| && log' == BackfillAll(log, plans, keys[..visited])
    ensures cursor.None? ==> visited == |keys|
    ensures cursor.Some? ==> 0 < visited && cursor.value == keys[visited - 1]
    ensures scanned == SeqSum(keys[..visited], Scanned(plans))
    ensures skipped == SeqSum(keys[..visited], Skipped(log.events, plans))
    ensures written == SeqSum(keys[..visited], Lacking(log.events, plans)) == |log'.events| - |log.events|
    ensures old(index.Abs()) == Rebuilt(log.events) ==> index.Abs() == Rebuilt(log'.events)
  {
    hide BackfillAll, HasSettled, Rebuilt, WithSettled, Different, SeqSum, Scanned, Skipped, Lacking, AlreadyDone;
    var backfilled := SettledSeries(log.events);
    var emitted: seq<Event> := [];
    ghost var now := log;
    visited, cursor := 0, None;
    scanned, written, skipped := 0, 0, 0;
    StartsEmpty(log, plans, keys, backfilled);
    while visited < |keys| && cursor.None?
      invariant visited <= |keys|
      invariant now == BackfillAll(log, plans, keys[..visited]) && now == Log(log.events + emitted, log.next + |emitted|)
      invariant AlreadyDone(log.events, plans, keys[..visited], backfilled)
      invariant scanned == SeqSum(keys[..visited], Scanned(plans))
      invariant skipped == SeqSum(keys[..visited], Skipped(log.events, plans))
      invariant written == SeqSum(keys[..visited], Lacking(log.events, plans)) == |emitted|
      invariant forall i :: 0 <= i < |emitted| ==> emitted[i].kind.Settled?
      invariant cursor.Some? ==> 0 < visited && cursor.value == keys[visited - 1]
      invariant index.Abs() == old(index.Abs())
      decreases |keys| - visited, cursor.None?
    {
      var k := keys[visited];
      VisitOne(log, plans, keys, visited, backfilled);
      if plans[k].status.Finalised? {
        scanned := scanned + 1;
        if k !in backfilled {
          var rows := EmitRows(k, plans[k], log.next + |emitted|);
          assert log.events + emitted + rows == log.events + (emitted + rows);
          emitted := emitted + rows;
          written := written + |rows|;
        } else {
          skipped := skipped + |plans[k].positions|;
        }
        backfilled := backfilled + {k};
      }
      now := BackfillOne(now, plans, k);
      visited := visited + 1;
      if visited in exhausted { cursor := Some(k); }
    }
    SettledRebuilds(log.events, emitted);
    index.IndexSettledEvents(emitted);
    log' := Log(log.events + emitted, log.next + |emitted|);
  }

  // Every entry of a finalised plan visited is either written or skipped.
  lemma {:induction false} WrittenOrSkipped(events: seq<Event>, plans: map<SeriesId, SettlementPlan>, keys: seq<SeriesId>, sizes: SeriesId -> int)
    requires forall sid :: sizes(sid) == if sid in plans && plans[sid].status.Finalised? then |plans[sid].positions| else 0
    ensures SeqSum(keys, Skipped(events, plans)) + SeqSum(keys, Lacking(events, plans)) == SeqSum(keys, sizes)
  {
    if keys == [] {
    } else {
      WrittenOrSkipped(events, plans, keys[1..], sizes);
    }
  }

  // The series the call treats as done: those with rows, and the finalised ones it has visited.
  ghost predicate AlreadyDone(events: seq<Event>, plans: map<SeriesId, SettlementPlan>, visited: seq<SeriesId>, done: set<SeriesId>) {
    forall k :: k in done <==> HasSettled(events, k) || (k in visited && k in plans && plans[k].status.Finalised?)
  }

  lemma StartsEmpty(log: Log, plans: map<SeriesId, SettlementPlan>, keys: seq<SeriesId>, done: set<SeriesId>)
    requires forall k :: k in done <==> HasSettled(log.events, k)
    ensures BackfillAll(log, plans, keys[..0]) == log && Log(log.events + [], log.next) == log
    ensures AlreadyDone(log.events, plans, keys[..0], done)
    ensures SeqSum(keys[..0], Scanned(plans)) == 0 && SeqSum(keys[..0], Skipped(log.events, plans)) == 0
    ensures SeqSum(keys[..0], Lacking(log.events, plans)) == 0
  {
    assert keys[..0] == [];
  }

  lemma OneMore(keys: seq<SeriesId>, n: nat, w: SeriesId -> int)
    requires n < |keys|
    ensures SeqSum(keys[..n + 1], w) == SeqSum(keys[..n], w) + w(keys[n])
  {
    assert keys[..n + 1] == keys[0..n + 1] && keys[..n] == keys[0..n];
    SeqSumExtend(keys, 0, n + 1, w);
  }

  lemma VisitOne(log: Log, plans: map<SeriesId, SettlementPlan>, keys: seq<SeriesId>, n: nat, done: set<SeriesId>)
    requires Different(keys) && n < |keys| && keys[n] in plans
    requires AlreadyDone(log.events, plans, keys[..n], done)
    ensures var before := BackfillAll(log, plans, keys[..n]);
      && BackfillAll(log, plans, keys[..n + 1]) == BackfillOne(before, plans, keys[n])
      && (Lacks(before.events, plans, keys[n]) <==> plans[keys[n]].status.Finalised? && keys[n] !in done)
    ensures AlreadyDone(log.events, plans, keys[..n + 1], if plans[keys[n]].status.Finalised? then done + {keys[n]} else done)
    ensures var k, done' := keys[n], plans[keys[n]].status.Finalised?;
      && SeqSum(keys[..n + 1], Scanned(plans)) == SeqSum(keys[..n], Scanned(plans)) + (if done' then 1 else 0)
      && SeqSum(keys[..n + 1], Skipped(log.events, plans))
         == SeqSum(keys[..n], Skipped(log.events, plans)) + (if done' && k in done then |plans[k].positions| else 0)
      && SeqSum(keys[..n + 1], Lacking(log.events, plans))
         == SeqSum(keys[..n], Lacking(log.events, plans)) + (if done' && k !in done then |plans[k].positions| else 0)
  {
    hide SeqSum;
    var k, before := keys[n], BackfillAll(log, plans, keys[..n]);
    assert keys[..n + 1][..n] == keys[..n] && keys[..n + 1] == keys[..n] + [k];
    assert k !in keys[..n];
    BackfillIsExact(log, plans, keys[..n], k);
    NoRows(before.events, k);
    NoRows(log.events, k);
    hide SettledRows, HasSettled, BackfillAll;
    OneMore(keys, n, Scanned(plans));
    OneMore(keys, n, Skipped(log.events, plans));
    OneMore(keys, n, Lacking(log.events, plans));
  }

  method SettledSeries(events: seq<Event>) returns (series: set<SeriesId>)
    ensures forall k :: k in series <==> HasSettled(events, k)
  {
    series := {};
    for i := 0 to |events|
      invariant forall k :: k in series <==> HasSettled(events[..i], k)
    {
      assert forall j :: 0 <= j < i ==> events[..i + 1][j] == events[..i][j];
      assert events[..i + 1][i] == events[i];
      if events[i].kind.Settled? { series := series + {events[i].series}; }
    }
    assert events[..|events|] == events;
  }

  method EmitRows(sid: SeriesId, plan: SettlementPlan, next: nat) returns (rows: seq<Event>)
    ensures rows == BackfillRows(sid, plan, next)
  {
    rows := [];
    for i := 0 to |plan.positions|
      invariant rows == BackfillRows(sid, plan, next)[..i]
    {
      rows := rows + [BackfillRow(sid, plan, plan.positions[i], next + i)];
    }
  }

  // ---------------------------------------------------------------- keeping the indexes step by step

  ghost function EmittedBy(s: State, plan: SettlementPlan, sid: SeriesId, running: set<nat>, now: nat): seq<Event>
    requires PlanInRange(plan)
  {
    if plan.applied then []
    else EntryEvents(s.core.accounts, sid, plan, plan.cursor, EndFor(plan, running), s.log.next, now)
  }

  // What each step does to the indexes where it happens, from what it has at hand there.
  ghost function Maintained(reg: Registry, s: State, step: Step, ix: Indexes): Indexes
    requires Enabled(reg, s, step) && OrdersExact(reg, s.core.orders)
  {
    match step
    case Matched(t, now) =>
      if Executes(s, reg[t.seriesId], t) then WithTrade(ix, t.seriesId, C.Point(s.log.next, t.price, t.qty, now)) else ix
    case Fill(taker, id, seen, tradeId, requested, now) =>
      if Fills(reg, s, taker, id, seen, tradeId, requested, now) then
        var o := s.core.orders[id];
        WithTrade(ix, o.series, C.Point(s.log.next, o.price, FillQty(requested, o.qty), now))
      else ix
    case Settle(sid, settlement, keys, ids, running, now) =>
      if Resumes(s, sid, settlement) then
        ix.(board := WithSettled(ix.board, EmittedBy(s, s.core.plans[sid], sid, running, now)))
      else if Prepares(s, sid, settlement, keys, ids, now) then
        ix.(board := WithSettled(ix.board, EmittedBy(OpenedState(s, sid, settlement, keys, ids, now),
                                                     OpenedPlan(s, sid, settlement, keys, ids, now), sid, running, now)))
      else ix
    case _ => ix
  }

  lemma {:induction false} EmittedAreSettled(accounts: map<User, Account>, sid: SeriesId, plan: SettlementPlan, lo: nat, hi: nat, next: nat, now: nat)
    requires lo <= hi <= |plan.positions|
    ensures NumberedRows(EntryEvents(accounts, sid, plan, lo, hi, next, now), next)
    decreases hi
  {
    if lo == hi {
    } else {
      EmittedAreSettled(accounts, sid, plan, lo, hi - 1, next, now);
      var before := EntryEvents(accounts, sid, plan, lo, hi - 1, next, now);
      assert forall i :: 0 <= i < |before| ==> before[i].kind.Settled? && before[i].eventId == next + i;
    }
  }

  // Settled rows numbered from next on.
  ghost predicate NumberedRows(rows: seq<Event>, next: nat) {
    forall i :: 0 <= i < |rows| ==> rows[i].kind.Settled? && rows[i].eventId == next + i
  }

  // A log and the indexes over it.
  ghost predicate Agree(s: State, ix: Indexes) { ix == Rebuilt(s.log.events) && LogInOrder(s.log) }

  lemma DriveAgrees(s: State, sid: SeriesId, plan: SettlementPlan, running: set<nat>, now: nat, ix: Indexes)
    requires PlanInRange(plan) && Agree(s, ix)
    ensures Agree(DriveTo(s, sid, plan, EndFor(plan, running), now).state,
                  ix.(board := WithSettled(ix.board, EmittedBy(s, plan, sid, running, now))))
  {
    hide Rebuilt, WithSettled, LogInOrder, EntryEvents, ApplyEntries;
    if !plan.applied {
      var emitted := EmittedBy(s, plan, sid, running, now);
      EmittedAreSettled(s.core.accounts, sid, plan, plan.cursor, EndFor(plan, running), s.log.next, now);
      SettledRebuilds(s.log.events, emitted);
      SettledKeepsOrder(s.log, emitted);
    } else {
      NoEmission(ix.board);
    }
  }

  lemma NoEmission(board: map<EventIndexes.L.Slot, EventIndexes.L.Bucket>)
    ensures WithSettled(board, []) == board
  {
  }

  lemma TradeAgrees(s: State, series: Series, t: TradeParams, now: nat, ix: Indexes)
    requires Agree(s, ix) && t.qty > 0
    ensures Agree(ExecuteTrade(s, series, t, now).state,
                  if Executes(s, series, t) then WithTrade(ix, t.seriesId, C.Point(s.log.next, t.price, t.qty, now)) else ix)
  {
    hide Rebuilt, LogInOrder, Traded, TradeRefusal;
    if Executes(s, series, t) {
      TradeRebuilds(s.log.events, t, s.log.next, now);
      TradeKeepsOrder(s.log, t, now);
    } else {
      FailedTradeChangesNothing(s, series, t, now);
    }
  }

  lemma FillAgrees(reg: Registry, s: State, step: Step, ix: Indexes)
    requires step.Fill? && step.seen.series in reg && OrdersExact(reg, s.core.orders) && Agree(s, ix)
    ensures Agree(After(reg, s, step), Maintained(reg, s, step, ix))
  {
    hide Agree, Executes;
    var Fill(taker, id, seen, tradeId, requested, now) := step;
    FillShape(reg, s, taker, id, seen, tradeId, requested, now);
    if Fills(reg, s, taker, id, seen, tradeId, requested, now) {
      var o := s.core.orders[id];
      var fill := FillQty(requested, o.qty);
      var t := FillTrade(reg, o, taker, tradeId, fill);
      TradeAgrees(s, reg[o.series], t, now, ix);
      FillExecutes(reg, s, step);
      var traded := ExecuteTrade(s, reg[o.series], t, now);
      AfterTradeDone(traded, id, Rest(reg, o, fill));
      AgreeReads(traded.state, After(reg, s, step), Maintained(reg, s, step, ix));
    }
  }

  lemma AgreeReads(s: State, s': State, ix: Indexes)
    requires Agree(s, ix) && s'.log == s.log
    ensures Agree(s', ix)
  {
  }

  lemma SettleAgrees(s: State, sid: SeriesId, settlement: SettlementInput, keys: seq<PosKey>, ids: seq<OrderId>,
                     running: set<nat>, now: nat, ix: Indexes, reg: Registry)
    requires PlansInRange(s.core.plans) && Listings(s.core, sid, keys, ids) && Agree(s, ix)
    requires OrdersExact(reg, s.core.orders)
    ensures Agree(SettleSeries(s, sid, settlement, keys, ids, running, now).state,
                  Maintained(reg, s, Settle(sid, settlement, keys, ids, running, now), ix))
  {
    hide Agree, SettleSeries, Prepares, EmittedBy, DriveTo, OpenedPlan, OpenedState, WithSettled;
    SettleShape(s, sid, settlement, keys, ids, running, now);
    if Resumes(s, sid, settlement) {
      DriveAgrees(s, sid, s.core.plans[sid], running, now, ix);
    } else if Prepares(s, sid, settlement, keys, ids, now) {
      var s1, plan := OpenedState(s, sid, settlement, keys, ids, now), OpenedPlan(s, sid, settlement, keys, ids, now);
      OpenedLog(s, sid, settlement, keys, ids, now);
      AgreeReads(s, s1, ix);
      DriveAgrees(s1, sid, plan, running, now, ix);
    }
  }

  lemma OpenedLog(s: State, sid: SeriesId, settlement: SettlementInput, keys: seq<PosKey>, ids: seq<OrderId>, now: nat)
    requires Listings(s.core, sid, keys, ids) && Prepares(s, sid, settlement, keys, ids, now)
    ensures OpenedState(s, sid, settlement, keys, ids, now).log == s.log
    ensures PlanInRange(OpenedPlan(s, sid, settlement, keys, ids, now))
  {
  }

  lemma StepAgrees(reg: Registry, s: State, step: Step, ix: Indexes)
    requires Frame(reg, s.core) && Enabled(reg, s, step) && Agree(s, ix)
    ensures Agree(After(reg, s, step), Maintained(reg, s, step, ix))
  {
    hide Agree, ExecuteTrade, PlaceLimitOrder, MintCompleteSet, FillOrder, SettleSeries, RedeemCompleteSet, Fills, Executes, WithSettled;
    match step {
      case Fill(_, _, _, _, _, _) => FillAgrees(reg, s, step, ix);
      case Matched(t, now) => TradeAgrees(s, reg[t.seriesId], t, now, ix);
      case Settle(sid, settlement, keys, ids, running, now) => SettleAgrees(s, sid, settlement, keys, ids, running, now, ix, reg);
      case _ =>
        QuietSteps(reg, s, step);
        AgreeReads(s, After(reg, s, step), ix);
    }
  }

  // ---------------------------------------------------------------- runs with backfills

  datatype Move = Take(step: Step) | Backfill(keys: seq<SeriesId>)

  ghost predicate CanMove(reg: Registry, s: State, m: Move) { m.Take? ==> Enabled(reg, s, m.step) }

  ghost function Moved(reg: Registry, s: State, m: Move): State
    requires CanMove(reg, s, m)
  {
    if m.Take? then After(reg, s, m.step) else s.(log := BackfillAll(s.log, s.core.plans, m.keys))
  }

  ghost function MovedIndexes(reg: Registry, s: State, m: Move, ix: Indexes): Indexes
    requires CanMove(reg, s, m) && OrdersExact(reg, s.core.orders)
  {
    if m.Take? then Maintained(reg, s, m.step, ix)
    else
      var events := BackfillAll(s.log, s.core.plans, m.keys).events;
      ix.(board := WithSettled(ix.board, if |s.log.events| <= |events| then events[|s.log.events|..] else []))
  }

  lemma {:induction false} BackfillAppends(log: Log, plans: map<SeriesId, SettlementPlan>, keys: seq<SeriesId>) returns (emitted: seq<Event>)
    ensures BackfillAll(log, plans, keys) == Append(log, emitted, |emitted|)
    ensures forall i :: 0 <= i < |emitted| ==> emitted[i].kind.Settled? && emitted[i].eventId < log.next + |emitted|
    decreases |keys|
  {
    if keys == [] {
      emitted := [];
      assert log.events + [] == log.events;
    } else {
      var k := keys[|keys| - 1];
      emitted := BackfillAppends(log, plans, keys[..|keys| - 1]);
      var before := BackfillAll(log, plans, keys[..|keys| - 1]);
      if Lacks(before.events, plans, k) {
        var rows := BackfillRows(k, plans[k], before.next);
        assert log.events + emitted + rows == log.events + (emitted + rows);
        emitted := emitted + rows;
      }
    }
  }

  lemma MoveAgrees(reg: Registry, s: State, m: Move, ix: Indexes)
    requires Frame(reg, s.core) && CachedKnown(reg, s.ops) && CanMove(reg, s, m) && Agree(s, ix)
    ensures Agree(Moved(reg, s, m), MovedIndexes(reg, s, m, ix))
    ensures Frame(reg, Moved(reg, s, m).core) && CachedKnown(reg, Moved(reg, s, m).ops)
  {
    hide Rebuilt, LogInOrder, Frame, WithSettled, BackfillAll, Maintained, After;
    if m.Take? {
      StepAgrees(reg, s, m.step, ix);
      StepFrame(reg, s, m.step);
    } else {
      var emitted := BackfillAppends(s.log, s.core.plans, m.keys);
      var log' := BackfillAll(s.log, s.core.plans, m.keys);
      assert log'.events[|s.log.events|..] == emitted;
      SettledRebuilds(s.log.events, emitted);
      SettledKeepsOrder(s.log, emitted);
    }
  }

  ghost predicate ValidMoves(reg: Registry, s: State, moves: seq<Move>)
    decreases |moves|
  {
    moves == [] || (CanMove(reg, s, moves[0]) && ValidMoves(reg, Moved(reg, s, moves[0]), moves[1..]))
  }

  ghost function MoveAll(reg: Registry, s: State, moves: seq<Move>): State
    requires ValidMoves(reg, s, moves)
    decreases |moves|
  {
    if moves == [] then s else MoveAll(reg, Moved(reg, s, moves[0]), moves[1..])
  }

  ghost function IndexAll(reg: Registry, s: State, moves: seq<Move>, ix: Indexes): Indexes
    requires ValidMoves(reg, s, moves) && Frame(reg, s.core) && CachedKnown(reg, s.ops) && Agree(s, ix)
    decreases |moves|
  {
    if moves == [] then ix
    else
      MoveAgrees(reg, s, moves[0], ix);
      IndexAll(reg, Moved(reg, s, moves[0]), moves[1..], MovedIndexes(reg, s, moves[0], ix))
  }

  // After any run of trades, fills, settlement chunks and backfills the indexes kept step by step are
  // those a rebuild makes of the log, with every series' points in ascending id order.
  lemma {:induction false} IndexesAreTheRebuild(reg: Registry, s: State, moves: seq<Move>, ix: Indexes)
    requires ValidMoves(reg, s, moves) && Frame(reg, s.core) && CachedKnown(reg, s.ops) && Agree(s, ix)
    ensures IndexAll(reg, s, moves, ix) == Rebuilt(MoveAll(reg, s, moves).log.events)
    ensures LogInOrder(MoveAll(reg, s, moves).log)
    decreases |moves|
  {
    hide Rebuilt, LogInOrder, Moved, MovedIndexes, OrderExact, PlanSound, PositionsKnown;
    if moves == [] {
    } else {
      MoveAgrees(reg, s, moves[0], ix);
      IndexesAreTheRebuild(reg, Moved(reg, s, moves[0]), moves[1..], MovedIndexes(reg, s, moves[0], ix));
    }
  }

  lemma EmptyAgrees(s: State)
    requires s.log.events == []
    ensures Agree(s, NO_INDEXES)
  {
  }

  // ---------------------------------------------------------------- tapes follow the clock

  function ClockOf(m: Move): Option<nat> {
    if m.Take? && m.step.Fill? then Some(m.step.now)
    else if m.Take? && m.step.Matched? then Some(m.step.now)
    else None
  }

  predicate Forward(moves: seq<Move>, t: nat) {
    moves == [] || (t <= ClockOf(moves[0]).Or(t) && Forward(moves[1..], ClockOf(moves[0]).Or(t)))
  }

  ghost predicate Tapes(ix: Indexes, t: nat) {
    forall sid :: C.Chronological(HistoryIn(ix, sid)) && forall p :: p in HistoryIn(ix, sid) ==> p.timestamp <= t
  }

  lemma TradeKeepsTapes(ix: Indexes, sid: SeriesId, p: C.Point, t: nat)
    requires Tapes(ix, t) && t <= p.timestamp
    ensures Tapes(WithTrade(ix, sid, p), p.timestamp)
  {
    var ix' := WithTrade(ix, sid, p);
    forall i ensures C.Chronological(HistoryIn(ix', i)) && forall q :: q in HistoryIn(ix', i) ==> q.timestamp <= p.timestamp {
      var before := HistoryIn(ix, i);
      assert C.Chronological(before) && forall q :: q in before ==> q.timestamp <= t;
      if i == sid {
        forall k | 0 <= k < |before| ensures before[k].timestamp <= p.timestamp { assert before[k] in before; }
      }
    }
  }

  lemma MoveKeepsTapes(reg: Registry, s: State, m: Move, ix: Indexes, t: nat)
    requires CanMove(reg, s, m) && OrdersExact(reg, s.core.orders)
    requires Tapes(ix, t) && t <= ClockOf(m).Or(t)
    ensures Tapes(MovedIndexes(reg, s, m, ix), ClockOf(m).Or(t))
  {
    hide WithSettled, Executes, Prepares, WithTrade;
    var ix' := MovedIndexes(reg, s, m, ix);
    if m.Take? && m.step.Matched? {
      TradeKeepsTapes(ix, m.step.t.seriesId, C.Point(s.log.next, m.step.t.price, m.step.t.qty, m.step.now), t);
    } else if m.Take? && m.step.Fill? {
      if Fills(reg, s, m.step.taker, m.step.id, m.step.seen, m.step.tradeId, m.step.requested, m.step.now) {
        var o := s.core.orders[m.step.id];
        TradeKeepsTapes(ix, o.series, C.Point(s.log.next, o.price, FillQty(m.step.requested, o.qty), m.step.now), t);
      }
    } else {
      assert ix'.history == ix.history;
      assert forall sid :: HistoryIn(ix', sid) == HistoryIn(ix, sid);
    }
  }

  // While the clock does not go back, every series' points are in time order as well: what the candle
  // scan relies on.
  lemma {:induction false} TapesAreChronological(reg: Registry, s: State, moves: seq<Move>, ix: Indexes, t: nat)
    requires ValidMoves(reg, s, moves) && Frame(reg, s.core) && CachedKnown(reg, s.ops) && Agree(s, ix)
    requires Tapes(ix, t) && Forward(moves, t)
    ensures forall sid :: C.Chronological(HistoryIn(IndexAll(reg, s, moves, ix), sid))
    decreases |moves|
  {
    hide Rebuilt, LogInOrder, Moved, MovedIndexes, OrderExact, PlanSound, PositionsKnown;
    if moves == [] {
    } else {
      MoveAgrees(reg, s, moves[0], ix);
      MoveKeepsTapes(reg, s, moves[0], ix, t);
      TapesAreChronological(reg, Moved(reg, s, moves[0]), moves[1..], MovedIndexes(reg, s, moves[0], ix), ClockOf(moves[0]).Or(t));
    }
  }
}
