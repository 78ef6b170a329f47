// The indexes projected from the event log: trade histories, volume totals and leaderboard buckets of
// src/clearing/src/memory.rs and src/clearing/src/types/event.rs.
module EventIndexes {
  import opened Base
  import opened Payoffs
  import opened Types
  import opened Clearing
  import Calendar
  import C = Candles
  import L = Leaderboard

  const I128_MAX: int := 0x7FFF_FFFF_FFFF_FFFF_FFFF_FFFF_FFFF_FFFF
  const I128_MIN: int := -0x8000_0000_0000_0000_0000_0000_0000_0000

  function Clamp128(x: int): int { Max(I128_MIN, Min(x, I128_MAX)) }

  // ---------------------------------------------------------------- volumes

  // i128 division truncates toward zero.
  function TruncDiv(a: int, b: nat): int
    requires b > 0
  {
    if a >= 0 then FloorDiv(a, b) else (var q: int := FloorDiv(-a, b); -q)
  }

  function NotionalUsdBase(p: C.Point): int {
    var base := Clamp128(p.qty * Min(p.price.value, I128_MAX));
    if p.price.decimals <= USD_DECIMALS then Clamp128(base * Min(Pow10(USD_DECIMALS - p.price.decimals), I128_MAX))
    else TruncDiv(base, Min(Pow10(p.price.decimals - USD_DECIMALS), I128_MAX))
  }

  datatype Volume = Volume(notional: int, trades: nat) {
    function Record(x: int): Volume { Volume(Clamp128(notional + x), Min(trades + 1, U64_MAX)) }
  }

  const NO_VOLUME := Volume(0, 0)

  // ---------------------------------------------------------------- the three indexes

  datatype Indexes = Indexes(history: map<SeriesId, seq<C.Point>>, volume: map<SeriesId, Volume>, board: L.Index)

  const NO_INDEXES := Indexes(map[], map[], map[])

  function HistoryIn(ix: Indexes, sid: SeriesId): seq<C.Point> { if sid in ix.history then ix.history[sid] else [] }

  function VolumeIn(ix: Indexes, sid: SeriesId): Volume { if sid in ix.volume then ix.volume[sid] else NO_VOLUME }

  // index_executed_trade
  function WithTrade(ix: Indexes, sid: SeriesId, p: C.Point): Indexes {
    ix.(volume := ix.volume[sid := VolumeIn(ix, sid).Record(NotionalUsdBase(p))],
        history := ix.history[sid := HistoryIn(ix, sid) + [p]])
  }

  function BucketIn(board: L.Index, slot: L.Slot): L.Bucket { if slot in board then board[slot] else map[] }

  function RecordedIn(board: L.Index, slot: L.Slot, u: User, cashflow: int): L.Index {
    var bucket := BucketIn(board, slot);
    board[slot := bucket[u := (if u in bucket then bucket[u] else L.NO_PNL).Record(cashflow)]]
  }

  function SlotOf(w: Calendar.Window, ts: nat): L.Slot { L.Slot(w, Calendar.PeriodId(w, ts)) }

  // record_settled_pnl: the week, the month and all time.
  function WithPnl(board: L.Index, u: User, cashflow: int, ts: nat): L.Index {
    RecordedIn(RecordedIn(RecordedIn(board, SlotOf(Calendar.Week, ts), u, cashflow),
                          SlotOf(Calendar.Month, ts), u, cashflow),
               SlotOf(Calendar.AllTime, ts), u, cashflow)
  }

  function WithSettled(board: L.Index, events: seq<Event>): L.Index {
    if events == [] then board
    else
      var before, e := WithSettled(board, events[..|events| - 1]), events[|events| - 1];
      if e.kind.Settled? then WithPnl(before, e.user, e.qty, e.timestamp) else before
  }

  // ---------------------------------------------------------------- the rebuild from the log

  predicate IsTradeRow(e: Event) { e.kind.Executed? && e.qty > 0 }

  function PointOf(e: Event): C.Point { C.Point(e.eventId, e.price, e.qty, e.timestamp) }

  // The histories before the per-series sort, and the volumes, folded over the log.
  function TradesOf(events: seq<Event>): Indexes {
    if events == [] then NO_INDEXES
    else
      var before, e := TradesOf(events[..|events| - 1]), events[|events| - 1];
      if IsTradeRow(e) then WithTrade(before, e.series, PointOf(e)) else before
  }

  // What the rebuild after an upgrade makes of the log.
  function Rebuilt(events: seq<Event>): Indexes { TradesOf(events).(board := WithSettled(map[], events)) }

  predicate ById(points: seq<C.Point>) { forall i, j :: 0 <= i < j < |points| ==> points[i].eventId < points[j].eventId }

  lemma {:induction false} SettledAppends(board: L.Index, a: seq<Event>, b: seq<Event>)
    ensures WithSettled(board, a + b) == WithSettled(WithSettled(board, a), b)
    decreases |b|
  {
    if b == [] {
      assert a + b == a;
    } else {
      SettledAppends(board, a, b[..|b| - 1]);
      assert (a + b)[..|a + b| - 1] == a + b[..|b| - 1];
    }
  }

  lemma TradesOfOne(events: seq<Event>, e: Event)
    ensures TradesOf(events + [e]) == if IsTradeRow(e) then WithTrade(TradesOf(events), e.series, PointOf(e)) else TradesOf(events)
  {
    assert (events + [e])[..|events|] == events;
  }

  lemma {:induction false} TradesSkip(a: seq<Event>, b: seq<Event>)
    requires forall i :: 0 <= i < |b| ==> !IsTradeRow(b[i])
    ensures TradesOf(a + b) == TradesOf(a)
    decreases |b|
  {
    if b == [] {
      assert a + b == a;
    } else {
      TradesSkip(a, b[..|b| - 1]);
      TradesOfOne(a + b[..|b| - 1], b[|b| - 1]);
      assert a + b == a + b[..|b| - 1] + [b[|b| - 1]];
    }
  }

  lemma {:induction false} SettledSkip(board: L.Index, b: seq<Event>)
    requires forall i :: 0 <= i < |b| ==> !b[i].kind.Settled?
    ensures WithSettled(board, b) == board
    decreases |b|
  {
    if b == [] {
    } else {
      SettledSkip(board, b[..|b| - 1]);
    }
  }

  // A trade appends two rows and one point.
  lemma TradeRebuilds(events: seq<Event>, t: TradeParams, id: nat, now: nat)
    requires t.qty > 0
    ensures Rebuilt(events + TradeEvents(t, id, now)) == WithTrade(Rebuilt(events), t.seriesId, C.Point(id, t.price, t.qty, now))
  {
    var rows := TradeEvents(t, id, now);
    assert events + rows == events + [rows[0]] + [rows[1]];
    TradesOfOne(events, rows[0]);
    TradesOfOne(events + [rows[0]], rows[1]);
    SettledAppends(map[], events, rows);
    SettledSkip(WithSettled(map[], events), rows);
  }

  // A batch of settled rows changes the leaderboard alone.
  lemma SettledRebuilds(events: seq<Event>, emitted: seq<Event>)
    requires forall i :: 0 <= i < |emitted| ==> emitted[i].kind.Settled?
    ensures Rebuilt(events + emitted) == Rebuilt(events).(board := WithSettled(Rebuilt(events).board, emitted))
  {
    TradesSkip(events, emitted);
    SettledAppends(map[], events, emitted);
  }

  // ---------------------------------------------------------------- ids and clocks in the log

  // Every row's id has been handed out, and each series' points carry ever larger ids.
  ghost predicate LogInOrder(log: Log) {
    && (forall i :: 0 <= i < |log.events| ==> log.events[i].eventId < log.next)
    && (forall sid :: ById(HistoryIn(TradesOf(log.events), sid)))
  }

  // The points of the histories come from rows of the log.
  lemma {:induction false} PointsAreRows(events: seq<Event>, sid: SeriesId, p: C.Point)
    requires p in HistoryIn(TradesOf(events), sid)
    ensures exists i :: 0 <= i < |events| && PointOf(events[i]) == p
    decreases |events|
  {
    if events == [] {
    } else {
      var rest, e := events[..|events| - 1], events[|events| - 1];
      if p in HistoryIn(TradesOf(rest), sid) {
        PointsAreRows(rest, sid, p);
        var i :| 0 <= i < |rest| && PointOf(rest[i]) == p;
        assert PointOf(events[i]) == p;
      } else {
        assert PointOf(e) == p;
      }
    }
  }

  lemma TradeKeepsOrder(log: Log, t: TradeParams, now: nat)
    requires LogInOrder(log) && t.qty > 0
    ensures LogInOrder(Append(log, TradeEvents(t, log.next, now), 1))
  {
    var log' := Append(log, TradeEvents(t, log.next, now), 1);
    TradeRebuilds(log.events, t, log.next, now);
    forall sid ensures ById(HistoryIn(TradesOf(log'.events), sid)) {
      var before := HistoryIn(TradesOf(log.events), sid);
      assert ById(before);
      forall k | 0 <= k < |before| ensures before[k].eventId < log.next { PointsAreRows(log.events, sid, before[k]); }
      assert HistoryIn(Rebuilt(log'.events), sid) == HistoryIn(TradesOf(log'.events), sid);
    }
  }

  lemma SettledKeepsOrder(log: Log, emitted: seq<Event>)
    requires LogInOrder(log)
    requires forall i :: 0 <= i < |emitted| ==> emitted[i].kind.Settled? && emitted[i].eventId < log.next + |emitted|
    ensures LogInOrder(Append(log, emitted, |emitted|))
  {
    var log' := Append(log, emitted, |emitted|);
    TradesSkip(log.events, emitted);
  }

  // ---------------------------------------------------------------- the code

  predicate Sorted(points: seq<C.Point>) { forall i, j :: 0 <= i < j < |points| ==> points[i].eventId <= points[j].eventId }

  // The same points by ascending id; the points themselves where the ids already ascend.
  ghost predicate SortOf(sorted: seq<C.Point>, points: seq<C.Point>) {
    Sorted(sorted) && multiset(sorted) == multiset(points) && (ById(points) ==> sorted == points)
  }

  ghost predicate SortedForm(sorted: map<SeriesId, seq<C.Point>>, history: map<SeriesId, seq<C.Point>>) {
    sorted.Keys == history.Keys && forall sid :: sid in history ==> SortOf(sorted[sid], history[sid])
  }

  // sort_by_key on the ids, a stable insertion sort.
  method SortById(points: seq<C.Point>) returns (sorted: seq<C.Point>)
    ensures Sorted(sorted) && multiset(sorted) == multiset(points)
    ensures ById(points) ==> sorted == points
  {
    sorted := [];
    for n := 0 to |points|
      invariant Sorted(sorted) && multiset(sorted) == multiset(points[..n])
      invariant ById(points) ==> sorted == points[..n]
    {
      assert points[..n + 1] == points[..n] + [points[n]];
      sorted := Insert(sorted, points[n]);
    }
    assert points[..|points|] == points;
  }

  method Insert(sorted: seq<C.Point>, p: C.Point) returns (r: seq<C.Point>)
    requires Sorted(sorted)
    ensures Sorted(r) && multiset(r) == multiset(sorted) + multiset{p}
    ensures (forall i :: 0 <= i < |sorted| ==> sorted[i].eventId <= p.eventId) ==> r == sorted + [p]
  {
    var at := InsertAt(sorted, p.eventId);
    r := sorted[..at] + [p] + sorted[at..];
    assert sorted == sorted[..at] + sorted[at..];
  }

  // Behind every point whose id is not larger.
  method InsertAt(sorted: seq<C.Point>, id: nat) returns (at: nat)
    requires Sorted(sorted)
    ensures at <= |sorted|
    ensures forall i :: 0 <= i < at ==> sorted[i].eventId <= id
    ensures forall i :: at <= i < |sorted| ==> sorted[i].eventId > id
  {
    at := |sorted|;
    while at > 0 && sorted[at - 1].eventId > id
      invariant at <= |sorted|
      invariant forall i :: at <= i < |sorted| ==> sorted[i].eventId > id
    {
      at := at - 1;
    }
  }

  class EventIndex {
    var history: map<SeriesId, seq<C.Point>>
    var volume: map<SeriesId, Volume>
    var board: L.Index

    constructor ()
      ensures Abs() == NO_INDEXES
    {
      history, volume, board := map[], map[], map[];
    }

    function Abs(): Indexes
      reads this
    {
      Indexes(history, volume, board)
    }

    method IndexExecutedTrade(sid: SeriesId, p: C.Point)
      modifies this
      ensures Abs() == WithTrade(old(Abs()), sid, p)
    {
      volume := volume[sid := (if sid in volume then volume[sid] else NO_VOLUME).Record(NotionalUsdBase(p))];
      history := history[sid := (if sid in history then history[sid] else []) + [p]];
    }

    method RecordSettledPnl(u: User, cashflow: int, ts: nat)
      modifies this`board
      ensures board == WithPnl(old(board), u, cashflow, ts)
    {
      board := RecordedIn(board, SlotOf(Calendar.Week, ts), u, cashflow);
      board := RecordedIn(board, SlotOf(Calendar.Month, ts), u, cashflow);
      board := RecordedIn(board, SlotOf(Calendar.AllTime, ts), u, cashflow);
    }

    method IndexSettledEvents(events: seq<Event>)
      modifies this`board
      ensures board == WithSettled(old(board), events)
    {
      for i := 0 to |events|
        invariant board == WithSettled(old(board), events[..i])
      {
        assert events[..i + 1][..i] == events[..i];
        if events[i].kind.Settled? { RecordSettledPnl(events[i].user, events[i].qty, events[i].timestamp); }
      }
      assert events[..|events|] == events;
    }

    method RebuildLeaderboard(events: seq<Event>)
      modifies this`board
      ensures board == Rebuilt(events).board
    {
      board := map[];
      IndexSettledEvents(events);
    }

    // Folds the trade rows of the log, then sorts each series' points by id: on a log in order the
    // sort finds nothing to move.
    method RebuildSeriesTradeHistory(events: seq<Event>)
      modifies this`history, this`volume
      ensures volume == Rebuilt(events).volume
      ensures SortedForm(history, Rebuilt(events).history)
      ensures (forall sid :: ById(HistoryIn(TradesOf(events), sid))) ==> history == Rebuilt(events).history
    {
      history, volume := map[], map[];
      for i := 0 to |events|
        invariant history == TradesOf(events[..i]).history && volume == TradesOf(events[..i]).volume
      {
        var e := events[i];
        assert events[..i + 1][..i] == events[..i];
        if e.kind.Executed? && e.qty > 0 {
          var point := PointOf(e);
          volume := volume[e.series := (if e.series in volume then volume[e.series] else NO_VOLUME).Record(NotionalUsdBase(point))];
          history := history[e.series := (if e.series in history then history[e.series] else []) + [point]];
        }
      }
      assert events[..|events|] == events;
      ghost var folded := history;
      SortEach();
      if forall sid :: ById(HistoryIn(TradesOf(events), sid)) {
        forall sid | sid in folded ensures history[sid] == folded[sid] {
          assert ById(HistoryIn(TradesOf(events), sid));
        }
        assert history == folded;
      }
    }

    method SortEach()
      modifies this`history
      ensures SortedForm(history, old(history))
    {
      var left := history.Keys;
      while left != {}
        invariant left <= history.Keys && history.Keys == old(history).Keys
        invariant forall sid :: sid in left ==> history[sid] == old(history)[sid]
        invariant forall sid :: sid in history && sid !in left ==> SortOf(history[sid], old(history)[sid])
        decreases |left|
      {
        var sid :| sid in left;
        var sorted := SortById(history[sid]);
        history := history[sid := sorted];
        left := left - {sid};
      }
    }
  }
}
