// Price candles of one series: aggregate_price_history of src/clearing/src/api/trade/api.rs and the
// buckets of src/clearing/src/types/price_history.rs.
module Candles {
  import opened Base
  import opened Payoffs

  const NANOS_PER_HOUR: int := 3_600_000_000_000
  const MAX_PRICE_HISTORY_POINTS := 1_000

  datatype Interval = Hour | Day {
    function Width(): int { if Hour? then NANOS_PER_HOUR else NANOS_PER_DAY }

    function BucketStart(ts: nat): nat { ts / Width() * Width() }
  }

  datatype Point = Point(eventId: nat, price: Price, qty: int, timestamp: nat)

  datatype Candle = Candle(start: nat, open: Price, high: Price, low: Price, close: Price, volume: int, count: nat)

  // Two instants share a bucket exactly when they share its start, and starts are the whole hours or days
  // and grow with time.
  lemma BucketsPartitionTime(w: Interval, a: nat, b: nat)
    ensures w.BucketStart(a) <= a < w.BucketStart(a) + w.Width()
    ensures w.BucketStart(a) % w.Width() == 0 && w.Width() == 1_000_000_000 * if w.Hour? then 60 * 60 else 24 * 60 * 60
    ensures w.BucketStart(a) == w.BucketStart(b) <==> w.BucketStart(a) <= b < w.BucketStart(a) + w.Width()
    ensures a <= b ==> w.BucketStart(a) <= w.BucketStart(b)
  {
  }

  predicate Chronological(points: seq<Point>) {
    forall i, j :: 0 <= i <= j < |points| ==> points[i].timestamp <= points[j].timestamp
  }

  predicate Inside(p: Point, from: Option<nat>, to: Option<nat>) {
    (to.Some? ==> p.timestamp < to.value) && (from.Some? ==> p.timestamp >= from.value)
  }

  // ---------------------------------------------------------------- the naive form, oldest first

  ghost function InWindow(points: seq<Point>, from: Option<nat>, to: Option<nat>): seq<Point> {
    if points == [] then []
    else
      var n := |points| - 1;
      InWindow(points[..n], from, to) + if Inside(points[n], from, to) then [points[n]] else []
  }

  function Opened(w: Interval, p: Point): Candle {
    Candle(w.BucketStart(p.timestamp), p.price, p.price, p.price, p.price, p.qty, 1)
  }

  // A later point closes the candle and may raise its high or lower its low.
  function Extended(c: Candle, p: Point): Candle {
    Candle(c.start, c.open,
           if p.price.value >= c.high.value then p.price else c.high,
           if p.price.value <= c.low.value then p.price else c.low,
           p.price, c.volume + p.qty, c.count + 1)
  }

  ghost function Naive(w: Interval, points: seq<Point>): (candles: seq<Candle>)
    ensures points != [] ==> candles != []
    ensures points != [] ==> candles[|candles| - 1].start == w.BucketStart(points[|points| - 1].timestamp)
    ensures points == [] ==> candles == []
  {
    if points == [] then [] else AddPoint(w, Naive(w, points[..|points| - 1]), points[|points| - 1])
  }

  function AddPoint(w: Interval, candles: seq<Candle>, p: Point): (r: seq<Candle>)
    ensures r != [] && r[|r| - 1].start == w.BucketStart(p.timestamp)
  {
    var n := |candles| - 1;
    if candles != [] && candles[n].start == w.BucketStart(p.timestamp) then candles[n := Extended(candles[n], p)]
    else candles + [Opened(w, p)]
  }

  ghost function Latest(candles: seq<Candle>, cap: nat): seq<Candle> {
    if |candles| <= cap then candles else candles[|candles| - cap..]
  }

  // ---------------------------------------------------------------- folding from the other end

  function FoldOlder(c: Candle, p: Point): Candle {
    Candle(c.start, p.price,
           if p.price.value > c.high.value then p.price else c.high,
           if p.price.value < c.low.value then p.price else c.low,
           c.close, c.volume + p.qty, c.count + 1)
  }

  // An older and a later point may be folded in either order.
  lemma FoldsCommute(c: Candle, older: Point, later: Point)
    ensures FoldOlder(Extended(c, later), older) == Extended(FoldOlder(c, older), later)
  {
  }

  lemma {:induction false} FirstStart(w: Interval, points: seq<Point>)
    requires points != []
    ensures Naive(w, points)[0].start == w.BucketStart(points[0].timestamp)
  {
    hide Interval.BucketStart, Interval.Width;
    if |points| <= 1 {
    } else {
      FirstStart(w, points[..|points| - 1]);
    }
  }

  lemma AddToBack(w: Interval, front: seq<Candle>, back: seq<Candle>, q: Point)
    requires back != []
    ensures AddPoint(w, front + back, q) == front + AddPoint(w, back, q)
  {
    hide Interval.BucketStart, Extended, Opened;
  }

  lemma AddToFront(w: Interval, candles: seq<Candle>, older: Point, q: Point)
    requires candles != []
    ensures var r := AddPoint(w, candles, q);
      AddPoint(w, candles[0 := FoldOlder(candles[0], older)], q) == r[0 := FoldOlder(r[0], older)]
  {
    hide Interval.BucketStart, Opened;
    FoldsCommute(candles[0], older, q);
  }

  lemma AddFirst(w: Interval, p: Point, q: Point)
    ensures AddPoint(w, [], q) == [Opened(w, q)]
    ensures AddPoint(w, [Opened(w, p)], q)
         == if w.BucketStart(p.timestamp) == w.BucketStart(q.timestamp) then [FoldOlder(Opened(w, q), p)]
            else [Opened(w, p), Opened(w, q)]
  {
    hide Interval.BucketStart;
  }

  lemma NaiveOf(w: Interval, points: seq<Point>, q: Point)
    ensures Naive(w, points + [q]) == AddPoint(w, Naive(w, points), q)
  {
    assert (points + [q])[..|points|] == points;
    hide AddPoint;
  }

  lemma NaiveOfOne(w: Interval, p: Point)
    ensures Naive(w, []) == [] && Naive(w, [p]) == [Opened(w, p)]
  {
    NaiveOf(w, [], p);
    AddFirst(w, p, p);
    assert [] + [p] == [p];
    hide AddPoint;
  }

  // An older point of the first bucket changes the first candle alone.
  lemma {:induction false} NaivePrepend(w: Interval, p: Point, points: seq<Point>)
    requires points != [] && w.BucketStart(p.timestamp) == w.BucketStart(points[0].timestamp)
    ensures Naive(w, [p] + points) == Naive(w, points)[0 := FoldOlder(Naive(w, points)[0], p)]
    decreases |points|
  {
    hide Naive, AddPoint, FoldOlder, Opened, Interval.BucketStart;
    var rest, q := points[..|points| - 1], points[|points| - 1];
    assert points == rest + [q] && [p] + points == ([p] + rest) + [q];
    NaiveOf(w, rest, q);
    NaiveOf(w, [p] + rest, q);
    if rest == [] {
      NaiveOfOne(w, p);
      AddFirst(w, p, q);
      assert [p] + rest == [p];
    } else {
      NaivePrepend(w, p, rest);
      AddToFront(w, Naive(w, rest), p, q);
    }
  }

  // Points of later buckets add their candles behind those of the earlier points.
  lemma {:induction false} NaiveSplit(w: Interval, a: seq<Point>, b: seq<Point>)
    requires a != [] && b != []
    requires w.BucketStart(a[|a| - 1].timestamp) < w.BucketStart(b[0].timestamp)
    ensures Naive(w, a + b) == Naive(w, a) + Naive(w, b)
    decreases |b|
  {
    hide Naive, AddPoint, Interval.BucketStart;
    var rest, q := b[..|b| - 1], b[|b| - 1];
    assert b == rest + [q] && a + b == (a + rest) + [q];
    NaiveOf(w, rest, q);
    NaiveOf(w, a + rest, q);
    if rest == [] {
      assert a + rest == a && b == [q];
      NaiveOfOne(w, q);
      AddLater(w, Naive(w, a), q);
    } else {
      NaiveSplit(w, a, rest);
      AddToBack(w, Naive(w, a), Naive(w, rest), q);
    }
  }

  lemma AddLater(w: Interval, candles: seq<Candle>, q: Point)
    requires candles != [] ==> candles[|candles| - 1].start != w.BucketStart(q.timestamp)
    ensures AddPoint(w, candles, q) == candles + [Opened(w, q)]
  {
  }

  lemma {:induction false} StartsAscend(w: Interval, points: seq<Point>)
    requires Chronological(points)
    ensures forall i, j :: 0 <= i < j < |Naive(w, points)| ==> Naive(w, points)[i].start < Naive(w, points)[j].start
    ensures points != [] ==> forall i :: 0 <= i < |Naive(w, points)| ==>
      Naive(w, points)[i].start <= w.BucketStart(points[|points| - 1].timestamp)
  {
    hide Interval.BucketStart, Interval.Width;
    if |points| <= 1 {
    } else {
      var n := |points| - 1;
      StartsAscend(w, points[..n]);
      BucketsPartitionTime(w, points[n - 1].timestamp, points[n].timestamp);
    }
  }

  // ---------------------------------------------------------------- the window of a chronological tape

  lemma {:induction false} WindowSplits(a: seq<Point>, b: seq<Point>, from: Option<nat>, to: Option<nat>)
    ensures InWindow(a + b, from, to) == InWindow(a, from, to) + InWindow(b, from, to)
    decreases |b|
  {
    if b == [] {
      assert a + b == a;
    } else {
      var n := |b| - 1;
      WindowSplits(a, b[..n], from, to);
      assert (a + b)[..|a| + n] == a + b[..n];
    }
  }

  lemma {:induction false} NothingBelow(points: seq<Point>, from: Option<nat>, to: Option<nat>)
    requires forall i :: 0 <= i < |points| ==> !Inside(points[i], from, to)
    ensures InWindow(points, from, to) == []
  {
    if points == [] {
    } else {
      NothingBelow(points[..|points| - 1], from, to);
    }
  }

  lemma {:induction false} WindowKeepsOrder(points: seq<Point>, from: Option<nat>, to: Option<nat>)
    requires Chronological(points)
    ensures Chronological(InWindow(points, from, to))
    ensures forall p :: p in InWindow(points, from, to) ==> p in points
  {
    if points == [] {
    } else {
      var n := |points| - 1;
      WindowKeepsOrder(points[..n], from, to);
      var before := InWindow(points[..n], from, to);
      forall i | 0 <= i < |before| ensures before[i].timestamp <= points[n].timestamp {
        assert before[i] in before && before[i] in points[..n];
      }
    }
  }

  // The window of a tape seen from index i on grows by one older point.
  lemma WindowGrows(points: seq<Point>, i: nat, from: Option<nat>, to: Option<nat>)
    requires i < |points|
    ensures InWindow(points[i..], from, to)
         == (if Inside(points[i], from, to) then [points[i]] else []) + InWindow(points[i + 1..], from, to)
  {
    assert points[i..] == [points[i]] + points[i + 1..];
    WindowSplits([points[i]], points[i + 1..], from, to);
    assert [points[i]][..0] == [] && InWindow([points[i]][..0], from, to) == [];
  }

  // ---------------------------------------------------------------- the scan

  // The map that holds these candles under their starts.
  ghost predicate Holds(buckets: map<nat, Candle>, candles: seq<Candle>) {
    && (forall i :: 0 <= i < |candles| ==> candles[i].start in buckets && buckets[candles[i].start] == candles[i])
    && (forall k :: k in buckets ==> exists i :: 0 <= i < |candles| && candles[i].start == k)
  }

  predicate Ascend(candles: seq<Candle>) { forall i, j :: 0 <= i < j < |candles| ==> candles[i].start < candles[j].start }

  // An older point opens a candle in front, or changes the first one.
  lemma HoldsOlder(w: Interval, buckets: map<nat, Candle>, candles: seq<Candle>, p: Point)
    requires Holds(buckets, candles) && Ascend(candles)
    requires candles != [] ==> w.BucketStart(p.timestamp) <= candles[0].start
    ensures w.BucketStart(p.timestamp) in buckets <==> candles != [] && candles[0].start == w.BucketStart(p.timestamp)
    ensures w.BucketStart(p.timestamp) in buckets ==>
      Holds(buckets[w.BucketStart(p.timestamp) := FoldOlder(candles[0], p)], candles[0 := FoldOlder(candles[0], p)])
    ensures w.BucketStart(p.timestamp) !in buckets ==> Holds(buckets[w.BucketStart(p.timestamp) := Opened(w, p)], [Opened(w, p)] + candles)
  {
    hide Interval.BucketStart, Interval.Width;
    var b := w.BucketStart(p.timestamp);
    if b in buckets {
      var i :| 0 <= i < |candles| && candles[i].start == b;
      assert i == 0;
      var next, folded := candles[0 := FoldOlder(candles[0], p)], buckets[b := FoldOlder(candles[0], p)];
      forall k | k in folded ensures exists i :: 0 <= i < |next| && next[i].start == k {
        var j :| 0 <= j < |candles| && candles[j].start == k;
        assert next[j].start == k;
      }
    } else {
      var next, grown := [Opened(w, p)] + candles, buckets[b := Opened(w, p)];
      forall k | k in grown ensures exists i :: 0 <= i < |next| && next[i].start == k {
        if k == b {
          assert next[0].start == k;
        } else {
          var j :| 0 <= j < |candles| && candles[j].start == k;
          assert next[j + 1].start == k;
        }
      }
    }
  }

  lemma {:induction false} HoldsCount(buckets: map<nat, Candle>, candles: seq<Candle>)
    requires Holds(buckets, candles) && Ascend(candles)
    ensures |buckets| == |candles|
    decreases |candles|
  {
    if candles == [] {
      assert buckets == map[];
    } else {
      var n := |candles| - 1;
      var last := candles[n].start;
      HoldsRest(buckets, candles);
      HoldsCount(buckets - {last}, candles[..n]);
      OneLess(buckets, last);
    }
  }

  lemma OneLess(buckets: map<nat, Candle>, k: nat)
    requires k in buckets
    ensures |buckets - {k}| == |buckets| - 1
  {
    assert (buckets - {k}).Keys == buckets.Keys - {k};
  }

  lemma HoldsRest(buckets: map<nat, Candle>, candles: seq<Candle>)
    requires Holds(buckets, candles) && Ascend(candles) && candles != []
    ensures Holds(buckets - {candles[|candles| - 1].start}, candles[..|candles| - 1])
  {
    var n := |candles| - 1;
    var rest := buckets - {candles[n].start};
    forall k | k in rest ensures exists i :: 0 <= i < |candles[..n]| && candles[..n][i].start == k {
      var i :| 0 <= i < |candles| && candles[i].start == k;
      assert candles[..n][i].start == k;
    }
  }

  // into_values of an ordered map: its candles by ascending start.
  method ValuesInOrder(buckets: map<nat, Candle>, ghost candles: seq<Candle>) returns (values: seq<Candle>)
    requires Holds(buckets, candles) && Ascend(candles)
    ensures values == candles
  {
    hide Holds, Ascend;
    values := [];
    var left := buckets;
    ghost var front := candles;
    while left != map[]
      invariant candles == front + values && Holds(left, front) && Ascend(front)
      decreases |left|
    {
      var last := LastKey(left);
      LastIsLast(left, front, last);
      values := [left[last]] + values;
      left := left - {last};
      front := front[..|front| - 1];
    }
    NoneHeld(front);
  }

  lemma NoneHeld(candles: seq<Candle>)
    requires Holds(map[], candles) && Ascend(candles)
    ensures candles == []
  {
    HoldsCount(map[], candles);
  }

  lemma LastIsLast(buckets: map<nat, Candle>, candles: seq<Candle>, last: nat)
    requires Holds(buckets, candles) && Ascend(candles)
    requires last in buckets && forall k :: k in buckets ==> k <= last
    ensures var n := |candles| - 1;
      && candles != [] && candles == candles[..n] + [buckets[last]]
      && Holds(buckets - {last}, candles[..n]) && Ascend(candles[..n])
  {
    var i :| 0 <= i < |candles| && candles[i].start == last;
    assert candles[|candles| - 1].start in buckets;
    HoldsRest(buckets, candles);
  }

  method LastKey(buckets: map<nat, Candle>) returns (last: nat)
    requires buckets != map[]
    ensures last in buckets && forall k :: k in buckets ==> k <= last
  {
    var keys := buckets.Keys;
    last :| last in keys;
    keys := keys - {last};
    while keys != {}
      invariant last in buckets && forall k :: k in buckets && k !in keys ==> k <= last
      invariant keys <= buckets.Keys
      decreases |keys|
    {
      var k :| k in keys;
      if k > last { last := k; }
      keys := keys - {k};
    }
  }

  // ---------------------------------------------------------------- the scan, newest first

  lemma TailInOrder(p: Point, later: seq<Point>)
    requires Chronological([p] + later)
    ensures Chronological(later) && (later != [] ==> p.timestamp <= later[0].timestamp)
  {
    var all := [p] + later;
    forall i, j | 0 <= i <= j < |later| ensures later[i].timestamp <= later[j].timestamp {
      assert all[i + 1].timestamp <= all[j + 1].timestamp;
    }
    if later != [] { assert all[0] == p && all[1] == later[0]; }
  }

  // What one more, older point does to the naive candles of what has been scanned.
  lemma OlderPoint(w: Interval, p: Point, later: seq<Point>)
    requires Chronological([p] + later)
    ensures var b, cs := w.BucketStart(p.timestamp), Naive(w, later);
      && Ascend(cs) && (cs != [] ==> b <= cs[0].start) && Ascend(Naive(w, [p] + later))
      && Naive(w, [p] + later)
         == if cs != [] && cs[0].start == b then cs[0 := FoldOlder(cs[0], p)] else [Opened(w, p)] + cs
  {
    hide Interval.BucketStart, Interval.Width, Extended, Opened, FoldOlder, Naive, AddPoint, Chronological;
    TailInOrder(p, later);
    StartsAscend(w, later);
    StartsAscend(w, [p] + later);
    NaiveOfOne(w, p);
    if later == [] {
      assert [p] + later == [p];
    } else {
      FirstStart(w, later);
      BucketsPartitionTime(w, p.timestamp, later[0].timestamp);
      if w.BucketStart(p.timestamp) == w.BucketStart(later[0].timestamp) {
        NaivePrepend(w, p, later);
      } else {
        NaiveSplit(w, [p], later);
      }
    }
  }

  // Once the cap is full, a point of another bucket shows that everything left belongs to older ones.
  lemma CapReached(w: Interval, points: seq<Point>, i: nat, from: Option<nat>, to: Option<nat>)
    requires Chronological(points) && i < |points| && Inside(points[i], from, to)
    requires var later := InWindow(points[i + 1..], from, to);
      later != [] && w.BucketStart(points[i].timestamp) < Naive(w, later)[0].start
    ensures var later := InWindow(points[i + 1..], from, to);
      Latest(Naive(w, InWindow(points, from, to)), |Naive(w, later)|) == Naive(w, later)
  {
    hide Interval.BucketStart, Interval.Width, Naive, Chronological;
    var older, later := InWindow(points[..i + 1], from, to), InWindow(points[i + 1..], from, to);
    assert points == points[..i + 1] + points[i + 1..];
    WindowSplits(points[..i + 1], points[i + 1..], from, to);
    assert older[|older| - 1] == points[i];
    FirstStart(w, later);
    NaiveSplit(w, older, later);
  }

  // Below the window everything older is below it too.
  lemma WindowDone(points: seq<Point>, i: nat, from: Option<nat>, to: Option<nat>)
    requires Chronological(points) && i <= |points|
    requires i == 0 || (from.Some? && points[i - 1].timestamp < from.value)
    ensures InWindow(points, from, to) == InWindow(points[i..], from, to)
  {
    assert points == points[..i] + points[i..];
    WindowSplits(points[..i], points[i..], from, to);
    NothingBelow(points[..i], from, to);
  }

  lemma SuffixInOrder(points: seq<Point>, i: nat, from: Option<nat>, to: Option<nat>)
    requires Chronological(points) && i < |points| && Inside(points[i], from, to)
    ensures Chronological([points[i]] + InWindow(points[i + 1..], from, to))
    ensures InWindow(points[i..], from, to) == [points[i]] + InWindow(points[i + 1..], from, to)
  {
    WindowGrows(points, i, from, to);
    WindowKeepsOrder(points[i..], from, to);
  }

  // The capped scan that starts from the newest point and stops early gives the newest candles of the
  // naive grouping of all points in the window.
  method AggregatePriceHistory(points: seq<Point>, w: Interval, from: Option<nat>, to: Option<nat>) returns (candles: seq<Candle>)
    requires Chronological(points)
    ensures candles == Latest(Naive(w, InWindow(points, from, to)), 1_000)
  {
    hide Interval.BucketStart, Interval.Width;
    hide Chronological, Naive, InWindow, Holds;
    var buckets: map<nat, Candle> := map[];
    var i := |points|;
    ghost var seen: seq<Point> := [];
    NothingSeen(w, points, from, to);
    while i > 0
      invariant 0 <= i <= |points| && seen == InWindow(points[i..], from, to)
      invariant Holds(buckets, Naive(w, seen)) && Ascend(Naive(w, seen))
      invariant |Naive(w, seen)| <= MAX_PRICE_HISTORY_POINTS
    {
      var p := points[i - 1];
      WindowGrows(points, i - 1, from, to);
      if to.Some? && p.timestamp >= to.value {
        i := i - 1;
        continue;
      }
      if from.Some? && p.timestamp < from.value {
        WindowDone(points, i, from, to);
        break;
      }
      SuffixInOrder(points, i - 1, from, to);
      var full;
      full, buckets := SeeOlder(w, buckets, p, seen);
      if full {
        CapReached(w, points, i - 1, from, to);
        break;
      }
      seen := [p] + seen;
      i := i - 1;
    }
    if i == 0 { WindowDone(points, i, from, to); }
    candles := ValuesInOrder(buckets, Naive(w, seen));
  }

  // One older point of the window; full when it would open a candle beyond the cap.
  method SeeOlder(w: Interval, buckets: map<nat, Candle>, p: Point, ghost seen: seq<Point>)
    returns (full: bool, buckets': map<nat, Candle>)
    requires Holds(buckets, Naive(w, seen)) && Ascend(Naive(w, seen)) && |Naive(w, seen)| <= MAX_PRICE_HISTORY_POINTS
    requires Chronological([p] + seen)
    ensures full ==>
      buckets' == buckets && |Naive(w, seen)| == MAX_PRICE_HISTORY_POINTS && w.BucketStart(p.timestamp) < Naive(w, seen)[0].start
    ensures !full ==>
      (Holds(buckets', Naive(w, [p] + seen)) && Ascend(Naive(w, [p] + seen)) && |Naive(w, [p] + seen)| <= MAX_PRICE_HISTORY_POINTS)
  {
    hide Chronological, Naive, Holds, Interval.BucketStart, FoldOlder;
    var b := w.BucketStart(p.timestamp);
    OlderPoint(w, p, seen);
    HoldsOlder(w, buckets, Naive(w, seen), p);
    HoldsCount(buckets, Naive(w, seen));
    full, buckets' := false, buckets;
    if b in buckets {
      HeldCandle(buckets, Naive(w, seen));
      buckets' := buckets[b := FoldOlder(buckets[b], p)];
    } else if |buckets| == MAX_PRICE_HISTORY_POINTS {
      full := true;
    } else {
      buckets' := buckets[b := Opened(w, p)];
    }
  }

  lemma HeldCandle(buckets: map<nat, Candle>, candles: seq<Candle>)
    requires Holds(buckets, candles) && candles != []
    ensures candles[0].start in buckets && buckets[candles[0].start] == candles[0]
  {
  }

  lemma NothingSeen(w: Interval, points: seq<Point>, from: Option<nat>, to: Option<nat>)
    ensures InWindow(points[|points|..], from, to) == [] && Naive(w, []) == [] && Holds(map[], [])
  {
  }

  // ---------------------------------------------------------------- what a candle says

  ghost function Group(w: Interval, points: seq<Point>, start: nat): seq<Point> {
    if points == [] then []
    else
      var n := |points| - 1;
      Group(w, points[..n], start) + if w.BucketStart(points[n].timestamp) == start then [points[n]] else []
  }

  function Volume(points: seq<Point>): int { if points == [] then 0 else Volume(points[..|points| - 1]) + points[|points| - 1].qty }

  // The candle of a group: its first and last prices, its highest and lowest values, total and count.
  ghost predicate Summarises(c: Candle, group: seq<Point>) {
    && group != [] && c.open == group[0].price && c.close == group[|group| - 1].price
    && (exists i :: 0 <= i < |group| && group[i].price == c.high)
    && (exists i :: 0 <= i < |group| && group[i].price == c.low)
    && (forall i :: 0 <= i < |group| ==> c.low.value <= group[i].price.value <= c.high.value)
    && c.volume == Volume(group) && c.count == |group|
  }

  lemma OpenedSummarises(w: Interval, p: Point)
    ensures Summarises(Opened(w, p), [p])
  {
    assert [p][0].price == p.price;
    assert [p][..0] == [];
  }

  lemma ExtendedSummarises(c: Candle, group: seq<Point>, p: Point)
    requires Summarises(c, group)
    ensures Summarises(Extended(c, p), group + [p])
  {
    var g, c' := group + [p], Extended(c, p);
    assert g[..|group|] == group;
    assert g[|group|].price == p.price;
    var h :| 0 <= h < |group| && group[h].price == c.high;
    var l :| 0 <= l < |group| && group[l].price == c.low;
    assert g[h].price == c.high && g[l].price == c.low;
  }

  lemma {:induction false} NoGroupAfter(w: Interval, points: seq<Point>, start: nat)
    requires forall i :: 0 <= i < |points| ==> w.BucketStart(points[i].timestamp) != start
    ensures Group(w, points, start) == []
  {
    if points == [] {
    } else {
      NoGroupAfter(w, points[..|points| - 1], start);
    }
  }

  // Over a chronological tape the naive candles summarise exactly the points of their buckets, and
  // every point's bucket has a candle.
  lemma {:induction false} NaiveSummarises(w: Interval, points: seq<Point>, k: nat)
    requires Chronological(points) && k < |Naive(w, points)|
    ensures Summarises(Naive(w, points)[k], Group(w, points, Naive(w, points)[k].start))
    decreases |points|
  {
    hide Interval.BucketStart, Interval.Width, Summarises;
    hide Chronological, AddPoint;
    var n := |points| - 1;
    var before, p := Naive(w, points[..n]), points[n];
    var b := w.BucketStart(p.timestamp);
    BucketsSoFar(w, points);
    AddedCandle(w, before, p, k);
    if k < |before| {
      NaiveSummarises(w, points[..n], k);
      if before[k].start == b {
        ExtendedSummarises(before[k], Group(w, points[..n], b), p);
      } else {
        assert Group(w, points, before[k].start) == Group(w, points[..n], before[k].start);
      }
    } else {
      forall i | 0 <= i < n ensures w.BucketStart(points[..n][i].timestamp) != b {
        EveryPointCounts(w, points[..n], i);
      }
      NoGroupAfter(w, points[..n], b);
      OpenedSummarises(w, p);
      assert Group(w, points, b) == [p];
    }
  }

  lemma BucketsSoFar(w: Interval, points: seq<Point>)
    requires Chronological(points) && points != []
    ensures var n := |points| - 1;
      && Chronological(points[..n]) && Ascend(Naive(w, points[..n]))
      && forall c :: c in Naive(w, points[..n]) ==> c.start <= w.BucketStart(points[n].timestamp)
  {
    hide Naive, Interval.BucketStart;
    var n := |points| - 1;
    StartsAscend(w, points[..n]);
    if n > 0 { BucketsPartitionTime(w, points[n - 1].timestamp, points[n].timestamp); }
  }

  // The candle at k once a point is added: an old one, the extended last one, or a new one.
  lemma AddedCandle(w: Interval, before: seq<Candle>, p: Point, k: nat)
    requires Ascend(before) && k < |AddPoint(w, before, p)|
    requires forall c :: c in before ==> c.start <= w.BucketStart(p.timestamp)
    ensures var b, c := w.BucketStart(p.timestamp), AddPoint(w, before, p)[k];
      if k < |before| then c == (if before[k].start == b then Extended(before[k], p) else before[k])
      else k == |before| && c == Opened(w, p) && forall x :: x in before ==> x.start < b
  {
    hide Interval.BucketStart, Extended, Opened;
    if k < |before| { assert before[k] in before && before[|before| - 1] in before; }
  }

  lemma {:induction false} EveryPointCounts(w: Interval, points: seq<Point>, i: nat)
    requires i < |points|
    ensures exists k :: 0 <= k < |Naive(w, points)| && Naive(w, points)[k].start == w.BucketStart(points[i].timestamp)
    decreases |points|
  {
    hide Interval.BucketStart, Interval.Width;
    var n := |points| - 1;
    if i < n {
      EveryPointCounts(w, points[..n], i);
      var before := Naive(w, points[..n]);
      var k :| 0 <= k < |before| && before[k].start == w.BucketStart(points[..n][i].timestamp);
      assert Naive(w, points)[k].start == before[k].start;
    } else {
      assert Naive(w, points)[|Naive(w, points)| - 1].start == w.BucketStart(points[n].timestamp);
    }
  }

  // ---------------------------------------------------------------- stored values and true prices

  // a is no higher a price than b: both values at the precision of the other.
  predicate AtMost(a: Price, b: Price) { a.value * Pow10(b.decimals) <= b.value * Pow10(a.decimals) }

  ghost predicate TrueExtremes(c: Candle, group: seq<Point>) {
    forall i :: 0 <= i < |group| ==> AtMost(group[i].price, c.high) && AtMost(c.low, group[i].price)
  }

  ghost function Decimals(points: seq<Point>): seq<nat> {
    seq(|points|, i requires 0 <= i < |points| => points[i].price.decimals)
  }

  ghost predicate AllSame(ds: seq<nat>) { forall i, j :: 0 <= i < |ds| && 0 <= j < |ds| ==> ds[i] == ds[j] }

  lemma SamePrecision(a: Price, b: Price)
    requires a.decimals == b.decimals
    ensures AtMost(a, b) <==> a.value <= b.value
  {
    var m := Pow10(a.decimals);
    if a.value <= b.value {
      assert a.value * m <= b.value * m;
    } else {
      assert a.value * m > b.value * m;
    }
  }

  // Where the points of a bucket share their precision, its high and low are its highest and lowest prices.
  lemma SharedPrecisionIsEnough(c: Candle, group: seq<Point>)
    requires Summarises(c, group) && AllSame(Decimals(group))
    ensures TrueExtremes(c, group)
  {
    hide AtMost;
    var h :| 0 <= h < |group| && group[h].price == c.high;
    var l :| 0 <= l < |group| && group[l].price == c.low;
    forall i | 0 <= i < |group| ensures AtMost(group[i].price, c.high) && AtMost(c.low, group[i].price) {
      assert Decimals(group)[i] == Decimals(group)[h] && Decimals(group)[i] == Decimals(group)[l];
      SamePrecision(group[i].price, c.high);
      SamePrecision(c.low, group[i].price);
    }
  }

  // Every candle of a tape that keeps to one precision, over any window.
  lemma ExtremesAreTrue(w: Interval, points: seq<Point>, k: nat)
    requires Chronological(points) && k < |Naive(w, points)|
    requires AllSame(Decimals(Group(w, points, Naive(w, points)[k].start)))
    ensures TrueExtremes(Naive(w, points)[k], Group(w, points, Naive(w, points)[k].start))
  {
    NaiveSummarises(w, points, k);
    SharedPrecisionIsEnough(Naive(w, points)[k], Group(w, points, Naive(w, points)[k].start));
  }

  // All points of a tape traded at one instant.
  ghost predicate AtOnce(points: seq<Point>) { forall i :: 0 <= i < |points| ==> points[i].timestamp == 0 }

  lemma StartOfZero(w: Interval)
    ensures w.BucketStart(0) == 0
  {
  }

  lemma {:induction false} OneCandle(w: Interval, points: seq<Point>)
    requires AtOnce(points) && points != []
    ensures |Naive(w, points)| == 1 && Naive(w, points)[0].start == 0 && Group(w, points, 0) == points && Chronological(points)
    decreases |points|
  {
    hide Interval.BucketStart, Interval.Width, Extended, Opened;
    StartOfZero(w);
    var n := |points| - 1;
    if n == 0 {
      assert Naive(w, points[..0]) == [];
      assert Group(w, points[..0], 0) == [] && points == [] + [points[0]];
    } else {
      OneCandle(w, points[..n]);
      assert points[..n] + [points[n]] == points;
    }
  }

  // A tape with the given precisions, all values 1 but the one at j, which is 2.
  ghost function Tape(ds: seq<nat>, j: nat): seq<Point> {
    seq(|ds|, i requires 0 <= i < |ds| => Point(i, Price(if i == j then 2 else 1, ds[i], 0), 1, 0))
  }

  lemma {:induction false} MoreDigits(a: nat, b: nat)
    requires a < b
    ensures Pow10(b) >= 10 * Pow10(a)
  {
    if b == a + 1 {
    } else {
      MoreDigits(a, b - 1);
    }
  }

  // A value of 2 with more decimals is the greatest value and not the highest price.
  lemma TapeMisleads(w: Interval, ds: seq<nat>, i: nat, j: nat)
    requires i < |ds| && j < |ds| && ds[i] < ds[j]
    ensures var points := Tape(ds, j);
      AtOnce(points) && Decimals(points) == ds && |Naive(w, points)| == 1 && !TrueExtremes(Naive(w, points)[0], points)
  {
    hide Naive, Group, Interval.BucketStart, AddPoint;
    var points := Tape(ds, j);
    assert Decimals(points) == ds;
    OneCandle(w, points);
    NaiveSummarises(w, points, 0);
    var c := Naive(w, points)[0];
    assert points[j].price.value <= c.high.value;
    var h :| 0 <= h < |points| && points[h].price == c.high;
    assert h == j;
    MoreDigits(ds[i], ds[j]);
    assert !AtMost(points[i].price, c.high);
  }

  // What the precisions alone decide: high and low are the true extremes whatever was traded exactly
  // when all points of the bucket have the same precision, which nothing enforces.
  lemma PrecisionDecides(w: Interval, ds: seq<nat>)
    requires ds != []
    ensures AllSame(ds)
        <==> forall points :: Decimals(points) == ds && AtOnce(points) ==>
               |Naive(w, points)| == 1 && TrueExtremes(Naive(w, points)[0], points)
  {
    hide Naive, TrueExtremes, AtOnce;
    if AllSame(ds) {
      forall points | Decimals(points) == ds && AtOnce(points)
        ensures |Naive(w, points)| == 1 && TrueExtremes(Naive(w, points)[0], points)
      {
        assert |Decimals(points)| == |points|;
        OneCandle(w, points);
        ExtremesAreTrue(w, points, 0);
      }
    } else {
      var i, j :| 0 <= i < |ds| && 0 <= j < |ds| && ds[i] != ds[j];
      TapeMisleads(w, ds, if ds[i] < ds[j] then i else j, if ds[i] < ds[j] then j else i);
    }
  }
}
