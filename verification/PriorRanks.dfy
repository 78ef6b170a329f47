// Ranks in the prior period for the rows of one page, without sorting the period's bucket:
// global_prior_ranks of src/clearing/src/api/leaderboard/api.rs.
module PriorRanks {
  import opened Base
  import opened Leaderboard

  predicate Ascending(ts: seq<int>) { forall i, j :: 0 <= i < j < |ts| ==> ts[i] < ts[j] }

  // How many targets lie below v.
  ghost predicate Splits(ts: seq<int>, v: int, j: nat) {
    j <= |ts| && (forall i :: 0 <= i < j ==> ts[i] < v) && (forall i :: j <= i < |ts| ==> ts[i] >= v)
  }

  // partition_point: the least index where the targets stop being below v.
  method PartitionPoint(ts: seq<int>, v: int) returns (j: nat)
    requires Ascending(ts)
    ensures Splits(ts, v, j)
  {
    var lo, hi := 0, |ts|;
    while lo < hi
      invariant 0 <= lo <= hi <= |ts|
      invariant forall i :: 0 <= i < lo ==> ts[i] < v
      invariant forall i :: hi <= i < |ts| ==> ts[i] >= v
    {
      var mid := (lo + hi) / 2;
      if ts[mid] < v { lo := mid + 1; } else { hi := mid; }
    }
    j := lo;
  }

  // sort_unstable and dedup: the same values, ascending, once each.
  method SortDedup(values: seq<int>) returns (ts: seq<int>)
    ensures Ascending(ts) && forall x :: x in ts <==> x in values
  {
    ts := [];
    for i := 0 to |values|
      invariant Ascending(ts) && forall x :: x in ts <==> x in values[..i]
    {
      var j := PartitionPoint(ts, values[i]);
      ghost var was := ts;
      if j == |ts| || ts[j] != values[i] {
        ts := ts[..j] + [values[i]] + ts[j..];
        assert was == was[..j] + was[j..];
      }
      assert values[..i + 1] == values[..i] + [values[i]];
    }
    assert values[..|values|] == values;
  }

  // ---------------------------------------------------------------- the difference array

  ghost function SumTo(s: seq<int>, n: nat): int
    requires n <= |s|
  {
    if n == 0 then 0 else SumTo(s, n - 1) + s[n - 1]
  }

  // One range increment over [0, j) raises the prefix sums that end inside it, and no other.
  lemma {:induction false} RangeIncrement(s: seq<int>, j: nat, n: nat)
    requires 0 < j < |s| && n <= |s|
    ensures SumTo(s[0 := s[0] + 1][j := s[j] - 1], n) == SumTo(s, n) + if 0 < n <= j then 1 else 0
  {
    if n == 0 {
    } else {
      RangeIncrement(s, j, n - 1);
    }
  }

  // Prefix sum i + 1 counts the entries seen so far above target i.
  ghost predicate Tallies(diff: seq<int>, ts: seq<int>, seen: Bucket) {
    |diff| == |ts| + 1 && forall i :: 0 <= i < |ts| ==> SumTo(diff, i + 1) == |Above(seen, ts[i])|
  }

  lemma AboveOneMore(seen: Bucket, u: User, p: Pnl, v: int)
    requires u !in seen
    ensures |Above(seen[u := p], v)| == |Above(seen, v)| + if p.realized > v then 1 else 0
  {
    if p.realized > v {
      assert Above(seen[u := p], v) == Above(seen, v) + {u};
    } else {
      assert Above(seen[u := p], v) == Above(seen, v);
    }
  }

  lemma TallyOneMore(diff: seq<int>, ts: seq<int>, seen: Bucket, u: User, p: Pnl, j: nat)
    requires Tallies(diff, ts, seen) && u !in seen
    requires Splits(ts, p.realized, j)
    ensures j == 0 ==> Tallies(diff, ts, seen[u := p])
    ensures j > 0 ==> Tallies(diff[0 := diff[0] + 1][j := diff[j] - 1], ts, seen[u := p])
  {
    forall i | 0 <= i < |ts|
      ensures |Above(seen[u := p], ts[i])| == SumTo(diff, i + 1) + if i < j then 1 else 0
      ensures j > 0 ==> SumTo(diff[0 := diff[0] + 1][j := diff[j] - 1], i + 1) == SumTo(diff, i + 1) + if i < j then 1 else 0
    {
      AboveOneMore(seen, u, p, ts[i]);
      if j > 0 { RangeIncrement(diff, j, i + 1); }
    }
  }

  method AddRange(diff: array<int>, j: nat)
    requires 0 < j < diff.Length
    modifies diff
    ensures diff[..] == var was := old(diff[..]); was[0 := was[0] + 1][j := was[j] - 1]
  {
    diff[0] := diff[0] + 1;
    diff[j] := diff[j] - 1;
  }

  method TallyOne(diff: array<int>, targets: seq<int>, ghost seen: Bucket, u: User, p: Pnl)
    requires Ascending(targets) && Tallies(diff[..], targets, seen) && u !in seen
    modifies diff
    ensures Tallies(diff[..], targets, seen[u := p])
  {
    var j := PartitionPoint(targets, p.realized);
    TallyOneMore(diff[..], targets, seen, u, p, j);
    if j > 0 { AddRange(diff, j); }
  }

  ghost function SeenSoFar(bucket: Bucket, left: set<User>): Bucket { map u | u in bucket && u !in left :: bucket[u] }

  lemma SeenEnds(bucket: Bucket)
    ensures SeenSoFar(bucket, {}) == bucket && SeenSoFar(bucket, bucket.Keys) == map[]
  {
  }

  lemma NotSeenYet(bucket: Bucket, left: set<User>, u: User)
    requires u in left
    ensures u !in SeenSoFar(bucket, left)
  {
  }

  method SeeOne(bucket: Bucket, left: set<User>, u: User) returns (left': set<User>, ghost seen: Bucket)
    requires u in left && left <= bucket.Keys
    ensures left' == left - {u} && |left'| < |left| && left' <= bucket.Keys
    ensures seen == SeenSoFar(bucket, left)[u := bucket[u]] == SeenSoFar(bucket, left')
  {
    left' := left - {u};
    seen := SeenSoFar(bucket, left');
  }

  // One pass over the bucket.
  method TallyBucket(bucket: Bucket, targets: seq<int>) returns (diff: array<int>)
    requires Ascending(targets)
    ensures fresh(diff) && Tallies(diff[..], targets, bucket)
  {
    hide Tallies, SeenSoFar;
    diff := new int[|targets| + 1](_ => 0);
    ghost var seen: Bucket := map[];
    var left := bucket.Keys;
    EmptyTally(diff[..], targets);
    SeenEnds(bucket);
    while left != {}
      invariant left <= bucket.Keys && seen == SeenSoFar(bucket, left)
      invariant fresh(diff) && Tallies(diff[..], targets, seen)
      decreases |left|
    {
      var u :| u in left;
      NotSeenYet(bucket, left, u);
      TallyOne(diff, targets, seen, u, bucket[u]);
      left, seen := SeeOne(bucket, left, u);
    }
  }

  lemma {:induction false} ZeroSums(s: seq<int>, n: nat)
    requires n <= |s| && forall i :: 0 <= i < |s| ==> s[i] == 0
    ensures SumTo(s, n) == 0
  {
    if n == 0 {
    } else {
      ZeroSums(s, n - 1);
    }
  }

  lemma EmptyTally(s: seq<int>, ts: seq<int>)
    requires |s| == |ts| + 1 && forall i :: 0 <= i < |s| ==> s[i] == 0
    ensures Tallies(s, ts, map[])
  {
    forall i | 0 <= i < |ts| ensures SumTo(s, i + 1) == |Above(map[], ts[i])| { ZeroSums(s, i + 1); }
  }

  method RunningSums(diff: seq<int>, n: nat) returns (greater: array<int>)
    requires n < |diff|
    ensures fresh(greater) && greater.Length == n && forall i :: 0 <= i < n ==> greater[i] == SumTo(diff, i + 1)
  {
    greater := new int[n](_ => 0);
    var running := 0;
    for i := 0 to n
      invariant running == SumTo(diff, i)
      invariant forall k :: 0 <= k < i ==> greater[k] == SumTo(diff, k + 1)
    {
      running := running + diff[i];
      greater[i] := running;
    }
  }

  // ---------------------------------------------------------------- the shown principals

  datatype Shown = Shown(user: User, pnl: int)

  // Every user of the page that the bucket knows, with the bucket's result.
  ghost predicate ShowsPresent(present: seq<Shown>, bucket: Bucket, page: seq<Row>) {
    && (forall x :: x in present ==> x.user in UsersOf(page) && x.user in bucket && bucket[x.user].realized == x.pnl)
    && (forall u :: u in UsersOf(page) && u in bucket ==> Shown(u, bucket[u].realized) in present)
  }

  method Present(bucket: Bucket, page: seq<Row>) returns (present: seq<Shown>)
    ensures ShowsPresent(present, bucket, page)
  {
    present := [];
    for i := 0 to |page|
      invariant ShowsPresent(present, bucket, page[..i])
    {
      assert UsersOf(page[..i + 1]) == UsersOf(page[..i]) + {page[i].user};
      if page[i].user in bucket { present := present + [Shown(page[i].user, bucket[page[i].user].realized)]; }
    }
    assert page[..|page|] == page;
  }

  // The ranks of the rows of a page in a population that may not hold all of them.
  ghost function RanksOn(pop: Bucket, page: seq<Row>): map<User, nat> {
    map u | u in UsersOf(page) && u in pop :: RankIn(pop, u)
  }

  lemma NoneShown(bucket: Bucket, page: seq<Row>)
    requires ShowsPresent([], bucket, page)
    ensures RanksOn(bucket, page) == map[]
  {
    assert forall u :: u in UsersOf(page) && u in bucket ==> Shown(u, bucket[u].realized) in [];
  }

  method RanksFrom(bucket: Bucket, page: seq<Row>, present: seq<Shown>, targets: seq<int>, greater: array<int>)
    returns (ranks: map<User, nat>)
    requires ShowsPresent(present, bucket, page) && Ascending(targets)
    requires forall x :: x in present ==> x.pnl in targets
    requires greater.Length == |targets| && forall i :: 0 <= i < |targets| ==> greater[i] == |Above(bucket, targets[i])|
    ensures ranks == RanksOn(bucket, page)
  {
    ranks := map[];
    for k := 0 to |present|
      invariant ranks.Keys == set x | x in present[..k] :: x.user
      invariant forall u :: u in ranks ==> u in bucket && ranks[u] == RankIn(bucket, u)
    {
      var x := present[k];
      assert x in present;
      var i := PartitionPoint(targets, x.pnl);
      assert i < |targets| && targets[i] == x.pnl;
      assert present[..k + 1] == present[..k] + [x];
      ranks := ranks[x.user := greater[i] + 1];
    }
    assert present[..|present|] == present;
    forall u ensures u in ranks <==> u in UsersOf(page) && u in bucket {
      if u in UsersOf(page) && u in bucket { assert Shown(u, bucket[u].realized) in present; }
    }
  }

  // global_prior_ranks: each shown principal gets one more than the number of bucket entries with a
  // strictly greater result, and a principal the bucket does not hold gets no rank.
  method GlobalPriorRanks(bucket: Option<Bucket>, page: seq<Row>) returns (ranks: map<User, nat>)
    ensures ranks == RanksOn(bucket.Or(map[]), page)
  {
    if bucket.None? {
      assert RanksOn(map[], page) == map[];
      return map[];
    }
    var present := Present(bucket.value, page);
    if present == [] {
      NoneShown(bucket.value, page);
      return map[];
    }
    var shown := seq(|present|, i requires 0 <= i < |present| => present[i].pnl);
    var targets := SortDedup(shown);
    forall x | x in present ensures x.pnl in targets {
      var i :| 0 <= i < |present| && present[i] == x;
      assert shown[i] in shown;
    }
    var diff := TallyBucket(bucket.value, targets);
    var greater := RunningSums(diff[..], |targets|);
    ranks := RanksFrom(bucket.value, page, present, targets, greater);
  }
}
