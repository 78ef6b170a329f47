// Ranked standings served by the page: src/clearing/src/api/leaderboard/api.rs.
module Leaderboard {
  import opened Base
  import opened Calendar

  datatype Pnl = Pnl(realized: int, settled: nat, wins: nat) {
    function Record(cashflow: int): Pnl {
      Pnl(realized + cashflow, settled + 1, if cashflow > 0 then wins + 1 else wins)
    }
  }

  const NO_PNL := Pnl(0, 0, 0)

  type Bucket = map<User, Pnl>

  datatype Slot = Slot(window: Window, period: int)

  type Index = map<Slot, Bucket>

  datatype Row = Row(user: User, pnl: Pnl)

  // by_rank: realized result descending, then principal ascending.
  predicate Before(a: Row, b: Row) {
    a.pnl.realized > b.pnl.realized || (a.pnl.realized == b.pnl.realized && a.user.principal < b.user.principal)
  }

  predicate Ordered(rows: seq<Row>) { forall i, j :: 0 <= i < j < |rows| ==> Before(rows[i], rows[j]) }

  predicate OneRowEach(rows: seq<Row>) { forall i, j :: 0 <= i < j < |rows| ==> rows[i].user != rows[j].user }

  // ---------------------------------------------------------------- the full ranking

  ghost predicate Covers(rows: seq<Row>, pop: Bucket) {
    && (forall i :: 0 <= i < |rows| ==> rows[i].user in pop && pop[rows[i].user] == rows[i].pnl)
    && (forall u :: u in pop ==> Row(u, pop[u]) in rows)
  }

  ghost predicate IsRanking(rows: seq<Row>, pop: Bucket) { Ordered(rows) && Covers(rows, pop) }

  ghost function First(pop: Bucket): (u: User)
    requires pop != map[]
    ensures u in pop && forall v :: v in pop && v != u ==> Before(Row(u, pop[u]), Row(v, pop[v]))
    decreases |pop|
  {
    var u :| u in pop;
    var rest := pop - {u};
    if rest == map[] then
      assert forall v :: v in pop && v != u ==> v in rest;
      u
    else
      var f := First(rest);
      assert forall v :: v in pop && v != u ==> v in rest && rest[v] == pop[v];
      if Before(Row(u, pop[u]), Row(f, pop[f])) then u else f
  }

  // The whole population sorted by rank.
  ghost function Ranking(pop: Bucket): (rows: seq<Row>)
    ensures IsRanking(rows, pop) && |rows| == |pop|
    decreases |pop|
  {
    if pop == map[] then []
    else
      var u := First(pop);
      var rest := pop - {u};
      assert forall v :: v in pop && v != u ==> v in rest && rest[v] == pop[v];
      assert |rest.Keys| == |pop.Keys| - 1 by { assert rest.Keys == pop.Keys - {u}; }
      [Row(u, pop[u])] + Ranking(rest)
  }

  // A population has one ranking: any two ordered listings of it are equal.
  lemma {:induction false} RankingIsUnique(a: seq<Row>, b: seq<Row>, pop: Bucket)
    requires IsRanking(a, pop) && IsRanking(b, pop)
    ensures a == b
    decreases |a|
  {
    if a == [] {
      assert forall u :: u in pop ==> Row(u, pop[u]) in a;
      assert pop == map[];
    } else {
      assert Row(a[0].user, pop[a[0].user]) in b;
      assert Row(b[0].user, pop[b[0].user]) in a;
      assert a[0] == b[0];
      var rest := pop - {a[0].user};
      TailRanks(a, pop);
      TailRanks(b, pop);
      RankingIsUnique(a[1..], b[1..], rest);
      assert a == [a[0]] + a[1..] && b == [b[0]] + b[1..];
    }
  }

  lemma RankedOnce(rows: seq<Row>, pop: Bucket)
    requires IsRanking(rows, pop)
    ensures OneRowEach(rows)
  {
    forall i, j | 0 <= i < j < |rows| ensures rows[i].user != rows[j].user {
      assert Before(rows[i], rows[j]);
    }
  }

  lemma TailRanks(a: seq<Row>, pop: Bucket)
    requires IsRanking(a, pop) && a != []
    ensures IsRanking(a[1..], pop - {a[0].user})
  {
    var rest := pop - {a[0].user};
    RankedOnce(a, pop);
    forall u | u in rest ensures Row(u, rest[u]) in a[1..] {
      var i :| 0 <= i < |a| && a[i] == Row(u, pop[u]);
      assert a[1..][i - 1] == a[i];
    }
    forall i | 0 <= i < |a[1..]| ensures a[1..][i].user in rest && rest[a[1..][i].user] == a[1..][i].pnl {
      assert a[1..][i] == a[i + 1] && Before(a[0], a[i + 1]);
    }
  }

  // ---------------------------------------------------------------- ranks

  // Competition rank: one more than the number of strictly higher results.
  ghost function Above(pop: Bucket, v: int): set<User> { set u | u in pop && pop[u].realized > v }

  ghost function RankIn(pop: Bucket, u: User): nat
    requires u in pop
  {
    1 + |Above(pop, pop[u].realized)|
  }

  // Where the run of equal results that holds position i begins.
  function RunStart(rows: seq<Row>, i: nat): (j: nat)
    requires i < |rows|
    ensures j <= i
  {
    if i > 0 && rows[i - 1].pnl.realized == rows[i].pnl.realized then RunStart(rows, i - 1) else i
  }

  lemma {:induction false} RunStartSplits(rows: seq<Row>, i: nat)
    requires Ordered(rows) && i < |rows|
    ensures var j := RunStart(rows, i);
      && (forall k :: 0 <= k < j ==> rows[k].pnl.realized > rows[i].pnl.realized)
      && (forall k :: j <= k < |rows| ==> rows[k].pnl.realized <= rows[i].pnl.realized)
  {
    if i > 0 && rows[i - 1].pnl.realized == rows[i].pnl.realized {
      RunStartSplits(rows, i - 1);
    } else {
      forall k | 0 <= k < i ensures rows[k].pnl.realized > rows[i].pnl.realized {
        assert Before(rows[i - 1], rows[i]);
        if k < i - 1 { assert Before(rows[k], rows[i - 1]); }
      }
      forall k | i <= k < |rows| ensures rows[k].pnl.realized <= rows[i].pnl.realized {
        if i < k { assert Before(rows[i], rows[k]); }
      }
    }
  }

  ghost function UsersOf(rows: seq<Row>): set<User> { set i | 0 <= i < |rows| :: rows[i].user }

  lemma {:induction false} UsersCount(rows: seq<Row>)
    requires OneRowEach(rows)
    ensures |UsersOf(rows)| == |rows|
  {
    if rows == [] {
    } else {
      var n := |rows| - 1;
      UsersCount(rows[..n]);
      assert UsersOf(rows) == UsersOf(rows[..n]) + {rows[n].user};
    }
  }

  lemma AboveIsFront(rows: seq<Row>, pop: Bucket, j: nat, v: int, u: User)
    requires Covers(rows, pop) && j <= |rows|
    requires forall k :: 0 <= k < j ==> rows[k].pnl.realized > v
    requires forall k :: j <= k < |rows| ==> rows[k].pnl.realized <= v
    ensures u in Above(pop, v) <==> u in UsersOf(rows[..j])
  {
    if u in Above(pop, v) {
      var k :| 0 <= k < |rows| && rows[k] == Row(u, pop[u]);
      assert rows[..j][k] == rows[k];
    }
    if u in UsersOf(rows[..j]) {
      var k :| 0 <= k < j && rows[..j][k].user == u;
      assert rows[k].user == u;
    }
  }

  // In a ranking the position where a run begins is the number of strictly higher results.
  lemma RunStartIsRank(rows: seq<Row>, pop: Bucket, i: nat)
    requires IsRanking(rows, pop) && i < |rows|
    ensures RankIn(pop, rows[i].user) == 1 + RunStart(rows, i)
  {
    var j, v := RunStart(rows, i), rows[i].pnl.realized;
    RunStartSplits(rows, i);
    RankedOnce(rows, pop);
    UsersCount(rows[..j]);
    forall u ensures u in Above(pop, v) <==> u in UsersOf(rows[..j]) {
      AboveIsFront(rows, pop, j, v, u);
    }
    hide UsersOf, Above, IsRanking, RunStart;
    assert Above(pop, v) == UsersOf(rows[..j]);
  }

  lemma {:induction false} RunStartInPrefix(rows: seq<Row>, end: nat, i: nat)
    requires i < end <= |rows|
    ensures RunStart(rows[..end], i) == RunStart(rows, i)
  {
    if i == 0 {
    } else {
      RunStartInPrefix(rows, end, i - 1);
    }
  }

  // The loop of competition_ranks: equal neighbours share a rank.
  method CompetitionRanks(sorted: seq<Row>) returns (ranks: seq<nat>)
    ensures |ranks| == |sorted|
    ensures forall i :: 0 <= i < |sorted| ==> ranks[i] == 1 + RunStart(sorted, i)
  {
    ranks := [];
    var lastPnl: Option<int> := None;
    var lastRank: nat := 0;
    for position := 0 to |sorted|
      invariant |ranks| == position
      invariant forall i :: 0 <= i < position ==> ranks[i] == 1 + RunStart(sorted, i)
      invariant if position == 0 then lastPnl == None
                else lastPnl == Some(sorted[position - 1].pnl.realized) && lastRank == ranks[position - 1]
    {
      var rank := if lastPnl == Some(sorted[position].pnl.realized) then lastRank else position + 1;
      ranks := ranks + [rank];
      lastPnl := Some(sorted[position].pnl.realized);
      lastRank := rank;
    }
  }

  // ---------------------------------------------------------------- selecting and sorting in place

  method Swap(a: array<Row>, i: nat, j: nat)
    requires i < a.Length && j < a.Length
    modifies a
    ensures a[..] == old(a[..])[i := old(a[j])][j := old(a[i])]
    ensures multiset(a[..]) == multiset(old(a[..]))
  {
    a[i], a[j] := a[j], a[i];
  }

  lemma SwapKeepsOneRowEach(s: seq<Row>, i: nat, j: nat)
    requires i < |s| && j < |s| && OneRowEach(s)
    ensures OneRowEach(s[i := s[j]][j := s[i]])
  {
  }

  method IndexOfFirst(a: array<Row>, lo: nat, hi: nat) returns (m: nat)
    requires lo < hi <= a.Length && OneRowEach(a[..])
    ensures lo <= m < hi
    ensures forall q :: lo <= q < hi && q != m ==> Before(a[m], a[q])
  {
    m := lo;
    for q := lo + 1 to hi
      invariant lo <= m < q
      invariant forall p :: lo <= p < q && p != m ==> Before(a[m], a[p])
    {
      assert a[..][m].user != a[..][q].user;
      if Before(a[q], a[m]) { m := q; }
    }
  }

  // Brings the k first rows of a[..n] to the front in order, by exchanges within a[..n].
  method SelectFront(a: array<Row>, k: nat, n: nat)
    requires k <= n <= a.Length && OneRowEach(a[..])
    modifies a
    ensures OneRowEach(a[..]) && multiset(a[..]) == multiset(old(a[..]))
    ensures a[n..] == old(a[n..])
    ensures forall i, j :: 0 <= i < k && i < j < n ==> Before(a[i], a[j])
  {
    for i := 0 to k
      invariant OneRowEach(a[..]) && multiset(a[..]) == multiset(old(a[..]))
      invariant a[n..] == old(a[n..])
      invariant forall p, q :: 0 <= p < i && p < q < n ==> Before(a[p], a[q])
    {
      var m := IndexOfFirst(a, i, n);
      ghost var was := a[..];
      SwapKeepsOneRowEach(a[..], i, m);
      Swap(a, i, m);
      assert forall q :: 0 <= q < a.Length ==> a[q] == a[..][q];
      assert forall p, q :: 0 <= p < i && p < q < n ==> Before(was[p], was[q]);
      assert forall q :: i < q < n ==> Before(was[m], was[q]) || q == m;
    }
  }

  ghost predicate Partitioned(rows: seq<Row>, k: nat) {
    forall i, j :: 0 <= i < k <= j < |rows| ==> Before(rows[i], rows[j])
  }

  // select_nth_unstable_by: a permutation with everything before position k ahead of the rest.
  method SelectNth(a: array<Row>, k: nat)
    requires k < a.Length && OneRowEach(a[..])
    modifies a
    ensures OneRowEach(a[..]) && multiset(a[..]) == multiset(old(a[..]))
    ensures Partitioned(a[..], k)
  {
    SelectFront(a, k, a.Length);
  }

  // sort_unstable_by on a[..n]: that part in order, the rest untouched.
  method SortPrefix(a: array<Row>, n: nat)
    requires n <= a.Length && OneRowEach(a[..])
    modifies a
    ensures multiset(a[..]) == multiset(old(a[..])) && a[n..] == old(a[n..])
    ensures Ordered(a[..n])
  {
    SelectFront(a, n, n);
  }

  // Whatever a selection does beyond partitioning, sorting the part it put in front gives the
  // front of the full ranking.
  lemma SelectedPrefix(rows: seq<Row>, selected: seq<Row>, top: seq<Row>, pop: Bucket)
    requires Covers(rows, pop)
    requires multiset(selected) == multiset(rows) && |top| <= |selected|
    requires Partitioned(selected, |top|)
    requires Ordered(top) && multiset(top) == multiset(selected[..|top|])
    ensures |top| <= |pop| && top == Ranking(pop)[..|top|]
  {
    var k := |top|;
    var behind := Behind(selected[k..], pop);
    var tail := Ranking(behind);
    CoversAgain(rows, selected, pop);
    SameRows(top, selected[..k]);
    forall x, y | x in top && y in tail ensures Before(x, y) {
      TailIsBehind(tail, selected[k..], pop, y);
      AheadOfRest(selected, k, x, y);
    }
    OrderedJoin(top, tail);
    CoversJoin(selected, k, top, tail, pop, behind);
    hide Covers, Ordered, Partitioned, Behind, Before;
    RankingIsUnique(top + tail, Ranking(pop), pop);
    assert (top + tail)[..k] == top;
  }

  // The part of a population whose rows are among these.
  ghost function Behind(rows: seq<Row>, pop: Bucket): Bucket {
    map u | u in pop && Row(u, pop[u]) in rows :: pop[u]
  }

  lemma TailIsBehind(tail: seq<Row>, rows: seq<Row>, pop: Bucket, y: Row)
    requires Covers(tail, Behind(rows, pop)) && y in tail
    ensures y in rows
  {
    assert y.user in Behind(rows, pop) && Row(y.user, pop[y.user]) == y;
  }

  lemma OrderedJoin(top: seq<Row>, tail: seq<Row>)
    requires Ordered(top) && Ordered(tail)
    requires forall x, y :: x in top && y in tail ==> Before(x, y)
    ensures Ordered(top + tail)
  {
    var all := top + tail;
    forall i, j | 0 <= i < j < |all| ensures Before(all[i], all[j]) {
      if i < |top| <= j { assert top[i] in top && tail[j - |top|] in tail; }
    }
  }

  lemma CoversAgain(a: seq<Row>, b: seq<Row>, pop: Bucket)
    requires Covers(a, pop) && multiset(a) == multiset(b)
    ensures Covers(b, pop)
  {
    SameRows(a, b);
    forall i | 0 <= i < |b| ensures b[i].user in pop && pop[b[i].user] == b[i].pnl {
      assert b[i] in a;
    }
  }

  lemma SameRows(a: seq<Row>, b: seq<Row>)
    requires multiset(a) == multiset(b)
    ensures forall r :: r in a <==> r in b
  {
    assert forall r :: r in a <==> r in multiset(a);
    assert forall r :: r in b <==> r in multiset(b);
  }

  lemma AheadOfRest(selected: seq<Row>, k: nat, x: Row, y: Row)
    requires k <= |selected| && Partitioned(selected, k)
    requires x in selected[..k] && y in selected[k..]
    ensures Before(x, y)
  {
    var i :| 0 <= i < k && selected[..k][i] == x;
    var j :| 0 <= j < |selected| - k && selected[k..][j] == y;
    assert selected[i] == x && selected[k + j] == y;
  }

  lemma CoversJoin(selected: seq<Row>, k: nat, top: seq<Row>, tail: seq<Row>, pop: Bucket, behind: Bucket)
    requires k <= |selected| && Covers(selected, pop)
    requires forall r :: r in top <==> r in selected[..k]
    requires behind == Behind(selected[k..], pop)
    requires Covers(tail, behind)
    ensures Covers(top + tail, pop)
  {
    forall i | 0 <= i < |top + tail| ensures (top + tail)[i].user in pop && pop[(top + tail)[i].user] == (top + tail)[i].pnl {
      if i < |top| {
        assert top[i] in selected[..k] && top[i] in selected;
      } else {
        assert tail[i - |top|].user in behind;
      }
    }
    forall u | u in pop ensures Row(u, pop[u]) in top + tail {
      assert Row(u, pop[u]) in selected;
      if Row(u, pop[u]) in selected[k..] {
        assert u in behind;
      } else {
        assert selected == selected[..k] + selected[k..];
        assert Row(u, pop[u]) in selected[..k];
      }
    }
  }
}
