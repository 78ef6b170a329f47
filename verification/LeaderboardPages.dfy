// list_leaderboard_impl: one page of standings without sorting the population.
module LeaderboardPages {
  import opened Base
  import opened Calendar
  import opened Leaderboard
  import opened PriorRanks

  const MAX_LEADERBOARD_MEMBERS := 10_000

  datatype Params = Params(window: Window, members: Option<seq<User>>, startAfter: Option<nat>, limit: Option<nat>)

  datatype Entry = Entry(user: User, rank: nat, prior: Option<nat>, pnl: Pnl)

  datatype Page = Page(items: seq<Entry>, next: Option<nat>, total: nat)

  function Cut(members: Option<seq<User>>): Option<seq<User>> {
    if members.Some? && |members.value| > MAX_LEADERBOARD_MEMBERS then Some(members.value[..MAX_LEADERBOARD_MEMBERS]) else members
  }

  function BucketAt(idx: Index, slot: Slot): Option<Bucket> { if slot in idx then Some(idx[slot]) else None }

  function PnlIn(bucket: Bucket, u: User): Pnl { if u in bucket then bucket[u] else NO_PNL }

  // ---------------------------------------------------------------- the simple form

  // Who is ranked: everyone in the bucket, or every listed member with or without settlements.
  ghost function Population(idx: Index, slot: Slot, members: Option<seq<User>>): Bucket {
    var bucket := BucketAt(idx, slot).Or(map[]);
    match members
    case None => bucket
    case Some(ms) => map u | u in ms :: PnlIn(bucket, u)
  }

  ghost function PriorPopulation(idx: Index, window: Window, now: nat, members: Option<seq<User>>): Option<Bucket> {
    match PriorPeriodId(window, now)
    case None => None
    case Some(period) => Some(Population(idx, Slot(window, period), members))
  }

  ghost function EntryOf(pop: Bucket, prior: Option<Bucket>, row: Row): Entry
    requires row.user in pop
  {
    Entry(row.user, RankIn(pop, row.user),
          if prior.Some? && row.user in prior.value then Some(RankIn(prior.value, row.user)) else None,
          row.pnl)
  }

  // Every entry of the standings, as sorting both populations in full gives them.
  ghost function Standings(idx: Index, window: Window, members: Option<seq<User>>, now: nat): seq<Entry> {
    var pop := Population(idx, Slot(window, PeriodId(window, now)), Cut(members));
    var prior := PriorPopulation(idx, window, now, Cut(members));
    var rows := Ranking(pop);
    seq(|rows|, i requires 0 <= i < |rows| => EntryOf(pop, prior, rows[i]))
  }

  function StartOf(p: Params, total: nat): nat { Min(p.startAfter.Or(0), total) }

  function EndOf(p: Params, total: nat): nat {
    if p.limit.None? then total else Min(StartOf(p, total) + Max(p.limit.value, 1), total)
  }

  ghost function FullPage(idx: Index, p: Params, now: nat): Page {
    var all := Standings(idx, p.window, p.members, now);
    var start, end := StartOf(p, |all|), EndOf(p, |all|);
    Page(all[start..end], if end < |all| then Some(end) else None, |all|)
  }

  // ---------------------------------------------------------------- 32-bit page arithmetic

  function ToUsize(x: nat): nat { Min(x, USIZE_MAX) }

  // min(start.saturating_add(limit), total) on a 32-bit machine.
  function EndClamped(start: nat, limit: Option<nat>, total: nat): nat {
    Min(Min(start + Max(ToUsize(limit.Or(U64_MAX)), 1), USIZE_MAX), total)
  }

  // Clamping to the machine's width changes no page of a population that fits in it.
  lemma ClampingIsHarmless(p: Params, total: nat)
    requires total <= USIZE_MAX
    ensures Min(ToUsize(p.startAfter.Or(0)), total) == StartOf(p, total)
    ensures EndClamped(StartOf(p, total), p.limit, total) == EndOf(p, total)
    ensures StartOf(p, total) <= EndOf(p, total) <= total
  {
  }

  // ---------------------------------------------------------------- the code

  method CollectMembers(bucket: Bucket, members: seq<User>) returns (rows: seq<Row>)
    ensures OneRowEach(rows) && Covers(rows, map u | u in members :: PnlIn(bucket, u))
  {
    rows := [];
    var seen: set<User> := {};
    for i := 0 to |members|
      invariant seen == set u | u in members[..i]
      invariant OneRowEach(rows) && Covers(rows, map u | u in seen :: PnlIn(bucket, u))
    {
      var u := members[i];
      assert members[..i + 1] == members[..i] + [u];
      if u !in seen {
        ghost var before := map v | v in seen :: PnlIn(bucket, v);
        AddRow(rows, before, Row(u, PnlIn(bucket, u)));
        rows := rows + [Row(u, PnlIn(bucket, u))];
        seen := seen + {u};
        assert (map v | v in seen :: PnlIn(bucket, v)) == before[u := PnlIn(bucket, u)];
      }
    }
    assert members[..|members|] == members;
    assert (map u | u in seen :: PnlIn(bucket, u)) == map u | u in members :: PnlIn(bucket, u);
  }

  lemma AddRow(rows: seq<Row>, pop: Bucket, row: Row)
    requires OneRowEach(rows) && Covers(rows, pop) && row.user !in pop
    ensures OneRowEach(rows + [row]) && Covers(rows + [row], pop[row.user := row.pnl])
  {
    var after := pop[row.user := row.pnl];
    forall u | u in after ensures Row(u, after[u]) in rows + [row] {
      if u != row.user { assert Row(u, pop[u]) in rows; } else { assert (rows + [row])[|rows|] == row; }
    }
  }

  method CollectBucket(bucket: Bucket) returns (rows: seq<Row>)
    ensures OneRowEach(rows) && Covers(rows, bucket)
  {
    hide Covers, OneRowEach;
    rows := [];
    var left := bucket.Keys;
    SeenEnds(bucket);
    NothingCovers();
    while left != {}
      invariant left <= bucket.Keys && OneRowEach(rows) && Covers(rows, SeenSoFar(bucket, left))
      decreases |left|
    {
      var u :| u in left;
      NotSeenYet(bucket, left, u);
      AddRow(rows, SeenSoFar(bucket, left), Row(u, bucket[u]));
      rows := rows + [Row(u, bucket[u])];
      ghost var seen;
      left, seen := SeeOne(bucket, left, u);
    }
  }

  lemma NothingCovers()
    ensures OneRowEach([]) && Covers([], map[])
  {
  }

  method CollectPopulation(idx: Index, slot: Slot, members: Option<seq<User>>) returns (rows: seq<Row>)
    ensures OneRowEach(rows) && Covers(rows, Population(idx, slot, members))
  {
    var bucket := BucketAt(idx, slot).Or(map[]);
    if members.Some? { rows := CollectMembers(bucket, members.value); } else { rows := CollectBucket(bucket); }
  }

  lemma RankingLength(rows: seq<Row>, pop: Bucket)
    requires OneRowEach(rows) && Covers(rows, pop)
    ensures |rows| == |pop|
  {
    UsersCount(rows);
    EveryoneIsListed(rows, pop);
    assert |pop| == |pop.Keys|;
  }

  // The top `end` of the population in order: a partition when there is more, then a sort of the front.
  method TopOf(rows: seq<Row>, end: nat, ghost pop: Bucket) returns (top: seq<Row>)
    requires OneRowEach(rows) && Covers(rows, pop) && end <= |rows|
    ensures |top| == end <= |pop| && top == Ranking(pop)[..end]
  {
    var a := new Row[|rows|](i requires 0 <= i < |rows| => rows[i]);
    assert a[..] == rows;
    if end < |rows| { SelectNth(a, end); }
    ghost var selected := a[..];
    SortPrefix(a, end);
    top := a[..end];
    FrontIsPermuted(selected, a[..], end);
    SelectedPrefix(rows, selected, top, pop);
  }

  lemma FrontIsPermuted(before: seq<Row>, after: seq<Row>, k: nat)
    requires k <= |before| == |after|
    requires multiset(before) == multiset(after) && before[k..] == after[k..]
    ensures multiset(before[..k]) == multiset(after[..k])
  {
    assert before == before[..k] + before[k..] && after == after[..k] + after[k..];
    assert multiset(before) == multiset(before[..k]) + multiset(before[k..]);
    assert multiset(after) == multiset(after[..k]) + multiset(after[k..]);
    forall x ensures multiset(before[..k])[x] == multiset(after[..k])[x] {
      assert multiset(before)[x] == multiset(after)[x];
    }
  }

  lemma NoUsers()
    ensures UsersOf([]) == {}
  {
  }

  lemma UsersGrow(rows: seq<Row>, i: nat)
    requires i < |rows|
    ensures UsersOf(rows[..i + 1]) == UsersOf(rows[..i]) + {rows[i].user}
  {
  }

  // Pairs each row of a sorted population with its rank.
  method RankAll(sorted: seq<Row>, counts: seq<nat>, ghost pop: Bucket) returns (ranks: map<User, nat>)
    requires IsRanking(sorted, pop) && |counts| == |sorted|
    requires forall i :: 0 <= i < |sorted| ==> counts[i] == 1 + RunStart(sorted, i)
    ensures ranks.Keys == pop.Keys && forall u :: u in ranks ==> ranks[u] == RankIn(pop, u)
  {
    hide RunStart, RankIn, UsersOf, Ordered;
    ranks := map[];
    NoUsers();
    for i := 0 to |sorted|
      invariant ranks.Keys == UsersOf(sorted[..i]) && ranks.Keys <= pop.Keys
      invariant forall u :: u in ranks ==> ranks[u] == RankIn(pop, u)
    {
      RunStartIsRank(sorted, pop, i);
      UsersGrow(sorted, i);
      ranks := ranks[sorted[i].user := counts[i]];
    }
    assert sorted[..|sorted|] == sorted;
    EveryoneIsListed(sorted, pop);
  }

  lemma EveryoneIsListed(rows: seq<Row>, pop: Bucket)
    requires Covers(rows, pop)
    ensures UsersOf(rows) == pop.Keys
  {
    forall u | u in pop ensures u in UsersOf(rows) {
      var i :| 0 <= i < |rows| && rows[i] == Row(u, pop[u]);
      assert rows[i].user == u;
    }
  }

  method RanksOfMembers(idx: Index, slot: Slot, members: seq<User>) returns (ranks: map<User, nat>)
    ensures var prior := Population(idx, slot, Some(members));
      ranks.Keys == prior.Keys && forall u :: u in ranks ==> ranks[u] == RankIn(prior, u)
  {
    ghost var prior := Population(idx, slot, Some(members));
    hide Population;
    var rows := CollectPopulation(idx, slot, Some(members));
    var sorted := TopOf(rows, |rows|, prior);
    RankingLength(rows, prior);
    assert sorted == Ranking(prior);
    var counts := CompetitionRanks(sorted);
    ranks := RankAll(sorted, counts, prior);
  }

  // prior_ranks_for: for every row of the page, its rank in the prior population if it is there.
  method PriorRanksFor(idx: Index, slot: Slot, members: Option<seq<User>>, page: seq<Row>) returns (ranks: map<User, nat>)
    ensures var prior := Population(idx, slot, members);
      forall u :: u in UsersOf(page) ==> (u in ranks <==> u in prior) && (u in ranks ==> ranks[u] == RankIn(prior, u))
  {
    if members.Some? {
      ranks := RanksOfMembers(idx, slot, members.value);
    } else {
      ranks := GlobalPriorRanks(BucketAt(idx, slot), page);
    }
  }

  method PriorOf(idx: Index, window: Window, now: nat, members: Option<seq<User>>, page: seq<Row>)
    returns (ranks: map<User, nat>)
    ensures var prior := PriorPopulation(idx, window, now, members);
      forall u :: u in UsersOf(page) ==>
        (u in ranks <==> prior.Some? && u in prior.value) && (u in ranks ==> ranks[u] == RankIn(prior.value, u))
  {
    var period := PriorPeriodId(window, now);
    if period.None? { return map[]; }
    ranks := PriorRanksFor(idx, Slot(window, period.value), members, page);
  }

  // The entries of rows start.. of the ranked top.
  method EntriesOf(top: seq<Row>, start: nat, ranks: seq<nat>, prior: map<User, nat>,
                   ghost pop: Bucket, ghost priorPop: Option<Bucket>) returns (items: seq<Entry>)
    requires start <= |top| == |ranks|
    requires forall i :: 0 <= i < |top| ==> top[i].user in pop && ranks[i] == RankIn(pop, top[i].user)
    requires forall u :: u in UsersOf(top[start..]) ==>
      (u in prior <==> priorPop.Some? && u in priorPop.value) && (u in prior ==> prior[u] == RankIn(priorPop.value, u))
    ensures |items| == |top| - start
    ensures forall i :: 0 <= i < |items| ==> items[i] == EntryOf(pop, priorPop, top[start + i])
  {
    items := [];
    for i := start to |top|
      invariant |items| == i - start
      invariant forall k :: 0 <= k < |items| ==> items[k] == EntryOf(pop, priorPop, top[start + k])
    {
      var row := top[i];
      assert top[start..][i - start] == row;
      items := items + [Entry(row.user, ranks[i], if row.user in prior then Some(prior[row.user]) else None, row.pnl)];
    }
  }

  lemma TopRanks(pop: Bucket, end: nat, ranks: seq<nat>)
    requires end <= |pop| && |ranks| == end
    requires var top := Ranking(pop)[..end]; forall i :: 0 <= i < end ==> ranks[i] == 1 + RunStart(top, i)
    ensures var top := Ranking(pop)[..end]; forall i :: 0 <= i < end ==> top[i].user in pop && ranks[i] == RankIn(pop, top[i].user)
  {
    forall i | 0 <= i < end ensures Ranking(pop)[i].user in pop && ranks[i] == RankIn(pop, Ranking(pop)[i].user) {
      RunStartInPrefix(Ranking(pop), end, i);
      RunStartIsRank(Ranking(pop), pop, i);
    }
  }

  // items are the entries of the ranked population from start up to end.
  ghost predicate ItemsAt(items: seq<Entry>, pop: Bucket, prior: Option<Bucket>, start: nat, end: nat) {
    && start <= end <= |pop| && |items| == end - start
    && forall i :: 0 <= i < |items| ==>
         Ranking(pop)[start + i].user in pop && items[i] == EntryOf(pop, prior, Ranking(pop)[start + i])
  }

  lemma ItemsAreStandings(idx: Index, window: Window, members: Option<seq<User>>, now: nat, start: nat, end: nat, items: seq<Entry>)
    requires ItemsAt(items, Population(idx, Slot(window, PeriodId(window, now)), Cut(members)),
                     PriorPopulation(idx, window, now, Cut(members)), start, end)
    ensures |Standings(idx, window, members, now)| == |Population(idx, Slot(window, PeriodId(window, now)), Cut(members))|
    ensures items == Standings(idx, window, members, now)[start..end]
  {
    hide Population, PriorPopulation, EntryOf, IsRanking;
  }

  // The entries from start up to end, ranking only the first `end` rows.
  method RankedItems(idx: Index, window: Window, members: Option<seq<User>>, now: nat, current: seq<Row>, start: nat, end: nat,
                     ghost pop: Bucket) returns (items: seq<Entry>)
    requires OneRowEach(current) && Covers(current, pop) && start <= end <= |current|
    ensures ItemsAt(items, pop, PriorPopulation(idx, window, now, members), start, end)
  {
    hide Population, PriorPopulation, EntryOf, Covers, OneRowEach, IsRanking, RunStart, RankIn, UsersOf;
    var ranked := TopOf(current, end, pop);
    var ranks := CompetitionRanks(ranked);
    TopRanks(pop, end, ranks);
    var priorRanks := PriorOf(idx, window, now, members, ranked[start..]);
    items := EntriesOf(ranked, start, ranks, priorRanks, pop, PriorPopulation(idx, window, now, members));
  }

  // For every index, window, member list, cursor, limit and clock the page is the one full sorting gives.
  method ListLeaderboard(idx: Index, p: Params, now: nat) returns (page: Page)
    requires |Population(idx, Slot(p.window, PeriodId(p.window, now)), Cut(p.members))| <= USIZE_MAX
    ensures page == FullPage(idx, p, now)
  {
    hide Population, PriorPopulation, Standings, EntryOf, Covers, OneRowEach, PeriodId, IsRanking, EndOf, StartOf;
    var members := Cut(p.members);
    var slot := Slot(p.window, PeriodId(p.window, now));
    ghost var pop := Population(idx, slot, members);
    var current := CollectPopulation(idx, slot, members);
    var total := |current|;
    RankingLength(current, pop);
    var start := Min(ToUsize(p.startAfter.Or(0)), total);
    var end := EndClamped(start, p.limit, total);
    ClampingIsHarmless(p, total);
    var items := RankedItems(idx, p.window, members, now, current, start, end, pop);
    page := Page(items, if end < total then Some(end) else None, total);
    ItemsAreStandings(idx, p.window, p.members, now, start, end, items);
  }

  // ---------------------------------------------------------------- page walks

  // Following the cursor from one page to the next, one limit a call: the entries seen and where it stopped.
  ghost function Walk(idx: Index, window: Window, members: Option<seq<User>>, now: nat, from: nat, limits: seq<Option<nat>>)
    : (seq<Entry>, Option<nat>)
    decreases |limits|
  {
    if limits == [] then ([], Some(from))
    else
      var page := FullPage(idx, Params(window, members, Some(from), limits[0]), now);
      if page.next.None? then (page.items, None)
      else
        var rest := Walk(idx, window, members, now, page.next.value, limits[1..]);
        (page.items + rest.0, rest.1)
  }

  // Whatever the limits, 0 included, a walk sees every entry from its start on once and in order,
  // and ends within as many calls as there are entries.
  lemma {:induction false} WalkSeesAll(idx: Index, window: Window, members: Option<seq<User>>, now: nat, from: nat, limits: seq<Option<nat>>)
    requires from <= |Standings(idx, window, members, now)|
    ensures var all := Standings(idx, window, members, now);
      var walk := Walk(idx, window, members, now, from, limits);
      && from <= walk.1.Or(|all|) <= |all| && walk.0 == all[from..walk.1.Or(|all|)]
      && (|limits| > 0 && |limits| >= |all| - from ==> walk.1.None?)
    decreases |limits|
  {
    hide Standings;
    var all := Standings(idx, window, members, now);
    if limits == [] {
    } else {
      var page := FullPage(idx, Params(window, members, Some(from), limits[0]), now);
      if page.next.Some? {
        var end := page.next.value;
        WalkSeesAll(idx, window, members, now, end, limits[1..]);
        var stop := Walk(idx, window, members, now, end, limits[1..]).1.Or(|all|);
        assert all[from..end] + all[end..stop] == all[from..stop];
      }
    }
  }
}
