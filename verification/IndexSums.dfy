// What the indexes hold, in terms of the rows of the log alone: standings as sums over settled rows, tapes
// and volumes as sums over trade rows.
module IndexSums {
  import opened Base
  import opened Payoffs
  import opened Types
  import opened Totals
  import opened Clearing
  import opened SettlementCoverage
  import opened SettlementRuns
  import opened EventIndexes
  import opened IndexRuns
  import opened Pricing
  import Calendar
  import L = Leaderboard
  import P = LeaderboardPages
  import C = Candles

  // ---------------------------------------------------------------- what a user realised in a period

  predicate FallsIn(e: Event, w: Calendar.Window, period: int, u: User) {
    e.kind.Settled? && e.user == u && Calendar.PeriodId(w, e.timestamp) == period
  }

  // The cashflows of u's settled rows in one period, in the order of the log.
  ghost function Results(events: seq<Event>, w: Calendar.Window, period: int, u: User): seq<int> {
    if events == [] then []
    else
      var n := |events| - 1;
      Results(events[..n], w, period, u) + if FallsIn(events[n], w, period, u) then [events[n].qty] else []
  }

  ghost function Value(): int -> int { (x: int) => x }

  ghost function Won(): int -> int { (x: int) => if x > 0 then 1 else 0 }

  // Their sum, their number, and how many are positive.
  ghost predicate SumsUp(pnl: L.Pnl, results: seq<int>) {
    pnl.realized == SeqSum(results, Value()) && pnl.settled == |results| && pnl.wins == SeqSum(results, Won())
  }

  lemma SumsUpOneMore(pnl: L.Pnl, results: seq<int>, x: int)
    requires SumsUp(pnl, results)
    ensures SumsUp(pnl.Record(x), results + [x])
  {
    SeqSumAppend(results, [x], Value());
    SeqSumAppend(results, [x], Won());
    assert SeqSum([x], Value()) == x && SeqSum([x], Won()) == Won()(x);
  }

  lemma RecordedReads(board: L.Index, slot: L.Slot, v: User, x: int, slot': L.Slot)
    ensures BucketIn(RecordedIn(board, slot, v, x), slot')
         == if slot' == slot then BucketIn(board, slot)[v := P.PnlIn(BucketIn(board, slot), v).Record(x)] else BucketIn(board, slot')
  {
  }

  // One settlement lands in each window once, in the period of its time.
  lemma WithPnlReads(board: L.Index, v: User, x: int, ts: nat, w: Calendar.Window, period: int)
    ensures var slot := L.Slot(w, period);
      BucketIn(WithPnl(board, v, x, ts), slot)
      == if Calendar.PeriodId(w, ts) == period then BucketIn(board, slot)[v := P.PnlIn(BucketIn(board, slot), v).Record(x)] else BucketIn(board, slot)
  {
    hide RecordedIn, BucketIn, Calendar.PeriodId;
    var slot := L.Slot(w, period);
    var week, month, all := SlotOf(Calendar.Week, ts), SlotOf(Calendar.Month, ts), SlotOf(Calendar.AllTime, ts);
    var b1 := RecordedIn(board, week, v, x);
    var b2 := RecordedIn(b1, month, v, x);
    RecordedReads(board, week, v, x, slot);
    RecordedReads(b1, month, v, x, slot);
    RecordedReads(b2, all, v, x, slot);
  }

  lemma {:induction false} ResultsExist(events: seq<Event>, w: Calendar.Window, period: int, u: User)
    ensures Results(events, w, period, u) != [] <==> exists i :: 0 <= i < |events| && FallsIn(events[i], w, period, u)
    decreases |events|
  {
    hide FallsIn;
    if events == [] {
    } else {
      var n := |events| - 1;
      ResultsExist(events[..n], w, period, u);
      assert forall i :: 0 <= i < n ==> events[..n][i] == events[i];
    }
  }

  // In every window and period a bucket holds exactly the users with a settled row there, each with the
  // sum of their cashflows, the number of their rows, and the number of those that were gains.
  lemma {:induction false} BucketsAreSums(events: seq<Event>, w: Calendar.Window, period: int, u: User)
    ensures var bucket, results := BucketIn(Rebuilt(events).board, L.Slot(w, period)), Results(events, w, period, u);
      (u in bucket <==> results != []) && SumsUp(P.PnlIn(bucket, u), results)
    ensures u in BucketIn(Rebuilt(events).board, L.Slot(w, period)) <==> exists i :: 0 <= i < |events| && FallsIn(events[i], w, period, u)
    decreases |events|
  {
    hide WithPnl, TradesOf, Calendar.PeriodId, SumsUp;
    ResultsExist(events, w, period, u);
    if events == [] {
      NothingSumsUp();
    } else {
      var n := |events| - 1;
      var e, before, slot := events[n], WithSettled(map[], events[..n]), L.Slot(w, period);
      var results := Results(events[..n], w, period, u);
      BucketsAreSums(events[..n], w, period, u);
      WithPnlReads(before, e.user, e.qty, e.timestamp, w, period);
      SumsUpOneMore(P.PnlIn(BucketIn(before, slot), u), results, e.qty);
      assert Results(events, w, period, u) == if FallsIn(e, w, period, u) then results + [e.qty] else results;
    }
  }

  lemma NothingSumsUp()
    ensures SumsUp(L.NO_PNL, [])
  {
  }

  lemma {:induction false} ResultsAppend(a: seq<Event>, b: seq<Event>, w: Calendar.Window, period: int, u: User)
    ensures Results(a + b, w, period, u) == Results(a, w, period, u) + Results(b, w, period, u)
    decreases |b|
  {
    if b == [] {
      assert a + b == a;
    } else {
      var n := |b| - 1;
      ResultsAppend(a, b[..n], w, period, u);
      assert (a + b)[..|a + b| - 1] == a + b[..n];
    }
  }

  // ---------------------------------------------------------------- the page in those terms

  ghost function Earned(events: seq<Event>, w: Calendar.Window, period: int, u: User): int {
    SeqSum(Results(events, w, period, u), Value())
  }

  // Who is ranked: the first 10000 of the members asked for, or everyone with a settled row in the period.
  ghost function Ranked(events: seq<Event>, w: Calendar.Window, period: int, members: Option<seq<User>>): set<User> {
    match members
    case Some(ms) => set u | u in ms[..Min(|ms|, 10_000)]
    case None => set i | 0 <= i < |events| && FallsIn(events[i], w, period, events[i].user) :: events[i].user
  }

  // One more than the number of those who earned strictly more.
  ghost function RankAmong(events: seq<Event>, w: Calendar.Window, period: int, users: set<User>, u: User): nat {
    1 + |set v | v in users && Earned(events, w, period, v) > Earned(events, w, period, u)|
  }

  lemma PopulationSumsUp(events: seq<Event>, w: Calendar.Window, period: int, members: Option<seq<User>>)
    ensures var pop := P.Population(Rebuilt(events).board, L.Slot(w, period), P.Cut(members));
      && pop.Keys == Ranked(events, w, period, members)
      && forall u :: u in pop ==> SumsUp(pop[u], Results(events, w, period, u))
  {
    hide Rebuilt, SumsUp, Results;
    var pop := P.Population(Rebuilt(events).board, L.Slot(w, period), P.Cut(members));
    forall u ensures u in pop <==> u in Ranked(events, w, period, members) {
      BucketsAreSums(events, w, period, u);
      if i :| 0 <= i < |events| && FallsIn(events[i], w, period, u) { assert FallsIn(events[i], w, period, events[i].user); }
    }
    forall u | u in pop ensures SumsUp(pop[u], Results(events, w, period, u)) {
      BucketsAreSums(events, w, period, u);
    }
  }

  lemma RankIsAmong(events: seq<Event>, w: Calendar.Window, period: int, pop: L.Bucket, u: User)
    requires (forall v :: v in pop ==> SumsUp(pop[v], Results(events, w, period, v))) && u in pop
    ensures L.RankIn(pop, u) == RankAmong(events, w, period, pop.Keys, u)
  {
    assert L.Above(pop, pop[u].realized) == set v | v in pop.Keys && Earned(events, w, period, v) > Earned(events, w, period, u);
  }

  // The entry a user has on the page: what the log says of the period, and the rank it gives, then and before.
  ghost predicate Shows(events: seq<Event>, p: P.Params, now: nat, e: P.Entry) {
    var w, period, prior := p.window, Calendar.PeriodId(p.window, now), Calendar.PriorPeriodId(p.window, now);
    var users := Ranked(events, w, period, p.members);
    && e.user in users && SumsUp(e.pnl, Results(events, w, period, e.user))
    && e.rank == RankAmong(events, w, period, users, e.user)
    && e.prior == match prior {
         case None => None
         case Some(q) =>
           var were := Ranked(events, w, q, p.members);
           if e.user in were then Some(RankAmong(events, w, q, were, e.user)) else None
       }
  }

  lemma EntryShows(events: seq<Event>, p: P.Params, now: nat, row: L.Row)
    requires var pop := P.Population(Rebuilt(events).board, L.Slot(p.window, Calendar.PeriodId(p.window, now)), P.Cut(p.members));
      row.user in pop && row.pnl == pop[row.user]
    ensures var pop := P.Population(Rebuilt(events).board, L.Slot(p.window, Calendar.PeriodId(p.window, now)), P.Cut(p.members));
      Shows(events, p, now, P.EntryOf(pop, P.PriorPopulation(Rebuilt(events).board, p.window, now, P.Cut(p.members)), row))
  {
    var period, q := Calendar.PeriodId(p.window, now), Calendar.PriorPeriodId(p.window, now);
    PopulationSumsUp(events, p.window, period, p.members);
    RankIsAmong(events, p.window, period, P.Population(Rebuilt(events).board, L.Slot(p.window, period), P.Cut(p.members)), row.user);
    if q.Some? {
      var before := P.Population(Rebuilt(events).board, L.Slot(p.window, q.value), P.Cut(p.members));
      PopulationSumsUp(events, p.window, q.value, p.members);
      if row.user in before { RankIsAmong(events, p.window, q.value, before, row.user); }
    }
    hide P.Population, Ranked, RankAmong, SumsUp, Rebuilt, Calendar.PeriodId, Calendar.PriorPeriodId, L.RankIn;
  }

  predicate StandAbove(x: P.Entry, y: P.Entry) {
    x.pnl.realized > y.pnl.realized || (x.pnl.realized == y.pnl.realized && x.user.principal < y.user.principal)
  }

  lemma StandingsShow(events: seq<Event>, p: P.Params, now: nat, i: nat)
    requires i < |P.Standings(Rebuilt(events).board, p.window, p.members, now)|
    ensures var all := P.Standings(Rebuilt(events).board, p.window, p.members, now);
      Shows(events, p, now, all[i]) && forall j :: i < j < |all| ==> StandAbove(all[i], all[j])
  {
    hide P.Population, P.PriorPopulation, Rebuilt, Shows, Calendar.PeriodId, L.RankIn, P.Cut;
    var pop := P.Population(Rebuilt(events).board, L.Slot(p.window, Calendar.PeriodId(p.window, now)), P.Cut(p.members));
    var rows := L.Ranking(pop);
    assert L.IsRanking(rows, pop);
    hide L.Ranking;
    EntryShows(events, p, now, rows[i]);
    assert forall j :: i < j < |rows| ==> L.Before(rows[i], rows[j]);
  }

  lemma StandingsCount(events: seq<Event>, p: P.Params, now: nat)
    ensures |P.Standings(Rebuilt(events).board, p.window, p.members, now)|
         == |Ranked(events, p.window, Calendar.PeriodId(p.window, now), p.members)|
  {
    var period := Calendar.PeriodId(p.window, now);
    var pop := P.Population(Rebuilt(events).board, L.Slot(p.window, period), P.Cut(p.members));
    PopulationSumsUp(events, p.window, period, p.members);
    hide P.Population, Rebuilt, Ranked, Calendar.PeriodId;
    assert |pop| == |pop.Keys|;
  }

  // Every entry of a page made from the log's index shows what the log says, and the entries stand by what
  // was earned, and by principal where that is equal.
  lemma PageShowsTheLog(events: seq<Event>, p: P.Params, now: nat)
    ensures var page := P.FullPage(Rebuilt(events).board, p, now);
      && (forall i :: 0 <= i < |page.items| ==> Shows(events, p, now, page.items[i]))
      && (forall i, j :: 0 <= i < j < |page.items| ==> StandAbove(page.items[i], page.items[j]))
      && page.total == |Ranked(events, p.window, Calendar.PeriodId(p.window, now), p.members)|
  {
    hide P.Standings, Rebuilt, Shows, Ranked, Calendar.PeriodId, StandAbove;
    var board := Rebuilt(events).board;
    var all := P.Standings(board, p.window, p.members, now);
    StandingsCount(events, p, now);
    var page, start := P.FullPage(board, p, now), P.StartOf(p, |all|);
    assert page.items == all[start..P.EndOf(p, |all|)];
    hide P.FullPage, P.StartOf, P.EndOf;
    forall i | 0 <= i < |page.items|
      ensures Shows(events, p, now, page.items[i]) && forall j :: i < j < |page.items| ==> StandAbove(page.items[i], page.items[j])
    {
      StandingsShow(events, p, now, start + i);
      forall j | i < j < |page.items| ensures StandAbove(page.items[i], page.items[j]) {
        assert page.items[j] == all[start + j];
      }
    }
  }

  // ---------------------------------------------------------------- what settling writes

  // The price a settled row carries: that of the settlement, or one where an outcome was declared.
  function Resolved(settlement: SettlementInput): Price {
    match settlement
    case PriceInput(p) => p
    case OutcomeInput(_) => Price(1, 0, 0)
  }

  lemma {:induction false} EmittedRowsAre(accounts: map<User, Account>, sid: SeriesId, plan: SettlementPlan, lo: nat, hi: nat, next: nat, now: nat)
    requires lo <= hi <= |plan.positions| && forall i :: lo <= i < hi ==> plan.positions[i].user in accounts
    ensures var rows := EntryEvents(accounts, sid, plan, lo, hi, next, now);
      && |rows| == hi - lo
      && forall i :: 0 <= i < |rows| ==>
           rows[i] == Event(next + i, sid, plan.positions[lo + i].user, plan.positions[lo + i].cashflow, Resolved(plan.settlement), Settled, now)
    decreases hi
  {
    if lo < hi { EmittedRowsAre(accounts, sid, plan, lo, hi - 1, next, now); }
  }

  // A settle call that drives a plan from one entry to another appends one row for each entry in between:
  // the entry's user and cashflow, the series, the price it resolved to, and the time of the call.
  lemma CallsWriteTheirEntries(s: State, sid: SeriesId, plan: SettlementPlan, end: nat, now: nat)
    requires Reaches(plan, end) && !plan.applied && EntriesHaveAccounts(s.core, plan)
    ensures var before, after := s.log.events, DriveTo(s, sid, plan, end, now).state.log.events;
      && |after| == |before| + end - plan.cursor && after[..|before|] == before
      && forall i :: plan.cursor <= i < end ==>
           after[|before| + i - plan.cursor]
           == Event(s.log.next + i - plan.cursor, sid, plan.positions[i].user, plan.positions[i].cashflow, Resolved(plan.settlement), Settled, now)
  {
    EmittedRowsAre(s.core.accounts, sid, plan, plan.cursor, end, s.log.next, now);
    hide EntryEvents, ApplyEntries;
    var before, after := s.log.events, DriveTo(s, sid, plan, end, now).state.log.events;
    var rows := EntryEvents(s.core.accounts, sid, plan, plan.cursor, end, s.log.next, now);
    assert after == before + rows;
    forall i | plan.cursor <= i < end
      ensures after[|before| + i - plan.cursor]
           == Event(s.log.next + i - plan.cursor, sid, plan.positions[i].user, plan.positions[i].cashflow, Resolved(plan.settlement), Settled, now)
    {
      assert after[|before| + (i - plan.cursor)] == rows[i - plan.cursor];
    }
  }

  // A backfill writes the same rows at the time the plan was made, for a finalised plan whose series has no
  // settled row, and nothing otherwise.
  lemma BackfillWritesTheirEntries(log: Log, plans: map<SeriesId, SettlementPlan>, sid: SeriesId)
    ensures var after := BackfillOne(log, plans, sid);
      if sid in plans && plans[sid].status.Finalised?
         && forall i :: 0 <= i < |log.events| && log.events[i].series == sid ==> !log.events[i].kind.Settled?
      then
        && |after.events| == |log.events| + |plans[sid].positions| && after.events[..|log.events|] == log.events
        && after.next == log.next + |plans[sid].positions|
        && forall i :: 0 <= i < |plans[sid].positions| ==>
             after.events[|log.events| + i]
             == Event(log.next + i, sid, plans[sid].positions[i].user, plans[sid].positions[i].cashflow,
                      Resolved(plans[sid].settlement), Settled, plans[sid].createdNs)
      else after == log
  {
  }

  // The cashflows of u's entries, in order.
  ghost function CashflowsOf(entries: seq<SettlementPosition>, u: User): seq<int> {
    if entries == [] then []
    else CashflowsOf(entries[..|entries| - 1], u) + if entries[|entries| - 1].user == u then [entries[|entries| - 1].cashflow] else []
  }

  lemma {:induction false} RowsOfEntries(rows: seq<Event>, entries: seq<SettlementPosition>, now: nat, w: Calendar.Window, period: int, u: User)
    requires |rows| == |entries|
    requires forall i :: 0 <= i < |rows| ==>
      rows[i].kind.Settled? && rows[i].timestamp == now && rows[i].user == entries[i].user && rows[i].qty == entries[i].cashflow
    ensures Results(rows, w, period, u) == if Calendar.PeriodId(w, now) == period then CashflowsOf(entries, u) else []
    decreases |rows|
  {
    hide Calendar.PeriodId;
    if rows == [] {
    } else {
      RowsOfEntries(rows[..|rows| - 1], entries[..|rows| - 1], now, w, period, u);
    }
  }

  // So the standings of the period of the call gain the cashflows of the entries it applied, and those of
  // every other period stay as they were.
  lemma CallsCountInTheirPeriod(s: State, sid: SeriesId, plan: SettlementPlan, end: nat, now: nat, w: Calendar.Window, period: int, u: User)
    requires Reaches(plan, end) && !plan.applied && EntriesHaveAccounts(s.core, plan)
    ensures Results(DriveTo(s, sid, plan, end, now).state.log.events, w, period, u)
         == Results(s.log.events, w, period, u)
            + if Calendar.PeriodId(w, now) == period then CashflowsOf(plan.positions[plan.cursor..end], u) else []
  {
    CallsWriteTheirEntries(s, sid, plan, end, now);
    hide DriveTo, Calendar.PeriodId, Results, CashflowsOf;
    var before, after := s.log.events, DriveTo(s, sid, plan, end, now).state.log.events;
    var rows, entries := after[|before|..], plan.positions[plan.cursor..end];
    assert after == before + rows;
    forall i | 0 <= i < |rows|
      ensures rows[i].kind.Settled? && rows[i].timestamp == now && rows[i].user == entries[i].user && rows[i].qty == entries[i].cashflow
    {
      var j := plan.cursor + i;
      assert rows[i] == after[|before| + j - plan.cursor] && entries[i] == plan.positions[j];
    }
    ResultsAppend(before, rows, w, period, u);
    RowsOfEntries(rows, entries, now, w, period, u);
  }

  // ---------------------------------------------------------------- over all time, everything settled

  ghost function CashOf(rows: seq<Row>, u: User): seq<int> {
    if rows == [] then []
    else CashOf(rows[..|rows| - 1], u) + if rows[|rows| - 1].user == u then [rows[|rows| - 1].qty] else []
  }

  lemma {:induction false} EntriesCash(entries: seq<SettlementPosition>, u: User)
    ensures CashOf(EntryRows(entries), u) == CashflowsOf(entries, u)
    decreases |entries|
  {
    if entries == [] {
    } else {
      EntriesCash(entries[..|entries| - 1], u);
      assert EntryRows(entries)[..|entries| - 1] == EntryRows(entries[..|entries| - 1]);
    }
  }

  // Of each plan, what the entries it has applied so far brought u, each measured by f.
  ghost function Applied(u: User, f: int -> int): (SeriesId, SettlementPlan) -> int {
    (sid: SeriesId, plan: SettlementPlan) => if PlanInRange(plan) then SeqSum(CashflowsOf(plan.positions[..plan.cursor], u), f) else 0
  }

  ghost function LoggedOn(events: seq<Event>, u: User, f: int -> int): (SeriesId, SettlementPlan) -> int {
    (sid: SeriesId, plan: SettlementPlan) => SeqSum(CashOf(SettledRows(events, sid), u), f)
  }

  ghost function OnlyAt(at: SeriesId, x: int): (SeriesId, SettlementPlan) -> int {
    (sid: SeriesId, plan: SettlementPlan) => if sid == at then x else 0
  }

  lemma TotalOfOne(m: map<SeriesId, SettlementPlan>, at: SeriesId, x: int)
    requires at in m
    ensures Total(m, OnlyAt(at, x)) == x
  {
    TotalRemove(m, at, OnlyAt(at, x));
    TotalOfZero(m - {at}, OnlyAt(at, x));
  }

  lemma OneRowMore(events: seq<Event>, u: User, f: int -> int, sid: SeriesId)
    requires events != []
    ensures var n := |events| - 1;
      var e := events[n];
      SeqSum(CashOf(SettledRows(events, sid), u), f) == SeqSum(CashOf(SettledRows(events[..n], sid), u), f)
        + if e.kind.Settled? && e.series == sid && e.user == u then f(e.qty) else 0
  {
    var n := |events| - 1;
    var rows, e := SettledRows(events[..n], sid), events[n];
    if e.kind.Settled? && e.series == sid {
      assert (rows + [Row(e.user, e.qty)])[..|rows|] == rows;
      SeqSumAppend(CashOf(rows, u), [e.qty], f);
      assert SeqSum([e.qty], f) == f(e.qty);
      assert CashOf(rows, u) + [] == CashOf(rows, u);
    } else {
      assert rows + [] == rows;
    }
  }

  lemma {:induction false} SumOverSeries(events: seq<Event>, m: map<SeriesId, SettlementPlan>, u: User, f: int -> int)
    requires forall i :: 0 <= i < |events| && events[i].kind.Settled? ==> events[i].series in m
    ensures SeqSum(Results(events, Calendar.AllTime, 0, u), f) == Total(m, LoggedOn(events, u, f))
    decreases |events|
  {
    hide SettledRows, CashOf;
    if events == [] {
      forall sid | sid in m ensures LoggedOn(events, u, f)(sid, m[sid]) == 0 { NoCash(u, sid); }
      TotalOfZero(m, LoggedOn(events, u, f));
    } else {
      var n := |events| - 1;
      var e, before := events[n], Results(events[..n], Calendar.AllTime, 0, u);
      var x := if e.kind.Settled? && e.user == u then f(e.qty) else 0;
      SumOverSeries(events[..n], m, u, f);
      SeqSumAppend(before, [e.qty], f);
      assert SeqSum([e.qty], f) == f(e.qty) && before + [] == before;
      forall sid | sid in m
        ensures LoggedOn(events, u, f)(sid, m[sid]) == LoggedOn(events[..n], u, f)(sid, m[sid]) + OnlyAt(e.series, x)(sid, m[sid])
      {
        OneRowMore(events, u, f, sid);
      }
      TotalSum(m, LoggedOn(events, u, f), LoggedOn(events[..n], u, f), OnlyAt(e.series, x));
      if e.kind.Settled? { TotalOfOne(m, e.series, x); } else { TotalOfZero(m, OnlyAt(e.series, x)); }
    }
  }

  lemma NoCash(u: User, sid: SeriesId)
    ensures CashOf(SettledRows([], sid), u) == []
  {
  }

  // Where the log is sound, as in every reachable state, the all-time results of a user come from the
  // entries applied so far on all series, whatever is measured of them: their sum is everything settlement
  // has paid the user, their number that of the user's entries.
  lemma AllTimeIsEverythingApplied(s: State, u: User, f: int -> int)
    requires LogSound(s)
    ensures SeqSum(Results(s.log.events, Calendar.AllTime, 0, u), f) == Total(s.core.plans, Applied(u, f))
  {
    hide SettledRows, CashOf, CashflowsOf, EntryRows;
    forall i | 0 <= i < |s.log.events| && s.log.events[i].kind.Settled? ensures s.log.events[i].series in s.core.plans {
      NoRows(s.log.events, s.log.events[i].series);
      assert HasSettled(s.log.events, s.log.events[i].series);
    }
    SumOverSeries(s.log.events, s.core.plans, u, f);
    forall sid | sid in s.core.plans ensures LoggedOn(s.log.events, u, f)(sid, s.core.plans[sid]) == Applied(u, f)(sid, s.core.plans[sid]) {
      var plan := s.core.plans[sid];
      if PlanInRange(plan) { EntriesCash(plan.positions[..plan.cursor], u); } else { NoneFrom(u); }
    }
    TotalAgree(s.core.plans, LoggedOn(s.log.events, u, f), Applied(u, f));
  }

  lemma NoneFrom(u: User)
    ensures CashOf([], u) == []
  {
  }

  // ---------------------------------------------------------------- tapes and volumes

  // One point for each row of the series that records a buyer's side: the seller's row has the opposite
  // quantity and no point.
  ghost function Tape(events: seq<Event>, sid: SeriesId): seq<C.Point> {
    if events == [] then []
    else
      var n := |events| - 1;
      var e := events[n];
      Tape(events[..n], sid)
      + if e.kind.Executed? && e.qty > 0 && e.series == sid then [C.Point(e.eventId, e.price, e.qty, e.timestamp)] else []
  }

  // The notional of a trade at the precision of the price, and in USD base units, rounded down.
  function RawNotional(p: C.Point): int { p.qty * p.price.value }

  predicate NotionalOf(x: int, p: C.Point) { FloorOf(x, RawNotional(p) * UNIT, Pow10(p.price.decimals)) }

  // Nothing on the way to a notional leaves the range of a signed 128-bit number.
  predicate Representable(p: C.Point) {
    && 0 <= RawNotional(p) <= I128_MAX && p.qty > 0
    && (p.price.decimals <= USD_DECIMALS ==> RawNotional(p) * Pow10(USD_DECIMALS - p.price.decimals) <= I128_MAX)
    && (p.price.decimals > USD_DECIMALS ==> Pow10(p.price.decimals - USD_DECIMALS) <= I128_MAX)
  }

  lemma NotionalIsExact(p: C.Point)
    requires Representable(p)
    ensures NotionalOf(NotionalUsdBase(p), p) && NotionalUsdBase(p) >= 0
  {
    var raw, value, d := RawNotional(p), p.price.value, p.price.decimals;
    if value > I128_MAX { Ordered(1, p.qty, value); }
    assert Clamp128(p.qty * Min(value, I128_MAX)) == raw;
    PowerOfUsd();
    ScaleIsExact(raw, USD_DECIMALS, d);
    hide Pow10, FloorOf;
    if d <= USD_DECIMALS {
      var c := Pow10(USD_DECIMALS - d);
      if c > I128_MAX && raw > 0 { Ordered(1, raw, c); }
      assert raw == 0 ==> raw * c == 0 && raw * Min(c, I128_MAX) == 0;
      assert NotionalUsdBase(p) == Clamp128(raw * Min(c, I128_MAX));
      assert raw * Min(c, I128_MAX) == raw * c;
      Ordered(0, raw, c);
    }
  }

  ghost function NotionalIn(): C.Point -> int { (p: C.Point) => NotionalUsdBase(p) }

  // A tape holds one point for each trade row of its series, in the order of the log, with the row's own
  // id, price, quantity and time.
  lemma {:induction false} TapesAreTradeRows(events: seq<Event>, sid: SeriesId)
    ensures HistoryIn(Rebuilt(events), sid) == Tape(events, sid)
    decreases |events|
  {
    hide WithSettled, NotionalUsdBase;
    if events == [] {
    } else {
      TapesAreTradeRows(events[..|events| - 1], sid);
    }
  }

  lemma OneTradeMore(before: seq<C.Point>, p: C.Point)
    requires forall q :: q in before + [p] ==> Representable(q)
    ensures SeqSum(before + [p], NotionalIn()) == SeqSum(before, NotionalIn()) + NotionalUsdBase(p)
    ensures NotionalUsdBase(p) >= 0 && forall q :: q in before ==> Representable(q)
  {
    hide Representable, NotionalUsdBase;
    assert p in before + [p];
    assert forall q :: q in before ==> q in before + [p];
    NotionalIsExact(p);
    SeqSumAppend(before, [p], NotionalIn());
    assert SeqSum([p], NotionalIn()) == NotionalUsdBase(p);
  }

  // A series' volume counts its trades, to a ceiling, and adds up their notionals while none of them and
  // not their sum leaves the range of a signed 128-bit number.
  lemma {:induction false} VolumesAddUp(events: seq<Event>, sid: SeriesId)
    requires forall p :: p in Tape(events, sid) ==> Representable(p)
    requires SeqSum(Tape(events, sid), NotionalIn()) <= I128_MAX
    ensures VolumeIn(Rebuilt(events), sid) == Volume(SeqSum(Tape(events, sid), NotionalIn()), Min(|Tape(events, sid)|, U64_MAX))
    ensures SeqSum(Tape(events, sid), NotionalIn()) >= 0
    decreases |events|
  {
    hide Representable, NotionalUsdBase, WithSettled;
    if events == [] {
    } else {
      var n := |events| - 1;
      var before, p := Tape(events[..n], sid), PointOf(events[n]);
      if IsTradeRow(events[n]) && events[n].series == sid {
        assert Tape(events, sid) == before + [p];
        OneTradeMore(before, p);
      } else {
        assert Tape(events, sid) == before;
      }
      VolumesAddUp(events[..n], sid);
    }
  }
}
