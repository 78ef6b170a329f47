// What every state reached from funded accounts with nothing open satisfies, whatever its history of
// funding, trading, minting, settling and re-keying.
module Reachable {
  import opened Base
  import opened Types
  import opened Totals
  import opened Book
  import opened Clearing
  import opened Coverage
  import opened Runs
  import opened CoverageTheorem
  import opened SettlementRuns
  import opened SettlementEffects
  import opened BookRuns
  import opened EventIndexes
  import opened IndexRuns
  import Calendar
  import I = IndexSums
  import P = LeaderboardPages
  import L = Leaderboard

  // Nothing has been traded yet. Accounts may hold any cash and collateral, and have any of it reserved;
  // ClearingHouse.House is constructed in such a state, with no account at all.
  ghost predicate Initial(reg: Registry, s: State) {
    && s.core.positions == map[] && s.core.orders == map[] && s.core.plans == map[]
    && CachedKnown(reg, s.ops) && s.log == Log([], 0)
  }

  lemma InitialIsSound(reg: Registry, s: State)
    requires Initial(reg, s)
    ensures Inv(reg, s) && Frame(reg, s.core) && BookSound(reg, s.core.orders) && LogSound(s) && Agree(s, NO_INDEXES)
    ensures s.market.insuranceBps + s.market.protocolBps <= BPS_BASE ==> FairPlans(s)
  {
    EmptyIsCovered(reg, s);
    EmptyAgrees(s);
    hide Agree, Covered;
    forall sid | sid in reg && reg[sid].payoffType.Categorical? && reg[sid].outcomes.Some?
      ensures Total(Distinct(reg[sid].outcomes.value), Bids(s.core.orders, sid)) <= UNIT
    {
      TotalOfZero(Distinct(reg[sid].outcomes.value), Bids(s.core.orders, sid));
    }
  }

  // At once, in every reachable state: margin covers what it is reserved for, the book holds no
  // arbitrage, and the log has each settlement entry applied so far once and in order.
  lemma EveryReachableState(reg: Registry, s: State, steps: seq<Step>)
    requires Initial(reg, s) && ValidRun(reg, s, steps) && OrdinaryRun(reg, steps)
    ensures var s' := RunAll(reg, s, steps);
      Inv(reg, s') && BookSound(reg, s'.core.orders) && LogSound(s')
  {
    InitialIsSound(reg, s);
    hide Inv, BookSound, LogSound, Initial, Agree, FairPlans;
    MarginIsAlwaysCovered(reg, s, steps);
    InvParts(reg, s);
    NeverAnArbitrage(reg, s, steps);
    AppliedExactlyOnce(reg, s, steps);
  }

  lemma InvParts(reg: Registry, s: State)
    requires Inv(reg, s)
    ensures Frame(reg, s.core) && CachedKnown(reg, s.ops)
  {
  }

  // Where nothing was reserved at first, ids were fresh and minted sets divided a unit, reserved margin is
  // at every moment exactly what positions, orders and pending entries call for.
  lemma ReservedIsExact(reg: Registry, s: State, steps: seq<Step>, u: User, d: Domain)
    requires Initial(reg, s) && forall v :: AccountOf(s.core.accounts, v).GetReserved(d) == 0
    requires ValidRun(reg, s, steps) && OrdinaryRun(reg, steps) && TightRun(reg, s, steps)
    ensures Slack(reg, RunAll(reg, s, steps).core, u, d) == 0
  {
    InitialIsSound(reg, s);
    forall v ensures Slack(reg, s.core, v, d) == 0 {
    }
    hide Inv, BookSound, LogSound, Initial, Agree, FairPlans, Slack, Frame;
    TightRunsAreExact(reg, s, steps, u, d);
  }

  // No settle call lowers anyone's free margin in any reachable state whose fee ratios, and those of its
  // history, stayed within a payoff.
  lemma NoReachableCallErodes(reg: Registry, s: State, steps: seq<Step>, calls: seq<Step>, u: User, d: Domain)
    requires Initial(reg, s) && ValidRun(reg, s, steps) && OrdinaryRun(reg, steps)
    requires s.market.insuranceBps + s.market.protocolBps <= BPS_BASE && forall i :: 0 <= i < |steps| ==> FairStep(steps[i])
    requires ValidRun(reg, RunAll(reg, s, steps), calls) && forall i :: 0 <= i < |calls| ==> calls[i].Settle?
    ensures var s1 := RunAll(reg, s, steps);
      FreeMargin(RunAll(reg, s1, calls).core, s1.market, u, d) >= FreeMargin(s1.core, s1.market, u, d)
  {
    InitialIsSound(reg, s);
    hide Inv, BookSound, LogSound, Initial, Agree, FairPlans, FreeMargin;
    MarginIsAlwaysCovered(reg, s, steps);
    PlansStayFair(reg, s, steps);
    SettlementNeverErodes(reg, RunAll(reg, s, steps), calls, u, d);
  }

  // The indexes of every reachable state are those a rebuild makes of its log, in id order, and in time
  // order while the clock did not go back.
  lemma ReachableIndexes(reg: Registry, s: State, moves: seq<Move>)
    requires Initial(reg, s) && ValidMoves(reg, s, moves)
    ensures Frame(reg, s.core) && CachedKnown(reg, s.ops) && Agree(s, NO_INDEXES)
    ensures IndexAll(reg, s, moves, NO_INDEXES) == Rebuilt(MoveAll(reg, s, moves).log.events)
    ensures Forward(moves, 0) ==> forall sid :: C.Chronological(HistoryIn(IndexAll(reg, s, moves, NO_INDEXES), sid))
  {
    InitialIsSound(reg, s);
    InvParts(reg, s);
    assert Tapes(NO_INDEXES, 0);
    hide Inv, BookSound, LogSound, Initial, Agree, Tapes, Frame;
    IndexesAreTheRebuild(reg, s, moves, NO_INDEXES);
    if Forward(moves, 0) { TapesAreChronological(reg, s, moves, NO_INDEXES, 0); }
  }

  lemma {:induction false} MovesKeepLogSound(reg: Registry, s: State, moves: seq<Move>)
    requires Frame(reg, s.core) && CachedKnown(reg, s.ops) && ValidMoves(reg, s, moves) && LogSound(s)
    ensures LogSound(MoveAll(reg, s, moves))
    decreases |moves|
  {
    hide After, Enabled, LogSound, BackfillAll, Frame;
    if moves == [] {
    } else {
      if moves[0].Take? {
        StepLogSound(reg, s, moves[0].step);
        StepFrame(reg, s, moves[0].step);
      } else {
        NothingToBackfill(reg, s, moves[0].keys);
      }
      MovesKeepLogSound(reg, Moved(reg, s, moves[0]), moves[1..]);
    }
  }

  // The standings served from the indexes of any reachable state show what its log says, and over all time
  // a user's result, its count and its gains are those of every settlement entry applied to the user.
  lemma ReachableStandings(reg: Registry, s: State, moves: seq<Move>, p: P.Params, now: nat, u: User)
    requires Initial(reg, s) && ValidMoves(reg, s, moves)
    ensures Frame(reg, s.core) && CachedKnown(reg, s.ops) && Agree(s, NO_INDEXES)
    ensures var s', board := MoveAll(reg, s, moves), IndexAll(reg, s, moves, NO_INDEXES).board;
      var pnl := P.PnlIn(BucketIn(board, L.Slot(Calendar.AllTime, 0)), u);
      && (forall i :: 0 <= i < |P.FullPage(board, p, now).items| ==> I.Shows(s'.log.events, p, now, P.FullPage(board, p, now).items[i]))
      && pnl.realized == Total(s'.core.plans, I.Applied(u, I.Value()))
      && pnl.wins == Total(s'.core.plans, I.Applied(u, I.Won()))
  {
    ReachableIndexes(reg, s, moves);
    InitialIsSound(reg, s);
    InvParts(reg, s);
    hide Inv, BookSound, LogSound, Initial, Agree, Frame, I.Shows, P.FullPage, Rebuilt, MoveAll, IndexAll;
    MovesKeepLogSound(reg, s, moves);
    var s' := MoveAll(reg, s, moves);
    I.PageShowsTheLog(s'.log.events, p, now);
    I.BucketsAreSums(s'.log.events, Calendar.AllTime, 0, u);
    I.AllTimeIsEverythingApplied(s', u, I.Value());
    I.AllTimeIsEverythingApplied(s', u, I.Won());
  }
}
