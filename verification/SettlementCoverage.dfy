// Settlement moves margin from positions to plan entries, frees what orders blocked, and releases
// each entry as it is applied: no account's slack changes at any of these steps.
module SettlementCoverage {
  import opened Base
  import opened Payoffs
  import opened Types
  import opened Totals
  import opened Clearing
  import opened Coverage

  // ---------------------------------------------------------------- cancelling the open orders

  ghost predicate AllIn<K(!new), V(!new)>(keys: seq<K>, m: map<K, V>) {
    forall i :: 0 <= i < |keys| ==> keys[i] in m
  }

  ghost predicate Different<K(!new)>(keys: seq<K>) {
    forall i, j :: 0 <= i < j < |keys| ==> keys[i] != keys[j]
  }

  ghost function WithoutOrders(s: Core, ids: seq<OrderId>): Core
    requires AllIn(ids, s.orders)
  {
    s.(accounts := ReleaseAll(s.accounts, s.orders, ids), orders := s.orders - SetOf(ids))
  }

  lemma {:induction false} ReleaseAllReadsOnlyItsOrders(accounts: map<User, Account>, orders: map<OrderId, LimitOrder>,
                                                        orders': map<OrderId, LimitOrder>, ids: seq<OrderId>)
    requires AllIn(ids, orders) && AllIn(ids, orders')
    requires forall i :: 0 <= i < |ids| ==> orders[ids[i]] == orders'[ids[i]]
    ensures ReleaseAll(accounts, orders, ids) == ReleaseAll(accounts, orders', ids)
    decreases |ids|
  {
    if ids == [] {
    } else {
      var o := orders[ids[0]];
      ReleaseAllReadsOnlyItsOrders(Release(accounts, o.creator, o.domain, o.blocked), orders, orders', ids[1..]);
    }
  }

  // Cancelling all orders of a series is cancelling them one after another.
  lemma WithoutOrdersUnfolds(s: Core, ids: seq<OrderId>)
    requires AllIn(ids, s.orders) && Different(ids) && ids != []
    ensures AllIn(ids[1..], Unplaced(s, ids[0]).orders)
    ensures WithoutOrders(s, ids) == WithoutOrders(Unplaced(s, ids[0]), ids[1..])
  {
    var s1 := Unplaced(s, ids[0]);
    ReleaseAllReadsOnlyItsOrders(s1.accounts, s.orders, s1.orders, ids[1..]);
    assert SetOf(ids) == {ids[0]} + SetOf(ids[1..]);
    assert s.orders - SetOf(ids) == s1.orders - SetOf(ids[1..]);
  }

  lemma {:induction false} WithoutOrdersSlack(reg: Registry, s: Core, ids: seq<OrderId>)
    requires Covered(reg, s)
    requires AllIn(ids, s.orders) && Different(ids)
    ensures SameSlack(reg, s, WithoutOrders(s, ids))
    ensures WithoutOrders(s, ids).accounts.Keys == s.accounts.Keys
    decreases |ids|
  {
    if ids == [] {
      assert WithoutOrders(s, ids) == s by { assert s.orders - SetOf(ids) == s.orders; }
    } else {
      var s1 := Unplaced(s, ids[0]);
      forall u, d ensures Slack(reg, s1, u, d) == Slack(reg, s, u, d) {
        UnplacedSlack(reg, s, ids[0], u, d);
      }
      WithoutOrdersUnfolds(s, ids);
      WithoutOrdersSlack(reg, s1, ids[1..]);
    }
  }

  // ---------------------------------------------------------------- building the plan

  lemma {:induction false} LinesMatch(positions: map<PosKey, Position>, m: Market, series: Series, keys: seq<PosKey>,
                                      settlement: SettlementInput)
    requires AllIn(keys, positions)
    requires LinesOf(positions, m, series, keys, settlement).Ok?
    ensures var lines := LinesOf(positions, m, series, keys, settlement).value;
      && |lines| == |keys|
      && forall i :: 0 <= i < |keys| ==>
           LineOf(series, keys[i], positions[keys[i]], settlement, m.insuranceBps, m.protocolBps) == Ok(lines[i])
    decreases |keys|
  {
    if keys == [] {
    } else {
      LinesMatch(positions, m, series, keys[..|keys| - 1], settlement);
    }
  }

  // The plan entries carry, user by user, the margin of the positions they replace.
  lemma {:induction false} EntriesCarryMargin(reg: Registry, positions: map<PosKey, Position>, m: Market, sid: SeriesId,
                                              series: Series, keys: seq<PosKey>, settlement: SettlementInput, u: User, d: Domain)
    requires AllIn(keys, positions)
    requires forall i :: 0 <= i < |keys| ==> keys[i].series == sid
    requires DomainOf(reg, sid) == series.domain
    requires LinesOf(positions, m, series, keys, settlement).Ok?
    ensures SumAt(keys, positions, PositionMargin(reg, u, d))
         == if d == series.domain then SeqSum(Entries(LinesOf(positions, m, series, keys, settlement).value), EntryMargin(u)) else 0
    decreases |keys|
  {
    hide GetSettlementValue, SettlementFee;
    if keys == [] {
    } else {
      var n := |keys| - 1;
      EntriesCarryMargin(reg, positions, m, sid, series, keys[..n], settlement, u, d);
      LinesMatch(positions, m, series, keys, settlement);
      var lines := LinesOf(positions, m, series, keys, settlement).value;
      var before := LinesOf(positions, m, series, keys[..n], settlement).value;
      assert Entries(lines) == Entries(before) + [lines[n].entry];
      SeqSumAppend(Entries(before), [lines[n].entry], EntryMargin(u));
      assert SeqSum([lines[n].entry], EntryMargin(u)) == EntryMargin(u)(lines[n].entry);
      PositionWeight(reg, positions, keys[n], u, d);
    }
  }

  lemma PreparedSlack(reg: Registry, s: Core, m: Market, sid: SeriesId, series: Series, settlement: SettlementInput,
                      plan: SettlementPlan, keys: seq<PosKey>, ids: seq<OrderId>)
    requires Covered(reg, s)
    requires Listings(s, sid, keys, ids)
    requires DomainOf(reg, sid) == series.domain
    requires sid !in s.plans
    requires LinesOf(s.positions, m, series, keys, settlement).Ok?
    requires plan.positions == Entries(LinesOf(s.positions, m, series, keys, settlement).value)
    requires plan.cursor == 0 && plan.domain == series.domain
    ensures SameSlack(reg, s, Prepared(s, sid, plan, keys, ids))
  {
    var s1 := WithoutOrders(s, ids);
    var s2 := Prepared(s, sid, plan, keys, ids);
    WithoutOrdersSlack(reg, s, ids);
    forall u, d ensures Slack(reg, s2, u, d) == Slack(reg, s, u, d) {
      TotalRemoveAll(s.positions, keys, PositionMargin(reg, u, d));
      assert s2.positions == s.positions - (set k | k in keys);
      TotalPut(s.plans, sid, plan, PlanMargin(u, d));
      EntriesCarryMargin(reg, s.positions, m, sid, series, keys, settlement, u, d);
      assert Pending(plan) == plan.positions;
      assert Slack(reg, s1, u, d) == Slack(reg, s, u, d);
    }
  }

  // ---------------------------------------------------------------- applying the entries

  ghost function AppliedTo(s: Core, sid: SeriesId, plan: SettlementPlan, hi: nat): Core
    requires plan.cursor <= hi <= |plan.positions|
  {
    s.(accounts := ApplyEntries(s.accounts, plan.domain, plan.positions, plan.cursor, hi),
       plans := s.plans[sid := plan.(cursor := hi)])
  }

  lemma EntryReserves(accounts: map<User, Account>, d0: Domain, e: SettlementPosition, u: User, d: Domain)
    requires e.user in accounts
    requires e.margin <= accounts[e.user].GetReserved(d0)
    ensures AccountOf(ApplyEntry(accounts, d0, e), u).GetReserved(d)
         == AccountOf(accounts, u).GetReserved(d) - if u == e.user && d == d0 then e.margin else 0
  {
  }

  ghost predicate HasNext(s: Core, sid: SeriesId) {
    && sid in s.plans && s.plans[sid].cursor < |s.plans[sid].positions|
    && s.plans[sid].positions[s.plans[sid].cursor].user in s.accounts
  }

  ghost function OneApplied(s: Core, sid: SeriesId): Core
    requires HasNext(s, sid)
  {
    var plan := s.plans[sid];
    s.(accounts := ApplyEntry(s.accounts, plan.domain, plan.positions[plan.cursor]),
       plans := s.plans[sid := plan.(cursor := plan.cursor + 1)])
  }

  // Applying one entry releases exactly the margin that stops being pending; nothing clamps.
  lemma OneEntrySlack(reg: Registry, s: Core, sid: SeriesId, u: User, d: Domain)
    requires Covered(reg, s)
    requires HasNext(s, sid)
    ensures Slack(reg, OneApplied(s, sid), u, d) == Slack(reg, s, u, d)
    ensures var plan := s.plans[sid];
      var e := plan.positions[plan.cursor];
      e.margin <= s.accounts[e.user].GetReserved(plan.domain)
  {
    var plan := s.plans[sid];
    var e, rest := plan.positions[plan.cursor], plan.(cursor := plan.cursor + 1);
    assert Pending(plan) == [e] + Pending(rest);
    assert Slack(reg, s, e.user, plan.domain) >= 0;
    PendingWithin(s.plans, sid, e.user);
    PartsAreNonNegative(reg, s, e.user, plan.domain);
    EntryReserves(s.accounts, plan.domain, e, u, d);
    TotalPut(s.plans, sid, rest, PlanMargin(u, d));
    assert Pending(plan)[1..] == Pending(rest);
  }

  lemma PendingWithin(plans: map<SeriesId, SettlementPlan>, sid: SeriesId, u: User)
    requires sid in plans && plans[sid].cursor < |plans[sid].positions|
    ensures var plan := plans[sid];
      var e := plan.positions[plan.cursor];
      e.user == u ==> e.margin <= Total(plans, PlanMargin(u, plan.domain))
  {
    var plan := plans[sid];
    var e := plan.positions[plan.cursor];
    var w := PlanMargin(u, plan.domain);
    forall i | i in plans ensures w(i, plans[i]) >= 0 {
      SeqSumNonNegative(Pending(plans[i]), EntryMargin(u));
    }
    TotalNonNegative(plans, w);
    assert Pending(plan)[0] == e;
    SeqSumNonNegative(Pending(plan)[1..], EntryMargin(u));
    assert w(sid, plan) == SeqSum(Pending(plan), EntryMargin(u));
  }

  ghost predicate EntriesHaveAccounts(s: Core, plan: SettlementPlan) {
    forall i :: plan.cursor <= i < |plan.positions| ==> plan.positions[i].user in s.accounts
  }

  lemma AppliedUnfolds(s: Core, sid: SeriesId, plan: SettlementPlan, hi: nat)
    requires plan.cursor < hi <= |plan.positions|
    requires AppliedTo(s, sid, plan, hi - 1).accounts.Keys == s.accounts.Keys
    requires EntriesHaveAccounts(s, plan)
    ensures HasNext(AppliedTo(s, sid, plan, hi - 1), sid)
    ensures AppliedTo(s, sid, plan, hi) == OneApplied(AppliedTo(s, sid, plan, hi - 1), sid)
  {
    var s1 := AppliedTo(s, sid, plan, hi - 1);
    assert s1.plans[sid := plan.(cursor := hi)] == s.plans[sid := plan.(cursor := hi)];
  }

  lemma AppliedNothing(c: Core, sid: SeriesId, plan: SettlementPlan)
    requires sid in c.plans && c.plans[sid] == plan && PlanInRange(plan)
    ensures AppliedTo(c, sid, plan, plan.cursor) == c
  {
    assert c.plans[sid := plan.(cursor := plan.cursor)] == c.plans;
  }

  lemma {:induction false} AppliedSlack(reg: Registry, s: Core, sid: SeriesId, plan: SettlementPlan, hi: nat)
    requires Covered(reg, s)
    requires sid in s.plans && s.plans[sid] == plan
    requires plan.cursor <= hi <= |plan.positions|
    requires EntriesHaveAccounts(s, plan)
    ensures SameSlack(reg, s, AppliedTo(s, sid, plan, hi))
    ensures AppliedTo(s, sid, plan, hi).accounts.Keys == s.accounts.Keys
    decreases hi
  {
    if hi == plan.cursor {
      AppliedNothing(s, sid, plan);
    } else {
      AppliedSlack(reg, s, sid, plan, hi - 1);
      AppliedUnfolds(s, sid, plan, hi);
      NextSlack(reg, s, AppliedTo(s, sid, plan, hi - 1), sid);
    }
  }

  lemma NextSlack(reg: Registry, s0: Core, s: Core, sid: SeriesId)
    requires Covered(reg, s0) && SameSlack(reg, s0, s)
    requires HasNext(s, sid)
    ensures SameSlack(reg, s0, OneApplied(s, sid))
    ensures OneApplied(s, sid).accounts.Keys == s.accounts.Keys
  {
    forall u, d ensures Slack(reg, OneApplied(s, sid), u, d) == Slack(reg, s0, u, d) {
      assert Slack(reg, s, u, d) == Slack(reg, s0, u, d);
      OneEntrySlack(reg, s, sid, u, d);
    }
  }

  // Of a plan only its domain and its pending entries matter to slack.
  lemma SlackReads(reg: Registry, s: Core, sid: SeriesId, plan: SettlementPlan)
    requires sid in s.plans
    requires plan.domain == s.plans[sid].domain && Pending(plan) == Pending(s.plans[sid])
    ensures SameSlack(reg, s, s.(plans := s.plans[sid := plan]))
  {
    forall u, d ensures Slack(reg, s.(plans := s.plans[sid := plan]), u, d) == Slack(reg, s, u, d) {
      TotalPut(s.plans, sid, plan, PlanMargin(u, d));
    }
  }

  // Driving a plan to any entry releases exactly the margin that stops being pending.
  lemma DrivenSlack(reg: Registry, s: Core, sid: SeriesId, plan: SettlementPlan, end: nat)
    requires Covered(reg, s)
    requires sid in s.plans && s.plans[sid] == plan
    requires Reaches(plan, end) && EntriesHaveAccounts(s, plan)
    ensures SameSlack(reg, s, DrivenCore(s, sid, plan, end))
    ensures DrivenCore(s, sid, plan, end).accounts.Keys == s.accounts.Keys
  {
    var at := if plan.applied then plan.cursor else end;
    var s1 := AppliedTo(s, sid, plan, at);
    AppliedSlack(reg, s, sid, plan, at);
    SlackReads(reg, s1, sid, DrivenPlan(plan, end));
    var s2 := s1.(plans := s1.plans[sid := DrivenPlan(plan, end)]);
    assert s1.plans[sid := DrivenPlan(plan, end)] == s.plans[sid := DrivenPlan(plan, end)];
    assert DrivenCore(s, sid, plan, end) == s2;
    SlackChains(reg, s, s1, s2);
  }

  ghost predicate PositionsHaveAccounts(s: Core) { forall k :: k in s.positions ==> k.user in s.accounts }

  lemma PreparedEntriesHaveAccounts(s: Core, m: Market, sid: SeriesId, series: Series, settlement: SettlementInput,
                                    plan: SettlementPlan, keys: seq<PosKey>, ids: seq<OrderId>)
    requires Listings(s, sid, keys, ids)
    requires PositionsHaveAccounts(s)
    requires LinesOf(s.positions, m, series, keys, settlement).Ok?
    requires plan.positions == Entries(LinesOf(s.positions, m, series, keys, settlement).value)
    ensures var s' := Prepared(s, sid, plan, keys, ids);
      s'.accounts.Keys == s.accounts.Keys && EntriesHaveAccounts(s', plan)
  {
    LinesMatch(s.positions, m, series, keys, settlement);
    ReleaseKeepsAccounts(s.accounts, s.orders, ids);
    var s', lines := Prepared(s, sid, plan, keys, ids), LinesOf(s.positions, m, series, keys, settlement).value;
    forall i | 0 <= i < |plan.positions| ensures plan.positions[i].user in s'.accounts {
      assert plan.positions[i] == lines[i].entry && lines[i].entry.user == keys[i].user;
    }
  }

  lemma {:induction false} ReleaseKeepsAccounts(accounts: map<User, Account>, orders: map<OrderId, LimitOrder>, ids: seq<OrderId>)
    requires AllIn(ids, orders)
    ensures ReleaseAll(accounts, orders, ids).Keys == accounts.Keys
    decreases |ids|
  {
    if ids == [] {
    } else {
      var o := orders[ids[0]];
      ReleaseKeepsAccounts(Release(accounts, o.creator, o.domain, o.blocked), orders, ids[1..]);
    }
  }

  ghost predicate Settleable(reg: Registry, s: State, sid: SeriesId) {
    && (sid in s.ops.cached ==> sid in reg && reg[sid] == s.ops.cached[sid])
    && (sid in s.core.plans ==> EntriesHaveAccounts(s.core, s.core.plans[sid]))
    && PositionsHaveAccounts(s.core)
  }

  // ---------------------------------------------------------------- the shape of a call

  ghost predicate Prepares(s: State, sid: SeriesId, settlement: SettlementInput, keys: seq<PosKey>, ids: seq<OrderId>, now: nat)
    requires Listings(s.core, sid, keys, ids)
  {
    && sid !in s.core.plans && sid in s.ops.cached
    && PrepareSettlement(s, sid, s.ops.cached[sid], settlement, keys, ids, now).result.Ok?
  }

  predicate Resumes(s: State, sid: SeriesId, settlement: SettlementInput) {
    sid in s.core.plans && !s.core.plans[sid].status.Finalised? && s.core.plans[sid].settlement == settlement
  }

  // The plan a call opens and the state it opens it in.
  ghost function OpenedPlan(s: State, sid: SeriesId, settlement: SettlementInput, keys: seq<PosKey>, ids: seq<OrderId>, now: nat)
    : SettlementPlan
    requires Listings(s.core, sid, keys, ids) && Prepares(s, sid, settlement, keys, ids, now)
  {
    var series := s.ops.cached[sid];
    NewPlan(settlement, LinesOf(s.core.positions, s.market, series, keys, settlement).value, series.domain, now)
  }

  ghost function OpenedState(s: State, sid: SeriesId, settlement: SettlementInput, keys: seq<PosKey>, ids: seq<OrderId>, now: nat): State
    requires Listings(s.core, sid, keys, ids) && Prepares(s, sid, settlement, keys, ids, now)
  {
    s.(core := Prepared(s.core, sid, OpenedPlan(s, sid, settlement, keys, ids, now), keys, ids))
  }

  // A call drives the plan it finds, or opens one and drives that, or changes nothing.
  lemma SettleShape(s: State, sid: SeriesId, settlement: SettlementInput,
                    keys: seq<PosKey>, ids: seq<OrderId>, running: set<nat>, now: nat)
    requires PlansInRange(s.core.plans) && Listings(s.core, sid, keys, ids)
    ensures Prepares(s, sid, settlement, keys, ids, now) ==> !Resumes(s, sid, settlement)
    ensures var s' := SettleSeries(s, sid, settlement, keys, ids, running, now).state;
      if Resumes(s, sid, settlement) then
        s' == DriveTo(s, sid, s.core.plans[sid], EndFor(s.core.plans[sid], running), now).state
      else if Prepares(s, sid, settlement, keys, ids, now) then
        var plan := OpenedPlan(s, sid, settlement, keys, ids, now);
        s' == DriveTo(OpenedState(s, sid, settlement, keys, ids, now), sid, plan, EndFor(plan, running), now).state
      else s' == s
  {
    hide LinesOf, PostEquityTotal, ProtocolFees, InsuranceFees, Outflows, DriveTo, Listings;
  }

  lemma OpenedPlanFacts(reg: Registry, s: State, sid: SeriesId, settlement: SettlementInput,
                        keys: seq<PosKey>, ids: seq<OrderId>, now: nat)
    requires Listings(s.core, sid, keys, ids) && Prepares(s, sid, settlement, keys, ids, now)
    requires Settleable(reg, s, sid)
    ensures LinesOf(s.core.positions, s.market, reg[sid], keys, settlement).Ok?
    ensures sid in reg && reg[sid] == s.ops.cached[sid] && sid !in s.core.plans
    ensures var plan := OpenedPlan(s, sid, settlement, keys, ids, now);
      var s1 := OpenedState(s, sid, settlement, keys, ids, now);
      && plan == NewPlan(settlement, LinesOf(s.core.positions, s.market, reg[sid], keys, settlement).value, reg[sid].domain, now)
      && EntriesHaveAccounts(s1.core, plan)
      && s1.core.accounts.Keys == s.core.accounts.Keys && s1.core.plans == s.core.plans[sid := plan]
  {
    var plan := OpenedPlan(s, sid, settlement, keys, ids, now);
    PreparedEntriesHaveAccounts(s.core, s.market, sid, reg[sid], settlement, plan, keys, ids);
  }

  // One settlement call of any kind, stopping wherever it stops, leaves every account's slack as it was.
  lemma SettleSlack(reg: Registry, s: State, sid: SeriesId, settlement: SettlementInput,
                    keys: seq<PosKey>, ids: seq<OrderId>, running: set<nat>, now: nat)
    requires Covered(reg, s.core)
    requires PlansInRange(s.core.plans) && Listings(s.core, sid, keys, ids)
    requires Settleable(reg, s, sid)
    ensures SameSlack(reg, s.core, SettleSeries(s, sid, settlement, keys, ids, running, now).state.core)
  {
    hide SettleSeries, Prepares, Prepared, DrivenCore, LinesOf, Covered, OpenedPlan;
    SettleShape(s, sid, settlement, keys, ids, running, now);
    if Resumes(s, sid, settlement) {
      DrivenSlack(reg, s.core, sid, s.core.plans[sid], EndFor(s.core.plans[sid], running));
    } else if Prepares(s, sid, settlement, keys, ids, now) {
      var s1 := OpenedState(s, sid, settlement, keys, ids, now).core;
      var plan := OpenedPlan(s, sid, settlement, keys, ids, now);
      OpenedPlanFacts(reg, s, sid, settlement, keys, ids, now);
      PreparedSlack(reg, s.core, s.market, sid, reg[sid], settlement, plan, keys, ids);
      SlackKeepsCover(reg, s.core, s1);
      DrivenSlack(reg, s1, sid, plan, EndFor(plan, running));
      SlackChains(reg, s.core, s1, DrivenCore(s1, sid, plan, EndFor(plan, running)));
    }
  }
}
