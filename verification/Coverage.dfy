// Reserved margin against what it is reserved for: positions, resting orders, and the entries of
// settlement plans that are still to be applied.
module Coverage {
  import opened Base
  import opened Payoffs
  import opened Types
  import opened Totals
  import opened Book
  import opened Clearing

  // Series ids are hashes of the contract, so a registry of series never changes an entry.
  type Registry = map<SeriesId, Series>

  function DomainOf(reg: Registry, sid: SeriesId): Domain {
    if sid in reg then reg[sid].domain else Settlement
  }

  ghost function PositionMargin(reg: Registry, u: User, d: Domain): (PosKey, Position) -> int {
    (k: PosKey, p: Position) => if k.user == u && DomainOf(reg, k.series) == d then p.margin else 0
  }

  ghost function OrderMargin(u: User, d: Domain): (OrderId, LimitOrder) -> int {
    (id: OrderId, o: LimitOrder) => if o.creator == u && o.domain == d then o.blocked else 0
  }

  ghost function EntryMargin(u: User): SettlementPosition -> int {
    (e: SettlementPosition) => if e.user == u then e.margin else 0
  }

  ghost function Pending(plan: SettlementPlan): seq<SettlementPosition> {
    if plan.cursor <= |plan.positions| then plan.positions[plan.cursor..] else []
  }

  ghost function PlanMargin(u: User, d: Domain): (SeriesId, SettlementPlan) -> int {
    (sid: SeriesId, plan: SettlementPlan) => if plan.domain == d then SeqSum(Pending(plan), EntryMargin(u)) else 0
  }

  // Reserved margin of u in d beyond everything it must cover.
  ghost function Slack(reg: Registry, s: Core, u: User, d: Domain): int {
    AccountOf(s.accounts, u).GetReserved(d)
    - Total(s.positions, PositionMargin(reg, u, d))
    - Total(s.orders, OrderMargin(u, d))
    - Total(s.plans, PlanMargin(u, d))
  }

  ghost predicate Covered(reg: Registry, s: Core) {
    forall u, d :: Slack(reg, s, u, d) >= 0
  }

  ghost predicate SameSlack(reg: Registry, s: Core, s': Core) {
    forall u, d :: Slack(reg, s', u, d) == Slack(reg, s, u, d)
  }

  // ---------------------------------------------------------------- parts of what is covered

  lemma PositionMargins(reg: Registry, positions: map<PosKey, Position>, u: User, d: Domain)
    ensures Total(positions, PositionMargin(reg, u, d)) >= 0
    ensures forall k :: k in positions && k.user == u && DomainOf(reg, k.series) == d ==>
              positions[k].margin <= Total(positions, PositionMargin(reg, u, d))
  {
    var w := PositionMargin(reg, u, d);
    forall k | k in positions ensures w(k, positions[k]) >= 0 {
      var p := positions[k];
      assert w(k, p) == if k.user == u && DomainOf(reg, k.series) == d then p.margin else 0;
    }
    TotalNonNegative(positions, w);
    forall k | k in positions && k.user == u && DomainOf(reg, k.series) == d ensures positions[k].margin <= Total(positions, w) {
      assert w(k, positions[k]) == positions[k].margin;
    }
  }

  lemma PartsAreNonNegative(reg: Registry, s: Core, u: User, d: Domain)
    ensures Total(s.positions, PositionMargin(reg, u, d)) >= 0
    ensures Total(s.orders, OrderMargin(u, d)) >= 0
    ensures Total(s.plans, PlanMargin(u, d)) >= 0
  {
    PositionMargins(reg, s.positions, u, d);
    TotalNonNegative(s.orders, OrderMargin(u, d));
    forall sid | sid in s.plans ensures PlanMargin(u, d)(sid, s.plans[sid]) >= 0 {
      SeqSumNonNegative(Pending(s.plans[sid]), EntryMargin(u));
    }
    TotalNonNegative(s.plans, PlanMargin(u, d));
  }

  // Coverage leaves room for one position and one order of the same account at once.
  lemma RoomFor(reg: Registry, s: Core, k: PosKey, id: OrderId)
    requires Covered(reg, s)
    ensures var u, d := k.user, DomainOf(reg, k.series);
      var blocked := if id in s.orders && s.orders[id].creator == u && s.orders[id].domain == d then s.orders[id].blocked else 0;
      PositionOf(s.positions, k).margin + blocked <= AccountOf(s.accounts, u).GetReserved(d)
  {
    var u, d := k.user, DomainOf(reg, k.series);
    assert Slack(reg, s, u, d) >= 0;
    PartsAreNonNegative(reg, s, u, d);
    PositionMargins(reg, s.positions, u, d);
    TotalNonNegative(s.orders, OrderMargin(u, d));
  }

  // ---------------------------------------------------------------- trades

  // No saturating subtraction of the leg clamps.
  predicate Exact(a: Account, d: Domain, leg: Leg) { a.GetReserved(d) + leg.reservedDelta >= 0 }

  lemma LegReserves(a: Account, d: Domain, leg: Leg, d': Domain)
    requires Exact(a, d, leg)
    ensures ApplyLeg(a, d, leg).GetReserved(d') == a.GetReserved(d') + if d' == d then leg.reservedDelta else 0
  {
  }

  lemma PositionWeight(reg: Registry, positions: map<PosKey, Position>, k: PosKey, u: User, d: Domain)
    ensures At(positions, k, PositionMargin(reg, u, d))
         == if k.user == u && DomainOf(reg, k.series) == d then PositionOf(positions, k).margin else 0
  {
  }

  lemma TradedMargins(reg: Registry, s: Core, d0: Domain, t: TradeParams, b: Leg, c: Leg, u: User, d: Domain)
    requires DomainOf(reg, t.seriesId) == d0
    requires t.buyer != t.seller
    ensures var w := PositionMargin(reg, u, d);
      Total(Traded(s, d0, t, b, c).positions, w) == Total(s.positions, w)
        + (if u == t.buyer && d == d0 then b.newMargin - PositionOf(s.positions, KeyOf(t, u)).margin else 0)
        + (if u == t.seller && d == d0 then c.newMargin - PositionOf(s.positions, KeyOf(t, u)).margin else 0)
  {
    hide ApplyLeg;
    var kb, kc := KeyOf(t, t.buyer), KeyOf(t, t.seller);
    var pb := Position(PositionOf(s.positions, kb).netQty + t.qty, b.newMargin);
    var pc := Position(PositionOf(s.positions, kc).netQty - t.qty, c.newMargin);
    TotalPutTwo(s.positions, kb, pb, kc, pc, PositionMargin(reg, u, d));
    PositionWeight(reg, s.positions, kb, u, d);
    PositionWeight(reg, s.positions, kc, u, d);
  }

  lemma TradedReserves(s: Core, d0: Domain, t: TradeParams, b: Leg, c: Leg, u: User, d: Domain)
    requires t.buyer != t.seller
    requires Exact(AccountOf(s.accounts, t.buyer), d0, b)
    requires Exact(AccountOf(s.accounts, t.seller), d0, c)
    ensures AccountOf(Traded(s, d0, t, b, c).accounts, u).GetReserved(d) == AccountOf(s.accounts, u).GetReserved(d)
        + (if u == t.buyer && d == d0 then b.reservedDelta else 0)
        + (if u == t.seller && d == d0 then c.reservedDelta else 0)
  {
    LegReserves(AccountOf(s.accounts, t.buyer), d0, b, d);
    LegReserves(AccountOf(s.accounts, t.seller), d0, c, d);
  }

  // A trade moves each side's reserved margin by the change in its position's cost basis, less what
  // the caller unblocks.
  lemma TradedSlack(reg: Registry, s: Core, series: Series, t: TradeParams, u: User, d: Domain)
    requires t.seriesId in reg && reg[t.seriesId] == series
    requires t.buyer != t.seller
    requires BuyerLeg(s, series, t).Ok? && SellerLeg(s, series, t).Ok?
    requires Exact(AccountOf(s.accounts, t.buyer), series.domain, BuyerLeg(s, series, t).value)
    requires Exact(AccountOf(s.accounts, t.seller), series.domain, SellerLeg(s, series, t).value)
    ensures var s' := Traded(s, series.domain, t, BuyerLeg(s, series, t).value, SellerLeg(s, series, t).value);
      Slack(reg, s', u, d) == Slack(reg, s, u, d)
        - (if u == t.buyer && d == series.domain then t.buyerUnblock else 0)
        - (if u == t.seller && d == series.domain then t.sellerUnblock else 0)
  {
    var b, c := BuyerLeg(s, series, t).value, SellerLeg(s, series, t).value;
    TradedMargins(reg, s, series.domain, t, b, c, u, d);
    TradedReserves(s, series.domain, t, b, c, u, d);
    var s' := Traded(s, series.domain, t, b, c);
    assert s'.orders == s.orders && s'.plans == s.plans;
  }

  // ---------------------------------------------------------------- orders

  // Placing under an id already on the book strands what the old order blocked, and only that.
  lemma PlacedSlack(reg: Registry, s: Core, id: OrderId, o: LimitOrder, u: User, d: Domain)
    ensures Slack(reg, Placed(s, id, o), u, d) == Slack(reg, s, u, d) + At(s.orders, id, OrderMargin(u, d))
  {
    TotalPut(s.orders, id, o, OrderMargin(u, d));
  }

  lemma ReleaseIsExact(accounts: map<User, Account>, u: User, d: Domain, amount: nat, u': User, d': Domain)
    requires u in accounts || amount == 0
    requires amount <= AccountOf(accounts, u).GetReserved(d)
    ensures AccountOf(Release(accounts, u, d, amount), u').GetReserved(d')
         == AccountOf(accounts, u').GetReserved(d') - if u' == u && d' == d then amount else 0
  {
  }

  // An account that reserves nothing may be absent; one that must cover something is not.
  lemma OwesThenHasAccount(reg: Registry, s: Core, u: User, d: Domain, amount: nat)
    requires Slack(reg, s, u, d) >= 0
    requires amount <= Total(s.positions, PositionMargin(reg, u, d))
          || amount <= Total(s.orders, OrderMargin(u, d))
          || amount <= Total(s.plans, PlanMargin(u, d))
    ensures u in s.accounts || amount == 0
    ensures amount <= AccountOf(s.accounts, u).GetReserved(d)
  {
    PartsAreNonNegative(reg, s, u, d);
  }

  lemma UnplacedSlack(reg: Registry, s: Core, id: OrderId, u: User, d: Domain)
    requires Covered(reg, s)
    requires id in s.orders
    ensures Slack(reg, Unplaced(s, id), u, d) == Slack(reg, s, u, d)
  {
    var o := s.orders[id];
    assert Slack(reg, s, o.creator, o.domain) >= 0;
    TotalNonNegative(s.orders, OrderMargin(o.creator, o.domain));
    assert OrderMargin(o.creator, o.domain)(id, o) == o.blocked;
    OwesThenHasAccount(reg, s, o.creator, o.domain, o.blocked);
    ReleaseIsExact(s.accounts, o.creator, o.domain, o.blocked, u, d);
    TotalRemove(s.orders, id, OrderMargin(u, d));
  }

  // ---------------------------------------------------------------- complete sets

  lemma {:induction false} GrantedMargin(reg: Registry, positions: map<PosKey, Position>, caller: User, sid: SeriesId,
                      outcomes: seq<OutcomeId>, qty: int, share: nat, u: User, d: Domain)
    ensures Total(Granted(positions, caller, sid, outcomes, qty, share), PositionMargin(reg, u, d))
         == Total(positions, PositionMargin(reg, u, d))
            + if u == caller && d == DomainOf(reg, sid) then |outcomes| * share else 0
    decreases |outcomes|
  {
    if outcomes == [] {
    } else {
      var k := SetKey(caller, sid, outcomes[0]);
      var p := PositionOf(positions, k);
      var p' := Position(p.netQty + qty, p.margin + share);
      TotalPut(positions, k, p', PositionMargin(reg, u, d));
      GrantedMargin(reg, positions[k := p'], caller, sid, outcomes[1..], qty, share, u, d);
      Spread(|outcomes| - 1, 1, share);
    }
  }

  // What a holder can redeem never frees more than the position's own margin.
  lemma FreedWithinMargin(p: Position, qty: nat)
    requires 0 < qty <= p.netQty
    ensures Freed(p, qty) <= p.margin
  {
    var unit := FloorDiv(p.margin, p.netQty);
    assert unit * p.netQty <= p.margin by { QuotientBound(p.margin, p.netQty); }
    assert unit * qty <= unit * p.netQty by { Spread(qty, p.netQty - qty, unit); }
  }

  lemma QuotientBound(a: nat, b: nat)
    requires b > 0
    ensures FloorDiv(a, b) * b <= a < FloorDiv(a, b) * b + b
  {
  }

  lemma RedeemOneSlack(reg: Registry, s: Core, k: PosKey, qty: nat, u: User, d: Domain)
    requires Covered(reg, s)
    requires k in s.positions
    requires 0 < qty <= s.positions[k].netQty
    ensures Slack(reg, RedeemOne(s, k.user, DomainOf(reg, k.series), k, qty), u, d) == Slack(reg, s, u, d)
  {
    hide Freed;
    var caller, d0 := k.user, DomainOf(reg, k.series);
    var p, freed := s.positions[k], Freed(s.positions[k], qty);
    FreedWithinMargin(p, qty);
    assert Slack(reg, s, caller, d0) >= 0;
    PositionMargins(reg, s.positions, caller, d0);
    OwesThenHasAccount(reg, s, caller, d0, freed);
    ReleaseIsExact(s.accounts, caller, d0, freed, u, d);
    TotalPut(s.positions, k, Position(p.netQty - qty, p.margin - freed), PositionMargin(reg, u, d));
  }

  predicate NoRepeats(outcomes: seq<OutcomeId>) {
    forall i, j :: 0 <= i < j < |outcomes| ==> outcomes[i] != outcomes[j]
  }

  // Over distinct outcomes redeeming never traps and leaves every account's slack as it was.
  lemma {:induction false} RedeemedSlack(reg: Registry, s: Core, caller: User, sid: SeriesId, outcomes: seq<OutcomeId>, qty: nat)
    requires Covered(reg, s)
    requires NoRepeats(outcomes) && qty > 0
    requires CanRedeem(s.positions, caller, sid, outcomes, qty)
    ensures var r := Redeemed(s, caller, DomainOf(reg, sid), sid, outcomes, qty);
      r.Some? && SameSlack(reg, s, r.value) && r.value.orders == s.orders && r.value.plans == s.plans
    decreases |outcomes|
  {
    if outcomes == [] {
    } else {
      var k := SetKey(caller, sid, outcomes[0]);
      assert outcomes[0] in outcomes;
      var s1 := RedeemOne(s, caller, DomainOf(reg, sid), k, qty);
      forall u, d ensures Slack(reg, s1, u, d) == Slack(reg, s, u, d) {
        RedeemOneSlack(reg, s, k, qty, u, d);
      }
      forall o | o in outcomes[1..] ensures PositionOf(s1.positions, SetKey(caller, sid, o)).netQty >= qty {
        assert o in outcomes && o != outcomes[0];
      }
      RedeemedSlack(reg, s1, caller, sid, outcomes[1..], qty);
      SlackChains(reg, s, s1, Redeemed(s, caller, DomainOf(reg, sid), sid, outcomes, qty).value);
    }
  }

  lemma SlackChains(reg: Registry, a: Core, b: Core, c: Core)
    requires SameSlack(reg, a, b) && SameSlack(reg, b, c)
    ensures SameSlack(reg, a, c)
  {
    forall u, d ensures Slack(reg, c, u, d) == Slack(reg, a, u, d) {
      assert Slack(reg, b, u, d) == Slack(reg, a, u, d);
    }
  }

  lemma SlackKeepsCover(reg: Registry, a: Core, b: Core)
    requires Covered(reg, a) && SameSlack(reg, a, b)
    ensures Covered(reg, b)
  {
    forall u, d ensures Slack(reg, b, u, d) >= 0 {
      assert Slack(reg, b, u, d) == Slack(reg, a, u, d);
    }
  }
}
