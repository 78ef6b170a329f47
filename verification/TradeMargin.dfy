// What the margin check of a trade does and does not secure: src/clearing/src/trade/service.rs.
module TradeMargin {
  import opened Base
  import opened Payoffs
  import opened Types
  import opened Totals
  import opened Clearing
  import opened Coverage
  import opened CoverageRuns

  function LegFor(c: Core, series: Series, t: TradeParams, u: User): Result<Leg, TradeError> {
    if u == t.buyer then BuyerLeg(c, series, t) else SellerLeg(c, series, t)
  }

  ghost function ReservedOf(s: State, u: User, d: Domain): nat { AccountOf(s.core.accounts, u).GetReserved(d) }

  lemma LegEquity(a: Account, d: Domain, leg: Leg, m: Market)
    ensures ApplyLeg(a, d, leg).RawEquity(d, m.configs, m.metrics) == a.RawEquity(d, m.configs, m.metrics) - leg.cashDelta
    ensures ApplyLeg(a, d, leg).GetReserved(d) == Adjusted(a.GetReserved(d), leg.reservedDelta)
  {
  }

  lemma TradedAccount(s: State, series: Series, t: TradeParams, now: nat, u: User)
    requires Executes(s, series, t) && (u == t.buyer || u == t.seller)
    ensures LegFor(s.core, series, t, u).Ok?
    ensures var leg := LegFor(s.core, series, t, u).value;
      var s' := ExecuteTrade(s, series, t, now).state;
      && AccountOf(s'.core.accounts, u) == ApplyLeg(AccountOf(s.core.accounts, u), series.domain, leg)
      && s'.market == s.market
  {
    ExecutedCore(s, series, t, now);
  }

  lemma CheckedLeg(s: State, series: Series, t: TradeParams, now: nat, u: User)
    requires Executes(s, series, t) && (u == t.buyer || u == t.seller) && series.domain != Social
    ensures LegFor(s.core, series, t, u).Ok?
    ensures RawEquity(s, u, series.domain)
         >= Adjusted(ReservedOf(s, u, series.domain), LegFor(s.core, series, t, u).value.reservedDelta)
  {
    hide LegOf, Traded;
  }

  // A side is covered after a trade exactly when its equity before it, less the loss it realises on the
  // position held, covers what will be reserved. The check of a trade leaves that loss out.
  lemma CoveredAfterIff(s: State, series: Series, t: TradeParams, now: nat, u: User)
    requires Executes(s, series, t) && (u == t.buyer || u == t.seller)
    ensures LegFor(s.core, series, t, u).Ok?
    ensures var d, s', leg := series.domain, ExecuteTrade(s, series, t, now).state, LegFor(s.core, series, t, u).value;
      RawEquity(s', u, d) >= ReservedOf(s', u, d)
      <==> RawEquity(s, u, d) >= Adjusted(ReservedOf(s, u, d), leg.reservedDelta) + leg.cashDelta
  {
    TradedAccount(s, series, t, now, u);
    LegEquity(AccountOf(s.core.accounts, u), series.domain, LegFor(s.core, series, t, u).value, s.market);
    hide ExecuteTrade, LegFor, ApplyLeg, Adjusted, Executes;
  }

  function QtyAfter(c: Core, t: TradeParams, u: User): int {
    var held := PositionOf(c.positions, KeyOf(t, u)).netQty;
    if u == t.buyer then held + t.qty else held - t.qty
  }

  // The margin of a quantity at the trade's price; a leg that settles has both of its margins.
  function MarginAt(series: Series, t: TradeParams, q: int): int {
    match GetRequiredMargin(series, t.price, q)
    case Ok(m) => m
    case Err(_) => 0
  }

  lemma LegInTerms(reg: Registry, c: Core, series: Series, t: TradeParams, u: User)
    requires t.seriesId in reg && reg[t.seriesId] == series && Covered(reg, c)
    requires t.buyerUnblock == 0 && t.sellerUnblock == 0
    requires (u == t.buyer || u == t.seller) && LegFor(c, series, t, u).Ok?
    ensures var leg, reserved := LegFor(c, series, t, u).value, AccountOf(c.accounts, u).GetReserved(series.domain);
      Adjusted(reserved, leg.reservedDelta) + leg.cashDelta
      == reserved + MarginAt(series, t, QtyAfter(c, t, u)) - MarginAt(series, t, PositionOf(c.positions, KeyOf(t, u)).netQty)
  {
    hide GetRequiredMargin, Covered;
    LegIsExact(reg, c, series, t, u, OrderId(0), 0, QtyAfter(c, t, u));
  }

  // Where margin is covered nothing clamps, and the condition reads off the book: equity must reach what
  // is reserved plus the margin of the new position at the trade's price, less that of the position held
  // at the same price.
  lemma CoveredAfterInTerms(reg: Registry, s: State, t: TradeParams, now: nat, u: User)
    requires t.seriesId in reg && Covered(reg, s.core) && t.buyerUnblock == 0 && t.sellerUnblock == 0
    requires Executes(s, reg[t.seriesId], t) && (u == t.buyer || u == t.seller)
    ensures var series, s' := reg[t.seriesId], ExecuteTrade(s, reg[t.seriesId], t, now).state;
      RawEquity(s', u, series.domain) >= ReservedOf(s', u, series.domain)
      <==> RawEquity(s, u, series.domain) >= ReservedOf(s, u, series.domain)
             + MarginAt(series, t, QtyAfter(s.core, t, u)) - MarginAt(series, t, PositionOf(s.core.positions, KeyOf(t, u)).netQty)
  {
    CoveredAfterIff(s, reg[t.seriesId], t, now, u);
    LegInTerms(reg, s.core, reg[t.seriesId], t, u);
    hide ExecuteTrade, Executes, GetRequiredMargin, Covered, LegFor, Adjusted, QtyAfter, MarginAt;
  }

  // The check weighs equity before the trade's cash moves against the margin after it. So a trade that
  // executes leaves each side's equity below its reserved margin by no more than the loss it realises
  // on the position held, and not at all when it realises none.
  lemma ShortByNoMoreThanTheLoss(s: State, series: Series, t: TradeParams, now: nat, u: User)
    requires Executes(s, series, t) && (u == t.buyer || u == t.seller) && series.domain != Social
    ensures LegFor(s.core, series, t, u).Ok?
    ensures var d, s' := series.domain, ExecuteTrade(s, series, t, now).state;
      var loss := LegFor(s.core, series, t, u).value.cashDelta;
      && RawEquity(s', u, d) == RawEquity(s, u, d) - loss
      && RawEquity(s', u, d) >= ReservedOf(s', u, d) - loss
      && (loss <= 0 ==> RawEquity(s', u, d) >= ReservedOf(s', u, d))
  {
    CheckedLeg(s, series, t, now, u);
    TradedAccount(s, series, t, now, u);
    LegEquity(AccountOf(s.core.accounts, u), series.domain, LegFor(s.core, series, t, u).value, s.market);
    hide ExecuteTrade, LegFor, ApplyLeg, Adjusted, Executes;
  }

  // ---------------------------------------------------------------- what the operator may unblock

  // Everything u's reserved margin in d must cover.
  ghost function Owes(reg: Registry, c: Core, u: User, d: Domain): int {
    Total(c.positions, PositionMargin(reg, u, d)) + Total(c.orders, OrderMargin(u, d)) + Total(c.plans, PlanMargin(u, d))
  }

  function UnblockOf(t: TradeParams, u: User): nat { if u == t.buyer then t.buyerUnblock else t.sellerUnblock }

  // The side has that much to spare, or the trade leaves it nothing to cover.
  ghost predicate CanSpare(reg: Registry, c: Core, series: Series, t: TradeParams, u: User)
    requires LegFor(c, series, t, u).Ok?
  {
    || UnblockOf(t, u) <= Slack(reg, c, u, series.domain)
    || Owes(reg, c, u, series.domain) + LegFor(c, series, t, u).value.newMargin == PositionOf(c.positions, KeyOf(t, u)).margin
  }

  lemma OwesAfter(reg: Registry, c: Core, series: Series, t: TradeParams, u: User, d: Domain)
    requires t.seriesId in reg && reg[t.seriesId] == series && t.buyer != t.seller
    requires BuyerLeg(c, series, t).Ok? && SellerLeg(c, series, t).Ok?
    ensures var c' := Traded(c, series.domain, t, BuyerLeg(c, series, t).value, SellerLeg(c, series, t).value);
      && Owes(reg, c', u, d) >= 0
      && Owes(reg, c', u, d) == Owes(reg, c, u, d)
         + if (u == t.buyer || u == t.seller) && d == series.domain
           then LegFor(c, series, t, u).value.newMargin - PositionOf(c.positions, KeyOf(t, u)).margin else 0
  {
    hide BuyerLeg, SellerLeg, ApplyLeg, PositionMargin, OrderMargin, PlanMargin;
    var b, l := BuyerLeg(c, series, t).value, SellerLeg(c, series, t).value;
    TradedMargins(reg, c, series.domain, t, b, l, u, d);
    PartsAreNonNegative(reg, Traded(c, series.domain, t, b, l), u, d);
    hide Total;
  }

  lemma ReservedAfter(c: Core, series: Series, t: TradeParams, u: User, d: Domain)
    requires t.buyer != t.seller && BuyerLeg(c, series, t).Ok? && SellerLeg(c, series, t).Ok?
    ensures var c' := Traded(c, series.domain, t, BuyerLeg(c, series, t).value, SellerLeg(c, series, t).value);
      AccountOf(c'.accounts, u).GetReserved(d)
      == if (u == t.buyer || u == t.seller) && d == series.domain
         then Adjusted(AccountOf(c.accounts, u).GetReserved(d), LegFor(c, series, t, u).value.reservedDelta)
         else AccountOf(c.accounts, u).GetReserved(d)
  {
    hide BuyerLeg, SellerLeg, Adjusted, PositionOf;
  }

  lemma SideIsCoveredIff(reg: Registry, c: Core, series: Series, t: TradeParams, u: User)
    requires t.seriesId in reg && reg[t.seriesId] == series && t.buyer != t.seller && (u == t.buyer || u == t.seller)
    requires BuyerLeg(c, series, t).Ok? && SellerLeg(c, series, t).Ok?
    ensures var c' := Traded(c, series.domain, t, BuyerLeg(c, series, t).value, SellerLeg(c, series, t).value);
      Slack(reg, c', u, series.domain) >= 0 <==> CanSpare(reg, c, series, t, u)
  {
    OwesAfter(reg, c, series, t, u, series.domain);
    ReservedAfter(c, series, t, u, series.domain);
    hide GetRequiredMargin, PositionMargin, OrderMargin, PlanMargin, Total, Traded;
  }

  // A matched trade may name any amount to unblock, and a saturating subtraction takes it off. Margin
  // stays covered exactly when each side can spare what is unblocked for it, or keeps nothing to cover.
  lemma UnblockingIsCoveredIff(reg: Registry, s: State, t: TradeParams, now: nat)
    requires t.seriesId in reg && Covered(reg, s.core) && Executes(s, reg[t.seriesId], t)
    ensures LegFor(s.core, reg[t.seriesId], t, t.buyer).Ok? && LegFor(s.core, reg[t.seriesId], t, t.seller).Ok?
    ensures Covered(reg, ExecuteTrade(s, reg[t.seriesId], t, now).state.core)
        <==> CanSpare(reg, s.core, reg[t.seriesId], t, t.buyer) && CanSpare(reg, s.core, reg[t.seriesId], t, t.seller)
  {
    var series := reg[t.seriesId];
    ExecutedCore(s, series, t, now);
    SideIsCoveredIff(reg, s.core, series, t, t.buyer);
    SideIsCoveredIff(reg, s.core, series, t, t.seller);
    var c' := ExecuteTrade(s, series, t, now).state.core;
    hide ExecuteTrade, Executes, CanSpare, Traded, BuyerLeg, SellerLeg;
    forall u, d | !((u == t.buyer || u == t.seller) && d == series.domain) ensures Slack(reg, c', u, d) >= 0 {
      assert Slack(reg, s.core, u, d) >= 0;
      OwesAfter(reg, s.core, series, t, u, d);
      ReservedAfter(s.core, series, t, u, d);
    }
    hide Slack;
  }
}
