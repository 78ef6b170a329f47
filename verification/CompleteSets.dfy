// Minting a complete set and redeeming it again: src/clearing/src/api/trade/api.rs.
module CompleteSets {
  import opened Base
  import opened Payoffs
  import opened Types
  import opened Totals
  import opened Clearing
  import opened Coverage
  import opened Runs

  // ---------------------------------------------------------------- the two floors

  // Rounding the whole grant down and then its share per contract loses no more than rounding one
  // unit down once.
  lemma FloorOfFloor(qty: nat, unit: nat, n: nat)
    requires qty > 0 && n > 0
    ensures FloorDiv(FloorDiv(qty * unit, n), qty) == FloorDiv(unit, n)
  {
    var k, r := unit / n, unit % n;
    assert qty * unit == n * (qty * k) + qty * r by { Regroup(qty, unit, n, k, r); }
    Quotient(qty * unit, n, qty * k, qty * r);
    var extra := qty * r / n;
    assert 0 <= extra < qty by { Fraction(qty, r, n); }
    Quotient(qty * k + extra, qty, k, extra);
    assert qty * k + extra == FloorDiv(qty * unit, n);
    SmallQuotient(extra, qty);
  }

  lemma Regroup(q: int, u: int, n: int, k: int, r: int)
    requires u == n * k + r
    ensures q * u == n * (q * k) + q * r
  {
    assert q * (n * k + r) == q * (n * k) + q * r;
    assert q * (n * k) == n * (q * k);
  }

  lemma Quotient(a: int, n: int, k: int, r: int)
    requires n > 0 && r >= 0 && a == n * k + r
    ensures a / n == k + r / n
  {
    var q, m := r / n, r % n;
    assert r == n * q + m;
    assert n * k + n * q == n * (k + q);
    Unique(a, n, k + q, m);
  }

  lemma Unique(a: int, n: int, q: int, m: int)
    requires n > 0 && a == n * q + m && 0 <= m < n
    ensures a / n == q
  {
    var d := q - a / n;
    assert n * d == a % n - m by { assert n * d == n * q - n * (a / n); }
    assert -n < n * d < n;
  }

  lemma Fraction(q: nat, r: nat, n: nat)
    requires q > 0 && r < n
    ensures 0 <= q * r / n < q
  {
    NonNegative(q, r);
    Positive(q, n - r);
    assert q * (n - r) == q * n - q * r;
    Below(q * r, n, q);
  }

  lemma Positive(a: nat, b: nat)
    requires a > 0 && b > 0
    ensures a * b > 0
  {
  }

  lemma Below(x: nat, n: nat, q: nat)
    requires n > 0 && x < q * n
    ensures 0 <= x / n < q
  {
    var k := x / n;
    assert x == n * k + x % n;
    if q <= k { Grows(n, q, k); }
  }

  lemma Grows(n: nat, a: nat, b: nat)
    requires a <= b
    ensures a * n <= n * b
  {
    NonNegative(n, b - a);
    assert n * (b - a) == n * b - a * n;
  }

  lemma SmallQuotient(a: nat, b: nat)
    requires a < b
    ensures a / b == 0
  {
  }

  // ---------------------------------------------------------------- granting and taking back

  // A holder who never held the series.
  ghost predicate NeverHeld(positions: map<PosKey, Position>, u: User, sid: SeriesId, outcomes: seq<OutcomeId>) {
    forall o :: o in outcomes ==> SetKey(u, sid, o) !in positions
  }

  ghost predicate HoldsEach(positions: map<PosKey, Position>, u: User, sid: SeriesId, outcomes: seq<OutcomeId>, p: Position) {
    forall o :: o in outcomes ==> SetKey(u, sid, o) in positions && positions[SetKey(u, sid, o)] == p
  }

  ghost predicate SameElsewhere(m: map<PosKey, Position>, m': map<PosKey, Position>, u: User, sid: SeriesId, outcomes: seq<OutcomeId>) {
    forall k: PosKey :: !(k.user == u && k.series == sid && k.outcome.Some? && k.outcome.value in outcomes) ==>
      (k in m' <==> k in m) && (k in m ==> m'[k] == m[k])
  }

  lemma {:induction false} GrantedEach(positions: map<PosKey, Position>, u: User, sid: SeriesId, outcomes: seq<OutcomeId>, qty: nat, share: nat)
    requires NoRepeats(outcomes) && NeverHeld(positions, u, sid, outcomes)
    ensures var after := Granted(positions, u, sid, outcomes, qty, share);
      HoldsEach(after, u, sid, outcomes, Position(qty, share)) && SameElsewhere(positions, after, u, sid, outcomes)
    decreases |outcomes|
  {
    if outcomes == [] {
    } else {
      var k := SetKey(u, sid, outcomes[0]);
      var next := positions[k := Position(qty, share)];
      assert outcomes[0] in outcomes;
      forall o | o in outcomes[1..] ensures SetKey(u, sid, o) !in next { assert o in outcomes && o != outcomes[0]; }
      GrantedEach(next, u, sid, outcomes[1..], qty, share);
      assert outcomes[0] !in outcomes[1..];
      assert forall o :: o in outcomes <==> o == outcomes[0] || o in outcomes[1..];
    }
  }

  // Taking back from equal positions changes them alike and releases the same amount for each.
  lemma {:induction false} RedeemedEach(c: Core, u: User, d: Domain, sid: SeriesId, outcomes: seq<OutcomeId>, qty: nat, share: nat)
    requires NoRepeats(outcomes) && qty > 0 && u in c.accounts
    requires HoldsEach(c.positions, u, sid, outcomes, Position(qty, share))
    requires |outcomes| * Freed(Position(qty, share), qty) <= c.accounts[u].GetReserved(d)
    ensures var r := Redeemed(c, u, d, sid, outcomes, qty);
      var freed := Freed(Position(qty, share), qty);
      && r.Some? && u in r.value.accounts
      && HoldsEach(r.value.positions, u, sid, outcomes, Position(0, SatSub(share, freed)))
      && SameElsewhere(c.positions, r.value.positions, u, sid, outcomes)
      && r.value.accounts[u].GetReserved(d) == c.accounts[u].GetReserved(d) - |outcomes| * freed
      && r.value.accounts[u].cash == c.accounts[u].cash
    decreases |outcomes|
  {
    if outcomes == [] {
    } else {
      var k := SetKey(u, sid, outcomes[0]);
      var freed := Freed(Position(qty, share), qty);
      assert outcomes[0] in outcomes && c.positions[k] == Position(qty, share);
      Spread(|outcomes| - 1, 1, freed);
      var c1 := RedeemOne(c, u, d, k, qty);
      OneRelease(c, u, d, k, qty);
      forall o | o in outcomes[1..] ensures SetKey(u, sid, o) in c1.positions && c1.positions[SetKey(u, sid, o)] == Position(qty, share) {
        assert o in outcomes && o != outcomes[0];
      }
      NonNegative(|outcomes| - 1, freed);
      RedeemedEach(c1, u, d, sid, outcomes[1..], qty, share);
      assert outcomes[0] !in outcomes[1..];
      assert forall o :: o in outcomes <==> o == outcomes[0] || o in outcomes[1..];
    }
  }

  lemma NonNegative(a: nat, b: nat)
    ensures a * b >= 0
  {
  }

  lemma OneRelease(c: Core, u: User, d: Domain, k: PosKey, qty: nat)
    requires k in c.positions && u in c.accounts
    requires Freed(c.positions[k], qty) <= c.accounts[u].GetReserved(d)
    ensures var c1 := RedeemOne(c, u, d, k, qty);
      var freed := Freed(c.positions[k], qty);
      && u in c1.accounts && c1.accounts[u].GetReserved(d) == c.accounts[u].GetReserved(d) - freed
      && c1.accounts[u].cash == c.accounts[u].cash
      && c1.positions == c.positions[k := Position(c.positions[k].netQty - qty, SatSub(c.positions[k].margin, freed))]
  {
  }

  // What each outcome frees is the whole-unit share of every contract.
  lemma FreedIsShare(qty: nat, n: nat)
    requires qty > 0 && n > 0
    ensures Freed(Position(qty, FloorDiv(qty * UNIT, n)), qty) == FloorDiv(UNIT, n) * qty
    ensures n * (FloorDiv(UNIT, n) * qty) == qty * UNIT - qty * (UNIT % n)
    ensures qty * (UNIT % n) >= 0 && (qty * (UNIT % n) == 0 <==> UNIT % n == 0)
  {
    FloorOfFloor(qty, UNIT, n);
    var k, r := UNIT / n, UNIT % n;
    assert UNIT == n * k + r;
    Regroup(qty, UNIT, n, k, r);
    assert n * (qty * k) == n * (k * qty) by { assert qty * k == k * qty; }
    NonNegative(qty, r);
  }

  // ---------------------------------------------------------------- there and back

  lemma CoreThereAndBack(c: Core, u: User, sid: SeriesId, outcomes: seq<OutcomeId>, d: Domain, qty: nat)
    requires outcomes != [] && NoRepeats(outcomes) && qty > 0
    requires NeverHeld(c.positions, u, sid, outcomes)
    ensures var n := |outcomes|;
      var c1 := Minted(c, u, sid, outcomes, d, qty);
      var share := FloorDiv(qty * UNIT, n);
      var left := SatSub(share, Freed(Position(qty, share), qty));
      var r := Redeemed(c1, u, d, sid, outcomes, qty);
      && HoldsEach(c1.positions, u, sid, outcomes, Position(qty, share))
      && SameElsewhere(c.positions, c1.positions, u, sid, outcomes)
      && r.Some? && SameElsewhere(c1.positions, r.value.positions, u, sid, outcomes)
      && HoldsEach(r.value.positions, u, sid, outcomes, Position(0, left))
      && AccountOf(r.value.accounts, u).GetReserved(d) == AccountOf(c.accounts, u).GetReserved(d) + qty * (UNIT % n)
      && AccountOf(r.value.accounts, u).cash == AccountOf(c.accounts, u).cash
      && (qty * (UNIT % n) == 0 <==> UNIT % n == 0)
  {
    var n, share := |outcomes|, FloorDiv(qty * UNIT, |outcomes|);
    GrantedEach(c.positions, u, sid, outcomes, qty, share);
    FreedIsShare(qty, n);
    MintedReserves(c, u, sid, outcomes, d, qty);
    AccountReserves(c.accounts, u, d);
    hide HoldsEach, SameElsewhere, NeverHeld, Redeemed, Granted, Freed, NoRepeats;
    var c1 := Minted(c, u, sid, outcomes, d, qty);
    assert c1.positions == Granted(c.positions, u, sid, outcomes, qty, share);
    hide Minted;
    RedeemedEach(c1, u, d, sid, outcomes, qty, share);
  }

  // Minting and then redeeming as much, from nothing, returns every quantity to zero and every other
  // position to what it was, pays no cash, and leaves reserved margin up by what does not divide: the
  // inverse is exact exactly when the number of outcomes divides one unit.
  lemma MintThenRedeem(s: State, u: User, sid: SeriesId, series: Series, qty: int)
    requires series.outcomes.Some? && series.outcomes.value != [] && NoRepeats(series.outcomes.value)
    requires NeverHeld(s.core.positions, u, sid, series.outcomes.value)
    requires MintPasses(s, u, series, qty)
    ensures var minted := MintCompleteSet(s, u, sid, series, qty).state;
      var back := RedeemCompleteSet(minted, u, sid, series, qty);
      var n := |series.outcomes.value|;
      && back.result == Ok(true)
      && (forall k: PosKey :: PositionOf(back.state.core.positions, k).netQty == PositionOf(s.core.positions, k).netQty)
      && SameElsewhere(s.core.positions, back.state.core.positions, u, sid, series.outcomes.value)
      && AccountOf(back.state.core.accounts, u).GetReserved(series.domain)
         == AccountOf(s.core.accounts, u).GetReserved(series.domain) + qty * (UNIT % n)
      && (qty * (UNIT % n) == 0 <==> UNIT % n == 0)
      && AccountOf(back.state.core.accounts, u).cash == AccountOf(s.core.accounts, u).cash
  {
    var outcomes, d := series.outcomes.value, series.domain;
    var minted := MintCompleteSet(s, u, sid, series, qty).state;
    MintPassesIff(s, u, sid, series, qty);
    assert minted.core == Minted(s.core, u, sid, outcomes, d, qty);
    CoreThereAndBack(s.core, u, sid, outcomes, d, qty);
    hide MintCompleteSet, Minted, Redeemed, Granted;
    Back(s, minted, u, sid, series, qty, FloorDiv(qty * UNIT, |outcomes|));
  }

  lemma AccountReserves(accounts: map<User, Account>, u: User, d: Domain)
    ensures AccountOf(accounts, u).GetReserved(d) >= 0
  {
  }

  lemma MintedReserves(c: Core, u: User, sid: SeriesId, outcomes: seq<OutcomeId>, d: Domain, qty: nat)
    requires outcomes != []
    ensures var c1 := Minted(c, u, sid, outcomes, d, qty);
      && u in c1.accounts && c1.accounts[u].GetReserved(d) == AccountOf(c.accounts, u).GetReserved(d) + qty * UNIT
      && c1.accounts[u].cash == AccountOf(c.accounts, u).cash
  {
  }

  lemma Back(s: State, minted: State, u: User, sid: SeriesId, series: Series, qty: int, share: nat)
    requires series.payoffType.Categorical? && series.outcomes.Some? && qty > 0
    requires NeverHeld(s.core.positions, u, sid, series.outcomes.value)
    requires HoldsEach(minted.core.positions, u, sid, series.outcomes.value, Position(qty, share))
    requires SameElsewhere(s.core.positions, minted.core.positions, u, sid, series.outcomes.value)
    requires var r := Redeemed(minted.core, u, series.domain, sid, series.outcomes.value, qty);
      && r.Some? && SameElsewhere(minted.core.positions, r.value.positions, u, sid, series.outcomes.value)
      && exists p: Position :: p.netQty == 0 && HoldsEach(r.value.positions, u, sid, series.outcomes.value, p)
    ensures var back := RedeemCompleteSet(minted, u, sid, series, qty);
      && back.result == Ok(true)
      && back.state.core == Redeemed(minted.core, u, series.domain, sid, series.outcomes.value, qty).value
      && SameElsewhere(s.core.positions, back.state.core.positions, u, sid, series.outcomes.value)
      && (forall k: PosKey :: PositionOf(back.state.core.positions, k).netQty == PositionOf(s.core.positions, k).netQty)
  {
    var outcomes := series.outcomes.value;
    assert CanRedeem(minted.core.positions, u, sid, outcomes, qty);
    var c := Redeemed(minted.core, u, series.domain, sid, outcomes, qty).value;
    hide Redeemed;
    forall k: PosKey ensures PositionOf(c.positions, k).netQty == PositionOf(s.core.positions, k).netQty {
      if k.user == u && k.series == sid && k.outcome.Some? && k.outcome.value in outcomes {
        assert k == SetKey(u, sid, k.outcome.value);
      }
    }
  }
}
