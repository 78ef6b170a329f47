// The synchronous re-key of an account: src/clearing/src/account/reassignment.rs, validate_and_rekey.
module Rekey {
  import opened Base
  import opened Types
  import opened Totals
  import opened Clearing
  import opened Coverage
  import opened SettlementCoverage

  function Owned(k: PosKey, u: User): PosKey { k.(user := u) }

  function MoveKeys(positions: map<PosKey, Position>, keys: seq<PosKey>, to: User): map<PosKey, Position>
    requires forall i :: 0 <= i < |keys| ==> keys[i] in positions
    requires Different(keys)
    requires forall i :: 0 <= i < |keys| ==> keys[i].user != to
    decreases |keys|
  {
    if keys == [] then positions
    else
      var k := keys[0];
      MoveKeys((positions - {k})[Owned(k, to) := positions[k]], keys[1..], to)
  }

  function KeysOfUser(positions: map<PosKey, Position>, u: User): set<PosKey> {
    set k | k in positions && k.user == u
  }

  predicate Empty(a: Account) { a.balances == map[] && a.cash == map[] && a.reserved == map[] }

  predicate HasOrders(c: Core, u: User) { exists id :: id in c.orders && c.orders[id].creator == u }

  predicate Awaits(plan: SettlementPlan, u: User) {
    !plan.status.Finalised? && exists i :: 0 <= i < |plan.positions| && plan.positions[i].user == u
  }

  predicate InFlight(c: Core, u: User) { exists sid :: sid in c.plans && Awaits(c.plans[sid], u) }

  predicate HasClearingState(c: Core, u: User) {
    || (u in c.accounts && !Empty(c.accounts[u]))
    || KeysOfUser(c.positions, u) != {}
    || HasOrders(c, u)
  }

  // The guard rails of the re-key that this state can see.
  predicate CanRekey(c: Core, from: User, to: User) {
    && from != to && from in c.accounts
    && !HasOrders(c, from) && !InFlight(c, from) && !InFlight(c, to) && !HasClearingState(c, to)
  }

  ghost function Rekeyed(c: Core, from: User, to: User, keys: seq<PosKey>): Core
    requires CanRekey(c, from, to)
    requires Lists(keys, KeysOfUser(c.positions, from))
  {
    c.(accounts := (c.accounts - {from})[to := c.accounts[from]], positions := MoveKeys(c.positions, keys, to))
  }

  ghost predicate Movable(positions: map<PosKey, Position>, keys: seq<PosKey>, to: User) {
    && AllIn(keys, positions) && Different(keys)
    && (forall i :: 0 <= i < |keys| ==> keys[i].user != to && Owned(keys[i], to) !in positions)
    && (forall i, j :: 0 <= i < j < |keys| ==> Owned(keys[i], to) != Owned(keys[j], to))
  }

  function MoveOne(positions: map<PosKey, Position>, k: PosKey, to: User): map<PosKey, Position>
    requires k in positions
  {
    (positions - {k})[Owned(k, to) := positions[k]]
  }

  lemma MovableRest(positions: map<PosKey, Position>, keys: seq<PosKey>, to: User)
    requires Movable(positions, keys, to) && keys != []
    ensures Movable(MoveOne(positions, keys[0], to), keys[1..], to)
    ensures MoveKeys(positions, keys, to) == MoveKeys(MoveOne(positions, keys[0], to), keys[1..], to)
  {
    var next, rest := MoveOne(positions, keys[0], to), keys[1..];
    forall i | 0 <= i < |rest| ensures rest[i] in next && Owned(rest[i], to) !in next {
      assert rest[i] == keys[i + 1];
    }
  }

  // Moving the keys moves each weight to its new owner and changes no other.
  lemma {:induction false} MoveKeysTotal(positions: map<PosKey, Position>, keys: seq<PosKey>, to: User,
                                         w: (PosKey, Position) -> int)
    requires Movable(positions, keys, to)
    ensures Total(MoveKeys(positions, keys, to), w)
         == Total(positions, w) - SumAt(keys, positions, w) + SumMoved(keys, positions, to, w)
    decreases |keys|
  {
    if keys == [] {
    } else {
      var k := keys[0];
      var next := MoveOne(positions, k, to);
      TotalRemove(positions, k, w);
      TotalPut(positions - {k}, Owned(k, to), positions[k], w);
      MovableRest(positions, keys, to);
      MoveKeysTotal(next, keys[1..], to, w);
      SumAtFront(keys, positions, w);
      SumAtAgrees(keys[1..], positions, next, w);
      SumMovedAgrees(keys[1..], positions, next, to, w);
    }
  }

  ghost function SumMoved(keys: seq<PosKey>, positions: map<PosKey, Position>, to: User, w: (PosKey, Position) -> int): int
    requires AllIn(keys, positions)
  {
    if keys == [] then 0 else w(Owned(keys[0], to), positions[keys[0]]) + SumMoved(keys[1..], positions, to, w)
  }

  lemma {:induction false} SumAtFront(keys: seq<PosKey>, m: map<PosKey, Position>, w: (PosKey, Position) -> int)
    requires keys != []
    ensures SumAt(keys, m, w) == At(m, keys[0], w) + SumAt(keys[1..], m, w)
    decreases |keys|
  {
    if |keys| > 1 {
      var n := |keys| - 1;
      SumAtFront(keys[..n], m, w);
      assert keys[..n][1..] == keys[1..][..n - 1];
      assert keys[1..][n - 1] == keys[n];
    } else {
      assert keys[1..] == [] && keys[..0] == [];
    }
  }

  lemma {:induction false} SumAtAgrees(keys: seq<PosKey>, m: map<PosKey, Position>, m': map<PosKey, Position>,
                                       w: (PosKey, Position) -> int)
    requires forall i :: 0 <= i < |keys| ==> keys[i] in m && keys[i] in m' && m[keys[i]] == m'[keys[i]]
    ensures SumAt(keys, m, w) == SumAt(keys, m', w)
    decreases |keys|
  {
    if keys == [] {
    } else {
      SumAtAgrees(keys[..|keys| - 1], m, m', w);
    }
  }

  lemma {:induction false} SumMovedAgrees(keys: seq<PosKey>, m: map<PosKey, Position>, m': map<PosKey, Position>, to: User,
                                          w: (PosKey, Position) -> int)
    requires forall i :: 0 <= i < |keys| ==> keys[i] in m && keys[i] in m' && m[keys[i]] == m'[keys[i]]
    ensures SumMoved(keys, m, to, w) == SumMoved(keys, m', to, w)
    decreases |keys|
  {
    if keys == [] {
    } else {
      SumMovedAgrees(keys[1..], m, m', to, w);
    }
  }

  lemma {:induction false} MovedWeights(keys: seq<PosKey>, m: map<PosKey, Position>, to: User,
                                        w: (PosKey, Position) -> int, w': (PosKey, Position) -> int)
    requires AllIn(keys, m)
    requires forall i :: 0 <= i < |keys| ==> w(Owned(keys[i], to), m[keys[i]]) == w'(keys[i], m[keys[i]])
    ensures SumMoved(keys, m, to, w) == SumAt(keys, m, w')
    decreases |keys|
  {
    if keys == [] {
    } else {
      MovedWeights(keys[1..], m, to, w, w');
      SumAtFront(keys, m, w');
    }
  }

  lemma RekeyListing(c: Core, from: User, to: User, keys: seq<PosKey>)
    requires CanRekey(c, from, to)
    requires Lists(keys, KeysOfUser(c.positions, from))
    ensures Movable(c.positions, keys, to)
    ensures forall i :: 0 <= i < |keys| ==> keys[i].user == from
  {
    forall i | 0 <= i < |keys| ensures Owned(keys[i], to) !in c.positions {
      assert Owned(keys[i], to) !in KeysOfUser(c.positions, to);
    }
    forall i, j | 0 <= i < j < |keys| ensures Owned(keys[i], to) != Owned(keys[j], to) {
      assert keys[i].user == keys[j].user;
    }
  }

  // Totals that do not depend on who owns a position survive the re-key.
  lemma RekeyKeepsTotals(c: Core, from: User, to: User, keys: seq<PosKey>, w: (PosKey, Position) -> int)
    requires CanRekey(c, from, to)
    requires Lists(keys, KeysOfUser(c.positions, from))
    requires forall k, p :: w(Owned(k, to), p) == w(k, p)
    ensures Total(Rekeyed(c, from, to, keys).positions, w) == Total(c.positions, w)
  {
    RekeyListing(c, from, to, keys);
    MoveKeysTotal(c.positions, keys, to, w);
    MovedWeights(keys, c.positions, to, w, w);
  }

  // A key that is neither listed nor the new name of one listed keeps its entry.
  lemma {:induction false} UnmovedEntries(positions: map<PosKey, Position>, keys: seq<PosKey>, to: User, q: PosKey)
    requires Movable(positions, keys, to)
    requires q !in keys && forall i :: 0 <= i < |keys| ==> q != Owned(keys[i], to)
    ensures q in MoveKeys(positions, keys, to) <==> q in positions
    ensures q in positions ==> MoveKeys(positions, keys, to)[q] == positions[q]
    decreases |keys|
  {
    if keys == [] {
    } else {
      MovableRest(positions, keys, to);
      assert q != keys[0] && q != Owned(keys[0], to);
      UnmovedEntries(MoveOne(positions, keys[0], to), keys[1..], to, q);
    }
  }

  // A listed key loses its entry to its new name.
  lemma {:induction false} MovedEntries(positions: map<PosKey, Position>, keys: seq<PosKey>, to: User, i: nat)
    requires Movable(positions, keys, to) && i < |keys|
    ensures keys[i] !in MoveKeys(positions, keys, to)
    ensures Owned(keys[i], to) in MoveKeys(positions, keys, to)
    ensures MoveKeys(positions, keys, to)[Owned(keys[i], to)] == positions[keys[i]]
    decreases |keys|
  {
    MovableRest(positions, keys, to);
    var next, rest := MoveOne(positions, keys[0], to), keys[1..];
    if i > 0 {
      MovedEntries(next, rest, to, i - 1);
    } else {
      UnmovedEntries(next, rest, to, keys[0]);
      UnmovedEntries(next, rest, to, Owned(keys[0], to));
    }
  }

  // After the re-key the new owner holds exactly what the old one held, the old one holds nothing,
  // and nobody else's account or position moved.
  lemma RekeyMovesEverything(c: Core, from: User, to: User, keys: seq<PosKey>)
    requires CanRekey(c, from, to)
    requires Lists(keys, KeysOfUser(c.positions, from))
    ensures var c' := Rekeyed(c, from, to, keys);
      && from !in c'.accounts && to in c'.accounts && c'.accounts[to] == c.accounts[from]
      && (forall u :: u != from && u != to ==> (u in c'.accounts <==> u in c.accounts) && AccountOf(c'.accounts, u) == AccountOf(c.accounts, u))
      && (forall k: PosKey :: k.user == from ==> k !in c'.positions)
      && (forall k: PosKey :: k.user == to ==>
            (k in c'.positions <==> Owned(k, from) in c.positions)
            && PositionOf(c'.positions, k) == PositionOf(c.positions, Owned(k, from)))
      && (forall k: PosKey :: k.user != from && k.user != to ==>
            (k in c'.positions <==> k in c.positions) && PositionOf(c'.positions, k) == PositionOf(c.positions, k))
  {
    RekeyListing(c, from, to, keys);
    var moved := MoveKeys(c.positions, keys, to);
    forall k: PosKey | k.user == from ensures k !in moved {
      if k in c.positions {
        assert k in KeysOfUser(c.positions, from);
        var i :| 0 <= i < |keys| && keys[i] == k;
        MovedEntries(c.positions, keys, to, i);
      } else {
        UnmovedEntries(c.positions, keys, to, k);
      }
    }
    forall k: PosKey | k.user == to
      ensures (k in moved <==> Owned(k, from) in c.positions) && PositionOf(moved, k) == PositionOf(c.positions, Owned(k, from))
    {
      RekeyedFor(c, from, to, keys, k);
    }
    forall k: PosKey | k.user != from && k.user != to
      ensures (k in moved <==> k in c.positions) && PositionOf(moved, k) == PositionOf(c.positions, k)
    {
      UnmovedEntries(c.positions, keys, to, k);
    }
  }

  lemma RekeyedFor(c: Core, from: User, to: User, keys: seq<PosKey>, k: PosKey)
    requires CanRekey(c, from, to) && Lists(keys, KeysOfUser(c.positions, from))
    requires k.user == to
    ensures var moved := MoveKeys(c.positions, keys, to);
      (k in moved <==> Owned(k, from) in c.positions) && PositionOf(moved, k) == PositionOf(c.positions, Owned(k, from))
  {
    RekeyListing(c, from, to, keys);
    assert k !in KeysOfUser(c.positions, to);
    var was := Owned(k, from);
    assert Owned(was, to) == k;
    if was in c.positions {
      assert was in KeysOfUser(c.positions, from);
      var i :| 0 <= i < |keys| && keys[i] == was;
      MovedEntries(c.positions, keys, to, i);
    } else {
      UnmovedEntries(c.positions, keys, to, k);
    }
  }

  // No plan of a user without settlements in flight still has margin of his to release.
  ghost predicate FinalisedMeansDone(plans: map<SeriesId, SettlementPlan>) {
    forall sid :: sid in plans && plans[sid].status.Finalised? ==> Pending(plans[sid]) == []
  }

  lemma {:induction false} NoEntriesNoMargin(entries: seq<SettlementPosition>, u: User)
    requires forall i :: 0 <= i < |entries| ==> entries[i].user != u
    ensures SeqSum(entries, EntryMargin(u)) == 0
  {
    if entries == [] {
    } else {
      NoEntriesNoMargin(entries[1..], u);
    }
  }

  lemma NothingInFlight(c: Core, u: User, d: Domain)
    requires FinalisedMeansDone(c.plans) && !InFlight(c, u)
    ensures Total(c.plans, PlanMargin(u, d)) == 0
  {
    var zero := (sid: SeriesId, plan: SettlementPlan) => 0;
    forall sid | sid in c.plans ensures PlanMargin(u, d)(sid, c.plans[sid]) == zero(sid, c.plans[sid]) {
      var plan := c.plans[sid];
      if !plan.status.Finalised? {
        assert !Awaits(plan, u);
      }
      NoEntriesNoMargin(Pending(plan), u);
    }
    TotalAgree(c.plans, PlanMargin(u, d), zero);
    TotalOfZero(c.plans, zero);
  }

  lemma NoOrdersNoMargin(c: Core, u: User, d: Domain)
    requires !HasOrders(c, u)
    ensures Total(c.orders, OrderMargin(u, d)) == 0
  {
    TotalOfZero(c.orders, OrderMargin(u, d));
  }

  lemma RekeyMargin(reg: Registry, c: Core, from: User, to: User, keys: seq<PosKey>, u: User, d: Domain)
    requires CanRekey(c, from, to)
    requires Lists(keys, KeysOfUser(c.positions, from))
    ensures Total(MoveKeys(c.positions, keys, to), PositionMargin(reg, u, d))
         == if u == to then Total(c.positions, PositionMargin(reg, from, d))
            else if u == from then 0 else Total(c.positions, PositionMargin(reg, u, d))
  {
    RekeyListing(c, from, to, keys);
    var w := PositionMargin(reg, u, d);
    MoveKeysTotal(c.positions, keys, to, w);
    AllOfItListed(reg, c.positions, keys, from, d);
    if u == to {
      NoPositionsNoMargin(reg, c.positions, to, d);
      MovedWeights(keys, c.positions, to, w, PositionMargin(reg, from, d));
      NotListed(reg, c.positions, keys, from, to, d);
    } else {
      NotMoved(reg, c.positions, keys, u, to, d);
      if u != from { NotListed(reg, c.positions, keys, from, u, d); }
    }
  }

  lemma RekeyReserves(c: Core, from: User, to: User, keys: seq<PosKey>, u: User, d: Domain)
    requires CanRekey(c, from, to) && Lists(keys, KeysOfUser(c.positions, from))
    ensures AccountOf(Rekeyed(c, from, to, keys).accounts, u).GetReserved(d)
         == if u == to then AccountOf(c.accounts, from).GetReserved(d)
            else if u == from then 0 else AccountOf(c.accounts, u).GetReserved(d)
  {
    AccountsMove(c.accounts, from, to, u);
  }

  // Neither account has an order or an entry still to be applied.
  lemma RekeyOwesNothingElse(c: Core, from: User, to: User, d: Domain)
    requires CanRekey(c, from, to) && FinalisedMeansDone(c.plans)
    ensures Total(c.plans, PlanMargin(from, d)) == 0 && Total(c.plans, PlanMargin(to, d)) == 0
    ensures Total(c.orders, OrderMargin(from, d)) == 0 && Total(c.orders, OrderMargin(to, d)) == 0
  {
    NothingInFlight(c, from, d);
    NothingInFlight(c, to, d);
    NoOrdersNoMargin(c, from, d);
    NoOrdersNoMargin(c, to, d);
  }

  // The re-key carries the old owner's slack to the new one and leaves everybody else's alone.
  lemma RekeySlack(reg: Registry, c: Core, from: User, to: User, keys: seq<PosKey>, u: User, d: Domain)
    requires CanRekey(c, from, to) && FinalisedMeansDone(c.plans)
    requires Lists(keys, KeysOfUser(c.positions, from))
    ensures Slack(reg, Rekeyed(c, from, to, keys), u, d)
         == if u == to then Slack(reg, c, from, d) else if u == from then 0 else Slack(reg, c, u, d)
  {
    RekeyReserves(c, from, to, keys, u, d);
    RekeyOwesNothingElse(c, from, to, d);
    RekeyMargin(reg, c, from, to, keys, u, d);
    hide CanRekey, FinalisedMeansDone, MoveKeys;
  }

  lemma AccountsMove(accounts: map<User, Account>, from: User, to: User, u: User)
    requires from in accounts && from != to
    ensures AccountOf((accounts - {from})[to := accounts[from]], u)
         == if u == to then accounts[from] else if u == from then NEW_ACCOUNT else AccountOf(accounts, u)
  {
  }

  lemma NoPositionsNoMargin(reg: Registry, positions: map<PosKey, Position>, u: User, d: Domain)
    requires KeysOfUser(positions, u) == {}
    ensures Total(positions, PositionMargin(reg, u, d)) == 0
  {
    forall k | k in positions ensures PositionMargin(reg, u, d)(k, positions[k]) == 0 {
      assert k !in KeysOfUser(positions, u);
    }
    TotalOfZero(positions, PositionMargin(reg, u, d));
  }

  lemma AllOfItListed(reg: Registry, positions: map<PosKey, Position>, keys: seq<PosKey>, u: User, d: Domain)
    requires Lists(keys, KeysOfUser(positions, u))
    ensures SumAt(keys, positions, PositionMargin(reg, u, d)) == Total(positions, PositionMargin(reg, u, d))
  {
    forall k | k in positions && k !in keys ensures PositionMargin(reg, u, d)(k, positions[k]) == 0 {
      assert k in KeysOfUser(positions, u) ==> k in keys;
    }
    SumAtAll(keys, positions, PositionMargin(reg, u, d));
  }

  lemma {:induction false} NotListed(reg: Registry, positions: map<PosKey, Position>, keys: seq<PosKey>, from: User, u: User, d: Domain)
    requires forall i :: 0 <= i < |keys| ==> keys[i].user == from
    requires u != from
    ensures SumAt(keys, positions, PositionMargin(reg, u, d)) == 0
    decreases |keys|
  {
    if keys == [] {
    } else {
      NotListed(reg, positions, keys[..|keys| - 1], from, u, d);
    }
  }

  lemma {:induction false} NotMoved(reg: Registry, positions: map<PosKey, Position>, keys: seq<PosKey>, u: User, to: User, d: Domain)
    requires AllIn(keys, positions) && u != to
    ensures SumMoved(keys, positions, to, PositionMargin(reg, u, d)) == 0
    decreases |keys|
  {
    if keys == [] {
    } else {
      NotMoved(reg, positions, keys[1..], u, to, d);
    }
  }
}
