// The token ledgers as a whole: every principal's custody subaccount on every asset, and what transfers
// between them have burned.
module Ledgers {
  import opened Base
  import opened Totals
  import CS = CustodySweep

  datatype Spot = Spot(asset: AssetId, owner: User)

  datatype Books = Books(balances: map<Spot, nat>, burned: map<AssetId, nat>) {
    function Held(asset: AssetId, u: User): nat { if Spot(asset, u) in balances then balances[Spot(asset, u)] else 0 }

    function Burned(asset: AssetId): nat { if asset in burned then burned[asset] else 0 }

    // The two subaccounts a sweep works on.
    function Purse(asset: AssetId, from: User, to: User): CS.Purse { CS.Purse(Held(asset, from), Held(asset, to), 0) }

    function Stored(asset: AssetId, from: User, to: User, p: CS.Purse): Books {
      Books(balances[Spot(asset, from) := p.source][Spot(asset, to) := p.dest], burned[asset := Burned(asset) + p.burned])
    }

    ghost function Whole(asset: AssetId): int { Total(balances, OfAsset(asset)) + Burned(asset) }
  }

  ghost function OfAsset(asset: AssetId): (Spot, nat) -> int {
    (spot: Spot, balance: nat) => if spot.asset == asset then balance else 0
  }

  lemma SpotWeight(books: Books, asset: AssetId, u: User, other: AssetId)
    ensures At(books.balances, Spot(asset, u), OfAsset(other)) == if asset == other then books.Held(asset, u) else 0
  {
  }

  lemma StoredBalances(books: Books, asset: AssetId, from: User, to: User, p: CS.Purse, other: AssetId)
    requires from != to
    ensures Total(books.Stored(asset, from, to, p).balances, OfAsset(other)) == Total(books.balances, OfAsset(other))
         + if asset == other then p.source + p.dest - books.Held(asset, from) - books.Held(asset, to) else 0
  {
    hide Total, Books.Held, At;
    assert Spot(asset, from) != Spot(asset, to);
    TotalPutTwo(books.balances, Spot(asset, from), p.source, Spot(asset, to), p.dest, OfAsset(other));
    SpotWeight(books, asset, from, other);
    SpotWeight(books, asset, to, other);
  }

  // What a pass leaves in its two subaccounts is all it changes, and no ledger gains or loses by it.
  lemma StoredKeepsWhole(books: Books, asset: AssetId, from: User, to: User, p: CS.Purse, other: AssetId)
    requires from != to && p.Whole() == books.Purse(asset, from, to).Whole()
    ensures books.Stored(asset, from, to, p).Whole(other) == books.Whole(other)
  {
    hide Total, Books.Held, OfAsset;
    StoredBalances(books, asset, from, to, p, other);
    assert books.Stored(asset, from, to, p).Burned(other) == books.Burned(other) + if asset == other then p.burned else 0;
  }

  lemma StoredElsewhere(books: Books, asset: AssetId, from: User, to: User, p: CS.Purse, other: AssetId, u: User)
    requires from != to
    ensures books.Stored(asset, from, to, p).Held(other, u)
         == if other == asset && u == from then p.source else if other == asset && u == to then p.dest else books.Held(other, u)
  {
  }
}
