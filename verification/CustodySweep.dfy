// Draining the old owner's custody on the ledgers: sweep_custody of src/clearing/src/account/reassignment.rs
// and the cached-fee transfer of src/clearing/src/assets/icrc/handler.rs, with any call failing or
// losing its reply at any await.
module CustodySweep {
  import opened Base
  import opened Totals

  // ---------------------------------------------------------------- one ledger, seen from this sweep

  // The two subaccounts of one asset, and the fees their transfers have burned.
  datatype Purse = Purse(source: nat, dest: nat, burned: nat) {
    function Whole(): nat { source + dest + burned }
  }

  // What icrc1_transfer answers, per section "icrc1_transfer" of the ICRC-1 standard.
  datatype LedgerReply = Executed(block: nat) | Duplicate(of: nat) | BadFee(expected: nat) | OtherError

  // A call that never reached the ledger, one whose reply was lost or unreadable, one that came back.
  datatype Net = Undelivered | ReplyLost | Delivered

  // How the world meets one transfer: the ledger's fee at that moment and the fate of the call.
  datatype Fate = Fate(fee: nat, block: nat, net: Net)

  // A transfer names its fee or lets the ledger apply its own; the sender pays amount and fee.
  function LedgerTransfer(p: Purse, amount: nat, fee: Option<nat>, w: Fate): (Purse, LedgerReply) {
    if fee.Some? && fee.value != w.fee then (p, BadFee(w.fee))
    else if p.source < amount + w.fee then (p, OtherError)
    else (Purse(p.source - amount - w.fee, p.dest + amount, p.burned + w.fee), Executed(w.block))
  }

  datatype Settled = Block(block: nat) | Drifted(expected: nat)

  datatype AssetError = CallError | TransferError | MathOverflow

  const U128_MAX: int := 0xFFFF_FFFF_FFFF_FFFF_FFFF_FFFF_FFFF_FFFF

  function ToU128(x: nat, r: Settled): Result<Settled, AssetError> { if x > U128_MAX then Err(MathOverflow) else Ok(r) }

  // settle_transfer
  function SettleTransfer(reply: LedgerReply): Result<Settled, AssetError> {
    match reply
    case Executed(block) => ToU128(block, Block(block))
    case Duplicate(of) => ToU128(of, Block(of))
    case BadFee(expected) => ToU128(expected, Drifted(expected))
    case OtherError => Err(TransferError)
  }

  // A block is read exactly from an executed or a duplicate transfer, a new fee exactly from a refused one,
  // and only where the number fits; nothing else about a transfer is learned from its reply.
  lemma RepliesAreRead(reply: LedgerReply, b: nat)
    ensures SettleTransfer(reply) == Ok(Block(b)) <==> b <= U128_MAX && (reply == Executed(b) || reply == Duplicate(b))
    ensures SettleTransfer(reply) == Ok(Drifted(b)) <==> b <= U128_MAX && reply == BadFee(b)
    ensures SettleTransfer(reply) == Err(TransferError) <==> reply == OtherError
  {
  }

  // One settled icrc1_transfer as the canister sees it.
  function Send(p: Purse, amount: nat, fee: Option<nat>, w: Fate): (Purse, Result<Settled, AssetError>) {
    match w.net
    case Undelivered => (p, Err(CallError))
    case ReplyLost => (LedgerTransfer(p, amount, fee, w).0, Err(CallError))
    case Delivered => (LedgerTransfer(p, amount, fee, w).0, SettleTransfer(LedgerTransfer(p, amount, fee, w).1))
  }

  // ---------------------------------------------------------------- the cached-fee protocol

  // The fee cache of one asset; without a metrics entry it stays empty.
  datatype FeeCache = NoEntry | Entry(fee: Option<nat>) {
    function Cached(): Option<nat> { if Entry? then fee else None }

    function Updated(x: nat): FeeCache { if Entry? then Entry(Some(x)) else NoEntry }
  }

  datatype Transferred = Transferred(purse: Purse, cache: FeeCache, result: Result<nat, AssetError>)

  // run_cached_fee_transfer: a second attempt only after a refused fee.
  function CachedFeeTransfer(p: Purse, cache: FeeCache, amount: nat, first: Fate, second: Fate): Transferred {
    var (p1, r1) := Send(p, amount, cache.Cached(), first);
    match r1
    case Err(e) => Transferred(p1, cache, Err(e))
    case Ok(Block(b)) => Transferred(p1, cache, Ok(b))
    case Ok(Drifted(expected)) =>
      var (p2, r2) := Send(p1, amount, Some(expected), second);
      match r2
      case Err(e) => Transferred(p2, cache.Updated(expected), Err(e))
      case Ok(Block(b)) => Transferred(p2, cache.Updated(expected), Ok(b))
      case Ok(Drifted(x)) => Transferred(p2, cache.Updated(expected).Updated(x), Err(TransferError))
  }

  lemma SendKeepsWhole(p: Purse, amount: nat, fee: Option<nat>, w: Fate)
    ensures var (q, r) := Send(p, amount, fee, w);
      && q.Whole() == p.Whole() && q.source <= p.source && q.dest >= p.dest
      && (q == p || (q.dest == p.dest + amount && q.source + amount <= p.source))
      && (r.Ok? && r.value.Block? ==> q.dest == p.dest + amount && q.source + amount <= p.source)
      && (r.Ok? && r.value.Drifted? ==> q == p)
  {
  }

  // Whatever happens on the way, at most one of the two attempts moves anything, nothing is created or
  // lost, and an answered block means the amount arrived exactly once.
  lemma TransferMovesOnce(p: Purse, cache: FeeCache, amount: nat, first: Fate, second: Fate)
    ensures var t := CachedFeeTransfer(p, cache, amount, first, second);
      && t.purse.Whole() == p.Whole()
      && (t.purse == p || (t.purse.dest == p.dest + amount && t.purse.source + amount <= p.source))
      && (t.result.Ok? ==> t.purse.dest == p.dest + amount && t.purse.source + amount <= p.source)
  {
    var (p1, r1) := Send(p, amount, cache.Cached(), first);
    SendKeepsWhole(p, amount, cache.Cached(), first);
    if r1.Ok? && r1.value.Drifted? { SendKeepsWhole(p1, amount, Some(r1.value.expected), second); }
  }

  // ---------------------------------------------------------------- one pass over one asset

  // The answers one pass meets: the balance and the fee query may fail, then the two transfers.
  datatype World = World(balanceRead: bool, feeRead: Option<nat>, first: Fate, second: Fate)

  datatype Pass = Pass(purse: Purse, cache: FeeCache, quoted: Option<nat>, moved: Option<nat>)

  // cached is what the cache held when the fee was looked up; by the time of the transfer another sweep
  // of the same asset may have refreshed it.
  function SweepWith(p: Purse, cached: Option<nat>, cache: FeeCache, w: World): Pass {
    var quoted := if cached.Some? then cached else w.feeRead;
    if !w.balanceRead then Pass(p, cache, None, None)
    else if quoted.None? then Pass(p, cache, None, None)
    else
      var amount := SatSub(p.source, quoted.value);
      if amount == 0 then Pass(p, cache, quoted, Some(0))
      else
        var t := CachedFeeTransfer(p, cache, amount, w.first, w.second);
        Pass(t.purse, t.cache, quoted, if t.result.Ok? then Some(amount) else None)
  }

  function SweepOne(p: Purse, cache: FeeCache, w: World): Pass { SweepWith(p, cache.Cached(), cache, w) }

  // A pass never moves more than the source held; one that completes leaves the source no more than
  // the fee it was quoted, and what it records is what arrived.
  lemma PassIsSound(p: Purse, cached: Option<nat>, cache: FeeCache, w: World)
    ensures var r := SweepWith(p, cached, cache, w);
      && r.purse.Whole() == p.Whole() && r.purse.source <= p.source && r.purse.dest >= p.dest
      && (r.moved.Some? ==> r.quoted.Some? && r.purse.source <= r.quoted.value && r.purse.dest == p.dest + r.moved.value)
  {
    var quoted := if cached.Some? then cached else w.feeRead;
    if quoted.Some? {
      TransferMovesOnce(p, cache, SatSub(p.source, quoted.value), w.first, w.second);
    }
  }

  // ---------------------------------------------------------------- a call and its replays

  datatype Asset = Asset(purse: Purse, cache: FeeCache, moved: Option<nat>, quoted: Option<nat>)

  type Custody = seq<Asset>

  // One asset of the list: skipped when done, otherwise one pass.
  function Swept(a: Asset, w: World): Asset {
    if a.moved.Some? then a
    else
      var r := SweepOne(a.purse, a.cache, w);
      Asset(r.purse, r.cache, r.moved, r.quoted)
  }

  // The loop of sweep_custody from index on, stopping at the first asset it cannot finish.
  function SweepFrom(custody: Custody, worlds: seq<World>, index: nat): (r: (Custody, bool))
    requires |worlds| == |custody| && index <= |custody|
    ensures |r.0| == |custody|
    decreases |custody| - index
  {
    if index == |custody| then (custody, true)
    else
      var next := custody[index := Swept(custody[index], worlds[index])];
      if next[index].moved.None? then (next, false) else SweepFrom(next, worlds, index + 1)
  }

  // What holds of each asset once sweeping has begun with this much in its purse.
  ghost predicate AssetSound(start: Purse, a: Asset) {
    && a.purse.Whole() == start.Whole() && a.purse.source <= start.source && a.purse.dest >= start.dest
    && (a.moved.Some? ==> a.quoted.Some? && a.purse.source <= a.quoted.value && start.dest + a.moved.value <= a.purse.dest)
  }

  ghost predicate CustodySound(start: seq<Purse>, custody: Custody) {
    |start| == |custody| && forall i :: 0 <= i < |custody| ==> AssetSound(start[i], custody[i])
  }

  lemma SweptSound(start: Purse, a: Asset, w: World)
    requires AssetSound(start, a)
    ensures AssetSound(start, Swept(a, w))
  {
    PassIsSound(a.purse, a.cache.Cached(), a.cache, w);
  }

  lemma {:induction false} SweepFromSound(start: seq<Purse>, custody: Custody, worlds: seq<World>, index: nat)
    requires CustodySound(start, custody) && |worlds| == |custody| && index <= |custody|
    requires forall i :: 0 <= i < index ==> custody[i].moved.Some?
    ensures var r := SweepFrom(custody, worlds, index);
      && CustodySound(start, r.0)
      && (r.1 <==> forall i :: 0 <= i < |r.0| ==> r.0[i].moved.Some?)
      && forall i :: 0 <= i < |custody| && custody[i].moved.Some? ==> r.0[i] == custody[i]
    decreases |custody| - index
  {
    if index == |custody| {
    } else {
      SweptSound(start[index], custody[index], worlds[index]);
      var next := custody[index := Swept(custody[index], worlds[index])];
      if next[index].moved.Some? { SweepFromSound(start, next, worlds, index + 1); }
    }
  }

  // Replaying one id: each call meets its own world; finished custody is not swept again.
  function Replay(custody: Custody, calls: seq<seq<World>>): (r: Custody)
    requires forall i :: 0 <= i < |calls| ==> |calls[i]| == |custody|
    ensures |r| == |custody|
    decreases |calls|
  {
    if calls == [] then custody else Replay(SweepFrom(custody, calls[0], 0).0, calls[1..])
  }

  predicate Finalised(custody: Custody) { forall i :: 0 <= i < |custody| ==> custody[i].moved.Some? }

  // Over any number of calls, each failing or losing replies anywhere, every ledger keeps its total, no
  // source is overdrawn, what is recorded has arrived, and once all assets are done each source holds
  // at most the fee quoted in its last pass. An asset that is done is never touched again.
  lemma {:induction false} ReplaysAreSound(start: seq<Purse>, custody: Custody, calls: seq<seq<World>>)
    requires CustodySound(start, custody)
    requires forall i :: 0 <= i < |calls| ==> |calls[i]| == |custody|
    ensures var end := Replay(custody, calls);
      && CustodySound(start, end)
      && (forall i :: 0 <= i < |custody| && custody[i].moved.Some? ==> end[i] == custody[i])
      && (Finalised(end) ==> forall i :: 0 <= i < |end| ==> end[i].quoted.Some? && end[i].purse.source <= end[i].quoted.value)
    decreases |calls|
  {
    if calls == [] {
    } else {
      SweepFromSound(start, custody, calls[0], 0);
      ReplaysAreSound(start, SweepFrom(custody, calls[0], 0).0, calls[1..]);
    }
  }

  // A call that meets no failure finishes: the fee it was quoted is either right or corrected once.
  predicate Smooth(a: Asset, w: World) {
    && w.balanceRead && (a.cache.Cached().Some? || w.feeRead.Some?)
    && w.first.net.Delivered? && w.second.net.Delivered? && w.first.fee == w.second.fee
    && w.first.fee <= U128_MAX && w.first.block <= U128_MAX && w.second.block <= U128_MAX
  }

  // One undisturbed pass with a fixed ledger fee finishes its asset exactly when the quoted fee covers
  // the ledger's, or nothing was worth moving; a refused fee it learned serves the next pass.
  lemma SmoothPass(a: Asset, w: World)
    requires a.moved.None? && Smooth(a, w)
    ensures var quoted := if a.cache.Cached().Some? then a.cache.Cached().value else w.feeRead.value;
      var next := Swept(a, w);
      && (next.moved.Some? <==> a.purse.source <= quoted || w.first.fee <= quoted)
      && (next.moved.None? ==> next.purse == a.purse)
      && (next.moved.None? && a.cache.Cached().Some? ==> next.cache.Cached() == Some(w.first.fee))
  {
  }

  // ---------------------------------------------------------------- the code

  class Sweeper {
    var purse: Purse
    var cache: FeeCache
    var custody: Custody

    constructor (custody: Custody)
      ensures this.custody == custody
    {
      this.custody := custody;
      purse, cache := Purse(0, 0, 0), NoEntry;
    }

    method SendOne(amount: nat, fee: Option<nat>, w: Fate) returns (r: Result<Settled, AssetError>)
      modifies this`purse
      ensures (purse, r) == Send(old(purse), amount, fee, w)
    {
      if w.net.Undelivered? { return Err(CallError); }
      var (after, reply) := LedgerTransfer(purse, amount, fee, w);
      purse := after;
      if w.net.ReplyLost? { return Err(CallError); }
      r := SettleTransfer(reply);
    }

    method RunCachedFeeTransfer(amount: nat, first: Fate, second: Fate) returns (r: Result<nat, AssetError>)
      modifies this`purse, this`cache
      ensures Transferred(purse, cache, r) == CachedFeeTransfer(old(purse), old(cache), amount, first, second)
    {
      var sent := SendOne(amount, cache.Cached(), first);
      if sent.Err? { return Err(sent.error); }
      if sent.value.Block? { return Ok(sent.value.block); }
      var expected := sent.value.expected;
      cache := cache.Updated(expected);
      sent := SendOne(amount, Some(expected), second);
      if sent.Err? { return Err(sent.error); }
      if sent.value.Block? { return Ok(sent.value.block); }
      cache := cache.Updated(sent.value.expected);
      r := Err(TransferError);
    }

    // One pass on the purse and cache at hand.
    method SweepAsset(w: World) returns (quoted: Option<nat>, moved: Option<nat>)
      modifies this`purse, this`cache
      ensures Pass(purse, cache, quoted, moved) == SweepOne(old(purse), old(cache), w)
    {
      quoted, moved := None, None;
      if !w.balanceRead { return; }
      var balance := purse.source;
      quoted := cache.Cached();
      if quoted.None? { quoted := w.feeRead; }
      if quoted.None? { return; }
      var amount := SatSub(balance, quoted.value);
      if amount == 0 { return quoted, Some(0); }
      var block := RunCachedFeeTransfer(amount, w.first, w.second);
      if block.Ok? { moved := Some(amount); }
    }

    method SweepCustody(worlds: seq<World>) returns (done: bool)
      requires |worlds| == |custody|
      modifies this
      ensures (custody, done) == SweepFrom(old(custody), worlds, 0)
    {
      for index := 0 to |custody|
        invariant |custody| == |worlds|
        invariant SweepFrom(custody, worlds, index) == SweepFrom(old(custody), worlds, 0)
      {
        if custody[index].moved.None? {
          var a := custody[index];
          purse, cache := a.purse, a.cache;
          var quoted, moved := SweepAsset(worlds[index]);
          custody := custody[index := Asset(purse, cache, moved, quoted)];
          if moved.None? { return false; }
        } else {
          assert custody[index := Swept(custody[index], worlds[index])] == custody;
        }
      }
      done := true;
    }
  }
}
