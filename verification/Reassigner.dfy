// The code that locks, re-keys and rebuilds: src/clearing/src/account/reassignment.rs and
// rebuild_reassignment_marks of src/clearing/src/memory.rs.
module Reassigner {
  import opened Base
  import opened Types
  import opened Clearing
  import opened SettlementCoverage
  import opened Rekey
  import opened Reassignment

  class Owners {
    var marks: Marks
    var plans: Plans
    var accounts: map<User, Account>
    var positions: map<PosKey, Position>

    constructor (marks: Marks, plans: Plans, accounts: map<User, Account>, positions: map<PosKey, Position>)
      ensures this.marks == marks && this.plans == plans && this.accounts == accounts && this.positions == positions
    {
      this.marks, this.plans, this.accounts, this.positions := marks, plans, accounts, positions;
    }

    method LockForReassignment(from: User, to: User)
      modifies this`marks
      ensures marks == LockedBoth(old(marks), from, to)
    {
      var pair := [from, to];
      for i := 0 to |pair|
        invariant i == 0 ==> marks == old(marks)
        invariant i == 1 ==> marks == Bumped(old(marks), from)
        invariant i == 2 ==> marks == LockedBoth(old(marks), from, to)
      {
        var mark := MarkOf(marks, pair[i]);
        marks := marks[pair[i] := Mark(mark.generation + 1, true)];
      }
    }

    method UnlockAfterReassignment(from: User, to: User)
      modifies this`marks
      ensures marks == UnlockedBoth(old(marks), from, to)
    {
      marks := marks[from := MarkOf(marks, from).(locked := false)];
      marks := marks[to := MarkOf(marks, to).(locked := false)];
    }

    method MoveAccount(from: User, to: User)
      modifies this`accounts
      ensures accounts == if from in old(accounts) then (old(accounts) - {from})[to := old(accounts)[from]] else old(accounts)
    {
      if from in accounts {
        var state := accounts[from];
        accounts := accounts - {from};
        accounts := accounts[to := state];
      }
    }

    // Takes each listed position out and puts it back under the new owner.
    method MovePositions(keys: seq<PosKey>, to: User)
      requires Movable(positions, keys, to)
      modifies this`positions
      ensures positions == MoveKeys(old(positions), keys, to)
    {
      assert keys[0..] == keys;
      for i := 0 to |keys|
        invariant Movable(positions, keys[i..], to)
        invariant MoveKeys(positions, keys[i..], to) == MoveKeys(old(positions), keys, to)
      {
        var key := keys[i];
        assert keys[i..][0] == key && keys[i..][1..] == keys[i + 1..];
        MovableRest(positions, keys[i..], to);
        var position := positions[key];
        positions := positions - {key};
        positions := positions[Owned(key, to) := position];
      }
    }

    // The mutations of validate_and_rekey once its checks have passed.
    method RekeyAccount(key: PlanKey, to: User, keys: seq<PosKey>, assets: seq<AssetId>, ghost c: Core)
      requires c.accounts == accounts && c.positions == positions
      requires CanRekey(c, key.owner, to) && Lists(keys, KeysOfUser(positions, key.owner))
      requires key !in plans
      modifies this
      ensures plans == old(plans)[key := Plan(to, Executing, Unswept(assets))]
      ensures marks == LockedBoth(old(marks), key.owner, to)
      ensures c.(accounts := accounts, positions := positions) == Rekeyed(c, key.owner, to, keys)
    {
      RekeyListing(c, key.owner, to, keys);
      hide CanRekey, Lists;
      plans := plans[key := Plan(to, Planned, Unswept(assets))];
      plans := plans[key := plans[key].(status := Executing)];
      LockForReassignment(key.owner, to);
      MoveAccount(key.owner, to);
      MovePositions(keys, to);
    }

    // The end of reassign_account, once every asset is done: finalise, persist, unlock.
    method FinishReassignment(key: PlanKey)
      requires key in plans && AllSwept(plans[key].sweeps)
      modifies this`plans, this`marks
      ensures plans == old(plans)[key := old(plans)[key].(status := Finalised)]
      ensures marks == UnlockedBoth(old(marks), key.owner, plans[key].to)
      ensures forall u :: MarkOf(marks, u).generation == MarkOf(old(marks), u).generation
      ensures old(PlansDisjoint(plans) && LocksAreClaims(marks, plans) && OwnersDiffer(plans) && !plans[key].status.Finalised?)
        ==> PlansDisjoint(plans) && LocksAreClaims(marks, plans)
    {
      ghost var marks0, plans0 := marks, plans;
      var plan := plans[key].(status := Finalised);
      plans := plans[key := plan];
      UnlockAfterReassignment(key.owner, plan.to);
      if PlansDisjoint(plans0) && LocksAreClaims(marks0, plans0) && OwnersDiffer(plans0) && !plans0[key].status.Finalised? {
        FinishKeepsLocks(marks0, plans0, key);
      }
    }

    // rebuild_reassignment_marks over the plans that an upgrade restored.
    method RebuildReassignmentMarks()
      modifies this`marks
      ensures marks == RebuiltMarks(plans)
    {
      hide Visited, Claimed;
      marks := map[];
      NoneVisited(plans);
      assert marks.Keys == {};
      var left := plans.Keys;
      while left != {}
        invariant left <= plans.Keys
        invariant forall u :: u in marks ==> marks[u] == Mark(0, true)
        invariant Visited(plans, left, marks.Keys)
        decreases |left|
      {
        var key :| key in left;
        ghost var was, before := left, marks;
        left := left - {key};
        if !plans[key].status.Finalised? {
          marks := marks[key.owner := MarkOf(marks, key.owner).(locked := true)];
          marks := marks[plans[key].to := MarkOf(marks, plans[key].to).(locked := true)];
        }
        VisitedOne(plans, was, key, before.Keys, marks.Keys);
      }
      AllVisited(plans, marks.Keys);
      assert marks == RebuiltMarks(plans);
    }

    // custody_assets: the assets to sweep, or one that cannot be moved.
    method CustodyAssets(a: Account, configs: map<AssetId, AssetConfig>) returns (r: Result<seq<AssetId>, AssetId>)
      ensures r.Ok? ==> CustodyOf(a, configs, r.value) && forall id :: !Stranded(a, configs, id)
      ensures r.Err? ==> Stranded(a, configs, r.error)
      ensures r.Ok? ==> forall id :: id in r.value ==> id in configs && configs[id].icrc
      ensures r.Ok? ==> forall d, id :: a.GetBalance(d, id) > 0 ==> id in r.value
      ensures r.Err? ==> !(r.error in configs && configs[r.error].icrc) && exists d :: a.GetBalance(d, r.error) > 0
    {
      var ids: seq<AssetId> := [];
      var domains := a.balances.Keys;
      while domains != {}
        invariant domains <= a.balances.Keys
        invariant forall i, j :: 0 <= i < j < |ids| ==> ids[i] != ids[j]
        invariant forall id :: id in ids <==> Ledgered(configs, id) && exists d :: d in a.balances && d !in domains && id in a.balances[d]
        invariant forall d, id :: d in a.balances && d !in domains && id in a.balances[d] && !Ledgered(configs, id) ==> a.balances[d][id] == 0
        decreases |domains|
      {
        var d :| d in domains;
        ghost var held := ids;
        var bad;
        ids, bad := DomainAssets(a.balances[d], configs, ids);
        if bad.Some? {
          assert a.GetBalance(d, bad.value) > 0;
          return Err(bad.value);
        }
        ghost var was := domains;
        domains := domains - {d};
        OneDomainMore(a, configs, was, d, held, ids);
      }
      r := Ok(ids);
    }

    // One domain's balances: the list with its movable assets added, or an asset it strands.
    method DomainAssets(balances: map<AssetId, nat>, configs: map<AssetId, AssetConfig>, ids: seq<AssetId>)
      returns (ids': seq<AssetId>, bad: Option<AssetId>)
      requires forall i, j :: 0 <= i < j < |ids| ==> ids[i] != ids[j]
      ensures bad.None? ==> (forall i, j :: 0 <= i < j < |ids'| ==> ids'[i] != ids'[j])
      ensures bad.None? ==> (forall id :: id in ids' <==> id in ids || (Ledgered(configs, id) && id in balances))
      ensures bad.None? ==> (forall id :: id in balances && !Ledgered(configs, id) ==> balances[id] == 0)
      ensures bad.Some? ==> bad.value in balances && !Ledgered(configs, bad.value) && balances[bad.value] > 0
    {
      ids', bad := ids, None;
      var left := balances.Keys;
      while left != {}
        invariant left <= balances.Keys
        invariant forall i, j :: 0 <= i < j < |ids'| ==> ids'[i] != ids'[j]
        invariant forall id :: id in ids' <==> id in ids || (Ledgered(configs, id) && id in balances && id !in left)
        invariant forall id :: id in balances && id !in left && !Ledgered(configs, id) ==> balances[id] == 0
        decreases |left|
      {
        var id :| id in left;
        left := left - {id};
        if !Ledgered(configs, id) {
          if balances[id] > 0 { return ids', Some(id); }
        } else if id !in ids' {
          ids' := ids' + [id];
        }
      }
    }
  }

  lemma OneDomainMore(a: Account, configs: map<AssetId, AssetConfig>, domains: set<Domain>, d: Domain, held: seq<AssetId>, ids: seq<AssetId>)
    requires d in domains && domains <= a.balances.Keys
    requires forall id :: id in held <==> Ledgered(configs, id) && exists x :: x in a.balances && x !in domains && id in a.balances[x]
    requires forall id :: id in ids <==> id in held || (Ledgered(configs, id) && id in a.balances[d])
    ensures forall id :: id in ids <==> Ledgered(configs, id) && exists x :: x in a.balances && x !in domains - {d} && id in a.balances[x]
  {
    forall id ensures id in ids <==> Ledgered(configs, id) && exists x :: x in a.balances && x !in domains - {d} && id in a.balances[x] {
      if Ledgered(configs, id) && id in a.balances[d] { assert d !in domains - {d}; }
      if id in held {
        var x :| x in a.balances && x !in domains && id in a.balances[x];
        assert x !in domains - {d};
      }
    }
  }

  // These users are the ones that plans other than those left claim.
  ghost predicate Visited(plans: Plans, left: set<PlanKey>, users: set<User>) {
    forall u :: u in users <==> exists key :: key !in left && Claims(plans, key, u)
  }

  lemma NoneVisited(plans: Plans)
    ensures Visited(plans, plans.Keys, {})
  {
  }

  lemma AllVisited(plans: Plans, users: set<User>)
    requires Visited(plans, {}, users)
    ensures users == Claimed(plans)
  {
    hide Claims, Claimed;
    forall u ensures u in users <==> u in Claimed(plans) {
      ClaimedIsClaims(plans, u);
      if key :| Claims(plans, key, u) { assert key !in {}; }
    }
  }

  lemma VisitedOne(plans: Plans, left: set<PlanKey>, key: PlanKey, before: set<User>, after: set<User>)
    requires key in left && left <= plans.Keys
    requires Visited(plans, left, before)
    requires after == before + if plans[key].status.Finalised? then {} else {key.owner, plans[key].to}
    ensures Visited(plans, left - {key}, after)
  {
    forall u ensures u in after <==> exists k :: k !in left - {key} && Claims(plans, k, u) {
      if u in before {
        var k :| k !in left && Claims(plans, k, u);
        assert k !in left - {key};
      }
      if Claims(plans, key, u) { assert key !in left - {key}; }
    }
  }

  lemma ClaimedIsClaims(plans: Plans, u: User)
    ensures u in Claimed(plans) <==> exists key :: Claims(plans, key, u)
  {
    if u in Claimed(plans) {
      var key :| key in plans && !plans[key].status.Finalised? && (u == key.owner || u == plans[key].to);
      assert Claims(plans, key, u);
    }
  }
}
