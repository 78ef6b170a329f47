// The custody of a reassigned account on the ledgers, over every interleaving of sweeps with everything
// else: the locks keep each plan's subaccounts to its own sweep.
module SweptCustody {
  import opened Base
  import opened Types
  import opened Coverage
  import opened Clearing
  import opened Rekey
  import opened Runs
  import opened Ledgers
  import opened Reassignment
  import opened Drained
  import CS = CustodySweep

  // ---------------------------------------------------------------- no ledger gains or loses

  lemma ActionKeepsWhole(reg: Registry, d: Desk, a: Action, asset: AssetId)
    requires LocksSound(d) && Possible(reg, d, a)
    ensures Next(reg, d, a).books.Whole(asset) == d.books.Whole(asset)
  {
    hide After, Enabled, RekeyRefusal, CS.SweepWith, Books.Stored, Books.Whole, PlansDisjoint, LocksAreClaims, RebuiltMarks;
    if a.Pass? {
      var plan := d.plans[a.key];
      var swept := plan.sweeps[a.index].asset;
      CS.PassIsSound(d.books.Purse(swept, a.key.owner, plan.to), a.cached, a.cache, a.world);
      StoredKeepsWhole(d.books, swept, a.key.owner, plan.to,
                       CS.SweepWith(d.books.Purse(swept, a.key.owner, plan.to), a.cached, a.cache, a.world).purse, asset);
    }
  }

  // Over every interleaving what all subaccounts of an asset hold and what transfers burned stay the
  // same in sum: sweeps, their failures, their lost replies and their replays only move it.
  lemma {:induction false} LedgersAreConserved(reg: Registry, d: Desk, acts: seq<Action>, asset: AssetId)
    requires LocksSound(d) && PossibleRun(reg, d, acts)
    ensures RunOf(reg, d, acts).books.Whole(asset) == d.books.Whole(asset)
    decreases |acts|
  {
    hide LocksSound, Possible, Next, Books.Whole;
    if acts == [] {
    } else {
      ActionKeepsWhole(reg, d, acts[0], asset);
      NextKeepsLocks(reg, d, acts[0]);
      LedgersAreConserved(reg, Next(reg, d, acts[0]), acts[1..], asset);
    }
  }

  // ---------------------------------------------------------------- a plan's subaccounts are its own

  // Only a pass over key itself touches the subaccounts of a principal its pending plan names.
  lemma OthersStayAway(reg: Registry, d: Desk, a: Action, key: PlanKey, asset: AssetId, u: User)
    requires LocksSound(d) && Possible(reg, d, a) && Claims(d.plans, key, u)
    requires !(a.Pass? && a.key == key)
    ensures Next(reg, d, a).books.Held(asset, u) == d.books.Held(asset, u)
  {
    hide After, Enabled, RekeyRefusal, CS.SweepWith, Books.Stored, Books.Held, Books.Purse, LocksAreClaims, RebuiltMarks;
    if a.Pass? {
      var plan := d.plans[a.key];
      var swept := plan.sweeps[a.index].asset;
      assert Claims(d.plans, a.key, a.key.owner) && Claims(d.plans, a.key, plan.to);
      assert u != a.key.owner && u != plan.to;
      StoredElsewhere(d.books, swept, a.key.owner, plan.to,
                      CS.SweepWith(d.books.Purse(swept, a.key.owner, plan.to), a.cached, a.cache, a.world).purse, asset, u);
    }
  }

  // Where one asset of a plan stands against the ledgers as they were when the plan was opened.
  ghost predicate SweepSound(start: Books, now: Books, owner: User, to: User, x: Sweep) {
    && now.Held(x.asset, owner) <= start.Held(x.asset, owner) && now.Held(x.asset, to) >= start.Held(x.asset, to)
    && (x.moved.Some? ==>
          (x.quoted.Some? && now.Held(x.asset, owner) <= x.quoted.value
          && now.Held(x.asset, to) >= start.Held(x.asset, to) + x.moved.value))
  }

  ghost predicate PlanSwept(start: Books, now: Books, key: PlanKey, plan: Plan) {
    forall i :: 0 <= i < |plan.sweeps| ==> SweepSound(start, now, key.owner, plan.to, plan.sweeps[i])
  }

  // A pass over one asset does no harm to any other, nor to what is recorded of the same one.
  lemma OneStays(start: Books, now: Books, owner: User, to: User, asset: AssetId, q: CS.Purse, x: Sweep)
    requires owner != to && SweepSound(start, now, owner, to, x)
    requires q.source <= now.Held(asset, owner) && q.dest >= now.Held(asset, to)
    ensures SweepSound(start, now.Stored(asset, owner, to, q), owner, to, x)
  {
    StoredElsewhere(now, asset, owner, to, q, x.asset, owner);
    StoredElsewhere(now, asset, owner, to, q, x.asset, to);
    hide Books.Stored, Books.Held;
  }

  lemma OneSwept(start: Books, now: Books, owner: User, to: User, x: Sweep, cached: Option<nat>, cache: CS.FeeCache, world: CS.World)
    requires owner != to && SweepSound(start, now, owner, to, x)
    ensures var r := CS.SweepWith(now.Purse(x.asset, owner, to), cached, cache, world);
      && SweepSound(start, now.Stored(x.asset, owner, to, r.purse), owner, to, Sweep(x.asset, r.moved, r.quoted))
      && r.purse.source <= now.Held(x.asset, owner) && r.purse.dest >= now.Held(x.asset, to)
  {
    CS.PassIsSound(now.Purse(x.asset, owner, to), cached, cache, world);
    var r := CS.SweepWith(now.Purse(x.asset, owner, to), cached, cache, world);
    StoredElsewhere(now, x.asset, owner, to, r.purse, x.asset, owner);
    StoredElsewhere(now, x.asset, owner, to, r.purse, x.asset, to);
    hide Books.Stored, Books.Held, CS.SweepWith;
  }

  lemma PassKeepsSwept(start: Books, d: Desk, key: PlanKey, index: nat, cached: Option<nat>, cache: CS.FeeCache, world: CS.World)
    requires key in d.plans && index < |d.plans[key].sweeps| && key.owner != d.plans[key].to
    requires PlanSwept(start, d.books, key, d.plans[key])
    ensures var d' := AfterPass(d, key, index, cached, cache, world);
      PlanSwept(start, d'.books, key, d'.plans[key])
  {
    hide SweepSound, CS.SweepWith, Books.Stored, Books.Held, Books.Purse;
    var plan, d' := d.plans[key], AfterPass(d, key, index, cached, cache, world);
    var swept := plan.sweeps[index];
    var r := CS.SweepWith(d.books.Purse(swept.asset, key.owner, plan.to), cached, cache, world);
    OneSwept(start, d.books, key.owner, plan.to, swept, cached, cache, world);
    forall i | 0 <= i < |plan.sweeps| ensures SweepSound(start, d'.books, key.owner, plan.to, d'.plans[key].sweeps[i]) {
      if i != index { OneStays(start, d.books, key.owner, plan.to, swept.asset, r.purse, plan.sweeps[i]); }
    }
  }

  lemma OtherActionsKeepSwept(reg: Registry, start: Books, d: Desk, a: Action, key: PlanKey)
    requires LocksSound(d) && Possible(reg, d, a) && !(a.Pass? && a.key == key)
    requires key in d.plans && !d.plans[key].status.Finalised? && PlanSwept(start, d.books, key, d.plans[key])
    ensures var d' := Next(reg, d, a);
      && key in d'.plans && d'.plans[key].to == d.plans[key].to && d'.plans[key].sweeps == d.plans[key].sweeps
      && PlanSwept(start, d'.books, key, d'.plans[key])
  {
    var plan, d' := d.plans[key], Next(reg, d, a);
    SweepsStay(reg, d, a, key);
    forall i | 0 <= i < |plan.sweeps| ensures SweepSound(start, d'.books, key.owner, plan.to, plan.sweeps[i]) {
      var x := plan.sweeps[i];
      assert SweepSound(start, d.books, key.owner, plan.to, x);
      OthersStayAway(reg, d, a, key, x.asset, key.owner);
      OthersStayAway(reg, d, a, key, x.asset, plan.to);
    }
    hide Next, Possible, LocksSound, Books.Held;
  }

  lemma SweepsStay(reg: Registry, d: Desk, a: Action, key: PlanKey)
    requires Possible(reg, d, a) && !(a.Pass? && a.key == key) && key in d.plans
    ensures var d' := Next(reg, d, a);
      key in d'.plans && d'.plans[key].to == d.plans[key].to && d'.plans[key].sweeps == d.plans[key].sweeps
  {
    hide After, Enabled, RekeyRefusal, CS.SweepWith, Books.Stored, RebuiltMarks;
  }

  lemma ActionKeepsSwept(reg: Registry, start: Books, d: Desk, a: Action, key: PlanKey)
    requires LocksSound(d) && Possible(reg, d, a)
    requires key in d.plans && !d.plans[key].status.Finalised? && PlanSwept(start, d.books, key, d.plans[key])
    ensures var d' := Next(reg, d, a);
      && key in d'.plans && d'.plans[key].to == d.plans[key].to && |d'.plans[key].sweeps| == |d.plans[key].sweeps|
      && (forall i :: 0 <= i < |d.plans[key].sweeps| ==> d'.plans[key].sweeps[i].asset == d.plans[key].sweeps[i].asset)
      && PlanSwept(start, d'.books, key, d'.plans[key])
  {
    hide PlanSwept, AfterPass, After, Enabled, RekeyRefusal, PlansDisjoint, LocksAreClaims;
    if a.Pass? && a.key == key {
      PassKeepsSwept(start, d, key, a.index, a.cached, a.cache, a.world);
      PassKeepsAsset(d, key, a.index, a.cached, a.cache, a.world);
    } else {
      OtherActionsKeepSwept(reg, start, d, a, key);
    }
  }

  lemma PassKeepsAsset(d: Desk, key: PlanKey, index: nat, cached: Option<nat>, cache: CS.FeeCache, world: CS.World)
    requires key in d.plans && index < |d.plans[key].sweeps|
    ensures var d' := AfterPass(d, key, index, cached, cache, world);
      && key in d'.plans && d'.plans[key].to == d.plans[key].to && |d'.plans[key].sweeps| == |d.plans[key].sweeps|
      && forall i :: 0 <= i < |d.plans[key].sweeps| ==> d'.plans[key].sweeps[i].asset == d.plans[key].sweeps[i].asset
  {
    hide CS.SweepWith, Books.Stored;
  }

  // While its plan is pending, over every interleaving with other reassignments, suspended calls, failed
  // passes and upgrades, each asset's source only falls, its destination only grows, and what the plan
  // records as moved has arrived.
  lemma {:induction false} PendingSweepsAreSound(reg: Registry, start: Books, d: Desk, acts: seq<Action>, key: PlanKey)
    requires LocksSound(d) && PossibleRun(reg, d, acts) && PendingThroughout(reg, d, acts, key)
    requires key in d.plans && PlanSwept(start, d.books, key, d.plans[key])
    ensures var end := RunOf(reg, d, acts);
      && key in end.plans && end.plans[key].to == d.plans[key].to && |end.plans[key].sweeps| == |d.plans[key].sweeps|
      && (forall i :: 0 <= i < |d.plans[key].sweeps| ==> end.plans[key].sweeps[i].asset == d.plans[key].sweeps[i].asset)
      && PlanSwept(start, end.books, key, end.plans[key])
    decreases |acts|
  {
    hide LocksSound, Possible, Next, PlanSwept;
    if acts == [] {
    } else {
      ActionKeepsSwept(reg, start, d, acts[0], key);
      NextKeepsLocks(reg, d, acts[0]);
      PendingSweepsAreSound(reg, start, Next(reg, d, acts[0]), acts[1..], key);
    }
  }

  lemma OpeningStarts(reg: Registry, d: Desk, a: Action)
    requires a.Begin? && Possible(reg, d, a) && OutcomeOf(d.s.core, d.marks, d.plans, a.key, a.to, a.elsewhere).Opens?
    ensures var d1 := Next(reg, d, a);
      && a.key in d1.plans && d1.plans[a.key] == Plan(a.to, Executing, Unswept(a.assets)) && d1.books == d.books
      && PlanSwept(d.books, d1.books, a.key, d1.plans[a.key])
  {
    hide RekeyRefusal, Rekeyed;
    OpensMeansFree(d, a.key, a.to, a.elsewhere);
  }

  // The list an opening call works with misses nothing the account has a balance of.
  lemma CustodyIsWhole(reg: Registry, d: Desk, a: Action)
    requires a.Begin? && Possible(reg, d, a) && OutcomeOf(d.s.core, d.marks, d.plans, a.key, a.to, a.elsewhere).Opens?
    ensures var owner, configs := AccountOf(d.s.core.accounts, a.key.owner), d.s.market.configs;
      && CustodyOf(owner, configs, a.assets)
      && forall e, id :: owner.GetBalance(e, id) > 0 ==> id in a.assets
  {
    var owner, configs := AccountOf(d.s.core.accounts, a.key.owner), d.s.market.configs;
    assert !a.elsewhere.unsupportedAsset;
    forall e, id | owner.GetBalance(e, id) > 0 ensures id in a.assets {
      assert !Stranded(owner, configs, id);
      assert Holds(owner, id);
    }
  }

  // From the call that opens a plan to the one that can finish it, whatever runs in between: every asset
  // the account had a balance of has been swept, each old subaccount is left with at most the fee quoted in its
  // last pass, and each new one has received what the plan records.
  lemma FinishedIsSwept(reg: Registry, d: Desk, a: Action, acts: seq<Action>)
    requires LocksSound(d) && a.Begin? && Possible(reg, d, a)
    requires OutcomeOf(d.s.core, d.marks, d.plans, a.key, a.to, a.elsewhere).Opens?
    requires PossibleRun(reg, Next(reg, d, a), acts) && PendingThroughout(reg, Next(reg, d, a), acts, a.key)
    requires Possible(reg, RunOf(reg, Next(reg, d, a), acts), Finish(a.key))
    ensures var end := RunOf(reg, Next(reg, d, a), acts);
      var sweeps := end.plans[a.key].sweeps;
      && (forall id :: Ledgered(d.s.market.configs, id) && Holds(AccountOf(d.s.core.accounts, a.key.owner), id) ==> id in a.assets)
      && (forall e, id :: AccountOf(d.s.core.accounts, a.key.owner).GetBalance(e, id) > 0 ==> id in a.assets)
      && |sweeps| == |a.assets|
      && forall i :: 0 <= i < |a.assets| ==>
           (sweeps[i].asset == a.assets[i] && sweeps[i].moved.Some? && sweeps[i].quoted.Some?
           && end.books.Held(a.assets[i], a.key.owner) <= sweeps[i].quoted.value
           && end.books.Held(a.assets[i], a.to) >= d.books.Held(a.assets[i], a.to) + sweeps[i].moved.value)
  {
    CustodyIsWhole(reg, d, a);
    hide CustodyOf, CustodyChecked, Holds, RekeyRefusal;
    OpeningStarts(reg, d, a);
    NextKeepsLocks(reg, d, a);
    var d1 := Next(reg, d, a);
    PendingSweepsAreSound(reg, d.books, d1, acts, a.key);
    var end := RunOf(reg, d1, acts);
    assert PlanSwept(d.books, end.books, a.key, end.plans[a.key]);
    assert AllSwept(end.plans[a.key].sweeps);
    hide Next, RunOf, PossibleRun, PendingThroughout, Possible, LocksSound, OutcomeOf, Books.Held;
    forall i | 0 <= i < |a.assets| ensures SweepSound(d.books, end.books, a.key.owner, a.to, end.plans[a.key].sweeps[i]) {
    }
  }
}
