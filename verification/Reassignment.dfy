// The account reassignment protocol: marks, plans and guards of src/clearing/src/account/reassignment.rs,
// interleaved with every other step of the clearing book.
module Reassignment {
  import opened Base
  import opened Payoffs
  import opened Types
  import opened Totals
  import opened Clearing
  import opened Coverage
  import opened SettlementCoverage
  import opened Rekey
  import opened Runs
  import opened CoverageRuns
  import opened CoverageTheorem
  import opened SettlementRuns
  import opened BookRuns
  import opened Ledgers
  import CS = CustodySweep

  // ---------------------------------------------------------------- marks, plans, guards

  datatype Mark = Mark(generation: nat, locked: bool)

  const UNMARKED := Mark(0, false)

  type Marks = map<User, Mark>

  function MarkOf(marks: Marks, u: User): Mark { if u in marks then marks[u] else UNMARKED }

  function Bumped(marks: Marks, u: User): Marks { marks[u := Mark(MarkOf(marks, u).generation + 1, true)] }

  // lock_for_reassignment and unlock_after_reassignment
  function LockedBoth(marks: Marks, from: User, to: User): Marks { Bumped(Bumped(marks, from), to) }

  function Unbolted(marks: Marks, u: User): Marks { marks[u := MarkOf(marks, u).(locked := false)] }

  function UnlockedBoth(marks: Marks, from: User, to: User): Marks { Unbolted(Unbolted(marks, from), to) }

  datatype PlanKey = PlanKey(owner: User, id: nat)

  // moved is None until the asset is done; quoted is the fee of the last pass over it.
  datatype Sweep = Sweep(asset: AssetId, moved: Option<nat>, quoted: Option<nat>)

  function Unswept(assets: seq<AssetId>): seq<Sweep> {
    seq(|assets|, i requires 0 <= i < |assets| => Sweep(assets[i], None, None))
  }

  predicate AllSwept(sweeps: seq<Sweep>) { forall i :: 0 <= i < |sweeps| ==> sweeps[i].moved.Some? }

  datatype Plan = Plan(to: User, status: PlanStatus, sweeps: seq<Sweep>)

  type Plans = map<PlanKey, Plan>

  predicate Names(key: PlanKey, plan: Plan, u: User) { u == key.owner || u == plan.to }

  ghost predicate Claims(plans: Plans, key: PlanKey, u: User) {
    key in plans && !plans[key].status.Finalised? && Names(key, plans[key], u)
  }

  datatype Guard = Guard(user: User, generation: nat)

  function Acquire(marks: Marks, u: User): Option<Guard> {
    if MarkOf(marks, u).locked then None else Some(Guard(u, MarkOf(marks, u).generation))
  }

  predicate Revalidates(marks: Marks, g: Guard) {
    !MarkOf(marks, g.user).locked && MarkOf(marks, g.user).generation == g.generation
  }

  // rebuild_reassignment_marks: the locks of the plans that have not finalised.
  ghost function RebuiltMarks(plans: Plans): Marks {
    map u | u in Claimed(plans) :: Mark(0, true)
  }

  ghost function Claimed(plans: Plans): set<User> {
    (set key | key in plans && !plans[key].status.Finalised? :: key.owner)
    + (set key | key in plans && !plans[key].status.Finalised? :: plans[key].to)
  }

  // ---------------------------------------------------------------- what follows an account on the ledgers

  // The account has an entry for the asset in some domain.
  ghost predicate Holds(a: Account, id: AssetId) { exists d :: d in a.balances && id in a.balances[d] }

  predicate Ledgered(configs: map<AssetId, AssetConfig>, id: AssetId) { id in configs && configs[id].icrc }

  // A balance in custody that cannot follow the account.
  ghost predicate Stranded(a: Account, configs: map<AssetId, AssetConfig>, id: AssetId) {
    !Ledgered(configs, id) && exists d :: d in a.balances && id in a.balances[d] && a.balances[d][id] > 0
  }

  // custody_assets: each ledger asset of the account once.
  ghost predicate CustodyOf(a: Account, configs: map<AssetId, AssetConfig>, assets: seq<AssetId>) {
    && (forall id :: id in assets <==> Ledgered(configs, id) && Holds(a, id))
    && (forall i, j :: 0 <= i < j < |assets| ==> assets[i] != assets[j])
  }

  // The list a call works out before it opens a plan, or that it found an asset it cannot move.
  ghost predicate CustodyChecked(s: State, owner: User, assets: seq<AssetId>, unsupported: bool) {
    var a := AccountOf(s.core.accounts, owner);
    if unsupported then exists id :: Stranded(a, s.market.configs, id)
    else CustodyOf(a, s.market.configs, assets) && forall id :: !Stranded(a, s.market.configs, id)
  }

  // ---------------------------------------------------------------- the first message of a call

  const ANONYMOUS := User(4)

  // Guard rails kept in maps that are not part of this model.
  datatype Elsewhere = Elsewhere(frozenOld: bool, frozenNew: bool, plansOld: bool, plansNew: bool, unsupportedAsset: bool)

  datatype ReassignError =
    | SameOwner
    | AnonymousOwner
    | ReassignmentIdReused
    | ReassignmentInProgress
    | AccountNotFound
    | OpenOrdersExist
    | PendingPositionTransfersExist
    | InFlightPlansExist
    | TargetAccountNotEmpty
    | UnsupportedCustodyAsset

  datatype Outcome = Refused(error: ReassignError) | Done | Continues | Opens

  ghost function RekeyRefusal(c: Core, marks: Marks, from: User, to: User, e: Elsewhere): Option<ReassignError> {
    if MarkOf(marks, from).locked || MarkOf(marks, to).locked then Some(ReassignmentInProgress)
    else if from !in c.accounts then Some(AccountNotFound)
    else if HasOrders(c, from) then Some(OpenOrdersExist)
    else if e.frozenOld then Some(PendingPositionTransfersExist)
    else if InFlight(c, from) || e.plansOld || InFlight(c, to) || e.plansNew then Some(InFlightPlansExist)
    else if HasClearingState(c, to) || e.frozenNew then Some(TargetAccountNotEmpty)
    else if e.unsupportedAsset then Some(UnsupportedCustodyAsset)
    else None
  }

  ghost function OutcomeOf(c: Core, marks: Marks, plans: Plans, key: PlanKey, to: User, e: Elsewhere): Outcome {
    if key.owner == to then Refused(SameOwner)
    else if key.owner == ANONYMOUS || to == ANONYMOUS then Refused(AnonymousOwner)
    else if key in plans then
      if plans[key].to != to then Refused(ReassignmentIdReused)
      else if plans[key].status.Finalised? then Done
      else Continues
    else
      var refusal := RekeyRefusal(c, marks, key.owner, to, e);
      if refusal.Some? then Refused(refusal.value) else Opens
  }

  // ---------------------------------------------------------------- the machine

  // calls are guarded user calls suspended at an await; running are the reassignment calls in progress.
  datatype Desk = Desk(s: State, marks: Marks, plans: Plans, calls: map<nat, Guard>, running: set<PlanKey>, books: Books)

  datatype Action =
    | Enter(call: nat, user: User)
    | Leave(call: nat, step: Step)
    | Free(step: Step)
    | Begin(key: PlanKey, to: User, keys: seq<PosKey>, assets: seq<AssetId>, elsewhere: Elsewhere)
    | Pass(key: PlanKey, index: nat, cached: Option<nat>, cache: CS.FeeCache, world: CS.World)
    | Stopped(key: PlanKey)
    | Finish(key: PlanKey)
    | Upgrade

  // The principal whose guard a step needs.
  function ActorOf(step: Step): Option<User> {
    match step
    case Limit(caller, _) => Some(caller)
    case Fill(taker, _, _, _, _, _) => Some(taker)
    case Mint(caller, _, _) => Some(caller)
    case Redeem(caller, _, _) => Some(caller)
    case _ => None
  }

  // Calls with one reassignment id do not overlap, and nothing else is serialised. A deposit or a
  // withdrawal touches no locked principal: one in flight refuses the re-key, and the guard refuses a new one.
  ghost predicate Possible(reg: Registry, d: Desk, a: Action) {
    match a
    case Enter(call, _) => call !in d.calls
    case Leave(call, step) => call in d.calls && ActorOf(step) == Some(d.calls[call].user) && Enabled(reg, d.s, step)
    case Free(step) =>
      && ActorOf(step).None? && !step.Reassign? && Enabled(reg, d.s, step)
      && (step.Fund? ==> !MarkOf(d.marks, step.user).locked)
    case Begin(key, _, keys, assets, e) =>
      && key !in d.running && Lists(keys, KeysOfUser(d.s.core.positions, key.owner))
      && CustodyChecked(d.s, key.owner, assets, e.unsupportedAsset)
    case Pass(key, index, _, _, _) =>
      && key in d.running && key in d.plans && !d.plans[key].status.Finalised? && index < |d.plans[key].sweeps|
      && AllSwept(d.plans[key].sweeps[..index]) && d.plans[key].sweeps[index].moved.None?
    case Stopped(key) => key in d.running
    case Finish(key) =>
      key in d.running && key in d.plans && !d.plans[key].status.Finalised? && AllSwept(d.plans[key].sweeps)
    case Upgrade => true
  }

  ghost function AfterOpening(d: Desk, key: PlanKey, to: User, keys: seq<PosKey>, assets: seq<AssetId>): Desk
    requires CanRekey(d.s.core, key.owner, to) && Lists(keys, KeysOfUser(d.s.core.positions, key.owner))
  {
    d.(s := d.s.(core := Rekeyed(d.s.core, key.owner, to, keys)),
       marks := LockedBoth(d.marks, key.owner, to),
       plans := d.plans[key := Plan(to, Executing, Unswept(assets))],
       running := d.running + {key})
  }

  // One pass of sweep_custody over one asset. A pass that fails ends the call.
  function AfterPass(d: Desk, key: PlanKey, index: nat, cached: Option<nat>, cache: CS.FeeCache, world: CS.World): Desk
    requires key in d.plans && index < |d.plans[key].sweeps|
  {
    var plan := d.plans[key];
    var asset := plan.sweeps[index].asset;
    var r := CS.SweepWith(d.books.Purse(asset, key.owner, plan.to), cached, cache, world);
    d.(books := d.books.Stored(asset, key.owner, plan.to, r.purse),
       plans := d.plans[key := plan.(sweeps := plan.sweeps[index := Sweep(asset, r.moved, r.quoted)])],
       running := if r.moved.None? then d.running - {key} else d.running)
  }

  ghost function Next(reg: Registry, d: Desk, a: Action): Desk
    requires Possible(reg, d, a)
  {
    match a
    case Enter(call, user) =>
      var g := Acquire(d.marks, user);
      if g.Some? then d.(calls := d.calls[call := g.value]) else d
    case Leave(call, step) =>
      d.(calls := d.calls - {call}, s := if Revalidates(d.marks, d.calls[call]) then After(reg, d.s, step) else d.s)
    case Free(step) => d.(s := After(reg, d.s, step))
    case Begin(key, to, keys, assets, e) =>
      var o := OutcomeOf(d.s.core, d.marks, d.plans, key, to, e);
      if o.Opens? then AfterOpening(d, key, to, keys, assets)
      else if o.Continues? then d.(running := d.running + {key})
      else d
    case Pass(key, index, cached, cache, world) => AfterPass(d, key, index, cached, cache, world)
    case Stopped(key) => d.(running := d.running - {key})
    case Finish(key) =>
      d.(plans := d.plans[key := d.plans[key].(status := Finalised)],
         marks := UnlockedBoth(d.marks, key.owner, d.plans[key].to),
         running := d.running - {key})
    case Upgrade => d.(marks := RebuiltMarks(d.plans), calls := map[], running := {})
  }

  // Whether an action re-keys the account of u, in or out.
  ghost predicate Rekeys(d: Desk, a: Action, u: User) {
    a.Begin? && OutcomeOf(d.s.core, d.marks, d.plans, a.key, a.to, a.elsewhere).Opens? && (u == a.key.owner || u == a.to)
  }

  // ---------------------------------------------------------------- locks are the unfinalised plans

  ghost predicate PlansDisjoint(plans: Plans) {
    forall a, b, u :: Claims(plans, a, u) && Claims(plans, b, u) ==> a == b
  }

  ghost predicate LocksAreClaims(marks: Marks, plans: Plans) {
    forall u :: MarkOf(marks, u).locked <==> exists key :: Claims(plans, key, u)
  }

  ghost predicate OwnersDiffer(plans: Plans) { forall key :: key in plans ==> key.owner != plans[key].to }

  ghost predicate LocksSound(d: Desk) {
    PlansDisjoint(d.plans) && LocksAreClaims(d.marks, d.plans) && OwnersDiffer(d.plans)
  }

  // Nothing is open for u: no resting order of u's, and no entry of a settlement still to be finalised.
  ghost predicate NothingOpen(c: Core, u: User) {
    && (forall id :: id in c.orders ==> c.orders[id].creator != u)
    && (forall sid, i :: sid in c.plans && !c.plans[sid].status.Finalised? && 0 <= i < |c.plans[sid].positions| ==>
          c.plans[sid].positions[i].user != u)
  }

  // u holds nothing at all.
  ghost predicate HoldsNothing(c: Core, u: User) {
    && (u in c.accounts ==> c.accounts[u] == NEW_ACCOUNT)
    && (forall k :: k in c.positions ==> k.user != u)
  }

  // A call moves an account exactly when it names two different principals, neither of them anonymous, under
  // an id not used before; when neither is locked and nothing is open for either; when the old one has an
  // account and the new one holds nothing; and when no transfer, deposit or withdrawal and no asset stands in
  // the way. A used id continues or repeats its own plan, and is refused for another target.
  lemma BeginsIff(c: Core, marks: Marks, plans: Plans, key: PlanKey, to: User, e: Elsewhere)
    ensures var o, named := OutcomeOf(c, marks, plans, key, to, e), key.owner != to && key.owner != ANONYMOUS && to != ANONYMOUS;
      && (o.Opens? <==>
            (named && key !in plans && !MarkOf(marks, key.owner).locked && !MarkOf(marks, to).locked
            && NothingOpen(c, key.owner) && NothingOpen(c, to) && key.owner in c.accounts && HoldsNothing(c, to)
            && e == Elsewhere(false, false, false, false, false)))
      && (o.Continues? <==> named && key in plans && plans[key].to == to && !plans[key].status.Finalised?)
      && (o.Done? <==> named && key in plans && plans[key].to == to && plans[key].status.Finalised?)
      && (o == Refused(ReassignmentIdReused) <==> named && key in plans && plans[key].to != to)
  {
    OpenIff(c, key.owner);
    OpenIff(c, to);
    assert KeysOfUser(c.positions, to) == {} <==> forall k :: k in c.positions ==> k.user != to by {
      if k :| k in c.positions && k.user == to { assert k in KeysOfUser(c.positions, to); }
    }
    hide InFlight, HasOrders, NothingOpen, KeysOfUser;
  }

  lemma OpenIff(c: Core, u: User)
    ensures NothingOpen(c, u) <==> !HasOrders(c, u) && !InFlight(c, u)
  {
    if !NothingOpen(c, u) && !HasOrders(c, u) {
      var sid, i :| sid in c.plans && !c.plans[sid].status.Finalised? && 0 <= i < |c.plans[sid].positions| && c.plans[sid].positions[i].user == u;
      assert Awaits(c.plans[sid], u);
    }
  }

  lemma OpensMeansFree(d: Desk, key: PlanKey, to: User, e: Elsewhere)
    requires OutcomeOf(d.s.core, d.marks, d.plans, key, to, e).Opens?
    ensures CanRekey(d.s.core, key.owner, to) && key !in d.plans && key.owner != to
    ensures !MarkOf(d.marks, key.owner).locked && !MarkOf(d.marks, to).locked
  {
  }

  lemma OpenKeepsLocks(marks: Marks, plans: Plans, key: PlanKey, plan: Plan)
    requires PlansDisjoint(plans) && LocksAreClaims(marks, plans) && OwnersDiffer(plans)
    requires key !in plans && key.owner != plan.to && !plan.status.Finalised?
    requires !MarkOf(marks, key.owner).locked && !MarkOf(marks, plan.to).locked
    ensures var plans' := plans[key := plan];
      PlansDisjoint(plans') && LocksAreClaims(LockedBoth(marks, key.owner, plan.to), plans') && OwnersDiffer(plans')
  {
    var plans' := plans[key := plan];
    forall k, u ensures Claims(plans', k, u) <==> Claims(plans, k, u) || (k == key && Names(key, plan, u)) {
    }
    forall u ensures MarkOf(LockedBoth(marks, key.owner, plan.to), u).locked <==> exists k :: Claims(plans', k, u) {
      if Names(key, plan, u) {
        assert Claims(plans', key, u);
      } else {
        assert MarkOf(LockedBoth(marks, key.owner, plan.to), u) == MarkOf(marks, u);
        if k :| Claims(plans, k, u) { assert Claims(plans', k, u); }
        if k :| Claims(plans', k, u) { assert Claims(plans, k, u); }
      }
    }
  }

  lemma FinishKeepsLocks(marks: Marks, plans: Plans, key: PlanKey)
    requires PlansDisjoint(plans) && LocksAreClaims(marks, plans) && OwnersDiffer(plans)
    requires key in plans && !plans[key].status.Finalised?
    ensures var plans' := plans[key := plans[key].(status := Finalised)];
      PlansDisjoint(plans') && LocksAreClaims(UnlockedBoth(marks, key.owner, plans[key].to), plans') && OwnersDiffer(plans')
  {
    var plans' := plans[key := plans[key].(status := Finalised)];
    forall k, u ensures Claims(plans', k, u) <==> Claims(plans, k, u) && k != key {
    }
    forall u ensures MarkOf(UnlockedBoth(marks, key.owner, plans[key].to), u).locked <==> exists k :: Claims(plans', k, u) {
      if Names(key, plans[key], u) {
        assert Claims(plans, key, u);
        assert !MarkOf(UnlockedBoth(marks, key.owner, plans[key].to), u).locked;
      } else {
        assert MarkOf(UnlockedBoth(marks, key.owner, plans[key].to), u) == MarkOf(marks, u);
        if k :| Claims(plans, k, u) { assert k != key && Claims(plans', k, u); }
        if k :| Claims(plans', k, u) { assert Claims(plans, k, u); }
      }
    }
  }

  lemma SweepKeepsLocks(marks: Marks, plans: Plans, key: PlanKey, plan: Plan)
    requires PlansDisjoint(plans) && LocksAreClaims(marks, plans) && OwnersDiffer(plans)
    requires key in plans && plan.to == plans[key].to && plan.status == plans[key].status
    ensures var plans' := plans[key := plan];
      PlansDisjoint(plans') && LocksAreClaims(marks, plans') && OwnersDiffer(plans')
  {
    var plans' := plans[key := plan];
    forall k, u ensures Claims(plans', k, u) <==> Claims(plans, k, u) {
    }
    forall u ensures MarkOf(marks, u).locked <==> exists k :: Claims(plans', k, u) {
      if k :| Claims(plans, k, u) { assert Claims(plans', k, u); }
    }
  }

  // The rebuild after an upgrade locks exactly the principals that were locked before it.
  lemma RebuildRestoresLocks(marks: Marks, plans: Plans)
    requires LocksAreClaims(marks, plans)
    ensures LocksAreClaims(RebuiltMarks(plans), plans)
    ensures forall u :: MarkOf(RebuiltMarks(plans), u).locked <==> MarkOf(marks, u).locked
  {
    forall u ensures MarkOf(RebuiltMarks(plans), u).locked <==> exists key :: Claims(plans, key, u) {
      if key :| Claims(plans, key, u) { assert u in Claimed(plans); }
      if u in Claimed(plans) {
        var key :| key in plans && !plans[key].status.Finalised? && (u == key.owner || u == plans[key].to);
        assert Claims(plans, key, u);
      }
    }
  }

  lemma NextKeepsLocks(reg: Registry, d: Desk, a: Action)
    requires LocksSound(d) && Possible(reg, d, a)
    ensures LocksSound(Next(reg, d, a))
  {
    hide PlansDisjoint, LocksAreClaims, OwnersDiffer, After, Enabled, RebuiltMarks, LockedBoth, UnlockedBoth;
    match a {
      case Begin(key, to, keys, assets, e) =>
        if OutcomeOf(d.s.core, d.marks, d.plans, key, to, e).Opens? {
          OpensMeansFree(d, key, to, e);
          OpenKeepsLocks(d.marks, d.plans, key, Plan(to, Executing, Unswept(assets)));
        }
      case Pass(key, index, cached, cache, world) =>
        SweepKeepsLocks(d.marks, d.plans, key, AfterPass(d, key, index, cached, cache, world).plans[key]);
      case Finish(key) => FinishKeepsLocks(d.marks, d.plans, key);
      case Upgrade => RebuildRestoresLocks(d.marks, d.plans);
      case _ =>
    }
  }

  ghost predicate PossibleRun(reg: Registry, d: Desk, acts: seq<Action>)
    decreases |acts|
  {
    acts == [] || (Possible(reg, d, acts[0]) && PossibleRun(reg, Next(reg, d, acts[0]), acts[1..]))
  }

  ghost function RunOf(reg: Registry, d: Desk, acts: seq<Action>): Desk
    requires PossibleRun(reg, d, acts)
    decreases |acts|
  {
    if acts == [] then d else RunOf(reg, Next(reg, d, acts[0]), acts[1..])
  }

  // Over every interleaving unfinalised plans name disjoint principals, and a principal is locked
  // exactly while an unfinalised plan names it; upgrades included.
  lemma {:induction false} LocksAreAlwaysSound(reg: Registry, d: Desk, acts: seq<Action>)
    requires LocksSound(d) && PossibleRun(reg, d, acts)
    ensures LocksSound(RunOf(reg, d, acts))
    decreases |acts|
  {
    hide LocksSound, Possible, Next;
    if acts == [] {
    } else {
      NextKeepsLocks(reg, d, acts[0]);
      LocksAreAlwaysSound(reg, Next(reg, d, acts[0]), acts[1..]);
    }
  }

  // ---------------------------------------------------------------- what a guard tells its call

  ghost function RekeysOf(reg: Registry, d: Desk, acts: seq<Action>, u: User): nat
    requires PossibleRun(reg, d, acts)
    decreases |acts|
  {
    if acts == [] then 0
    else (if Rekeys(d, acts[0], u) then 1 else 0) + RekeysOf(reg, Next(reg, d, acts[0]), acts[1..], u)
  }

  predicate NoUpgrade(acts: seq<Action>) { forall i :: 0 <= i < |acts| ==> !acts[i].Upgrade? }

  lemma OneGeneration(reg: Registry, d: Desk, a: Action, u: User)
    requires Possible(reg, d, a) && !a.Upgrade?
    ensures MarkOf(Next(reg, d, a).marks, u).generation == MarkOf(d.marks, u).generation + if Rekeys(d, a, u) then 1 else 0
  {
    hide After, Enabled, RekeyRefusal;
    if a.Begin? && OutcomeOf(d.s.core, d.marks, d.plans, a.key, a.to, a.elsewhere).Opens? {
      OpensMeansFree(d, a.key, a.to, a.elsewhere);
    }
  }

  // Between upgrades a principal's generation counts the re-keys of its account.
  lemma {:induction false} GenerationCountsRekeys(reg: Registry, d: Desk, acts: seq<Action>, u: User)
    requires PossibleRun(reg, d, acts) && NoUpgrade(acts)
    ensures MarkOf(RunOf(reg, d, acts).marks, u).generation == MarkOf(d.marks, u).generation + RekeysOf(reg, d, acts, u)
    decreases |acts|
  {
    hide Possible, Next, Rekeys;
    if acts == [] {
    } else {
      OneGeneration(reg, d, acts[0], u);
      GenerationCountsRekeys(reg, Next(reg, d, acts[0]), acts[1..], u);
    }
  }

  // A guard acquired now revalidates after any interleaving exactly when its principal is not locked
  // then and was not re-keyed in between. Suspended calls do not survive an upgrade.
  lemma GuardsSeeRekeys(reg: Registry, d: Desk, acts: seq<Action>, u: User)
    requires PossibleRun(reg, d, acts) && NoUpgrade(acts) && Acquire(d.marks, u).Some?
    ensures var end := RunOf(reg, d, acts);
      Revalidates(end.marks, Acquire(d.marks, u).value) <==> !MarkOf(end.marks, u).locked && RekeysOf(reg, d, acts, u) == 0
  {
    GenerationCountsRekeys(reg, d, acts, u);
    hide RekeysOf, RunOf, PossibleRun;
  }

  // ---------------------------------------------------------------- a plan re-keys once

  lemma PlansStay(reg: Registry, d: Desk, a: Action, key: PlanKey)
    requires Possible(reg, d, a) && key in d.plans
    ensures var d' := Next(reg, d, a);
      key in d'.plans && d'.plans[key].to == d.plans[key].to && (d.plans[key].status.Finalised? ==> d'.plans[key] == d.plans[key])
    ensures a.Begin? && a.key == key ==> !OutcomeOf(d.s.core, d.marks, d.plans, a.key, a.to, a.elsewhere).Opens?
  {
    hide After, Enabled, RekeyRefusal;
  }

  ghost function OpeningsOf(reg: Registry, d: Desk, acts: seq<Action>, key: PlanKey): nat
    requires PossibleRun(reg, d, acts)
    decreases |acts|
  {
    if acts == [] then 0
    else
      var a := acts[0];
      (if a.Begin? && a.key == key && OutcomeOf(d.s.core, d.marks, d.plans, key, a.to, a.elsewhere).Opens? then 1 else 0)
      + OpeningsOf(reg, Next(reg, d, a), acts[1..], key)
  }

  // However often one id is replayed, finalised or not, at most one of the calls re-keys.
  lemma {:induction false} OneRekeyForEachId(reg: Registry, d: Desk, acts: seq<Action>, key: PlanKey)
    requires PossibleRun(reg, d, acts)
    ensures OpeningsOf(reg, d, acts, key) <= if key in d.plans then 0 else 1
    decreases |acts|
  {
    hide Enabled, RekeyRefusal, After;
    if acts == [] {
    } else {
      if key in d.plans { PlansStay(reg, d, acts[0], key); }
      OneRekeyForEachId(reg, Next(reg, d, acts[0]), acts[1..], key);
    }
  }
}
