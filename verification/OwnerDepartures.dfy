// Where the account reassignment protocol and the promises made for it part, as runs of its machine.
module OwnerDepartures {
  import opened Base
  import opened Payoffs
  import opened Types
  import opened Clearing
  import opened Coverage
  import opened Rekey
  import opened Runs
  import opened CoverageRuns
  import opened Ledgers
  import opened Reassignment
  import opened Drained
  import D = Departures

  const CAROL := User(12)
  const TO_CAROL := PlanKey(D.ALICE, 1)
  const CLEAR := Elsewhere(false, false, false, false, false)
  const MATCHED := TradeParams(TradeId(0), D.SID, None, D.BOB, D.ALICE, 1, Price(1, 0, 0), 0, 0)

  // Two funded traders, and no reassignment yet.
  function Start(): Desk {
    Desk(D.TwoTraders(D.BINARY, 30_000, 30_000), map[], map[], map[], {}, Books(map[], map[]))
  }

  lemma OpensForAlice(d: Desk)
    requires d == Start()
    ensures OutcomeOf(d.s.core, d.marks, d.plans, TO_CAROL, CAROL, CLEAR).Opens?
    ensures Lists([], KeysOfUser(d.s.core.positions, D.ALICE)) && CustodyChecked(d.s, D.ALICE, [], false)
  {
    assert d.s.core.accounts[D.ALICE].balances == map[];
    assert KeysOfUser(d.s.core.positions, D.ALICE) == {};
  }

  lemma MatchedGoes(s: State)
    requires s.core.positions == map[] && s.ops.executed == map[]
    requires D.ALICE !in s.core.accounts && D.BOB in s.core.accounts && s.core.accounts[D.BOB] == D.Funds(30_000)
    ensures Executes(s, D.BINARY, MATCHED)
    ensures D.ALICE in ExecuteTrade(s, D.BINARY, MATCHED, 0).state.core.accounts
  {
    D.OneUnit();
    hide CeilUsd;
    assert GetRequiredMargin(D.BINARY, MATCHED.price, 1) == Ok(10_000);
    assert GetRequiredMargin(D.BINARY, MATCHED.price, 0) == Ok(0) && GetRequiredMargin(D.BINARY, MATCHED.price, -1) == Ok(0);
    hide GetRequiredMargin, Executes, D.FirstTraded, ExecuteTrade;
    D.FirstTradeGoes(s, D.BINARY, MATCHED, 10_000, 0);
    D.TradeOpens(s, D.BINARY, MATCHED);
  }

  // While Alice's account is being reassigned to Carol, both locked and the plan pending, the operator
  // submits a trade matched for Alice before: it takes no guard, and she has an account again.
  // Drained.MatchedTradesRevive has the condition.
  lemma RevivedOwner(reg: Registry)
    requires reg == D.Only(D.BINARY)
    ensures var d := Start();
      var acts := [Begin(TO_CAROL, CAROL, [], [], CLEAR), Free(Matched(MATCHED, 0))];
      && LocksSound(d) && PossibleRun(reg, d, acts)
      && Vacant(Next(reg, d, acts[0]).s.core, D.ALICE)
      && var end := RunOf(reg, d, acts);
         && TO_CAROL in end.plans && !end.plans[TO_CAROL].status.Finalised? && MarkOf(end.marks, D.ALICE).locked
         && !Vacant(end.s.core, D.ALICE)
  {
    var d := Start();
    var a, b := Begin(TO_CAROL, CAROL, [], [], CLEAR), Free(Matched(MATCHED, 0));
    StartIsSound();
    OpensForAlice(d);
    Opening(reg, d);
    var d1 := Next(reg, d, a);
    MatchedGoes(d1.s);
    FreeMatched(reg, d1);
    HasAccount(Next(reg, d1, b).s.core, D.ALICE);
    hide OutcomeOf, ExecuteTrade, Vacant, CustodyChecked, Executes, LocksSound, Possible, Next, Start;
    TwoActs(reg, d, a, b);
    hide PossibleRun, RunOf;
  }

  lemma StartIsSound()
    ensures LocksSound(Start())
  {
  }

  lemma TwoActs(reg: Registry, d: Desk, a: Action, b: Action)
    requires Possible(reg, d, a) && Possible(reg, Next(reg, d, a), b)
    ensures PossibleRun(reg, d, [a, b]) && RunOf(reg, d, [a, b]) == Next(reg, Next(reg, d, a), b)
  {
    hide Possible, Next;
    var d1 := Next(reg, d, a);
    assert [a, b][1..] == [b] && [b][1..] == [];
    assert PossibleRun(reg, d1, [b]) && RunOf(reg, d1, [b]) == Next(reg, d1, b);
  }

  lemma Opening(reg: Registry, d: Desk)
    requires d == Start() && OutcomeOf(d.s.core, d.marks, d.plans, TO_CAROL, CAROL, CLEAR).Opens?
    requires Lists([], KeysOfUser(d.s.core.positions, D.ALICE)) && CustodyChecked(d.s, D.ALICE, [], false)
    ensures Possible(reg, d, Begin(TO_CAROL, CAROL, [], [], CLEAR))
    ensures Vacant(Next(reg, d, Begin(TO_CAROL, CAROL, [], [], CLEAR)).s.core, D.ALICE)
    ensures var d1 := Next(reg, d, Begin(TO_CAROL, CAROL, [], [], CLEAR));
      && d1.s.core.positions == map[] && d1.s.ops == d.s.ops && D.ALICE !in d1.s.core.accounts
      && D.BOB in d1.s.core.accounts && d1.s.core.accounts[D.BOB] == D.Funds(30_000)
      && TO_CAROL in d1.plans && !d1.plans[TO_CAROL].status.Finalised? && MarkOf(d1.marks, D.ALICE).locked
  {
    var a := Begin(TO_CAROL, CAROL, [], [], CLEAR);
    hide OutcomeOf, CustodyChecked;
    assert Possible(reg, d, a);
    AfterBegin(reg, d);
    OpeningVacates(reg, d, a);
    hide Next, Vacant, Possible;
  }

  lemma HasAccount(c: Core, u: User)
    requires u in c.accounts
    ensures !Vacant(c, u)
  {
  }

  lemma AfterBegin(reg: Registry, d: Desk)
    requires d == Start() && Possible(reg, d, Begin(TO_CAROL, CAROL, [], [], CLEAR))
    requires OutcomeOf(d.s.core, d.marks, d.plans, TO_CAROL, CAROL, CLEAR).Opens?
    ensures var d1 := Next(reg, d, Begin(TO_CAROL, CAROL, [], [], CLEAR));
      && d1.s.core.positions == map[] && d1.s.ops == d.s.ops && D.ALICE !in d1.s.core.accounts
      && D.BOB in d1.s.core.accounts && d1.s.core.accounts[D.BOB] == D.Funds(30_000)
      && TO_CAROL in d1.plans && !d1.plans[TO_CAROL].status.Finalised? && MarkOf(d1.marks, D.ALICE).locked
  {
    hide RekeyRefusal;
    OpensMeansFree(d, TO_CAROL, CAROL, CLEAR);
  }

  lemma FreeMatched(reg: Registry, d: Desk)
    requires reg == D.Only(D.BINARY)
    ensures Possible(reg, d, Free(Matched(MATCHED, 0)))
    ensures Next(reg, d, Free(Matched(MATCHED, 0))) == d.(s := ExecuteTrade(d.s, D.BINARY, MATCHED, 0).state)
  {
    hide ExecuteTrade;
  }

  // ---------------------------------------------------------------- assets the account once held

  // The module documentation says that every asset an account has ever held is swept, because the ledger
  // alone knows what is left in its subaccount. Setting a balance to zero drops its entry, and the list is
  // made of entries: an asset stays on it exactly while some domain has an entry for it.
  lemma HeldUntilZero(a: Account, d: Domain, id: AssetId, balance: nat)
    ensures Holds(a.SetBalance(d, id, balance), id) <==> balance > 0 || exists e :: e != d && e in a.balances && id in a.balances[e]
  {
    var b := a.SetBalance(d, id, balance);
    if balance > 0 {
      assert d in b.balances && id in b.balances[d];
    } else {
      assert d in b.balances ==> id !in b.balances[d];
      if e :| e != d && e in a.balances && id in a.balances[e] { assert e in b.balances && id in b.balances[e]; }
    }
  }

  // Alice deposits five of an asset and withdraws them; a reassignment of her account sweeps nothing.
  lemma ForgottenAsset(reg: Registry, id: AssetId)
    ensures var s := D.TwoTraders(D.BINARY, 30_000, 30_000);
      var steps := [Fund(D.ALICE, Settlement, id, 5), Fund(D.ALICE, Settlement, id, 0)];
      && ValidRun(reg, s, steps) && RunAll(reg, s, steps) == s && !Holds(AccountOf(s.core.accounts, D.ALICE), id)
      && Holds(AccountOf(After(reg, s, steps[0]).core.accounts, D.ALICE), id)
  {
    var s := D.TwoTraders(D.BINARY, 30_000, 30_000);
    var a, b := Fund(D.ALICE, Settlement, id, 5), Fund(D.ALICE, Settlement, id, 0);
    var funds := D.Funds(30_000);
    HeldUntilZero(funds, Settlement, id, 5);
    assert funds.SetBalance(Settlement, id, 5).SetBalance(Settlement, id, 0) == funds by { ThereAndBack(funds, id); }
    assert s.core.accounts[D.ALICE := funds] == s.core.accounts;
    D.TwoSteps(reg, s, a, b);
    hide Account.SetBalance;
  }

  lemma ThereAndBack(a: Account, id: AssetId)
    requires a.balances == map[]
    ensures a.SetBalance(Settlement, id, 5).SetBalance(Settlement, id, 0) == a
  {
    var none: map<AssetId, nat> := map[];
    assert none[id := 5] - {id} == none;
    var empty: map<Domain, map<AssetId, nat>> := map[];
    assert empty[Settlement := none[id := 5]] - {Settlement} == empty;
  }
}
