# Clearing canister: a verified model

This project models the clearing canister of a derivatives exchange on the Internet Computer in Dafny, and
proves what its book, its settlement, its account reassignment and its derived indexes keep over every run.

Traders hold accounts (cash and reserved margin in each balance domain), positions in series (binary, call,
put and categorical contracts) and resting limit orders. Trades mark both sides to the trade price and move
the difference in cash; margin is a cost basis; settlement turns positions into the entries of a plan and
pays them out in chunks. An event log records trades and settlements, and several indexes are projected from
it. An account can be moved to another principal while user calls are suspended at awaits.

Every stretch of code between two awaits is atomic, so it is one step, and a run is a sequence of steps. A
step may be taken in any state in which its caller could have been suspended before it: only parameters and
the registered contract, which is addressed by its own hash, are known to be unchanged.

## How the files fit together

- `Base`, `Totals`, `Payoffs`, `Types`: vocabulary, sums over maps, scaling, payoffs, margin and fees, records.
- `Pricing`, `OptionPayoffs`, `Collateral`: what scaling, payoffs, margins and collateral come to, each amount fixed by
  the two bounds of its rounding; how calls and puts pay as the price moves.
- `Book`, `Clearing`: for each step, the state and reply it leaves. `ClearingHouse`: the canister's state as a
  class, with the loops and in-place updates of the source, each method held to the function that specifies it.
- `TradeEffects`, `SettlementAmounts`, `IndexSums`: who ends up with what after a trade, a fill or a settlement, and
  what the indexes hold, stated on positions, accounts, funds and log rows before and after.
- `Runs`, `Coverage`, `SettlementCoverage`, `CoverageRuns`, `CoverageTheorem`: reserved margin covers what it is
  reserved for, in every reachable state. "Slack" is reserved margin beyond that.
- `Conservation`, `ConservationSettlement`, `ConservationTheorem`, `Balance`: the zero-sum law, with the exact
  amount by which a step on any series departs from it and the exact condition for departing by nothing.
- `BookRuns`: the no-arbitrage rule, the life of a resting order, replays. `CompleteSets`: mint, then redeem.
- `SettlementRuns`, `SettlementEffects`: chunked settlement against one pass, free margin, the solvency check.
- `ClosedSeries`: no orders and no positions on a settled series, and exactly when that fails.
- `Calendar`, `Leaderboard`, `PriorRanks`, `LeaderboardPages`, `Candles`, `Paging`: fast forms against simple ones.
- `EventIndexes`, `IndexRuns`: indexes kept step by step against indexes rebuilt from the log.
- `Rekey`, `Reassignment`, `Reassigner`, `Drained`: the account reassignment protocol and its locks.
- `CustodySweep`, `Ledgers`, `SweptCustody`: the funds that follow the account on the token ledgers.
- `TradeMargin`: what the margin check of a trade secures, and what it leaves out.
- `Reachable`: the invariants together, of every state reached from funded accounts with nothing open.
- `Departures`, `OwnerDepartures`: one concrete case for each promise the code does not keep.

## Where the code and what is said of it differ

The model follows the code. Each point below names the lemma that says exactly when, or by how much, the code
departs, and a concrete case in `Departures` or `OwnerDepartures`, most of them a run from two funded traders with
nothing open.

- Asks have no price cap. A trade at a price above one unit takes the excess off the books once for every
  contract it opens short (`Balance.TradeIsNeutralIff`, `Departures.OverpricedAsk`). Filling a bid never does
  (`BookRuns.FillingBidsIsNeutral`).
- Minting a set by a holder who is short in one of its outcomes buys that contract back without paying its
  unit to anyone (`Conservation.BuysBackNothing`, `Departures.MintOverShort`).
- A categorical series may be settled at an outcome it never declared; the unit behind every set is then paid
  to nobody. A binary series may be settled above one unit (`Balance.SettlementIsNeutralIff`,
  `Departures.UndeclaredOutcome`).
- Redeeming releases too much margin when a contract declares an outcome twice, which registration allows
  (`Departures.RedeemIsSafeIff`, `Departures.RedeemedTwice`).
- The module documentation of account reassignment says that no trade can touch a locked principal. A trade
  submitted by the operator takes no guard and can give the old owner an account again
  (`Drained.MatchedTradesRevive`, `OwnerDepartures.RevivedOwner`). Every other step respects the lock
  (`Drained.DrainedStaysDrained`).
- The same module says that every asset the account has ever held is swept, zero balances included, because only
  the ledger knows what its subaccount holds. The list is made from the account's balance entries, and setting a
  balance to zero drops its entry, so an asset is on it exactly while some domain has an entry for it
  (`OwnerDepartures.HeldUntilZero`, `OwnerDepartures.ForgottenAsset`, `SweptCustody.FinishedIsSwept`).
- The margin check of a trade is described as covering post-trade equity. It weighs equity before the trade's
  cash moves. A side is covered after a trade exactly when its equity before it, less the loss it realises,
  reaches what will be reserved (`TradeMargin.CoveredAfterIff`, `Departures.RealisedLossUncovered`); it is never
  short by more than that loss (`TradeMargin.ShortByNoMoreThanTheLoss`).
- Settling a call or a put pays a short position the same amount as a long one. It is neutral exactly when all its
  contracts together are paid the cost basis they carry (`Balance.OptionSettlementIsNeutralIff`,
  `Departures.OptionsPayBoth`); what such series pay is a term of its own in the law (`Balance.ZeroSum`).
- A call is described as paying the price less the strike, and a put the strike less the price. The strike is first
  truncated to the precision of the settlement price, so a call may pay up to what the truncation loses on top and a
  put that much less (`OptionPayoffs.CallPays`, `OptionPayoffs.PutPays`). Between two precisions a call never pays less
  for a price that is not below, and a put never more, exactly while the finer price sees no more of the strike
  (`OptionPayoffs.CallNeverFallsIff`, `OptionPayoffs.PutNeverRisesIff`, `Departures.TruncatedStrike`).
- A binary or categorical series of the Social domain has a payoff of nothing, and settling it would pay every
  contract short a unit (`Balance.SocialPaysShorts`). None reaches the canister: the registry makes Social series
  non-monetary (src/registry/src/api/series.rs:108-116), and clearing accepts USD payouts alone
  (src/clearing/src/utils/series.rs:92-98). The model keeps the branch as the code has it.
- A settled series is meant to have no open orders. Whether it is settled is asked before the last await and not
  after it, so an order, a trade or a mint that was suspended meanwhile and passes its other checks still goes
  through, and a second preparation never comes (`ClosedSeries.ClosedIff`, `Departures.LateOrder`). One more look
  after the await would be enough (`ClosedSeries.LookingAgainIsEnough`).
- A limit order that was suspended may replace an order placed meanwhile under the same id; the replaced
  order's margin then stays reserved for ever. This is the `Limit` case of `Runs.Gain`
  (`CoverageTheorem.SlackIsAccountedFor`, `Departures.ReplacedOrder`).
- A limit order or a mint refused for lack of margin creates an empty account for a caller who had none
  (`Departures.RefusedOrderOpensAccountIff`, `Departures.RefusedMintOpensAccountIff`, `Departures.RefusedOrder`).
- A candle's high and low compare stored price values without their decimals. They are its highest and lowest
  prices whatever is traded exactly when all points of the bucket have the same precision, which the result's
  documentation takes for granted and nothing enforces (`Candles.ExtremesAreTrue`, `Candles.PrecisionDecides`,
  `Departures.FalseHigh`).

## Model

| member | source | states |
|---|---|---|
| ClearingHouse.House.ExecuteTrade | src/clearing/src/trade/service.rs:39-349 | validates, then updates accounts, positions, events and executed ids exactly as the trade step specifies; a refusal or a replayed id leaves the state alone |
| ClearingHouse.House.PlaceLimitOrder | src/clearing/src/api/trade/api.rs:83-152 | the stretch after the awaits: no-arbitrage check, margin check, reservation and insertion, as specified, the empty account on refusal included |
| ClearingHouse.House.SubmitMarketOrder | src/clearing/src/api/trade/api.rs:196-317 | fills the order as it stands after the awaits, trades first and shrinks the book only when the trade succeeded; a fill that takes effect makes its quantity change hands in the direction of the order's side |
| ClearingHouse.House.CancelLimitOrder | src/clearing/src/api/trade/api.rs:323-360 | removes the caller's own order and releases its blocked margin, or refuses |
| ClearingHouse.House.MintCompleteSet | src/clearing/src/api/trade/api.rs:988-1068 | reserves a unit per set and grants every outcome its rounded-down share, with every refusal and the trap on an empty outcome list |
| ClearingHouse.House.RedeemCompleteSet | src/clearing/src/api/trade/api.rs:1090-1164 | checks every outcome, then takes back quantity and cost basis position by position; a trap undoes the message |
| ClearingHouse.House.PrepareSettlement | src/clearing/src/api/settlement/api.rs:443-540 | scans for the series' positions, gathers payoffs and fees, checks solvency, and only then removes positions, cancels orders and stores the plan, whose entries carry the exact payoff less cost basis and fees; a refusal changes nothing |
| ClearingHouse.House.CancelOpenLimitOrders | src/clearing/src/api/settlement/api.rs:542-581 | scans the book for the series' orders in whatever order it is walked, removes them and releases what each had blocked |
| ClearingHouse.House.ApplyAccounting | src/clearing/src/api/settlement/api.rs:636-715 | applies entries from the cursor to the end or to a multiple of 100 where the counter runs, and emits one row for each account reached |
| ClearingHouse.House.SettleSeries | src/clearing/src/api/settlement/api.rs:325-438 | one settle call: finished, refused, resumed, or prepared and driven, with the finishing phases; an error changes nothing, and it replies finished exactly when the plan is then finalised |
| ClearingHouse.House.CreditDeposit | src/clearing/src/api/collateral/api.rs:135-155 | adds an arrived deposit to the one balance it names, opening the account when there was none |
| ClearingHouse.PostSettlementEquity | src/clearing/src/api/settlement/api.rs:594-634 | the loops over summed cashflows give the total of every account's clamped equity after settlement |
| ClearingHouse.CalculateRawEquity | src/clearing/src/types/margin.rs:136-182 | the accumulating loop gives cash plus the worth of every enabled, configured and priced asset: balance times price times what the haircut leaves, rounded down |
| Collateral.AssetCountsForItsWorth | src/clearing/src/types/margin.rs:150-177 | an asset counts for the one number within the two bounds of its worth, wrapped into a signed number from 2^127 on and -1 from 2^128 on |
| Collateral.WorthMoves | src/clearing/src/types/margin.rs:155-174 | a worth never falls with balance or price, never rises with the haircut, and is nothing from 10000 basis points on |
| Collateral.EquityIsCashAndWorth | src/clearing/src/types/margin.rs:136-182 | raw equity is cash plus what each balance counts for, an asset that is disabled, unknown or unpriced counting for nothing |
| Types.SettersAreExact | src/clearing/src/types/margin.rs:85-112 | a setter changes the one domain it names, reading zero for entries that were removed |
| Types.BalancesAreExact | src/clearing/src/types/margin.rs:59-83 | setting one balance changes what is read of no other and neither cash nor reserved margin |
| Pricing.ScaleIsExact | src/clearing/src/payoffs/utils.rs:4-19 | a scaled price is value times 10^target over 10^source, rounded down or up as asked, for any two precisions |
| Pricing.UnitPayoffIsExact | src/clearing/src/payoffs/mod.rs:39-149 | each payoff type pays exactly the amount its contract states, rounded down, and fails exactly when the input is of the wrong kind or the strike is missing |
| Pricing.MarginIsExact | src/clearing/src/payoffs/mod.rs:203-287 | a position reserves for each contract the rounded-up price, for a short put the rounded-up strike, and for other fully collateralised shorts what the price leaves of a unit |
| Pricing.ShortPutCoversStrike | src/clearing/src/payoffs/mod.rs:242-264 | a short put reserves its strike in full whatever the trade price, and no settlement pays more on it |
| OptionPayoffs.CallPays | src/clearing/src/payoffs/mod.rs:72-95 | a call pays nothing at or below the strike, and above it price less strike within a base unit and what truncating the strike loses |
| OptionPayoffs.PutPays | src/clearing/src/payoffs/mod.rs:97-120 | a put pays nothing once the price reaches the strike at its own precision, and below it strike less price within a base unit and what truncating the strike loses |
| OptionPayoffs.AtMostOnePays | src/clearing/src/payoffs/mod.rs:72-120 | of a call and a put on one strike at most one pays |
| OptionPayoffs.CallNeverFallsIff | src/clearing/src/payoffs/mod.rs:72-95 | from prices of one precision to prices of another that are not below, a call never pays less exactly when the second is no finer or sees no more of the strike |
| OptionPayoffs.PutNeverRisesIff | src/clearing/src/payoffs/mod.rs:97-120 | likewise a put never pays more exactly when the second is no finer or sees no more of the strike within four decimals |
| Payoffs.MarginIsSignedValue | src/clearing/src/payoffs/mod.rs:193-287 | fully collateralised margin is the signed value at the rounded-up price plus one unit, and any excess over it, for each contract short |
| Payoffs.SettlementIsSignedValue | src/clearing/src/payoffs/mod.rs:151-187 | fully collateralised settlement pays the signed value of the unit payoff plus one unit for each contract short |
| Payoffs.MarginAdds | src/clearing/src/payoffs/mod.rs:193-287 | margin is additive over quantities on one side, for all four payoff types |
| Payoffs.FeesWithinPayoff | src/clearing/src/payoffs/fees.rs:8-10 | two fees whose ratios sum to at most 10000 bps never exceed the payoff they are taken from |
| TradeEffects.TradeChangesHands | src/clearing/src/trade/service.rs:217-349 | the buyer's position rises by the quantity and the seller's falls by it, each at the margin of what it then holds; cash gains the position held at the price over its cost; the log has the buyer's row and the seller's; nobody else changes |
| TradeEffects.TradePassesIff | src/clearing/src/trade/service.rs:39-215 | validation passes exactly when the parties differ, the margins are defined and each side's equity reaches what it must then reserve, and otherwise names the first side short with equity and need |
| TradeEffects.FillChangesHands | src/clearing/src/api/trade/api.rs:196-317 | a fill that takes effect found the order it saw, fills what is asked up to what is left, and its creator buys for a bid and sells for an ask, the taker the opposite, nobody else; log rows, released margin and rest of the order agree |
| TradeEffects.FillGoesThroughIff | src/clearing/src/api/trade/api.rs:196-317 | exactly when a fill goes through; one that does not, or that was executed before, changes nothing, and a changed or missing order is not found |
| Runs.LimitPassesIff | src/clearing/src/api/trade/api.rs:88-133 | a limit order is placed exactly when the rule allows it, its margin is defined and clamped equity reaches what would be reserved; a shortage names both |
| Runs.MintPassesIff | src/clearing/src/api/trade/api.rs:988-1040 | a mint goes through exactly when quantity and contract are fine and equity reaches what would be reserved; a shortage names both |
| TradeEffects.SubmitsOnce | src/clearing/src/api/trade/api.rs:56-72 | a submission needs a positive quantity and price, and repeating one that rests on the book changes nothing |
| TradeEffects.PlaceThenCancel | src/clearing/src/api/trade/api.rs:109-152 | a placed order stands as its caller asked with its margin reserved, only its creator can cancel it, and cancelling undoes the placement |
| TradeEffects.CancelsOwnOrders | src/clearing/src/api/trade/api.rs:323-360 | cancelling works exactly on one's own orders and takes only that order off the book |
| TradeMargin.CoveredAfterIff | src/clearing/src/trade/service.rs:151-215 | after a trade a side's equity covers its reserved margin exactly when its equity before, less the loss it realises, reaches the margin it will have reserved |
| TradeMargin.CoveredAfterInTerms | src/clearing/src/trade/service.rs:74-187 | under coverage that condition reads off the book: reserved margin plus the margin of the new position less that of the position held, both at the trade's price |
| TradeMargin.ShortByNoMoreThanTheLoss | src/clearing/src/trade/service.rs:151-215 | a trade that executes leaves each side's equity below its reserved margin by at most the loss it realises, and not below when it realises none |
| TradeMargin.UnblockingIsCoveredIff | src/clearing/src/api/trade/api.rs:366-399 | a matched trade that unblocks any amounts keeps every margin covered exactly when each side can spare what is unblocked for it or keeps nothing to cover |
| Coverage.TradedSlack | src/clearing/src/trade/service.rs:74-149 | a trade moves each side's reserved margin by the change of its cost basis less what the caller unblocks |
| Coverage.RedeemedSlack | src/clearing/src/api/trade/api.rs:1133-1159 | over distinct outcomes redeeming never traps, never clamps, and leaves every account's slack unchanged |
| CoverageRuns.FillNeverShort | src/clearing/src/api/trade/api.rs:196-317 | what a partial fill leaves blocked never exceeds the block, and the difference is the margin of the quantity filled |
| CoverageRuns.FillSlack | src/clearing/src/api/trade/api.rs:196-317 | a fill unblocks exactly the share it fills, so no account's slack moves |
| SettlementCoverage.SettleSlack | src/clearing/src/api/settlement/api.rs:325-438 | a settlement call of any kind, stopping anywhere, leaves every account's slack unchanged |
| CoverageTheorem.StepSlack | src/clearing/src/trade/service.rs:134-139 | each step changes every account's slack by exactly its stated gain, never negative: no saturating subtraction clamps |
| CoverageTheorem.StepKeepsInv | src/clearing/src/api/trade/api.rs:109-144 | every step keeps margin covered, resting orders exactly blocked, plans well formed, and accounts under their positions |
| CoverageTheorem.MarginIsAlwaysCovered | src/clearing/src/api/settlement/api.rs:654-669 | in every reachable state each account's reserved margin in each domain covers its positions, orders and pending settlement entries |
| CoverageTheorem.SlackIsAccountedFor | src/clearing/src/api/trade/api.rs:109-144 | over any run, re-keys included, an account's slack is what it was under the owner it comes from plus overwritten orders and minting dust |
| CoverageTheorem.TightRunsAreExact | src/clearing/src/api/settlement/api.rs:542-581 | with fresh order ids and sets that divide a unit, slack only follows its account, so reserved margin that equalled what it covers stays equal to it |
| Conservation.TradedMoney | src/clearing/src/trade/service.rs:74-149 | from any prior positions a trade moves cash less cost basis plus a unit per contract short by the price's excess over a unit on each contract opened |
| Conservation.UnbackedTradedMoney | src/clearing/src/trade/service.rs:74-149 | on calls, puts and Social series a trade turns into cash exactly what both positions held are worth at its price beyond their cost basis |
| Conservation.MintedMoney | src/clearing/src/api/trade/api.rs:1012-1064 | minting adds its rounding dust and takes a unit for each contract short it buys back |
| Conservation.BuysBackNothing | src/clearing/src/api/trade/api.rs:1012-1064 | minting buys back nothing exactly when the holder is short in none of the outcomes |
| ConservationSettlement.PreparedMoney | src/clearing/src/api/settlement/api.rs:461-496 | opening a plan moves the total by the surplus of payoffs over what backed the positions, and on series that nothing backs by all that is paid beyond the margins |
| ConservationSettlement.DrivenMoney | src/clearing/src/api/settlement/api.rs:636-715 | driving a plan pays what it owes; fees reach the two funds when it completes and not before |
| ConservationTheorem.RunMoney | src/clearing/src/trade/service.rs:74-149 | over any run on series of every type the total changes by the sum of the steps' stated drifts |
| Balance.TradeIsNeutralIff | src/clearing/src/trade/service.rs:74-149 | an executed trade leaves the total as it was exactly when its scaled price is within one unit or it opens and closes no contracts on balance |
| Balance.SettlementIsNeutralIff | src/clearing/src/payoffs/mod.rs:39-187 | a settlement departs from it exactly when a binary price above one unit meets shorts or an undeclared outcome meets sets |
| Balance.OptionSettlementIsNeutralIff | src/clearing/src/payoffs/mod.rs:39-187 | settling a call or a put moves the total by its unit payoff for each contract, long or short, less their cost basis, and so by nothing exactly when the two are equal |
| Balance.SocialPaysShorts | src/clearing/src/payoffs/mod.rs:39-187 | settling a binary or categorical Social series pays a unit for each contract short, less the cost basis |
| Balance.StepKeepsBalance | src/clearing/src/trade/service.rs:253-289 | every step on any series keeps each outcome of a fully collateralised series held on balance as often as any other |
| Balance.CleanRunsConserve | src/clearing/src/trade/service.rs:74-149 | over runs that are clean on fully collateralised series (prices within one unit, mints by holders short in nothing, settlement within the contract) and arbitrary on all others, the total moves by minting dust, qty * unit mod N for each mint, by what redemption frees less a unit for each set, by what the other series realise and pay, and by nothing else |
| Balance.ZeroSum | src/clearing/src/api/settlement/api.rs:461-496 | over such runs from nothing open to nothing open, all cash and both funds together change by minting dust, and by those two terms, which are nothing where no set was redeemed and no call, put or Social series was traded or settled |
| Book.ValidateNoArbitrage | src/clearing/src/api/trade/api.rs:610-684 | the scan for best bids decides as the sum over distinct outcomes of true maxima does |
| Book.PlacedStaysSound | src/clearing/src/api/trade/api.rs:610-684 | an order the check lets through keeps the rule for every series, its own and the others |
| Book.RefusedWouldBreak | src/clearing/src/api/trade/api.rs:610-684 | a bid the check turns away would have broken the rule, and the refusal names the sum of best bids that would have stood |
| BookRuns.NeverAnArbitrage | src/clearing/src/api/trade/api.rs:83-144 | in every reachable state no binary bid exceeds one unit and best bids over the distinct outcomes sum to at most one unit |
| BookRuns.FillingBidsIsNeutral | src/clearing/src/api/trade/api.rs:196-317 | filling a bid of a sound book on a fully collateralised series leaves the total as it was |
| BookRuns.FillsAddUp | src/clearing/src/api/trade/api.rs:196-317 | over any run that spares an order, filled plus remaining quantity and unblocked plus blocked margin are its own, and it leaves the book exactly when filled |
| BookRuns.ReplayChangesNothing | src/clearing/src/trade/service.rs:39-72 | once a trade id has executed, sending it again at any later time changes nothing |
| CompleteSets.FloorOfFloor | src/clearing/src/api/trade/api.rs:1133-1159 | the floor of the floored grant per contract is the floor of one unit over N |
| CompleteSets.MintThenRedeem | src/clearing/src/api/trade/api.rs:1012-1159 | mint then redeem from nothing restores every quantity and every other position, pays no cash, and leaves reserved margin up by qty * (unit mod N), nothing exactly when N divides a unit |
| SettlementAmounts.PlanIsExact | src/clearing/src/api/settlement/api.rs:443-540 | a plan has one entry for each position with its exact cashflow, and its two fee totals are the sums of each position's two shares, rounded down one by one |
| SettlementAmounts.PreparesIff | src/clearing/src/api/settlement/api.rs:443-540 | a settlement is prepared exactly when the input fits what is held and the gains of all entries are within the equity all accounts would end with; a refusal names both |
| SettlementAmounts.FundsGainTheirShares | src/clearing/src/api/settlement/api.rs:325-438 | from the call that opens a plan to its end, whatever runs in between, treasury and insurance fund each rise by their own share of what each position was paid, and a ratio of zero leaves its own fund alone |
| SettlementRuns.CallsStopAtHundreds | src/clearing/src/api/settlement/api.rs:690-699 | a call stops short only at a multiple of 100 where the counter runs, and at the first one |
| SettlementRuns.FinishingUncaches | src/clearing/src/api/settlement/api.rs:404-411 | the call that finishes a plan takes its series off the cache, and no other settle call touches the cache |
| SettlementRuns.EnoughChunksAreTheWholePass | src/clearing/src/api/settlement/api.rs:636-715 | any chunking with enough calls reaches the accounts, plan and funds of one pass |
| SettlementRuns.ChunksAreOnePass | src/clearing/src/api/settlement/api.rs:325-438 | after any calls with any chunk boundaries the state is that of one pass to where they stopped |
| SettlementRuns.CallsTerminate | src/clearing/src/api/settlement/api.rs:636-715 | positions minus cursor falls at every call, and the last call finalises and credits both funds once |
| SettlementRuns.CallsAreChunks | src/clearing/src/api/settlement/api.rs:325-438 | a sequence of settle calls with the locked input does what the same chunks do, so the results on chunks are about the calls themselves |
| SettlementRuns.CallsFinalise | src/clearing/src/api/settlement/api.rs:325-438 | under any interleaving with other steps, more calls with the locked input than entries left finalise the plan with every entry applied and its fees in both funds |
| SettlementRuns.FinalisedAbsorbs | src/clearing/src/api/settlement/api.rs:342-344 | a finalised plan stays as it is through any run, and any settle call on its series afterwards, whatever its input, is answered finished and changes nothing |
| SettlementRuns.OtherInputIsRefused | src/clearing/src/api/settlement/api.rs:346-355 | the input locked first wins: after any run a call with another one changes nothing and is told both inputs, or finished once the plan is finalised |
| SettlementRuns.PlansOnlyAdvance | src/clearing/src/types/plans.rs:210-279 | over any run a plan keeps its input, entries and fees, its cursor never goes back, a finalised plan never changes, and the funds rise by its fees exactly when it is applied |
| SettlementRuns.AppliedExactlyOnce | src/clearing/src/api/settlement/api.rs:654-715 | in every reachable state the log holds, series by series, exactly the entries applied so far, once each and in order |
| SettlementRuns.PendingSettlementParams | src/clearing/src/api/settlement/api.rs:257-268 | lists every plan in flight once, with the input it locked |
| SettlementEffects.LineLeavesPayoffLessFees | src/clearing/src/api/settlement/api.rs:466-487 | an entry leaves its account over exactly payoff less both fees, for all four payoff types, which is not negative under the fee bound |
| SettlementEffects.DrivenFree | src/clearing/src/api/settlement/api.rs:658-669 | driving raises the free margin of each account by exactly what its entries leave over |
| SettlementEffects.SettlementNeverErodes | src/clearing/src/api/settlement/api.rs:325-438 | over any sequence of settle calls on any series, from preparations to last chunks, nobody's free margin falls |
| SettlementEffects.PlansStayFair | src/clearing/src/api/settlement/api.rs:466-487 | in every state reached while the two fee ratios stay within 10000 bps, every entry of every plan leaves its account something or nothing |
| SettlementEffects.SolvencyCheckPredicts | src/clearing/src/api/settlement/api.rs:594-634 | the total the check compares is the total of clamped equities once the last chunk is applied, however chunked |
| SettlementEffects.FailedCallsChangeNothing | src/clearing/src/api/settlement/api.rs:325-540 | a settle call fails exactly when it names another input than the locked one, or opens a series that is not cached, has an undefined payoff or outflows beyond that total; failing changes nothing |
| ClosedSeries.ClosedIff | src/clearing/src/api/settlement/api.rs:532-581 | a step keeps settled series free of orders and positions exactly when it is not an order, a trade or a mint that finds a plan on its series and passes its own checks |
| ClosedSeries.SettledStaysClosed | src/clearing/src/utils/series.rs:33-73 | over runs without such late steps a settled series never has an order or a position again |
| ClosedSeries.LookingAgainIsEnough | src/clearing/src/utils/series.rs:33-73 | over runs whose orders, trades and mints each find no plan on their series when they resume, settled series stay closed |
| Calendar.CivilIsTheCalendar | src/clearing/src/types/leaderboard.rs:121-137 | for every day count the closed form gives the year and month of a day-by-day Gregorian calendar |
| Calendar.MonthStepsOnTheFirst | src/clearing/src/types/leaderboard.rs:53-67 | the month id rises by one on the first of each month and on no other day |
| Calendar.MonthIdIsTheMonth | src/clearing/src/types/leaderboard.rs:53-67 | two days share a month id exactly when they share a calendar month, and differ by one exactly when one month follows the other |
| Calendar.WeekStepsOnMonday | src/clearing/src/types/leaderboard.rs:53-67 | the week id rises by one each Monday and on no other day |
| Calendar.PeriodsNeverFall | src/clearing/src/types/leaderboard.rs:77-82 | ids never fall with time; the prior id is one less and missing only for all time and the epoch's first week |
| Leaderboard.CompetitionRanks | src/clearing/src/api/leaderboard/api.rs:274-289 | the loop ranks each row by where its run of equal results begins |
| Leaderboard.RunStartIsRank | src/clearing/src/api/leaderboard/api.rs:274-289 | in a ranking that position is the number of strictly higher results in the population |
| Leaderboard.SelectNth | src/clearing/src/api/leaderboard/api.rs:186-188 | an in-place permutation with everything before the position ahead of everything from it on |
| Leaderboard.SortPrefix | src/clearing/src/api/leaderboard/api.rs:189-190 | orders the front part in place and leaves the rest where it was |
| Leaderboard.SelectedPrefix | src/clearing/src/api/leaderboard/api.rs:178-190 | whatever a selection does beyond partitioning, sorting the part in front gives the front of the full ranking |
| Leaderboard.RankingIsUnique | src/clearing/src/api/leaderboard/api.rs:222-230 | by_rank orders a population in one way only |
| PriorRanks.RangeIncrement | src/clearing/src/api/leaderboard/api.rs:354-363 | one range increment of the difference array raises exactly the prefix sums that end inside the range |
| PriorRanks.GlobalPriorRanks | src/clearing/src/api/leaderboard/api.rs:331-379 | one unsorted pass gives each shown principal one more than the number of strictly greater results in the bucket, and no rank to one the bucket lacks |
| LeaderboardPages.CollectPopulation | src/clearing/src/api/leaderboard/api.rs:241-268 | one row for each ranked principal: everyone in the bucket, or every listed member once, absent ones at zero |
| LeaderboardPages.PriorRanksFor | src/clearing/src/api/leaderboard/api.rs:300-320 | both ways of ranking the prior period agree on every row of the page |
| LeaderboardPages.ListLeaderboard | src/clearing/src/api/leaderboard/api.rs:150-220 | page, ranks, prior ranks, total and cursor are those that sorting both populations in full would give |
| LeaderboardPages.WalkSeesAll | src/clearing/src/api/leaderboard/api.rs:165-219 | following cursors with any limits sees every entry once, in order, and ends |
| Candles.BucketsPartitionTime | src/clearing/src/types/price_history.rs:43-46 | two instants share a bucket exactly when they share its start, and starts are the whole hours or days and grow with time |
| Candles.AggregatePriceHistory | src/clearing/src/api/trade/api.rs:859-905 | the capped newest-first scan that stops early gives the latest 1000 candles of grouping every point of the window oldest first |
| Candles.NaivePrepend | src/clearing/src/api/trade/api.rs:832-842 | folding an older point into the first candle is grouping with that point in front |
| Candles.NaiveSummarises | src/clearing/src/api/trade/results.rs:62-81 | a candle holds its bucket's first and last prices, the prices of least and greatest stored value, total quantity and count |
| Candles.ExtremesAreTrue | src/clearing/src/api/trade/results.rs:58-81 | where the points of a bucket share their precision its high and low are its highest and lowest prices |
| Candles.PrecisionDecides | src/clearing/src/api/trade/results.rs:58-81 | high and low are the true extremes whatever values are traded exactly when the precisions in the bucket are all the same |
| Paging.Apply | src/shared/src/types/series.rs:585-627 | a page is the entries beyond the cursor up to the limit, at least one, with the last id as cursor exactly when more remain |
| Paging.ListSettledSeries | src/clearing/src/api/settlement/api.rs:182-232 | the same page of the plans of one domain or of all |
| Paging.ListTradeHistory | src/clearing/src/api/trade/api.rs:738-777 | the same page of one series' trades, by a search for the resume point |
| Paging.WalksAreComplete | src/shared/src/types/series.rs:585-627 | following cursors with any limits, 0 included, ends and returns the whole listing without drop or repeat |
| Paging.SettledWalksAreComplete | src/clearing/src/api/settlement/api.rs:182-232 | so it does under a domain filter: every plan of the domain once, in id order |
| EventIndexes.EventIndex.IndexExecutedTrade | src/clearing/src/memory.rs:312-331 | adds the trade's notional to the series' totals and its point to the series' tape |
| EventIndexes.EventIndex.IndexSettledEvents | src/clearing/src/memory.rs:382-413 | folds each settled row into the week, month and all-time buckets |
| EventIndexes.EventIndex.RebuildSeriesTradeHistory | src/clearing/src/memory.rs:341-375 | one point and one volume entry for each trade row of the log, each tape sorted by id, which moves nothing on a log in order |
| EventIndexes.EventIndex.RebuildLeaderboard | src/clearing/src/memory.rs:421-434 | the buckets of every settled row of the log |
| EventIndexes.TradeRebuilds | src/clearing/src/trade/service.rs:291-342 | the two rows of a trade rebuild to one point of positive quantity |
| IndexSums.BucketsAreSums | src/clearing/src/types/leaderboard.rs:86-113 | in every window and period a bucket holds exactly the users with a settled row there, with the sum of their cashflows, the number of their rows and the number of gains |
| IndexSums.PageShowsTheLog | src/clearing/src/memory.rs:421-434 | every entry of a page shows those sums for the period, with one more than the number of users ranked who earned strictly more, then and in the period before, in order of what was earned |
| IndexSums.CallsWriteTheirEntries | src/clearing/src/api/settlement/api.rs:636-715 | a settle call appends one row for each entry it applies, with its user and cashflow, the price the series resolved to and the time of the call |
| IndexSums.CallsCountInTheirPeriod | src/clearing/src/memory.rs:382-413 | so the results of the call's own period gain the cashflows of those entries, and those of every other period stay |
| IndexSums.AllTimeIsEverythingApplied | src/clearing/src/memory.rs:382-434 | a user's all-time results are the entries applied to the user on all series so far, whatever is measured of them |
| IndexSums.BackfillWritesTheirEntries | src/clearing/src/api/settlement/api.rs:733-850 | a backfill writes the same rows at the plan's own time, for a finalised plan without rows and for no other |
| IndexSums.TapesAreTradeRows | src/clearing/src/memory.rs:341-375 | a tape is one point for each buyer's row of its series, with the row's id, price, quantity and time |
| IndexSums.VolumesAddUp | src/clearing/src/types/event.rs:70-107 | a volume counts the trades of its series and adds up quantity times price in USD, rounded down one by one, while nothing leaves the signed 128-bit range |
| IndexRuns.IndexesAreTheRebuild | src/clearing/src/memory.rs:312-434 | after any run of trades, fills, settlement chunks and backfills the indexes kept step by step equal a rebuild from the log, with ids ascending in every tape |
| IndexRuns.TapesAreChronological | src/clearing/src/api/trade/api.rs:850-857 | while the clock does not go back every tape is in time order, which the candle scan relies on |
| IndexRuns.BackfillSettlementEvents | src/clearing/src/api/settlement/api.rs:733-850 | the call visits plans until it stops, leaves the log the specified backfill leaves, keeps the indexes in step, and counts finalised plans visited, rows written and entries skipped |
| IndexRuns.BackfillIsExact | src/clearing/src/api/settlement/api.rs:733-850 | a visited finalised plan without rows gets one row for each entry, in order; every other series keeps its rows |
| IndexRuns.BackfillIsIdempotent | src/clearing/src/api/settlement/api.rs:716-732 | running it again adds nothing |
| IndexRuns.BackfillResumes | src/clearing/src/api/settlement/api.rs:816-833 | stopping and resuming behind the cursor is one pass |
| IndexRuns.NothingToBackfill | src/clearing/src/api/settlement/api.rs:677-715 | where settlement logged its own entries there is nothing to backfill |
| IndexRuns.WrittenOrSkipped | src/clearing/src/api/settlement/results.rs:43-56 | rows written and entries skipped together are the entries of the finalised plans visited |
| Reachable.EveryReachableState | src/clearing/src/api/settlement/api.rs:325-438 | from any funded accounts with nothing open, every reachable state at once has margin covered, a book without arbitrage and a log with each applied entry once and in order |
| Reachable.ReservedIsExact | src/clearing/src/api/trade/api.rs:109-144 | where nothing was reserved at first, ids were fresh and sets divided a unit, reserved margin is at every moment exactly what positions, orders and pending entries call for |
| Reachable.NoReachableCallErodes | src/clearing/src/api/settlement/api.rs:325-438 | in every state so reached while the fee ratios stayed within 10000 bps, no sequence of settle calls lowers anybody's free margin |
| Reachable.ReachableIndexes | src/clearing/src/memory.rs:312-434 | in every state reached from funded accounts with nothing open the indexes are those a rebuild makes of the log, in time order while the clock did not go back |
| Reachable.ReachableStandings | src/clearing/src/memory.rs:382-434 | in every state so reached, backfills included, the page served shows what the log says, and a user's all-time result is the sum of every entry settlement has applied to the user |
| Rekey.RekeyMovesEverything | src/clearing/src/account/reassignment.rs:248-272 | the new owner holds exactly what the old one held, the old one nothing, and nobody else's account or position moved |
| Rekey.RekeyKeepsTotals | src/clearing/src/account/reassignment.rs:248-272 | every total over positions that does not depend on the owner survives the re-key |
| Rekey.RekeySlack | src/clearing/src/account/reassignment.rs:205-248 | the re-key carries the old owner's slack to the new one and leaves everybody else's alone |
| Reassigner.Owners.RekeyAccount | src/clearing/src/account/reassignment.rs:236-274 | stores the plan, locks both principals and moves account and positions, as the re-key step specifies |
| Reassigner.Owners.FinishReassignment | src/clearing/src/account/reassignment.rs:170-178 | once every asset is done, finalises and stores the plan and unlocks both principals, which leaves the locks matching the remaining plans |
| Reassigner.Owners.RebuildReassignmentMarks | src/clearing/src/memory.rs:289-305 | locks exactly the principals of the plans that have not finalised |
| Reassigner.Owners.CustodyAssets | src/clearing/src/account/reassignment.rs:283-319 | lists each ledger asset the account has an entry for once, every one with a balance included, or names an asset with a balance that no ledger transfer can move |
| Reassignment.BeginsIff | src/clearing/src/account/reassignment.rs:148-234 | exactly when a call moves an account, continues a plan, finds it done, or is refused for naming another target |
| Reassignment.LocksAreAlwaysSound | src/clearing/src/account/reassignment.rs:119-175 | over every interleaving unfinalised plans name disjoint principals, and a principal is locked exactly while one names it |
| Reassignment.RebuildRestoresLocks | src/clearing/src/memory.rs:281-305 | the rebuild after an upgrade locks exactly the principals that were locked before it |
| Reassignment.GuardsSeeRekeys | src/clearing/src/account/reassignment.rs:84-111 | a guard revalidates after any interleaving exactly when its principal is not locked then and was not re-keyed in between |
| Reassignment.OneRekeyForEachId | src/clearing/src/account/reassignment.rs:148-178 | however often one id is replayed, at most one call re-keys |
| Drained.InterleavingsAreRuns | src/clearing/src/account/reassignment.rs:205-274 | under any interleaving the book itself has taken a run of its own steps, so everything proved of runs holds |
| Drained.OpeningVacates | src/clearing/src/account/reassignment.rs:236-274 | the opening call leaves both principals locked and the old owner without account, positions, orders or pending entries |
| Drained.DrainedStaysDrained | src/clearing/src/account/reassignment.rs:5-30 | until its plan is finalised the old owner is given nothing, over every interleaving of suspended calls, failed sweeps, other reassignments and upgrades, matched trades aside |
| Drained.MatchedTradesRevive | src/clearing/src/api/trade/api.rs:366-399 | a matched trade takes vacancy from a principal exactly when its id is fresh, validation lets it through and it names that principal |
| CustodySweep.RepliesAreRead | src/clearing/src/assets/icrc/handler.rs:89-102 | a block is read exactly from an executed or duplicate transfer, a new fee exactly from a refused one |
| CustodySweep.TransferMovesOnce | src/clearing/src/assets/icrc/handler.rs:114-143 | of the two attempts at most one moves anything, nothing is created or lost, and an answered block means the amount arrived once |
| CustodySweep.Sweeper.RunCachedFeeTransfer | src/clearing/src/assets/icrc/handler.rs:114-143 | sends with the cached fee, refreshes the cache on a refused fee and retries once |
| CustodySweep.Sweeper.SweepCustody | src/clearing/src/account/reassignment.rs:331-403 | sweeps from the first asset not yet done and stops at the first it cannot finish |
| CustodySweep.ReplaysAreSound | src/clearing/src/account/reassignment.rs:331-403 | over any replays with failures and lost replies at any await every ledger keeps its total, no source is overdrawn, and once all assets are done each source holds at most the fee quoted in its last pass |
| CustodySweep.SmoothPass | src/clearing/src/account/reassignment.rs:331-403 | an undisturbed pass with a fixed ledger fee finishes exactly when the quoted fee covers it or nothing is worth moving, and otherwise learns the fee for the next pass |
| SweptCustody.LedgersAreConserved | src/clearing/src/account/reassignment.rs:331-403 | over every interleaving of sweeps, failures, lost replies, replays and upgrades each ledger keeps its total over all subaccounts and burned fees |
| SweptCustody.OthersStayAway | src/clearing/src/account/reassignment.rs:119-146 | while a plan is pending only its own sweep touches the subaccounts of the principals it names |
| SweptCustody.PendingSweepsAreSound | src/clearing/src/account/reassignment.rs:331-403 | while a plan is pending each source only falls, each destination only grows, and what the plan records as moved has arrived, under every interleaving |
| SweptCustody.FinishedIsSwept | src/clearing/src/account/reassignment.rs:148-178 | from the call that opens a plan to the one that can finish it, every ledger asset the account had an entry for, and every one it had a balance of, has been swept, each old subaccount holds at most the fee last quoted, and each new one has received what is recorded |
| Departures.RedeemIsSafeIff | src/clearing/src/api/trade/api.rs:1090-1164 | redeeming keeps every covered state covered exactly when the contract declares no outcome twice |
| Departures.RedeemedTwice | src/clearing/src/api/trade/api.rs:1090-1164 | on a contract that declares its outcome twice, a covered run of a mint and a bid from funded traders is left 5000 short of cover by a redemption |
| Departures.OverpricedAsk | src/clearing/src/api/trade/api.rs:610-620 | a run of an ask at two units and its fill, from a sound funded state, takes one unit off the books |
| Departures.MintOverShort | src/clearing/src/api/trade/api.rs:1012-1064 | a run of a short sale and a mint by the seller, from a sound funded state, takes one unit off the books |
| Departures.UndeclaredOutcome | src/clearing/src/payoffs/mod.rs:39-150 | a run that mints one set and settles it at an undeclared outcome ends with nothing open and one unit of all cash gone |
| Departures.LateOrder | src/clearing/src/api/trade/api.rs:76-85 | a run that settles a series and then resumes a suspended order leaves the order resting on the finalised series |
| Departures.RealisedLossUncovered | src/clearing/src/trade/service.rs:163-187 | a run of two trades that both pass the check leaves a trader with equity 1000 against 2000 reserved |
| Departures.ReplacedOrder | src/clearing/src/api/trade/api.rs:109-144 | two bids placed under one id: with the second cancelled nothing is open and the first one's 5000 stay reserved |
| Departures.RefusedOrderOpensAccountIff | src/clearing/src/api/trade/api.rs:109-133 | a refused limit order leaves a trace, an empty account and nothing else, exactly when the rule and the margin are fine, equity is short of it, and the caller had no account |
| Departures.RefusedMintOpensAccountIff | src/clearing/src/api/trade/api.rs:1012-1040 | so does a refused mint exactly when quantity and contract are fine, equity is short, and the caller had no account |
| Departures.FalseHigh | src/clearing/src/api/trade/results.rs:58-73 | trades at 5 and at 0.40 in one hour make a candle whose high is 0.40 |
| Departures.OptionShortsArePaid | src/clearing/src/payoffs/mod.rs:172-187 | for calls and puts a short position settles for the same amount as a long one |
| Departures.TruncatedStrike | src/clearing/src/payoffs/mod.rs:72-120 | a call and a put at one half settled at one price written with and without a decimal pay half a unit apart |
| Departures.OptionsPayBoth | src/clearing/src/payoffs/mod.rs:172-187 | a run that sells a call and settles it in the money pays both sides and ends with nothing open and 6000 more cash |
| OwnerDepartures.RevivedOwner | src/clearing/src/api/trade/api.rs:366-399 | a run of the reassignment machine: the plan is pending and the old owner locked and vacant, and a matched trade gives it an account |
| OwnerDepartures.HeldUntilZero | src/clearing/src/types/margin.rs:68-83 | after setting a balance an account has an entry for the asset exactly when the balance is positive or another domain has one |
| OwnerDepartures.ForgottenAsset | src/clearing/src/account/reassignment.rs:276-319 | a run that deposits and withdraws an asset leaves the account without it on the custody list |

## Left out

- Registry administration (engines, groups, oracles, metadata), the minter, HTTP metrics and stable-memory migrations: field copies with easy claims only.
- Deposits and withdrawals: their plans, checks and transfers; they act on a local copy of their plan across awaits, and are kept out of conservation. What they do to balances is a step that may set any balance at any time, and the in-flight check of a reassignment takes their state as an input.
- Domain migration: it moves reserved margin and order tags but leaves positions under the series' own domain, so it does not keep coverage.
- Position freezing and accepting: their effect on coverage is one-sided, and their state is an input of the reassignment checks.
- The EVM handler, timers, the registry calls before a step and the authorisation of callers: call results, chunk boundaries and clocks are arbitrary inputs.
- Series ids and subaccounts: hashes, modelled as opaque values; a registered series is taken never to change under its id.
- Machine integers: quantities and amounts are unbounded, except where the code clamps, saturates, wraps or truncates (volumes, notionals, asset values, the redeem divisor, page limits, ledger amounts), which is modelled.
- The treasury is one number and not one for each asset, a price's optional timestamp and oracle are one opaque tag, and the user stored a second time inside an account or a position is left out.
- The order in which an ordered map is walked: the scans pick entries in an arbitrary order, and the specifications take any listing of them.
- Paging.Apply: assumes, as do the other listings, at most 2^32 - 1 entries, which a 32-bit canister cannot exceed.
- LeaderboardPages.ListLeaderboard: assumes that the ranked population fits in memory, at most 2^32 - 1 rows, as any vector of a 32-bit canister does.
- Candles.AggregatePriceHistory: assumes points in time order, as the source does; IndexRuns.TapesAreChronological shows that a clock that does not go back gives it.
- CoverageTheorem.MarginIsAlwaysCovered: covers matched trades that unblock nothing; TradeMargin.UnblockingIsCoveredIff says exactly which amounts an operator may unblock.
- Balance.ZeroSum: covers minting and redeeming of fully collateralised sets whose contracts declare no outcome twice; a contract that does breaks coverage already (Departures.RedeemIsSafeIff).
- Reassignment.LocksAreAlwaysSound: calls with one reassignment id are taken not to overlap, suspended calls not to survive an upgrade, and deposits and withdrawals to touch no locked principal, since one in flight refuses the re-key and the guard refuses a new one.
- CustodySweep.ReplaysAreSound: takes, as SweptCustody does, nobody else to pay into either subaccount during the sweep, and each attempt to be a new transaction to the ledger, since its creation time is stamped for each pass.
- The backfill's fallback to the current time: a plan's idempotency key always holds a time (src/clearing/src/types/payment.rs:6-17), so it is never taken.
- SettlementEffects.SolvencyCheckPredicts: speaks of settlement steps alone between the check and the last chunk.
- Settlement accuracy over an arbitrary window and the caller's own trade history: single scans with easy claims.
