# The economy of the Inery system contracts, verified

This project models what the Inery system contract, its token contract and its multisig contract do to
their tables, and proves the accounting they are for. Every action is one atomic step: its inline
transfers are part of it, and a failed check leaves nothing behind but the passing of time.

The contracts exist here twice. As values: `Voting`, `Staking`, `Memory`, `Rewards`, `Election`,
`Accounts`, `Token` and `Multisig` give each action as a function from a state to a new state or to the
check that failed, and `Runs` puts them together into events and runs. And as they are written:
`VotingTables`, `TokenTables`, `SystemContract` and `MultisigTables` hold the same tables as fields of
classes, updated in place by loops, by recursion and row by row. Each of those methods is proved to leave
the tables exactly as its function says, or to fail with the same check, and `SystemContract.Execute`
rolls back what an aborted transaction has written. The theorems about functions are therefore theorems
about the tables.

What is proved, by area:

- **Proxies** (`ProxyGraph`, `VotingRules`). The graph of proxies has no cycles in any reachable state,
  although chains grow to any length when proxies are unregistered. So the recursion that passes on a
  weight change ends, and never comes back to the voter that started it.
- **The ledger of votes** (`VoteLedger`, `ProxyLedger`, `VoteStep`, `VotingSteps`, `VoteExactness`,
  `ExactRuns`, `Locality`, `LocalityRuns`). Each running total should equal the sum it stands for. This is
  not true of all runs: a weight change of at most 1 is not passed on, yet recorded (voting.cpp:416 and 461).
  `RealRun.SkippedChangeIsLost` is a run from genesis, across the turn of a real week, after which the
  totals are wrong. The exact condition is proved for every action and over whole runs: the totals are
  right in every state of a run *if and only if* no event of it drops a non-zero change in this way. The
  condition, `SkipsNothing`, can be read off the state before an action, and in runs in which nobody
  registers as a proxy it always holds. A skip harms only those whom the skipping voter backs: over whole
  runs, whatever is skipped elsewhere, the totals of an account stay right as long as nobody who backs it is
  the one whose change is dropped, and nobody names it in a new choice of negative weight. A voter can have
  negative weight once its lenders' changes have been skipped; its choice is then recorded, but neither cast
  nor checked (voting.cpp:327 and 341).
- **Vote pay** (`VotePayIndex`, `VotePayRows`, `VotePaySteps`, `VotePayExactness`, `VotePayRuns`,
  `VotePaySolvency`). The contract keeps the sum of all producers' shares as one number and one rate. Vote pay
  is in order when this pair equals the sum over producers, which nobody ever computes, now and at any later
  time; when no producer has negative votes; and when the grand total is the sum of all votes (`Accrues`). It
  stays in order through votes, registrations, claims, freezing and thawing, whether or not the ledger of votes
  is exact, as long as no producer is driven below zero votes; and in all three respects together only as long
  as that. The condition, `LeavesNoDebt`, can again be read off the state before an action, and it holds of
  every action that skips nothing. The run of `RealRun` goes on to a vote that breaks it, where the clamp at
  voting.cpp:351 fires and rate and grand total go wrong (`RealRun.ClampBreaksTheIndex`).
- **The pair alone** (`VotePayPair`, `VotePairExactness`). A producer below zero does not always spoil the pair.
  Where the loop clamps, the pair stays right if and only if nobody who is earning is driven below zero, or
  nobody earns afterwards; where it does not, in propagation, if and only if the votes that earn still sum up
  to no less than zero. Both are carried to propagation, `regproxy`, votes and stake changes as equivalences.
  But negative votes do not last: `update_producer_votepay_share` does not let a share shrink (voting.cpp:214),
  so the next time the row of such a producer is brought up to date the pair is wrong
  (`VotePayPair.LateTouchBreaks`).
- **Stakes and refunds** (`StakeLedger`, `StakeSteps`, `LockUp`). Delegations, receivers' totals, voters'
  stakes and pending refunds agree; the checks that guard them cannot fail; tokens cover them; and nobody
  is ever refunded more than what it had undelegated three days before.
- **Memory** (`MarketSteps`). Bytes and tokens are conserved, sold memory stays covered by what was paid,
  and no sequence of trades takes out more than was put in.
- **Rewards** (`RewardSteps`, `ClaimFairness`, `VotePaySolvency`). The buckets are never in debt and never
  ahead of the tokens behind them, and claims at one time share the block bucket fairly in any order. With
  the revision set this holds of vote pay in every run; without it, vote pay is a ratio of votes, and no
  producer may have been driven below zero: a claim leaves the bucket in debt if and only if the claimant
  outvotes the grand total, as BOB would at the end of `RealRun`.
- **Election** (`ElectionProof`). The early-stopping walk over the vote index finds exactly the
  highest-voted active producers, if and only if no inactive producer with negative votes stands in front
  of the last of them.
- **Custody and locks** (`Custody`, `Payout`, `Locks`). Over whole runs: what the stake, memory and pay
  accounts hold for others stays covered unless they sign it away; a refund that is due can always be
  taken; a producer's floor balance and a pinned limit stay until they are given up.
- **Multisig** (`MultisigTrace`). The tables mean exactly what the run says, and execution submits exactly
  the approvals that still stand.

## Reading the state

`Chain.Chain` is the whole state: the voting tables (`Book`), the stake tables, the memory market, the pay
buckets, the limits accounts have with the chain, and the token ledger. `Orderly` (in `Invariants`) is the
invariant of every reachable state. Two more hold under conditions of their own, neither of which needs the
other: `Sound`, the exact ledger of votes, as long as nothing is skipped, and `Accrues`, vote pay in order,
as long as no producer is driven below zero. `Sane` (in `VotingRuns`) and `Earning` (in `VotePayRuns`) add
them to `Orderly`.

Three things are parameters of an event rather than computed: the time since the event before it, the
factor 2^(weeks/52) by which stake turns into vote weight in that week, and for a claim the number of
tokens issued. `Calendar.IsGrowth` says which factor goes with which time; no theorem but those of `RealRun`
needs it.

Inline transfers are made at the point where they are sent. On the chain they follow the action in the
same order; nothing in between reads a balance, so the tables end up the same.

Where comments and code differ, the model follows the code. `unregprod` marks an account as no longer
producing, `rmvproducer` does not; `makeprod` marks it again. The check in `update_votes` that one votes
only for oneself is modelled as written; the loops are written for ballots of any length. The revision
that switches the vote-pay formula is set at genesis and kept, because no action here changes it; both
formulas are modelled. Where the contents
of a row read through an end iterator decide something, in `update_votes` and in `sellres`, reading it is a
failing check here; the one `makeprod` reads (voting.cpp:239) is not used, and the read is left out.

## Model

| member | source | states |
|---|---|---|
| ProxyGraph.NoChainReturns | contracts/inery.system/src/voting.cpp:413-465 | acyclic means that no chain of proxies, however long, leads back to where it started |
| ProxyGraph.PointAtRoot | contracts/inery.system/src/voting.cpp:316-325 | a voter that leaves its proxy for a root, or for none, closes no cycle, however long the chain behind it is |
| ProxyGraph.PropagateFrame | contracts/inery.system/src/voting.cpp:413-465 | propagation meets no voter twice and, at or above the rank of the voter it starts from, changes nothing but that voter's weight |
| ProxyGraph.PropagationTerminates | contracts/inery.system/src/voting.cpp:413-465 | from every voter of an acyclic graph the recursion ends |
| VoteLedger.CastAllGaps | contracts/inery.system/src/voting.cpp:339-385 | casting ballots moves each producer's total by its ballot, the grand total by their sum, and no other total, unless the clamp fires |
| ProxyLedger.PropagateKeepsLedger | contracts/inery.system/src/voting.cpp:413-465 | propagation keeps every running total equal to its sum if and only if it drops no non-zero change of size at most 1 |
| VotingRules.VoteFrame | contracts/inery.system/src/voting.cpp:262-392 | a vote writes down the choice and moves only weights, votes and shares; the proxy graph stays acyclic and ballots stay free of repetitions |
| VotingRules.VoteEnds | contracts/inery.system/src/voting.cpp:262-392 | a vote is turned down only by one of eleven checks; endless recursion and a vanished proxy are not among them |
| ProxyLedger.PropagateHarms | contracts/inery.system/src/voting.cpp:413-465 | a skip leaves all totals right but those of whom the skipping voter backs, and these are out by exactly what it dropped |
| VoteStep.VoteKeepsSound | contracts/inery.system/src/voting.cpp:262-392 | a vote that skips nothing keeps the ledger of votes, whatever it votes for |
| VotingSteps.RegProxyExactIff | contracts/inery.system/src/voting.cpp:394-411 | after `regproxy` the ledger is exact if and only if the change was not skipped |
| VoteExactness.VoteExactIff | contracts/inery.system/src/voting.cpp:262-392 | after a vote the ledger is exact if and only if neither of its two propagations drops a non-zero change: no two losses ever cancel out |
| VoteExactness.StakeExactIff | contracts/inery.system/src/delegate_bandwidth.cpp:353-376 | the same for a stake change |
| VoteExactness.StakeTwiceExactIff | contracts/inery.system/src/delegate_bandwidth.cpp:417-425 | and for two stake changes in a row, which is what `buymembytes` makes: the second never repairs what the first has lost |
| VoteExactness.VoteKeepsOwn | contracts/inery.system/src/voting.cpp:327-341 | a vote with non-negative weight records a ballot for the voter alone or none |
| ExactRuns.PerformExactIff | contracts/inery.system/src/voting.cpp:262-465 | after any action the ledger is exact if and only if the action skipped nothing |
| ExactRuns.ExactIffNothingSkipped | contracts/inery.system/src/voting.cpp:262-465 | over whole runs: the totals equal their sums in every state if and only if no event skips a change |
| Locality.SkippedIffHurts | contracts/inery.system/src/voting.cpp:413-465 | a propagation skips nothing if and only if it hurts nobody |
| Locality.VoteKeepsRight | contracts/inery.system/src/voting.cpp:262-392 | a vote in books that may be wrong elsewhere leaves right the two totals of everybody whom neither of its propagations hurts and whom it does not name with negative weight |
| LocalityRuns.RunKeepsFair | contracts/inery.system/src/voting.cpp:262-465 | over whole runs the totals of an account stay right as long as no event drops the change of a voter who backs it or names it in a new choice of negative weight, whatever else is skipped or chosen |
| LocalityRuns.ReachableFair | contracts/inery.system/src/voting.cpp:262-465 | the same from genesis, under the same condition on the account alone |
| Calendar.SaturdayGrowth | contracts/inery.system/src/voting.cpp:174-178 | the factor of the first second of week 1197 since 2000 is the 52nd root of 2 times that of the week before, here to fourteen digits |
| RealRun.SkippedChangeIsLost | contracts/inery.system/src/voting.cpp:413-462 | a run from genesis with the factors of its times: exact until the week turns, and wrong after a `regproxy` whose change is between 0 and 1 |
| RealRun.ClampBreaksTheIndex | contracts/inery.system/src/voting.cpp:346-383 | two votes later a producer is driven below zero, and neither the rate nor the grand total is the sum over producers any more |
| RealRun.BobOutvotesTheTotal | contracts/inery.system/src/producer_pay.cpp:137-145 | and the other producer then outvotes the grand total, enough to overdraw a vote bucket of ten trillion units |
| VotePayIndex.UpdateTotalExact | contracts/inery.system/src/voting.cpp:180-206 | when what is owed is non-negative the global update accrues exactly and neither clamp fires |
| VotePayIndex.CastIndexedIff | contracts/inery.system/src/voting.cpp:339-385 | over a loop of either kind the share always stays the sum, and the pair does if and only if the votes that earn sum up to no less than zero and the clamp gave none back that anybody still earns beside |
| VotePayIndex.CastAllIndexed | contracts/inery.system/src/voting.cpp:339-385 | casting any number of ballots that drive nobody below zero keeps share and rate equal to the sums, at any later time, and neither clamp of the update fires |
| VotePayPair.ClampedIndexedIff | contracts/inery.system/src/voting.cpp:339-385 | from vote pay in order the loop of a vote keeps the pair right if and only if no ballot drives a producer below zero who is within three days of its last claim, or nobody earns afterwards |
| VotePayPair.UnclampedIndexedIff | contracts/inery.system/src/voting.cpp:425-459 | the loop of propagation keeps the pair right exactly while the votes that earn sum up to no less than zero |
| VotePayPair.LateTouchBreaks | contracts/inery.system/src/voting.cpp:208-229 | whoever is earning on negative votes breaks the pair at the next later touch of its row, whatever the ballot |
| VotePayPair.PropagateIndexedIff | contracts/inery.system/src/voting.cpp:413-465 | propagation keeps the pair right if and only if that sum holds where it ends; otherwise the rate stands at zero above it |
| VotePayPair.RegProxyIndexedIff | contracts/inery.system/src/voting.cpp:394-411 | the same for `regproxy` |
| VotePairExactness.VoteIndexedIff | contracts/inery.system/src/voting.cpp:262-392 | from vote pay in order and own ballots, a vote leaves the pair right if and only if the rate follows the votes that earn at each of its three casts: no two errors cancel out |
| VotePairExactness.StakeIndexedIff | contracts/inery.system/src/delegate_bandwidth.cpp:353-376 | the same for a stake change |
| VotePaySteps.CastAccruesIff | contracts/inery.system/src/voting.cpp:339-385 | pair, non-negative votes and grand total stay in order together if and only if nobody is driven below zero: else the grand total is short after the clamp, or votes are negative without it |
| VotePaySteps.PropagateAccrues | contracts/inery.system/src/voting.cpp:413-465 | propagation keeps vote pay in order, pair included, if the producers it ends at stay at or above zero; if not, it leaves one of them with negative votes |
| VotePaySteps.VoteAccrues | contracts/inery.system/src/voting.cpp:262-392 | a vote keeps vote pay in order, exact ledger or not, if neither proxy nor its own ballots drive a producer below zero |
| VotePaySteps.RegProxyAccruesIff | contracts/inery.system/src/voting.cpp:394-411 | `regproxy` keeps pair, non-negative votes and grand total together if and only if what it passes on drives nobody below zero |
| VotePayExactness.VoteAccruesIff | contracts/inery.system/src/voting.cpp:262-392 | where everybody votes for itself only, a vote keeps pair, non-negative votes and grand total together if and only if none of its three casts drives a producer below zero |
| VotePayExactness.StakeTwiceAccruesIff | contracts/inery.system/src/delegate_bandwidth.cpp:353-376 | the same three together for stake changes, one or two in a row: the second mends nothing |
| VotePayRows.RegisterAccrues | contracts/inery.system/src/voting.cpp:29-78 | registration, new or again, keeps vote pay in order |
| VotePayRows.ClaimAccrues | contracts/inery.system/src/producer_pay.cpp:103-165 | a claim takes the same share out of both sides of the index, and a frozen producer starts earning again |
| VotingRuns.RunKeepsSane | contracts/inery.system/src/voting.cpp:180-465 | over every run that skips nothing all running totals equal their sums |
| OwnVotes.PerformKeepsOwn | contracts/inery.system/src/voting.cpp:327-341 | after every action but a new choice with negative weight every recorded ballot still names its voter alone |
| VotePayRuns.RunKeepsEarning | contracts/inery.system/src/voting.cpp:180-465 | over every run that drives no producer below zero, exact ledger or not, global share + rate * time is the sum over producers, votes are non-negative and the grand total is their sum |
| VotePayRuns.EarnsIffNoDebt | contracts/inery.system/src/voting.cpp:180-465 | in runs without new choices of negative weight, pair, non-negative votes and grand total are all right in every state if and only if no event drives a producer below zero |
| VotePayRuns.QuietRunLeavesNoDebt | contracts/inery.system/src/voting.cpp:339-465 | a run that skips nothing drives nobody below zero |
| PlainRuns.PlainRunSkipsNothing | contracts/inery.system/src/voting.cpp:394-465 | in runs in which nobody registers as a proxy nothing is ever skipped |
| PlainRuns.ReachableLedger | contracts/inery.system/src/voting.cpp:180-465 | from genesis the totals equal their sums in every state of a run without proxy registrations, or without skips |
| VotePaySolvency.ReachableIndex | contracts/inery.system/src/voting.cpp:180-465 | from genesis the index is right at any later time, in every state of a run that drives nobody below zero, skips nothing or registers no proxy |
| StakeLedger.RedelegateAgrees | contracts/inery.system/src/delegate_bandwidth.cpp:190-260 | once the delegation row stays non-negative the receiver's totals do too, and all column and row sums move by the delta |
| StakeLedger.ChangeBwAgrees | contracts/inery.system/src/delegate_bandwidth.cpp:176-376 | after any stake change the delegation table, the receivers' totals and the voters' stakes agree |
| StakeLedger.ChangeBwCannotFail | contracts/inery.system/src/delegate_bandwidth.cpp:176-376 | the checks on totals, on the voter's stake and on the refund row never fail, and the votes it re-weighs never recurse for ever |
| StakeSteps.ChangeBwEffect | contracts/inery.system/src/delegate_bandwidth.cpp:176-351 | what is owed grows by exactly the tokens sent; pinned limits stay, unmanaged ones follow the totals and memory limits never fall; tokens are conserved and floors kept |
| Invariants.RefundEffect | contracts/inery.system/src/delegate_bandwidth.cpp:404-415 | a refund pays exactly its row, never nothing, and not before three days have passed |
| Payout.RefundPaysIff | contracts/inery.system/src/delegate_bandwidth.cpp:404-415 | a refund is paid if and only if its owner signs, it is pending and three days old, and the owner may receive tokens |
| Payout.ReachableRefundsPay | contracts/inery.system/src/delegate_bandwidth.cpp:404-415 | so it is in every reachable state, unless somebody has signed for the stake account |
| LockUp.SettleMoves | contracts/inery.system/src/delegate_bandwidth.cpp:263-328 | a stake change touches its owner's refund only, and each undelegation restarts the clock |
| LockUp.RefundsAreLockedUp | contracts/inery.system/src/delegate_bandwidth.cpp:263-415 | over every run an owner has been refunded at most what it undelegated at whole seconds three days ago |
| MarketSteps.SellingReturns | contracts/inery.system/src/exchange_state.cpp:38-70 | buying with any amount and selling the result returns the amount without its last four digits |
| MarketSteps.MarketRoundTrip | contracts/inery.system/src/exchange_state.cpp:11-36 | on the market itself the round trip puts every byte back and keeps what rounding took |
| MemoryTrips.BuyBytesDelivers | contracts/inery.system/src/delegate_bandwidth.cpp:417-425 | `buymembytes` gives the receiver exactly the whole mebibytes asked for, and the market takes in exactly their price |
| MemoryTrips.BytesRoundTrip | contracts/inery.system/src/delegate_bandwidth.cpp:107-166 | a later `sellres` of them puts every byte back, pays exactly the price and leaves the market as if it had only grown |
| MarketSteps.BuyEffect | contracts/inery.system/src/delegate_bandwidth.cpp:45-105 | quote, memory stake and memory account grow by the amount; the receiver gets the bytes the market gives up, and its unmanaged limit follows; memory stays covered |
| MarketSteps.SellEffect | contracts/inery.system/src/delegate_bandwidth.cpp:107-166 | selling is the reverse, and the stake that came with the memory goes into the refund |
| MarketSteps.SaleIsCovered | contracts/inery.system/src/delegate_bandwidth.cpp:146-148 | the check that should never fail never fails |
| AccountSteps.SetMemKeeps | contracts/inery.system/src/inery.system.cpp:65-84 | more memory goes to the market alone and stays conserved |
| AccountSteps.SetMemRateKeeps | contracts/inery.system/src/inery.system.cpp:86-109 | so does the growth by blocks, whatever the rate |
| AccountSteps.SetAcctKeeps | contracts/inery.system/src/inery.system.cpp:141-272 | pinning sets one limit, releasing it puts it back to what the owner's row says, and no other limit moves |
| AccountSteps.SetALimitsKeeps | contracts/inery.system/src/inery.system.cpp:123-139 | only accounts without row and without pin can be limited by hand |
| AccountSteps.NewAccountKeeps | contracts/inery.system/src/inery.system.cpp:308-333 | a new account starts with matching limits |
| AccountSteps.PerformKeepsOrderly | contracts/inery.system/src/delegate_bandwidth.cpp:45-425 | every action keeps every ledger of the chain |
| AccountSteps.RunKeepsOrderly | contracts/inery.system/src/delegate_bandwidth.cpp:45-425 | so does every run: stake, token, memory and block ledgers agree and unmanaged limits equal stakes in every reachable state |
| AccountSteps.GenesisOrderly | contracts/inery.system/src/inery.system.cpp:352-373 | the state that `init` leaves behind is orderly |
| TokenLedger.TransferEffect | contracts/inery.token/src/inery.token.cpp:108-152 | a transfer moves the quantity between two accounts and nothing else; a producing sender keeps its floor |
| TokenLedger.IssueEffect | contracts/inery.token/src/inery.token.cpp:29-67 | issuing raises the supply and one balance together, within the maximum |
| TokenLedger.RetireEffect | contracts/inery.token/src/inery.token.cpp:84-106 | retiring lowers both and never takes the supply below zero |
| TokenLedger.BookkeepingEffect | contracts/inery.token/src/inery.token.cpp:7-26 | creating a symbol and opening or closing an empty row move no tokens |
| Custody.StakeKeepsBacking | contracts/inery.system/src/delegate_bandwidth.cpp:176-351 | tokens minus delegations minus refunds stay constant under restaking, transferred delegation and undelegation |
| Custody.RefundKeepsBacking | contracts/inery.system/src/delegate_bandwidth.cpp:404-415 | and under refunds |
| Custody.TokenTakes | contracts/inery.token/src/inery.token.cpp:84-152 | the token contract takes tokens only from accounts that signed |
| Custody.PerformCovered | contracts/inery.system/src/delegate_bandwidth.cpp:45-425 | no action uses up the stake, memory or pay accounts without their signature; quote and memory stake move with the payments |
| Custody.RunCovered | contracts/inery.system/src/delegate_bandwidth.cpp:45-425 | the same over runs |
| Custody.MemoryNeverWins | contracts/inery.system/src/delegate_bandwidth.cpp:45-166 | no run is paid more for memory than was paid for it |
| Custody.ReachableCovered | contracts/inery.system/src/delegate_bandwidth.cpp:45-425 | in every reachable state the balances cover delegations plus refunds, the memory stake and the block bucket |
| VotePaySolvency.RunKeepsVoteSurplus | contracts/inery.system/src/producer_pay.cpp:50-170 | over every run the vote-pay account stays ahead of its bucket, and the bucket out of debt: with the revision always, without it if nobody is driven below zero |
| VotePaySolvency.ReachableVotePay | contracts/inery.system/src/producer_pay.cpp:50-170 | the same from genesis: the account holds at least its bucket unless somebody signs for it |
| RewardSteps.SplitIsExact | contracts/inery.system/src/producer_pay.cpp:65-70 | for all factors the three parts are non-negative and add up to what is issued |
| RewardSteps.FillEffect | contracts/inery.system/src/producer_pay.cpp:61-94 | buckets and pay accounts grow together, supply grows by what is issued, the issuer keeps nothing |
| RewardSteps.VotePayBound | contracts/inery.system/src/producer_pay.cpp:129-145 | vote pay is nothing or at least the minimum and never more than the bucket: with the revision for every share and total, without it as long as no producer outvotes the grand total |
| RewardSteps.VotePayWithin | contracts/inery.system/src/producer_pay.cpp:123-145 | while the index is right the share cashed in is part of the global share, so the cap at line 134 is idle |
| RewardSteps.RoundingKeepsChange | contracts/inery.system/src/producer_pay.cpp:147-165 | the bucket is charged the pay rounded up and the account pays it rounded down: they differ by 0 or 1 |
| RewardSteps.ClaimOverdrawsIff | contracts/inery.system/src/producer_pay.cpp:129-156 | without the revision a claim leaves the vote bucket in debt if and only if the claimant outvotes the grand total by enough to be paid a whole token more than the bucket, and at least the minimum |
| RewardSteps.ClaimIsSolvent | contracts/inery.system/src/producer_pay.cpp:50-170 | a claim leaves the block surplus as it was, lets the vote surplus grow by 0 or 1, and no bucket falls below zero; without the revision the claimant must not outvote the grand total |
| RewardSteps.BlockEffect | contracts/inery.system/src/producer_pay.cpp:28-48 | a block adds one to its producer and to the counter, which stays the sum |
| ClaimFairness.ClaimOrderFairness | contracts/inery.system/src/producer_pay.cpp:118-121 | in a round of claims the one after i others is paid at least its fair share rounded down and at most i above it |
| ClaimFairness.RoundEmptiesBucket | contracts/inery.system/src/producer_pay.cpp:118-156 | when everyone has claimed the bucket is exactly empty |
| ElectionProof.ElectionExactIff | contracts/inery.system/src/voting.cpp:128-148 | the walk takes min(101, candidates) producers, none twice, with nobody left out who has more votes, if and only if no inactive producer with negative votes precedes the last who should have a seat |
| ElectionProof.DebtShutsOut | contracts/inery.system/include/inery.system/inery.system.hpp:185 | a table, as a table, on which that fails: one candidate, and nobody is elected |
| ElectionProof.BlockProposesElected | contracts/inery.system/src/voting.cpp:128-162 | a block that proposes a schedule proposes exactly those producers, under the same condition |
| VotePaySolvency.ReachableElection | contracts/inery.system/src/voting.cpp:128-162 | so it does in every state reachable from genesis without driving a producer below zero |
| Locks.ProducerStaysFunded | contracts/inery.token/src/inery.token.cpp:137-152 | from a successful `makeprod` until `unregprod` the account holds at least 500 000 000 units, whatever happens |
| Locks.PinStays | contracts/inery.system/src/inery.system.cpp:141-272 | a pinned limit stays where it was pinned until it is pinned or released again |
| MultisigTrace.TablesMeanTheRun | contracts/inery.msig/src/inery.msig.cpp:9-140 | proposals and approvals exist together; requested plus provided is what was asked for; provided times are the approvals without the oldest, one for each taken back |
| MultisigTrace.ExecSubmitsWhatStands | contracts/inery.msig/src/inery.msig.cpp:142-189 | execution submits the proposed transaction with each level as often as it has approvals later than its actor's last invalidation |
| MultisigTrace.ExecWithDistinctLevels | contracts/inery.msig/src/inery.msig.cpp:152-164 | a level asked for once counts if and only if its latest approval is not taken back and strictly later than the last invalidation |
| MultisigTrace.ExecutedAtMostOnce | contracts/inery.msig/src/inery.msig.cpp:142-189 | each execution uses up one proposal |
| VotingTables.VotingTables.UpdateTotalVotepayShare | contracts/inery.system/src/voting.cpp:180-206 | the global share in place, as its function says |
| VotingTables.VotingTables.MoveVotes | contracts/inery.system/src/voting.cpp:343-377 | one turn of the loop over producers |
| VotingTables.VotingTables.PropagateWeightChange | contracts/inery.system/src/voting.cpp:413-465 | the recursion in place, ending by the rank of the proxies, leaves the tables as `Propagate` says |
| VotingTables.VotingTables.ReweighProducers | contracts/inery.system/src/voting.cpp:425-458 | its loop over the voter's producers |
| VotingTables.VotingTables.CastBallots | contracts/inery.system/src/voting.cpp:336-385 | the loop over ballots, checking and moving one at a time, equals checking all and then moving all |
| VotingTables.VotingTables.CastVote | contracts/inery.system/src/voting.cpp:262-392 | the whole vote in place |
| VotingTables.VotingTables.RegisterAsProxy | contracts/inery.system/src/voting.cpp:394-411 | `regproxy` in place |
| TokenTables.TokenContract.TransferFrom | contracts/inery.token/src/inery.token.cpp:108-135 | a transfer in place |
| SystemContract.SystemContract.SettleRefund | contracts/inery.system/src/delegate_bandwidth.cpp:263-348 | the refund row and the two balances it absorbs, in place |
| SystemContract.SystemContract.ChangeStake | contracts/inery.system/src/delegate_bandwidth.cpp:176-351 | `changebw` in place |
| SystemContract.SystemContract.ChangeVotingPower | contracts/inery.system/src/delegate_bandwidth.cpp:353-376 | `update_voting_power` in place |
| SystemContract.SystemContract.PayRefund | contracts/inery.system/src/delegate_bandwidth.cpp:404-415 | `refund` in place |
| SystemContract.SystemContract.BuyMemory | contracts/inery.system/src/delegate_bandwidth.cpp:45-105 | `buyresources` in place |
| SystemContract.SystemContract.SellMemory | contracts/inery.system/src/delegate_bandwidth.cpp:107-166 | `sellres` in place |
| SystemContract.SystemContract.PinAccount | contracts/inery.system/src/inery.system.cpp:141-272 | `setacctmem`, `setacctnet` and `setacctcpu` in place |
| SystemContract.SystemContract.UpdateElectedProducers | contracts/inery.system/src/voting.cpp:128-162 | the walk as a loop |
| SystemContract.SystemContract.ClaimReward | contracts/inery.system/src/producer_pay.cpp:50-170 | `claimrewards` in place |
| SystemContract.SystemContract.Execute | contracts/inery.system/src/delegate_bandwidth.cpp:45-425 | one transaction: the tables become what `Step` says, rolled back when a check fails, and the invariant is kept |
| MultisigTables.MultisigContract.CollectStanding | contracts/inery.msig/src/inery.msig.cpp:154-163 | the loop that collects the approvals that count |
| MultisigTables.MultisigContract.Execute | contracts/inery.msig/src/inery.msig.cpp:9-205 | one multisig transaction in place, rolled back when a check fails |

## Left out

- IEEE rounding: vote weights, shares and vote pay are exact reals. The additions of a `double` total would otherwise drift.
- Machine words: amounts are unbounded integers. Tokens stay below 2^62 by the token contract's own bound; the memory prices are those of the code for amounts below 2^43, where scaling by 2^20 in a `double` is exact. The product in `update_mem_supply` wraps as in the code.
- The inflation formula: the number of tokens a claim issues is an arbitrary non-negative number.
- `total_mem_bytes_reserved`: an approximation no ledger depends on; the check of `setmem` against it takes it as an input.
- The order of the proposed schedule, which sorts by votes narrowed to 16 bits: only its members are kept.
- The size of the last schedule, which the code never writes, and `last_block_num`, which nothing reads.
- Deferred refund transactions: the refund action is modelled, its scheduling is not.
- The vesting rule for the account `b1`, and the statistics in `tokens_claim`.
- Producers without a row in the second producer table: registration writes both rows, so such rows exist only on chains upgraded from an older contract.
- Symbols other than the core symbol in stake actions, symbol names, memos, URLs, keys, locations and who pays for table space. The core symbol is INR with 4 digits.
- `init` as an action: `Genesis` is the state it leaves behind, with one issued token.
- `setparams`, `setpriv`, `activate`, the ABI hash table and the bios and wrap contracts: they move no tokens and keep no ledger.
- Older multisig approval rows without times, which new proposals never create.
- The chain's own rules for authority: who signed is an input, and so is the answer of `check_transaction_authorization`.
- DebtShutsOut: a statement about tables. That the chain can reach a table with a debt in front of a candidate is not shown: each skip drops a weight of at most 1, while one unit of stake weighs millions.
- EarnsIffNoDebt: that driving somebody below zero always breaks vote pay in one of its three respects is proved for runs in which nobody makes a new choice with a negative weight. Such a choice is recorded unchecked and may name any producers (voting.cpp:327 and 341), and then one cast can undo the debt that another has left on the same producer. That driving nobody below zero keeps it needs no such condition.
- Steps signed by `inery.stake` itself: they skip transfers and refunds on purpose, so statements about backing exclude them.
