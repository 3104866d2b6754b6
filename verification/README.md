# Verified model of a skin-case site

Dafny proofs about four parts of the repository: how an item is bought for a
player on a remote market, how odds are solved and become tickets, how openings,
spins, contracts and battles move money, items and nonces, and how the
read-through cache stays fresh. `dafny verify dfyconfig.toml` checks all of it.

## What is modelled

**Market withdrawals** (`Market*.dfy`). A withdrawal becomes one purchase per
item on a market that may charge and lose its reply, under a worker that may
crash between any two statements, with retries and a poller. `MarketWorld` is a
transition system: one step is one database statement or transaction, one
answer of the market, one move of the market, a player, an operator or the
clock, or a crash. `MarketInvariant` and `MarketSteps` hold the inductive
invariant, `MarketSafety` and `MarketSettle` what follows from it.
`MarketProcessor` and `MarketPoller` are the worker's own methods, each proved
to do exactly what some sequence of protocol steps does. `MarketLines` and
`MarketOutcome` say how a line and a whole job end without those steps: which
account pays, what is charged, and where row, item and request end up.
`MarketPool` and `MarketClient` are the account pool and the request queue.

The code decides the safety properties only under these premises, which are the
guards of the steps in `MarketWorld`:

- A processing run, a poll of its rows and a settle of the same request do not
  overlap. Crashes may cut a run anywhere, and requests interleave freely. Two
  overlapping polls of one request are excluded as well.
- A retry's lookup on the account that was charged shows that account's newest
  charge for the custom id: a purchase that was sent is charged before any later
  lookup, or never, however late its reply. A poll's answer is truthful once the attempt is
  older than the 15 minute grace period less the 20 second request timeout, and
  is acted on within that timeout.
- A lookup gives information, nothing, or a transport error, never a refusal.
- A refused purchase was not charged, and the market never charges more than
  the price it is given.
- Stages 2 and 5 are final. New requests take only AVAILABLE items.
- Account rows are not deleted. The column is set to null if one is, and a
  retry then skips its lookup, which the comment at lines 192-194 of
  `market-processor.ts` rules out.

`MarketPremises` shows, from every reachable world, what breaks without them: a
settle in the middle of a run, a poll in the middle of a run, a retry's lookup
that misses its charge, a lookup answered by a refusal, and a deleted account.
It also reaches worlds where each of these applies.

**Odds** (`Reals`, `Exponential`, `Weights`, `Tilt`, `Bisection`, `Apportion`,
`LargestRemainder`, `Distribution`, `Contract*`, `Balanc*`, `Tickets`,
`Rolls`). Exact reals; `Math.exp` is any function that turns sums into products
and lies above its tangent at 0, `Math.log` undoes it, `Math.pow(b, e)` is
`exp(e * log b)`. Products in sums over lists are written `Mul` and `Div`, which
proofs hide, so that only `Reals` reasons about non-linear arithmetic.

Neither solver checks that its search range straddles the target. For every
pool the solved value is as close as stated to the target clamped to what the
range reaches. The contract solver is saved by the check for outcomes without a
ticket: a pool out of reach loses one of its two ends, so every accepted table
pays its target, although the guard before the solver lets such pools in and the
comment at lines 124-135 of `contract.ts` argues that there are none. The case
solver has no such check: the comment at lines 217-218 of `balancing.ts` is
wrong for prices that nearly agree. There a target within reach is met within the
solver's gap, and one further out of reach than that gap is missed by more.

**Games and money** (`Battle`, `Site*`, `BattlesService`). The tables are one
record; a transaction is a function from tables to new tables or an error, and
the service classes carry it out step by step on a copy that is committed at the
end. `SiteInvariant` proves that every transaction keeps the invariant,
`SiteRuns` and `SiteSafety` what follows for every run. `SiteTerms` and
`SiteCommits` say when each transaction goes through and what it records, read
off the tables before and after. Each transaction is
atomic; what is read before one (the case of an opening, the list of open
vouchers, the cases of a new battle, the wheel) may be out of date.
Balances stay non-negative on that premise: `adjustBalance` reads the balance,
checks it and then increments it without a condition, so its refusal of a
negative result rests on nothing else moving the balance in between.
`HMAC` is any function from a server seed, a client seed and a nonce to hex
digits.

**Cache** (`Cache`, `CacheService`). Readers, bumps, expiries, database writes
and failing Redis commands interleave command by command. A counter that was
there stays there.

Ids are natural numbers where only equality or order matters.

## Model

| member | source | states |
|---|---|---|
| `Market.MaxPayableIsTightest` | packages/shared/src/market.ts:121-123 | the ceiling is the largest whole price within the operator's overpay allowance, both ways |
| `Market.MarketPriceRoundTrip` | packages/shared/src/market.ts:91-100 | site price to market units and back is exact in every currency |
| `Market.UsableAccountsPayInSiteUnits` | packages/shared/src/market.ts:80-94 | on any account the pool may pick, market units and site units coincide |
| `Market.PickAccount` | packages/shared/src/market.ts:157-177 | least recently used eligible account, first in the list on a tie; none exactly when no account is eligible |
| `Market.PickOffer` | packages/shared/src/market.ts:213-221 | a cheapest takeable offer, the first in the list on a tie; none exactly when nothing is takeable |
| `MarketPool.Pool.Reload` | apps/bot/src/market-pool.ts:102-121 | rows replaced, a row whose key cannot be decrypted marked ERROR unless the mark is not stored; a client exists exactly for a loaded account that had one or whose key decrypts |
| `MarketPool.Pool.Refresh` | apps/bot/src/market-pool.ts:132-161 | every account that is not disabled and can be asked takes its reported balance and currency, ONLINE exactly if the currency is the site's, ERROR if it could not be asked; the others stay |
| `MarketPool.Pool.Claim` | apps/bot/src/market-pool.ts:172-185 | the pick is debited once and stamped, and nothing comes back exactly when there is no pick or the pick has no client; between two reloads the claims on an account never exceed its read balance |
| `MarketPool.CoveredIsPayable` | apps/bot/src/market-pool.ts:172-185 | while every account in rotation can be asked and one covers the rest of the total, each price within it can be paid, whichever account was used last |
| `MarketPool.ClaimsRotate` | apps/bot/src/market-pool.ts:172-185 | two claims running never take the same key while another that could pay was used less recently |
| `MarketClient.Client.Enqueue` | packages/shared/src/market-client.ts:224-235 | a call is chained with `then` onto the end of the chain and starts, one interval after the last start, never early; it rejects exactly if it fails, and the caught end resolves |
| `MarketClient.Client.EnqueueAll` | packages/shared/src/market-client.ts:224-235 | every call of any list, failing ones included, starts, in submission order, when the caught chain says |
| `MarketClient.CaughtCallsAllStart` | packages/shared/src/market-client.ts:231-233 | with the catch every call starts, whichever calls before it were rejected |
| `MarketClient.UncaughtFailureStopsTheRest` | packages/shared/src/market-client.ts:231-233 | without the catch a call starts exactly when no earlier one failed |
| `MarketClient.AtMostFourPerSecond` | packages/shared/src/market.ts:28-32 | no one-second window holds more than four starts |
| `MarketSafety.StepKeepsInv` | apps/bot/src/market-processor.ts:80-614 | every step of runs, polls, settles, players, operators, market and crashes keeps the protocol invariant |
| `MarketSafety.ReachableInv` | apps/bot/src/market-processor.ts:80-614 | the invariant holds after every run of the protocol from an empty world |
| `MarketSafety.PaidItemsStayLocked` | apps/bot/src/market-processor.ts:484-489 | an item with an uncancelled charge is LOCKED or WITHDRAWN and attached to the request of its row |
| `MarketSafety.AvailableItemsAreUnpaid` | apps/bot/src/market-processor.ts:484-489 | an AVAILABLE item has no uncancelled charge on any account |
| `MarketSafety.WithdrawnItemsWereDelivered` | apps/bot/src/market-processor.ts:522-565 | this channel marks an item WITHDRAWN only when its newest charge was delivered |
| `MarketSafety.AtMostOneStandingCharge` | apps/bot/src/market-processor.ts:179-253 | at most one uncancelled charge per item, on the account recorded in the row, priced within the ceiling fixed when the row was made |
| `MarketSafety.StandingChargePinsRow` | apps/bot/src/market-processor.ts:278-342 | while a charge stands, no step changes the row's id, request, account or ceiling |
| `MarketSteps.EnsureNeverThrows` | apps/bot/src/market-processor.ts:278-342 | the purchase-conflict error of `ensurePurchase` cannot occur in a reachable world |
| `MarketSettle.PlanCountsEveryLine` | apps/bot/src/market-processor.ts:518-546 | every line is counted exactly once: delivered + failed + open = lines, and lands in the list its outcome calls for |
| `MarketSettle.StatusSaysWhatHappened` | apps/bot/src/market-processor.ts:548-577 | each final status holds exactly under its condition on the lines; COMPLETED exactly when all were delivered |
| `MarketSettle.SettleStampsOnce` | apps/bot/src/market-processor.ts:548-577 | a request is stamped sent once, by the first settle that finds a purchase made, and completed exactly while no line is open, keeping the first moment |
| `MarketSettle.SettleMovesEachLine` | apps/bot/src/market-processor.ts:518-565 | what one settle does to each attached item, by the outcome of its line |
| `MarketSettle.SettleLeavesOthersAlone` | apps/bot/src/market-processor.ts:554-565 | an item attached to another request is never touched, even when its row has moved there |
| `MarketSettle.SettleIsIdempotent` | apps/bot/src/market-processor.ts:490-583 | a second settle with no purchase moved in between changes neither items nor status |
| `MarketPremises.SettleDuringRunGivesAwayPaidItem` | apps/bot/src/market-processor.ts:528-542 | from any reachable world: a settle in the middle of a run frees an item the run then pays for |
| `MarketPremises.BlindRetryPaysTwice` | apps/bot/src/market-processor.ts:189-207 | from any reachable world: a lookup that misses a standing charge makes the retry pay twice |
| `MarketPremises.PollDuringRunForgetsCharge` | apps/bot/src/market-processor.ts:411-430 | from any reachable world: a poll of a row in the middle of its retry writes it off, the purchase goes through, and the settle gives the item back |
| `MarketPremises.RefusedLookupForgetsCharge` | apps/bot/src/market-processor.ts:136-140 | from any reachable world: a lookup answered by a refusal writes the row off while its charge stands |
| `MarketPremises.DeletedAccountPaysTwice` | apps/bot/src/market-processor.ts:189-210 | from any reachable world: a retry whose row has lost its account skips the lookup and pays twice |
| `MarketPremises.FirstAttemptIsReached` | apps/bot/src/market-processor.ts:179-222 | a reachable world for the lemma about a settle in the middle of a run |
| `MarketPremises.ChargedRetryIsReached` | apps/bot/src/market-processor.ts:179-205 | reachable worlds for the lemmas about retries: a charge stands, at the start of the line and before the lookup |
| `MarketPremises.OldRetryIsReached` | apps/bot/src/market-processor.ts:189-222 | a reachable world for the lemma about a poll in the middle of a run: a retry about to buy, past the grace period |
| `MarketProcessor.MarketWithdrawalProcessor.EnsurePurchase` | apps/bot/src/market-processor.ts:278-342 | the row it returns or makes is the protocol's own; a FAILED or idle row of another request is reset and reused under its id |
| `MarketProcessor.MarketWithdrawalProcessor.AskMarket` | apps/bot/src/market-processor.ts:189-200 | a lookup shows the asked account's newest charge, nothing, or a lost reply |
| `MarketProcessor.MarketWithdrawalProcessor.ApplyBuyInfo` | apps/bot/src/market-processor.ts:444-465 | the row takes the answer, and its line becomes delivered when the item was given, refundable when it timed out, open until then |
| `MarketProcessor.MarketWithdrawalProcessor.FailPurchase` | apps/bot/src/market-processor.ts:468-473 | the line becomes refundable, and no later request is kept from taking the row over |
| `MarketProcessor.MarketWithdrawalProcessor.AskFirst` | apps/bot/src/market-processor.ts:189-205 | a retry asks the first attempt's account: a charge found goes onto the row with its stage and price, no answer leaves the line unknown, and only an empty answer lets it buy again |
| `MarketProcessor.MarketWithdrawalProcessor.Reserve` | apps/bot/src/market-processor.ts:207-210 | the account claimed is the pool's pick, and none exactly if nobody is picked or the pick has no client; it pays at most the row's ceiling, converted to its currency |
| `MarketProcessor.MarketWithdrawalProcessor.FindOffer` | apps/bot/src/market-processor.ts:211-222 | buying goes on exactly with a live offer within the ceiling; a search that times out leaves the line unknown, anything else refuses it |
| `MarketProcessor.MarketWithdrawalProcessor.RecordAttempt` | apps/bot/src/market-processor.ts:224-231 | the account and attempt are on the row before the market is asked to charge |
| `MarketProcessor.MarketWithdrawalProcessor.SendBuy` | apps/bot/src/market-processor.ts:237-244 | accepted, refused, or reply lost; an accepted or silently charged call adds one charge on the recorded account, at most the ceiling, and no other call adds any |
| `MarketProcessor.MarketWithdrawalProcessor.ConfirmBought` | apps/bot/src/market-processor.ts:246-249 | a reply that arrives leaves the row BOUGHT with its market id |
| `MarketProcessor.MarketWithdrawalProcessor.Buy` | apps/bot/src/market-processor.ts:179-253 | how one line ends, by what the first attempt's account says, who can pay, what is offered and what the market answers: a payable line with an accepted offer is BOUGHT under the market's id with exactly one more charge; protocol steps that touch nothing but its own row |
| `MarketProcessor.MarketWithdrawalProcessor.Settle` | apps/bot/src/market-processor.ts:490-583 | the counting loop and the transaction compute exactly the specified settle |
| `MarketProcessor.MarketWithdrawalProcessor.Abandon` | apps/bot/src/market-processor.ts:592-613 | with nothing spent the request is refused and all its items are released; otherwise it is settled |
| `MarketProcessor.MarketWithdrawalProcessor.FillLine` | apps/bot/src/market-processor.ts:108-150 | one turn of the loop: the ceiling, the payer, the row and the market's records of the line, from the line's item, the accounts and the answers |
| `MarketProcessor.MarketWithdrawalProcessor.Process` | apps/bot/src/market-processor.ts:80-170 | a whole job is a run of protocol steps that fills every line with the accounts left by the lines before it, moves each item and the request by the rows, and fails exactly if a line stays unknown |
| `MarketOutcome.PaidLineEnds` | apps/bot/src/market-processor.ts:108-253 | in a finished job, a line that is free to be bought and can be paid for is BOUGHT, its item LOCKED and the request SENT, if and only if an offer within its ceiling is accepted; it is refused only for want of an offer or by the market; one charge more exactly if the market took the money |
| `MarketPoller.PollResolves` | apps/bot/src/market-processor.ts:353-400 | from any good world, polling a row and settling its request takes a delivered item to WITHDRAWN and a cancelled one back to the player, and is a run of protocol steps |
| `MarketPoller.PollForAccount` | apps/bot/src/market-processor.ts:404-441 | every asked row of the account becomes what its answer says, also where a lookup misses a charge of a young row, and its request is listed for settling |
| `MarketPoller.GroupByAccount` | apps/bot/src/market-processor.ts:369-381 | the buckets partition the open rows by account |
| `MarketPoller.SettleTouched` | apps/bot/src/market-processor.ts:394-398 | each touched request is settled once, whatever the order |
| `MarketPoller.PollOpenPurchases` | apps/bot/src/market-processor.ts:353-400 | every open row that is reached, and its item, end up as the market has shown: a charge found goes onto the row by its stage, and nothing found writes off exactly a row never answered and past the grace period |
| `Tickets.ValidateTicketRanges` | packages/shared/src/tickets.ts:44-78 | accepts exactly the lists of whole, in-space ranges that own every ticket once |
| `Tickets.CoverIffTiles` | packages/shared/src/tickets.ts:59-77 | in-space ranges own every ticket once exactly when they tile the space once sorted |
| `Tickets.CoverForgetsOrder` | packages/shared/src/tickets.ts:44-78 | acceptance does not depend on the list order |
| `Rolls.PickNeverThrows` | packages/shared/src/tickets.ts:25-35 | on an accepted table every roll lands on exactly one item |
| `Rolls.RtpIsTheAverage` | packages/shared/src/tickets.ts:81-96 | `calculateRtp` is the average over all 1 000 000 tickets of the price picked, divided by the case price |
| `Rolls.HexIsBijective` | packages/shared/src/tickets.ts:106-108 | n hex digits and the numbers below 16^n correspond one to one, and 16^8 is 2^32 |
| `Rolls.ModuloBias` | packages/shared/src/tickets.ts:99-108 | of the 2^32 values of the digits that count, 4295 make `rollFromHmac` return a ticket below 967 296 and 4294 any other, whatever the rest of the digest |
| `Rolls.TrueReturnIsClose` | packages/shared/src/tickets.ts:85-108 | what the rolls of all 2^32 digests pay on average on any valid table lies between 4294e6/2^32 and 4295e6/2^32 times `calculateRtp` |
| `Weights.Chebyshev` | packages/shared/src/contract.ts:127-131 | the weighted Chebyshev inequality behind both bisections |
| `Weights.ReweighingLowersStrictly` | packages/shared/src/contract.ts:127-131 | it is strict as soon as two prices differ |
| `Tilt.Tilted.EvFalls` | packages/shared/src/balancing.ts:128-134 | the tilted expected value never rises with the exponent, for every list of prices |
| `Tilt.Tilted.EvFallsStrictly` | packages/shared/src/balancing.ts:128-134 | it falls strictly unless all prices are equal |
| `Tilt.Tilted.EvIsContinuous` | packages/shared/src/contract.ts:127-153 | over a bracket of width d it varies by at most d times the scale's reach times the price spread |
| `ContractOdds.ShiftCancels` | packages/shared/src/contract.ts:103-112 | subtracting the peak before exponentiating changes no weight |
| `ContractOdds.WeightsFollowPrices` | packages/shared/src/contract.ts:93-112 | one outcome outweighs another by the power -alpha of their price ratio, on the scale of the widest ratio in the pool |
| `ContractOdds.PoolValueIsEv` | packages/shared/src/contract.ts:114-122 | the source's expected value is the weighted mean of the tilted pool |
| `ContractOdds.TiltedEvFalls` | packages/shared/src/contract.ts:127-131 | a contract pool's expected value falls strictly in alpha |
| `ContractOdds.TiltedWeightsAddUp` | packages/shared/src/contract.ts:103-112 | the weights are positive and add up to one |
| `ContractOdds.SolveAlpha` | packages/shared/src/contract.ts:139-153 | the loop computes the midpoint of the bracket halved 80 times |
| `Bisection.HalvedKeeps` | packages/shared/src/contract.ts:147-152 | halvings shrink the bracket exactly, the last one straddles the target if and only if the first did, and the value within reach stays the same |
| `Bisection.SolutionMisses` | packages/shared/src/contract.ts:127-153 | from a bracket that does not straddle, the solution ends on the wrong side of the target |
| `ContractOdds.SolvedAlphaIsClose` | packages/shared/src/contract.ts:139-153 | for every pool the solved expected value is within 200/2^80 times the price spread of the target clamped to what the range reaches |
| `LargestRemainder.AllocationIsLargestRemainder` | packages/shared/src/contract.ts:155-178 | counts sum to 1 000 000, each the floor of its share or one more, the extras on the largest remainders, ties by index |
| `LargestRemainder.ExtrasAreFew` | packages/shared/src/contract.ts:162-178 | fewer top-up steps than outcomes |
| `LargestRemainder.AllocateTickets` | packages/shared/src/contract.ts:162-178 | the array loops compute that allocation |
| `LargestRemainder.SharesAreRounded` | packages/shared/src/contract.ts:162-178 | the allocation misplaces at most one ticket per outcome |
| `Apportion.MisplacedTickets` | packages/shared/src/contract.ts:274-281 | moving at most m tickets moves the total price by at most m times the price spread |
| `Apportion.LayOutTiles` | packages/shared/src/contract.ts:261-272 | positive counts adding up to the space tile it in list order, each range as wide as its count |
| `ContractPool.SpreadSteps` | packages/shared/src/contract.ts:186-190 | the sampled positions are valid, strictly increasing, and keep both ends |
| `ContractPool.SpreadKeepsOrder` | packages/shared/src/contract.ts:180-190 | the sample keeps the order of what it keeps |
| `ContractPool.FirstPoolIsSample` | packages/shared/src/contract.ts:180-235 | the first pool is what is kept in price order, ties by id, and of more than 12 an even sample of 12 |
| `ContractPool.SampleIsEven` | packages/shared/src/contract.ts:180-190 | each sampled place is the whole number nearest to its share of the way through the pool |
| `ContractPool.BandIsExact` | packages/shared/src/contract.ts:84-91 | a whole price is in the band exactly when it is between a tenth and five times the stake |
| `ContractAcceptance.OneCandidatePerId` | packages/shared/src/contract.ts:207-222 | as many candidates are kept as there are item ids with a price in the band |
| `ContractPool.KeptAreFirst` | packages/shared/src/contract.ts:207-219 | of several in-band prices of one id exactly the first in the list is kept |
| `ContractPool.FirstInBandIs` | packages/shared/src/contract.ts:210-219 | what is kept is in the band, one candidate per id, and no in-band id is lost |
| `ContractPool.BuildContractPool` | packages/shared/src/contract.ts:199-292 | the loop terminates on a strictly shrinking pool and computes the specified result |
| `ContractAcceptance.AcceptedExactlyWhen` | packages/shared/src/contract.ts:199-292 | a stake gets a table exactly when it is positive, five ids have a price in the band, and pools lead from the sampled one, each the ticket owners of the one before, all around the target and of 5 at least, to one in which every outcome owns a ticket; each refusal exactly for its own reason |
| `ContractAcceptance.AcceptedTableIsLastPool` | packages/shared/src/contract.ts:242-281 | the table is then that last pool's: its items, prices and tickets |
| `ContractTable.AcceptedTableIsSound` | packages/shared/src/contract.ts:240-281 | an accepted table: 5 to 12 distinct catalogue items in price order, inside the band, each with a ticket, tiling the space, valued from whole tickets |
| `ContractTable.AcceptedOddsFollowPrices` | packages/shared/src/contract.ts:242-281 | the tickets of an accepted table are whole-ticket roundings, down or one more, of weights that fall with one power of the price ratio |
| `ContractReach.UnreachedTargetDropsAnEnd` | packages/shared/src/contract.ts:231-291 | a pool whose target the range [-100, 100] cannot reach leaves its cheapest or dearest outcome without a ticket |
| `ContractReach.DroppedIsTheExtreme` | packages/shared/src/contract.ts:231-235 | what is dropped lies at the far end of the tilt: at least as dear as all that is kept, or at most as dear |
| `LargestRemainder.SliverGetsNothing` | packages/shared/src/contract.ts:162-178 | a share of less than one n-th of a ticket among n never gets one |
| `ContractTable.FinalPoolStraddles` | packages/shared/src/contract.ts:124-136 | for the pool an accepted table is laid out from, the range straddles the target |
| `ContractTable.AcceptedTablePaysTheTarget` | packages/shared/src/contract.ts:242-281 | the value of every accepted table is within solver gap + n(pmax-pmin)/1 000 000 of 0.9 x stake |
| `ContractOrder.KeptForgetsOrderIff` | packages/shared/src/contract.ts:207-222 | the candidates kept are the same in every order if and only if no item id has two different in-band prices |
| `ContractOrder.OrderDoesNotMatter` | packages/shared/src/contract.ts:207-222 | then the whole result is the same for every permutation of the candidates |
| `ContractOrder.OrderMattersWithTwoPrices` | packages/shared/src/contract.ts:207-222 | six candidates, two of one id: one order is accepted, another is rejected |
| `ContractBracket.GuardAdmitsUnreachablePool` | packages/shared/src/contract.ts:124-136 | a pool that passes the guard before the solver although the range cannot reach its target; it is rejected for outcomes without a ticket |
| `Distribution.DistributeRanges` | packages/shared/src/balancing.ts:38-75 | fails only for no items or more items than tickets; otherwise index-aligned, tiling, every width at least 1; the throw of line 61 is unreachable |
| `Distribution.TakeShortfall` | packages/shared/src/balancing.ts:54-65 | the while loop terminates and takes the whole shortfall from widest ranges |
| `Distribution.WidestCanAffordIt` | packages/shared/src/balancing.ts:61 | while the widths exceed the space the widest has a ticket to spare |
| `Distribution.FewTicketsMisplaced` | packages/shared/src/balancing.ts:28-75 | for shares that are a distribution at most n tickets are misplaced |
| `Distribution.EachNearItsShare` | packages/shared/src/balancing.ts:28-75 | for any shares each width is within n + 1 tickets, and what the shares miss one by, of its share |
| `Distribution.RoundingMovesLittle` | packages/shared/src/balancing.ts:28-81 | the expected value moves by at most n(pmax-pmin)/1 000 000 |
| `Distribution.RoundingNeverRaises` | packages/shared/src/balancing.ts:28-37 | it never rises when nothing was clamped up and the remainder goes to a cheapest item |
| `Balancing.EvAtFalls` | packages/shared/src/balancing.ts:209-219 | `evAt` never rises in k, and falls strictly unless all prices are equal |
| `Balancing.SharesAreInversePowers` | packages/shared/src/balancing.ts:128-134 | an item is as likely as its price to the power -k: share times price to the power k is the same for all |
| `Balancing.SearchExponent` | packages/shared/src/balancing.ts:219-227 | the loop computes the midpoint of [-60, 60] halved 200 times |
| `Balancing.AutoBalance` | packages/shared/src/balancing.ts:141-241 | each refusal in its order with its reported bounds, or the balanced table |
| `BalancedCase.BalancesExactlyWhen` | packages/shared/src/balancing.ts:141-207 | a case is balanced exactly when it has items, prices, a target among them and no more items than tickets; each refusal exactly for its own reason, the last with the returns of the cheapest and the dearest item |
| `BalancedCase.BalancedTableIsSound` | packages/shared/src/balancing.ts:229-241 | a balanced case is a valid table over its items, reported with that table's return |
| `BalancedCase.BalancedOddsFollowPrices` | packages/shared/src/balancing.ts:229-241 | a balanced table's widths are within n + 1 tickets of shares that fall with the price at the exponent it reports |
| `BalancedCase.SolvedValueIsNearest` | packages/shared/src/balancing.ts:209-227 | for every target the solved value is within the solver gap of the target clamped to [EvAt(60), EvAt(-60)] |
| `BalancedCase.TargetIsMetWithinReach` | packages/shared/src/balancing.ts:209-227 | the target is met within the gap if it lies in that interval, and only if it is within the gap of it |
| `BalancedCase.BalancedCaseComesNearest` | packages/shared/src/balancing.ts:209-241 | every balanced table is worth the target clamped to that interval, up to solver gap + n(pmax-pmin)/1 000 000 |
| `BalancedCase.NoTableReturnsMore` | packages/shared/src/balancing.ts:136-139 | no table over the items returns less than the cheapest or more than the priciest |
| `BalancedCase.BalanceCanMissItsTarget` | packages/shared/src/balancing.ts:217-219 | two prices that nearly agree: an accepted target the search range cannot reach |
| `Battle.OneRoundPerNonce` | packages/shared/src/battle.ts:86-103 | `expandBattleRounds(lines).length == totalBattleRounds(lines)`, and every round is one of the lines' cases |
| `Battle.RoundsFollowLines` | packages/shared/src/battle.ts:86-103 | a round plays the line whose rounds it falls among, lines in order |
| `Battle.ExpandBattleRounds` | packages/shared/src/battle.ts:97-103 | the nested loops expand each line in place |
| `Battle.EntryPriceIsEveryRound` | packages/shared/src/battle.ts:105-117 | a seat costs the list price of every round |
| `Battle.StandingsAreRanked` | packages/shared/src/battle.ts:148-170 | the table lists every seat once with its own score, ranks 1 to n, never below a worse score |
| `Battle.SeatIsPlaced` | packages/shared/src/battle.ts:148-170 | every seat is at one place, with the sum of its drops and, for ties, its largest drop in STANDARD, its smallest in CRAZY |
| `Battle.RankedByDrops` | packages/shared/src/battle.ts:148-170 | of two seats the one above has the better total, or the better deciding drop at equal totals, or the lower slot when those agree too: if and only if |
| `Battle.StandingsForgetOrder` | packages/shared/src/battle.ts:148-170 | for distinct seats the table does not depend on the input order |
| `Battle.CrazyIsStandardNegated` | packages/shared/src/battle.ts:148-170 | CRAZY on prices p seats everyone as STANDARD on -p does, tiebreak included |
| `SiteCases.UpsertCase` | apps/api/src/admin/admin.service.ts:132-185 | a case is stored exactly when its table owns every ticket once, its items are known and priced, and its return is within the cap unless free |
| `SiteTerms.StoredCaseIsInput` | apps/api/src/admin/admin.service.ts:142-185 | a saved case is the input: its terms, and its items in order with their ids, tickets and catalogue prices |
| `SiteCases.StoredCaseNeverFails` | apps/api/src/admin/admin.service.ts:126-140 | on a stored case every roll lands on exactly one item, so no opening fails after the debit |
| `SiteCases.StoredCaseKeepsTheMargin` | packages/shared/src/balancing.ts:12-17 | over all tickets a paid case hands out at most 98% of what opening it that often costs |
| `SiteOpenings.SavingIsAtMostListPrice` | packages/shared/src/bonus.ts:201-217 | a voucher saves between nothing and the list price |
| `SiteOpenings.BestVoucherIsBest` | apps/api/src/bonus/bonus.service.ts:312-319 | the chosen voucher saves most, the oldest on a tie; none is chosen exactly when none saves anything |
| `SiteService.BonusService.ApplyBest` | apps/api/src/bonus/bonus.service.ts:301-337 | the loop and the conditional claim: a voucher spent since it was read is not spent again |
| `SiteTerms.SavingIsExact` | packages/shared/src/bonus.ts:201-217 | a free case saves one case it covers; a discount saves the largest whole amount within its share of the list price of all cases |
| `SiteTerms.AppliedExactlyWhen` | apps/api/src/bonus/bonus.service.ts:301-337 | a voucher is applied exactly when it saves most of those read, the oldest on a tie, and is still unspent |
| `SiteTerms.OpensExactlyWhen` | apps/api/src/cases/cases.service.ts:145-219 | an opening commits exactly when the count is 1 to 10, the case is active and has items, the player may roll, and the balance covers the charge; it is charged the list price less what the applied voucher saves, and that voucher alone is spent |
| `SiteCommits.OpeningRecordsWhatWasWon` | apps/api/src/cases/cases.service.ts:219-262 | every drop of an opening records, grants and prices the item of the case whose range holds the roll of its nonce |
| `SiteService.CasesService.OpenCase` | apps/api/src/cases/cases.service.ts:145-298 | the transaction commits exactly the specified opening, or leaves every table as it was |
| `SiteService.RollCases` | apps/api/src/cases/cases.service.ts:219-262 | one roll per case on consecutive nonces, each recorded with the item that owns it |
| `SiteTerms.SpinsExactlyWhen` | apps/api/src/bonus/bonus.service.ts:141-180 | a spin commits exactly when the player may roll and the cooldown is over |
| `SiteTerms.SpinPaysItsSlice` | apps/api/src/bonus/bonus.service.ts:165-257 | a spin pays the slice that holds its roll: a balance, or a skin nothing fits, is credited at its value; of the skins that fit the one the roll counts to is granted; a voucher is left to be spent |
| `SiteService.BonusService.SpinWheel` | apps/api/src/bonus/bonus.service.ts:135-257 | the transaction commits exactly the specified spin, or nothing |
| `SiteTerms.StakeIsStakedItems` | apps/api/src/contracts/contracts.service.ts:121-140 | the stake is worth the staked items, each counted once |
| `SiteTerms.ContractsExactlyWhen` | apps/api/src/contracts/contracts.service.ts:107-150 | a contract commits exactly when the player may roll, stakes 3 to 10 different available items of their own, and the stake gets a table |
| `SiteTerms.ContractRecordsItsRoll` | apps/api/src/contracts/contracts.service.ts:150-187 | one row with the player's next roll, the value of the stake, and the outcome that owns the roll |
| `SiteService.ContractsService.RunContract` | apps/api/src/contracts/contracts.service.ts:106-208 | the transaction commits exactly the specified contract, or nothing |
| `SiteTerms.AdjustsExactlyWhen` | apps/api/src/admin/admin.service.ts:451-482 | an adjustment is booked exactly when the result is not negative, with the balance it leaves |
| `SiteService.AdminService.AdjustBalance` | apps/api/src/admin/admin.service.ts:451-482 | balance and ledger row move together, or nothing does; a negative result is refused |
| `SiteRewards.BuildWheel` | packages/shared/src/bonus.ts:133-140 | every wheel built from settings tiles the ticket space, each slice within a few tickets of its share: n + 2 in a million |
| `SiteRewards.ContractTradesStakes` | apps/api/src/contracts/contracts.service.ts:121-187 | exactly the staked items are consumed, each the player's and available before, and exactly one item is granted |
| `SiteRewards.ContractRewardInBand` | apps/api/src/contracts/contracts.service.ts:148-149 | the reward is a catalogue item that owns the roll, between 0.1 and 5 times the stake |
| `BattlesService.Battles.Create` | apps/api/src/battles/battles.service.ts:200-260 | the creation commits with the host seated and charged, or nothing does |
| `SiteTerms.CreatesExactlyWhen` | apps/api/src/battles/battles.service.ts:200-260 | a battle is created exactly on its terms, for a host who can pay the list price of every round, and stored with the host seated |
| `SiteTerms.JoinsExactlyWhen` | apps/api/src/battles/battles.service.ts:424-468 | a seat that is not the last is taken exactly by a player who is not banned, not yet seated and can pay |
| `SiteTerms.LastJoinExactlyWhen` | apps/api/src/battles/battles.service.ts:277-301 | the last seat is taken exactly if, in addition, every seated player can roll and every round's case has items |
| `SiteTerms.CancelsExactlyWhen` | apps/api/src/battles/battles.service.ts:313-323 | a battle is cancelled exactly by its host while it waits |
| `BattlesService.Battles.ClaimSeat` | apps/api/src/battles/battles.service.ts:424-468 | debit and seat claim are conditional; the seat is the incremented counter |
| `BattlesService.Battles.PlayAll` | apps/api/src/battles/battles.service.ts:516-575 | per player one block of nonces and one roll per round, in the fixed order of players |
| `BattlesService.Battles.PlayOut` | apps/api/src/battles/battles.service.ts:483-637 | the conditional claim and the settlement loops compute exactly the specified settlement; nothing when there is nothing to claim |
| `BattlesService.Battles.Join` | apps/api/src/battles/battles.service.ts:277-301 | the join commits with the seat, and with the settlement when it was the last one, or nothing does |
| `BattlesService.Battles.Refund` | apps/api/src/battles/battles.service.ts:376-414 | a waiting battle is cancelled and every seat refunded; any other is left alone |
| `BattlesService.Battles.Cancel` | apps/api/src/battles/battles.service.ts:313-323 | only the host, and only while it waits |
| `BattlesService.Battles.SweepStale` | apps/api/src/battles/battles.service.ts:340-366 | afterwards exactly the battles waiting since before the cutoff are cancelled, and no money has moved in or out |
| `SiteSettlement.PlayKeeps` | apps/api/src/battles/battles.service.ts:518-546 | as many rows as nonces reserved for every player, so the counters stay exact |
| `SiteSettlement.PlayedOnce` | apps/api/src/battles/battles.service.ts:487-493 | only a waiting battle is claimed; its row says RUNNING while it is played, the committed state has left it, and neither can be claimed again |
| `SiteSettlement.SettleFinishes` | apps/api/src/battles/battles.service.ts:489-634 | one battle becomes FINISHED with all seats, a best-scoring winner, and totals that sum to `totalValue` |
| `SiteCommits.BattleRecordsWhatWasWon` | apps/api/src/battles/battles.service.ts:516-575 | every seat of a settled battle, players in id order, has for every round one drop with that player's own roll, won from the case of that round at its price |
| `SiteSettlement.WinnerOutranksAll` | apps/api/src/battles/battles.service.ts:577-634 | the winner outranks every other seat on the total, then on the deciding drop, then by the earlier seat |
| `SiteSettlement.WinnerTakesEverything` | apps/api/src/battles/battles.service.ts:597-634 | every drop becomes exactly one item of the top seat, one for one |
| `SiteInvariant.JoinKeeps` | apps/api/src/battles/battles.service.ts:277-301 | joining keeps the invariant and the money, last seat or not |
| `SiteInvariant.CreateKeeps` | apps/api/src/battles/battles.service.ts:200-260 | creating keeps the invariant and the money |
| `SiteInvariant.CancelKeeps` | apps/api/src/battles/battles.service.ts:376-414 | cancelling, by host or sweeper, keeps the invariant and the money |
| `SiteInvariant.OpenCaseKeeps` | apps/api/src/cases/cases.service.ts:174-298 | an opening keeps every invariant |
| `SiteInvariant.SpinKeeps` | apps/api/src/bonus/bonus.service.ts:141-257 | a spin keeps every invariant |
| `SiteInvariant.ContractKeeps` | apps/api/src/contracts/contracts.service.ts:107-207 | a contract keeps every invariant |
| `SiteSafety.RunKeepsInv` | apps/api/src/battles/battles.service.ts:376-637 | every run of players, operators and sweepers keeps the invariant |
| `SiteSafety.ReachedFromEmptyIsFine` | apps/api/src/battles/battles.service.ts:376-637 | the empty site satisfies the invariant, and so does every site reached from it |
| `SiteSafety.BalancesAgreeWithLedger` | apps/api/src/admin/admin.service.ts:444-482 | in every reachable state each balance is the sum of its ledger rows and not negative |
| `SiteSafety.NoncesAreExact` | apps/api/src/cases/cases.service.ts:198-219 | in every reachable state the nonces rolled on a seed are exactly 1 to its counter, and no pair of seed and nonce recurs |
| `SiteSafety.RollsStayVerifiable` | packages/shared/src/tickets.ts:99-108 | over every run no recorded roll is ever changed, and each can be recomputed from its player's server seed, client seed and nonce |
| `SiteSafety.BattlesRunTheirCourse` | apps/api/src/battles/battles.service.ts:368-468 | the battle state machine over every run; seats are exactly 1 to `filledSlots` for distinct players, FINISHED and CANCELLED are final, RUNNING never visible, each seat charged once and each cancelled seat refunded once |
| `SiteSafety.BattlesConserveMoney` | apps/api/src/battles/battles.service.ts:376-468 | over creations, joins, cancellations and sweeps, balances plus held and taken seats are constant |
| `SiteSafety.VoucherSpentOnce` | apps/api/src/bonus/bonus.service.ts:321-328 | over every run a voucher is spent by at most one committed opening |
| `SiteSafety.OpeningCharges` | apps/api/src/cases/cases.service.ts:186-196 | the charge is the list price less the voucher's saving, never negative |
| `Cache.StepKeeps` | apps/api/src/common/cache.service.ts:47-103 | every command of every interleaving keeps the cache invariant |
| `Cache.NoStaleAnswerAfterBump` | apps/api/src/common/cache.service.ts:47-91 | a call keyed after a clean bump never returns a value whose production began before it, nor one missing a write committed before it |
| `Cache.ExistingCounterIsClean` | apps/api/src/common/cache.service.ts:82-97 | a bump of an existing counter is always clean |
| `Cache.BumpProtectsIff` | apps/api/src/common/cache.service.ts:82-97 | a successful bump protects every later reader exactly when the counter existed or nothing is cached or being produced under version 1 |
| `CacheService.Service.Wrap` | apps/api/src/common/cache.service.ts:47-74 | `wrap` is a run of those commands whatever runs in between; left alone it returns a cached value, or else produces one and stores it; a failing Redis only costs the cache |
| `CacheService.Service.Invalidate` | apps/api/src/common/cache.service.ts:82-91 | one bump: whatever runs later, no call keyed after a bump of an existing counter returns anything older; nothing happens when Redis fails |

## Left out

- HTTP, Prisma, Redis, BullMQ, sockets, Steam, logging: only the atomic conditional updates and their counts remain.
- IEEE rounding: solvers, bands and shares use exact reals, so where a double product lands above an integer (70 * 0.1) the source's reward floor is one unit higher than here.
- ContractPool.BuildContractPool: takes finite whole prices and a finite whole stake; the checks for NaN and infinity have nothing to do here.
- SiteSafety.NoncesAreExact: upgrades also take a nonce from the same counter, with the same single-row update as a contract; their rows are not part of this model.
- SiteSafety.BalancesAgreeWithLedger: item sales, deposits, payments, promo codes and referral payouts also write balances and ledger rows and are not part of this model.
- SiteService.CasesService.OpenCase: maintenance mode, the rate limit and the free-case terms are decided before the transaction and not modelled; the source accepts a race on the last.
- SiteService.BonusService.SpinWheel: the catalogue a free item is picked from is an argument, as is the wheel built from settings.
- SiteService.ContractsService.RunContract: one candidate price per item id is what the catalogue table gives; the wide price filter of the query only drops items outside the band.
- BattlesService.Battles.SweepStale: other transactions may run between two battles of a sweep; the method states what the sweep itself does.
- BattlesService.Battles.Create: maintenance mode and the battles switch are not modelled.
- SiteSettlement.SettleFinishes: the recorded case prices of the drops are the prices at settlement, and are not claimed to add up to the frozen entry price.
- Referral commission: treated as not touching balances.
- MarketPool.Pool.Claim: no bound on claims across reloads, because a reload drops the local debits.
- MarketOutcome.PaidLineEnds: the accounts are those after the refresh at the start of the job; the worker's timer may reload or refresh them in the middle of one.
- MarketClient.Client.Enqueue: timers may fire late but not early.
- MarketProcessor.MarketWithdrawalProcessor.Process: crashes are steps of the transition system, not of the methods.
- MarketPoller.PollOpenPurchases: the open rows (the oldest 200 in the source) are an argument, as are the rows the lookups miss.
- Cache.NoStaleAnswerAfterBump: eviction or loss of the version counter is not modelled; the code never deletes it and gives it no expiry.
- The bot-farm withdrawals and skin deposits, upgrades, payments, KYC, giveaways, analytics, appearance, translations and scripts: other subsystems, or easy members.
