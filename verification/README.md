# A verified model of the LapseCoin node

This project models, in Dafny, the parts of the LapseCoin node whose safety is a claim about whole runs, and
proves those claims. `dafny verify dfyconfig.toml` checks all of it.

## What is modelled

**The incremental swap** (`src/swap.py`, `src/swap_engine.py`). Two parties exchange LAPSE for XLM in steps over
two ledgers. `Schedule` splits a total into steps and says who moves first, `Planning` finds the number of steps
under a cap, in exact integers; `Quotes` is the price. `SwapModel` is one side of one trade: the account its
payments leave from (entry `i` used nonce `i + 1`), the envelopes it ever released, its mempool, the peer's
observable payments, and its rows on disk. A call of the engine (look for the own leg, send, look for the peer's
leg, set the clock) reads the chains as they are when it is made and yields a list of effects, each a row save or
a submission. A pass is a script of such calls; a crash ends it after any effect. Between any two effects, and so
between any two calls, anything outside may happen: blocks arrive or are reorged out short of settlement depth,
any released envelope may be applied, the counterparty pays or does not. `SwapSafety` is the invariant,
`SwapPlans` shows every call keeps it, `SwapRuns` draws the two main results over whole runs, and `SwapRebuild`
says exactly when they fail. `SwapLimits` is recovery from the chains, and a concrete run behind one assumption.
`SwapEngine` is the engine as an object that updates rows in place while the chains move between its calls, and
can be killed after any effect; a pass of it is proved to be a run. `SwapHonest`, `HonestTrade`, `HonestRuns` and
`HonestLimits` put two honest sides together. `Blame` is the two ways of finding a party at fault, from local rows
and from public chain data, `BlameRuns` says when they agree in every state a run reaches; `SwapDeadlines`, `SwapTiming` and `SwapClocks` say when
deadlines are kept, set and exact. `SwapNonces` is which nonce a new payment takes.

**Chain state, fork choice and what surrounds them** (`src/state.py`, `src/block.py`, `src/chainstate.py`,
`src/node.py`, `src/storage.py`). `Ledger` holds the ledger as a value and as the object updated in place;
`Blocks` is validation and replay; `Retarget` the iteration lookup; `AcceptedChains` what holds of chains as
validation accepts them, with blocks that claim height 0 among them; `ForkChoice` the comparison of two chains;
`NodeChain` and `Node` the recent-state cache, the evaluation of remote chains and the draw among siblings, as
functions and as the object; `NodeCache` exactly when the cache is right; `NodeLimits` what height 0 blocks do to
verdicts and to the fork search; `Persistence` the state table.

**Block assembly and the mempool** (`src/block.py`, `src/mempool.py`): `Assembly`, `Mempool`, `Probe`.

**Stem and fluff** (`src/gossip.py`, `src/node.py`): `Gossip` is one node, as functions and as the two objects
that act; `Flood` is the whole network as a state machine whose steps are those functions.

**Chunk reassembly** (`src/peer_udp.py`): `Reassembly`.

## What is assumed

- A hash is the content it covers: two blocks with one true hash are one block, and a peer's block below the fork
  that names the hash of one of this node's blocks is that block. Draw keys have one length, and the fallback
  digest does not collide on the two values compared.
- What is called to validate a transaction, a signature, an address or a VDF proof is a verdict carried by the
  value. Beyond it a valid transaction has the next nonce, between one and the limit of positive outputs, a fee
  that is not negative, a sender that can pay, and for a board post at least the block's frozen floor.
- Swap payments apply under the nonce rule on both ledgers; a leg at settlement depth is not reorged out; session
  tags are distinct, so a payment is named by its step; one call of the send path sees one chain view.
- A Stellar payment is final on inclusion. For an XLM sender exactly-once, the gate and bounded loss hold of every
  run. For a LAPSE sender they are stated for careful runs: no send of the run gives up a stored envelope that may
  still be applied, which is one whose nonce another payment took in a block that may yet be reorged out. The code
  does not check this. `SwapRebuild` proves that the condition is exact.
- Where deadlines and blame over runs are concerned, the terms are as an accepted fill response carries them: an
  acceptance height that is not negative and at least the minimum confirmation depth (`src/market.py:1542-1549`), and
  heights are not negative; where deadlines are exact, they are past genesis.
- Clocks, randomness, mempool room and the answers of outside calls are parameters, and every result holds for
  every value of them unless it says otherwise.
- Gossip runs over a fixed graph, public datagrams arrive, no seen cache evicts. Stem datagrams may be lost.

## Where the code falls short of what it says

The code is followed in each case, and the condition under which the promise does hold is proved.

- `src/swap_engine.py:631-661` builds a new envelope as soon as the stored one's nonce reads as spent, at whatever
  depth. Where LAPSE is sent and the payment that took the nonce is reorged out, both envelopes apply and the step is
  paid twice. A send from an open gate can lead there exactly when it rebuilds, with the wallet unlocked, over an
  envelope whose nonce is not finally spent (`SwapRebuild.SendPaysTwiceIff`, `SwapRebuild.RunPaysTwiceIff`), and
  every trade in which this node sends LAPSE has a run from acceptance that does (`SwapRebuild.SomeRunPaysTwice`).
  Where it sends XLM no run does (`SwapRuns.XlmIsCareful`, `SwapRuns.ExactlyOncePayment`).
- A block claiming height 0 is exempt from the parent and VDF checks wherever it stands
  (`src/block.py:471-474`, `src/block.py:499-501`); appending applies it, and replay skips it. A chain extended
  block by block equals its replay at every point exactly when each such block is inert: no transactions, no
  iterations, and no builder or nothing left to mint (`AcceptedChains.AppendIsReplayIff`). Balances sum to what was
  minted exactly when each such block names a builder or collects no fees (`AcceptedChains.SupplyHoldsIff`). The
  iteration lookup equals its fold exactly when each such block at the start of a window carries the window's
  count (`AcceptedChains.LookupIsFoldIff`); each block raises the work exactly when each such block claims a
  positive count (`AcceptedChains.WorkGrowsIff`).
- A node's cache stays right along a run exactly as long as no chain it takes over has such a block from the fork on
  (`NodeCache.CacheAgreesIff`, one chain at a time `NodeCache.AdoptionIff`). The new tip is cached under the height it
  claims, its distance from the last such block, where it stands for another block. The entry is wrong wherever that
  height lies below the fork (`NodeCache.ZeroSpoilsCache`), wherever every height 0 block of the chain claims a
  positive count, and wherever anything is left to mint. Where some count is not positive, nothing is left to mint
  and the height is not below the fork, that one entry decides: the cache is right exactly when the tip's ledger and
  work happen to be those of replaying to that height (`NodeCache.TipDecides`). From every valid chain of two blocks
  or more two operations lead to a node that takes over a chain of three blocks a full replay would refuse
  (`NodeLimits.SpoiledIsReached`, `NodeLimits.SpoiledVerdict`).
- `src/chainstate.py:16-36` says two chains that differ at a height cannot agree again above it, and searches for the
  fork on that ground. Two accepted chains can: a height 0 block names no parent. Agreement reaches down at every
  height exactly when the two share no height 0 block above their first difference
  (`AcceptedChains.AgreementReachesDownIff`), and then the search finds what a scan finds
  (`AcceptedChains.SearchIsScan`); on any two lists it does exactly when it meets no agreement above the first
  difference (`ForkChoice.SearchIsScanIff`). Two chains of four blocks on which it finds height 3 for height 1, and
  the tie-break turns around, are given (`NodeLimits.SearchIsMisled`, `NodeLimits.MisledWinner`).
- Reassembly keeps the chunk count of the first datagram it sees but range-checks each datagram against its own.
  The join raises exactly when the count fills while some datagram since the opening one carries an index at or
  above the opening one's count (`Reassembly.RunFailsIff`); such a message is never delivered, until it is evicted
  (`Reassembly.StrayIsStuck`).
- A local settlement floor deeper than the one the trade signed lets a node hold its peer delinquent over a step
  every bystander counts as settled. The two checks agree in every state a run from acceptance reaches exactly when
  this node sends LAPSE, its floor is inside the signed depth, or it opens no step (`BlameRuns.BlameIsPublicIff`).
- A crash between the save that marks a step complete and the save of the next step's deadline leaves that deadline
  at 0: a complete step is not timed again. Along any run from acceptance every completed step's successor has a
  deadline, whenever nothing is left to carry out, exactly when no crash falls where it has none
  (`SwapDeadlines.DeadlinesKeptIff`), which is only ever between those two saves
  (`SwapDeadlines.OnlyBetweenTheSaves`). A lost deadline stays lost, and the peer is never held delinquent over that
  step, for as long as the mempool shows no other payment of the complete step and no copy of the peer's
  (`SwapDeadlines.LostForGood`); every trade of two steps has such a run (`SwapDeadlines.SomeRunLosesDeadline`).
- A startup pass marks a step settled without timing it, and no later pass is over a settled step: the next step then has
  no deadline. Every step settled both ways has a successor with a deadline, whenever the engine is idle, exactly when
  no crash falls and no startup pass ends where one has not (`SwapTiming.ClocksStartIff`); every trade of two steps
  has a run with such a startup pass (`SwapTiming.SomeStartupLeavesOneBehind`).
- Taking a completion back is two saves as well, and a crash between them leaves the next step the deadline the
  completion had earned, which no later completion replaces (`SwapClocks.SomeRunLeavesStale`). Deadlines are exact at
  every rest exactly when no crash falls inside either pair of saves (`SwapClocks.DeadlinesExactIff`).
- A pass pays an unpaid leg exactly when its stored nonce, if there is one, is at most the account's next one
  (`HonestLimits.SendPaysIff`). An envelope ahead of that is neither applied nor rebuilt
  (`HonestLimits.StoredAheadStalls`); the result that honest trades finish starts where there is none.
- `src/node.py:2031-2039` says a public copy that comes back to the originator is relayed on from there. It is
  refused first, at `src/node.py:1992-1996`: the originator holds the transaction, so its nonce is spent in the
  view used for validation (`Probe.HeldCopyIsRefused`). Delivery rests on the retry alone
  (`Flood.OnlyTheRetrySettles`), and holds for as long as the originator's mempool keeps the item
  (`Flood.EvictedOriginCanLoseIt` shows why). Where the originator has lost it, everyone can still be reached from a
  network with nothing in flight exactly when the originator flooded the item or still waits for an echo
  (`Flood.QuietCanDeliverIff`). So the originator itself may never enter the item in its seen cache:
  delivery says it has flooded the item, by the first send or by the retry.

## Model

| member | source | states |
|---|---|---|
| Planning.PlanningIsExact | src/swap.py:209-320 | A positive trade is refused as too large exactly when it is above the reported limit; otherwise the plan uses the first count tried, both totals are exact, every step is at least one stroop and inside the cap, and every smaller count of two or more breaks the cap |
| Schedule.PartsExact | src/swap.py:252-300 | A split sums to its total, opens with the probe, and every later step is the body or one unit more |
| Schedule.ProbeIsAQuarter | src/swap.py:269-290 | The opening step is a quarter of any later one, to within rounding, at least one unit and never above a later one |
| Schedule.Split | src/swap.py:269-290 | The list built and topped up in two passes is the specified split |
| Schedule.BuildSchedule | src/swap.py:252-300 | Refuses exactly an empty count or a total too small to give every step something; otherwise gives the specified schedule |
| Planning.IncrementCount | src/swap.py:224-249 | The count, or the refusal with its limit, for every total and cap |
| Planning.CeilingMeetsLimit | src/swap.py:209-249 | The step ceiling is passed exactly by the trades above the reported limit, so the two refusals agree |
| Planning.EnoughSteps | src/swap.py:224-249 | The first count is at most a given count exactly when the trade spans no more than that many caps less three quarters of one |
| Planning.FirstCountFits | src/swap.py:303-320 | From the first count tried on, no step exceeds the cap |
| Planning.SmallerCountBreaksCap | src/swap.py:224-320 | Every smaller count of two or more has a step above the cap |
| Planning.PlanForCap | src/swap.py:303-320 | The search loop returns the first plan that fits, or the right refusal |
| Planning.MakerPlanPassesTakerCheck | src/swap_engine.py:1752-1785 | What an honest maker plans under the two sides' regard for each other, the taker rebuilds identically from the signed count and finds inside the cap it computes from its own end; no step exceeds what either side is known to have at stake, but for the smallest step there is |
| Planning.CapUnderStake | src/swap.py:185-206 | Both ends compute one mutual cap, never above a known stake of either side but for the smallest step |
| Planning.CapAllows | src/swap.py:176-206 | A step is inside the mutual cap exactly when it is the smallest there is or neither side's trust nor a known stake forbids it |
| Planning.TakerSchedule | src/swap_engine.py:1752-1785 | The taker accepts exactly the buildable schedules whose largest step fits the mutual cap |
| Schedule.ExactlyOneMovesFirst | src/swap.py:395-448 | Computed from the two ends, exactly one side opens and exactly one moves first on each step |
| Schedule.LessTrustedMovesFirst | src/swap.py:395-448 | The side the other trusts less sends first on step one |
| Quotes.QuoteIsTheMostAffordable | src/swap.py:458-490 | An amount costs no more than the stroops given exactly when it is at most the quoted amount |
| SwapSafety.MovesKeepInv | src/swap_engine.py:600-691 | Nothing the chains or the counterparty do breaks the invariant |
| SwapSafety.GuardedKeepsInv | src/swap_engine.py:600-691 | A save or submission that meets its guard keeps the invariant |
| SwapSafety.SafeStays | src/swap_engine.py:600-691 | Effects chosen on one view stay safe however the chains move before they run |
| SwapPlans.EnsureSentSafe | src/swap_engine.py:600-629 | Looking first, re-sending second and building last is safe behind an open gate unless the stored envelope is given up while it may still apply |
| SwapPlans.RebuildSafe | src/swap_engine.py:631-691 | Forgetting an envelope whose nonce is finally spent, and building another, leaves at most one live envelope |
| SwapPlans.NotFoundMeansUnpaid | src/swap_engine.py:148-179 | A lookup that finds nothing means no payment of the step was ever applied |
| SwapNonces.NextSeqIsLeastFree | src/node.py:763-767 | The next nonce is the one above the account's and above every pooled payment's that comes right after one of them, and there is only one such |
| SwapNonces.BuildTakesLeastFree | src/swap_engine.py:663-691 | Killed after any effect, building has released at most one payment, at that nonce; where no two waiting payments share a nonce before, none do after |
| SwapRuns.CallSafe | src/swap_engine.py:756-976 | Every effect any call decides on meets its guard, a send's where it gives up no live envelope |
| SwapRuns.StepKeeps | src/swap_engine.py:847-891 | Every event of a run (a pass or recovery begun, a call made, an effect carried out, a crash, a move of the chains) keeps the invariant, the safety of what is still to be done, and the gate of every send still to come |
| SwapPlans.ReconcileSafe | src/swap_engine.py:979-1022 | So does every effect of the startup pass |
| SwapRuns.XlmIsCareful | src/swap_engine.py:366-371 | Where this node sends XLM, whose payments are final on inclusion, no send of any run gives up a live envelope |
| SwapRuns.ExactlyOncePayment | src/swap_engine.py:600-691 | In every state of every run of an XLM sender, and of every careful run of a LAPSE sender, the chains moving between any two calls and crashes after any effect, no step is paid twice, every payment has the agreed amount, at most one envelope a step can still apply, and none once the step is finally paid |
| SwapRuns.ReleasedOnlyBehindGate | src/swap_engine.py:847-891 | In every run of an XLM sender and every careful run of a LAPSE sender, whatever was released for a step went out after all earlier steps settled both ways and, for the second mover, after the peer's leg settled |
| SwapRuns.LossNeverExceedsCap | src/swap.py:303-320 | In those runs, against any counterparty and any crashes, the payments not reciprocated are never worth more than the planned cap |
| SwapRuns.OneUnreciprocated | src/swap_engine.py:847-891 | At most one step is outstanding at any time |
| SwapLimits.LostRowRecovered | src/swap_engine.py:979-1022 | A row that lost everything says settled, each way, exactly when the chains do, after one startup pass that sends nothing |
| SwapLimits.MixedViewsPayTwice | src/swap_engine.py:600-661 | A concrete run in which a send path reading two chain views pays a step twice, so one view is needed |
| SwapRebuild.SendPaysTwiceIff | src/swap_engine.py:631-661 | A send from an open gate can be followed by a reorg that pays its step twice exactly when, with the wallet unlocked, it rebuilds over a stored envelope whose nonce is not finally spent |
| SwapRebuild.RunPaysTwiceIff | src/swap_engine.py:631-661 | After any such run from acceptance, going on through a send with no other live envelope given up can pay a step twice exactly when that send gives up a live one |
| SwapRebuild.SomeRunPaysTwice | src/swap_engine.py:631-661 | Every trade with a step in which this node sends LAPSE has a run from acceptance that pays a step twice |
| SwapEngine.PrefixKeepsInv | src/swap_engine.py:668-691 | Killed after any number of effects, a safe pass leaves the invariant standing |
| SwapEngine.Engine.EnsureLegSent | src/swap_engine.py:600-629 | The method carries out the specified effects up to where it is killed |
| SwapEngine.Engine.ResendStored | src/swap_engine.py:631-661 | Re-submits exactly what is stored, and builds anew only where that can never apply |
| SwapEngine.Engine.BuildNew | src/swap_engine.py:663-691 | Written down, then sent, then written down again, up to where it is killed; the payment carries the least nonce above the account's and above every pooled payment's, so two waiting payments never come to share one |
| SwapEngine.Engine.CheckOutboundLeg | src/swap_engine.py:756-779 | Re-reads this node's own leg, taking back the next deadline where settlement was lost |
| SwapEngine.Engine.CheckInboundLeg | src/swap_engine.py:781-811 | Believes the chain about the peer's leg, both ways; a mempool copy, read first, takes a settlement back |
| SwapEngine.Engine.Advance | src/swap_engine.py:847-891 | One pass, the chains moving between its calls and the process killed after any effect, is a run of those events, and the invariant holds at its end when those moves are possible ones and the run is careful |
| SwapEngine.Engine.Reconcile | src/swap_engine.py:979-1022 | The startup pass over all steps, killed after any save, is step by step the specified recovery |
| SwapEngine.RecoveryIsARun | src/swap_engine.py:979-1022 | The recovery of a step is a run that sends nothing, so the invariant holds wherever it is killed |
| SwapHonest.SendLegSettles | src/swap_engine.py:868-891 | A leg the chain shows paid ends the pass settled, with nothing sent, whatever its row said |
| SwapHonest.SendLegPays | src/swap_engine.py:868-891 | A leg the chain shows unpaid is paid by the pass: this step, this amount, the next nonce, and nothing else in the mempool |
| SwapHonest.FirstMoverWorks | src/swap_engine.py:868-891 | What one pass of the first mover leaves of its step |
| SwapHonest.SecondMoverWorks | src/swap_engine.py:868-891 | What one pass of the second mover leaves: nothing until the peer has paid, then its own leg |
| HonestTrade.RunsThenSettle | src/swap_engine.py:868-891 | Whatever the two sides' careful runs have been through, crashes included, once the chains settle around the states they end in the two can take turns |
| HonestTrade.FreshPairIsReady | src/swap_engine.py:868-891 | Two sides that have just accepted, with nothing pending on their chains, can take turns |
| HonestTrade.NoDeadlock | src/swap_engine.py:868-891 | While a trade between two such sides is unfinished, at least one of them has something to do |
| HonestTrade.TurnShrinks | src/swap_engine.py:847-891 | A turn never loses a paid or settled leg, and lowers the count of open legs unless its side has to wait |
| HonestTrade.RoundShrinks | src/swap_engine.py:847-891 | Any stretch of turns in which both sides have one lowers the count of open legs or ends with the trade finished |
| HonestTrade.DoneDelivers | src/swap_engine.py:937-950 | A side whose steps are all settled has paid exactly the sum of its legs |
| HonestTrade.HonestTradesFinish | src/swap_engine.py:847-891 | From any such pair of states, in any order of turns in which both sides have one six times a step over, the trade is finished and exactly `lapse_total` and `xlm_total` have been delivered |
| HonestRuns.TurnsAreRuns | src/swap_engine.py:847-891 | Each side's part in those turns is a careful run of its engine, call by call |
| HonestLimits.TurnIsPossible | src/swap_engine.py:847-891 | From every such state a next turn exists, so the previous result is never empty |
| HonestLimits.SendPaysIff | src/swap_engine.py:600-691 | With an unlocked wallet, a chain that takes the next nonce and no other, and nothing waiting, a pass pays an unpaid leg exactly when its stored nonce, if there is one, is at most the account's next one |
| HonestLimits.StoredAheadStalls | src/swap_engine.py:631-661 | A stored envelope whose nonce is ahead is neither applied nor replaced by a pass |
| Blame.VerifyTradeAgainstChain | src/swap_engine.py:1673-1738 | With every step settled nobody is at fault; otherwise the verdict counts the steps before the first stuck one and names its second mover exactly when its first leg is in and the height is past the step's public deadline and the grace |
| Blame.LapseHeightIsItsBlock | src/swap_engine.py:1709-1716 | The height a step's clock restarts from is the block the settled step's LAPSE payment stands in |
| Blame.IsDelinquent | src/swap_engine.py:453-498 | True exactly when the first unfinished step is past its deadline and grace with this side's leg in and the peer's out |
| Blame.DelinquentIff | src/swap_engine.py:453-498 | Somebody is held delinquent exactly when some step, all before it settled, has this side's leg in, the peer's out, a deadline, and the grace behind it |
| Blame.LocalBlameIsPublic | src/swap_engine.py:453-498 | Where rows agree with the chain, and this node sends LAPSE or its floor is inside the signed depth, holding the peer delinquent implies every bystander at that height names that peer for that step |
| BlameRuns.BlameIsPublicIff | src/swap_engine.py:453-498 | That agreement holds in every state a run from acceptance reaches, a careful one where LAPSE goes out, exactly when this node sends LAPSE, its floor is inside the signed depth, or it opens no step |
| BlameRuns.DeeperFloorBlamesAlone | src/swap_engine.py:593-596 | For every other trade, a run from acceptance that ends with the node holding its peer delinquent over a step every bystander counts as settled |
| SwapDeadlines.DeadlinesKeptIff | src/swap_engine.py:893-935 | Along any run from acceptance, whoever sends what, every completed step's successor has a deadline whenever nothing is left to carry out, exactly when no crash falls where it has none |
| SwapDeadlines.OnlyBetweenTheSaves | src/swap_engine.py:893-935 | That is only ever between the two saves that complete a step, and the one left to make sets the deadline |
| SwapDeadlines.LostForGood | src/swap_engine.py:893-935 | Once a step is marked complete without its successor's deadline, that deadline stays 0 in every later state as long as the mempool shows no other payment of the step and no copy of the peer's, and the peer is not held delinquent over the successor |
| SwapDeadlines.SomeRunLosesDeadline | src/swap_engine.py:893-935 | Every trade of two steps has a careful run from acceptance, with one crash, that ends there |
| SwapTiming.ClocksStartIff | src/swap_engine.py:847-935 | Along any run from acceptance every step settled both ways has a successor with a deadline, whenever the engine is idle, exactly when no crash falls and no startup pass ends where one has not |
| SwapTiming.SomeStartupLeavesOneBehind | src/swap_engine.py:979-1022 | Every trade of two steps has a run in which the startup pass finds step 1 settled and leaves step 2 without a deadline |
| SwapTiming.DelinquencyComes | src/swap_engine.py:453-498 | No deadline is later than one budget after the highest block seen, so a paid step with a deadline is held against a silent peer from then and the grace on |
| SwapClocks.DeadlinesExactIff | src/swap_engine.py:799-935 | Along any run from acceptance every deadline but the first is exactly one budget after the completion of the step before, and absent while that is not complete, whenever nothing is left to carry out, exactly when no crash falls where this is not so |
| SwapClocks.SomeRunLeavesStale | src/swap_engine.py:820-843 | For an XLM sender, a run in which a crash between the two saves that take a completion back leaves the deadline it had earned |
| Blame.DeadlinesAccumulate | src/swap_engine.py:438-450 | Steps that met their deadlines put the n-th deadline no later than n budgets after acceptance |
| Blame.ExpiryIsSafe | src/swap_engine.py:501-536 | When the chain-free check fires, the first unfinished step is past its deadline and grace, and the exact check counts the same settled steps and finds fault exactly when the first mover's leg is in |
| Blame.ExpiryIsTight | src/swap_engine.py:501-536 | Where every step but the last used all its time the chain-free check fires exactly when the last is past its public deadline and the grace |
| Ledger.TxConserves | src/state.py:111-129 | A valid transaction moves its fee, and nothing else, out of the sum of balances |
| Ledger.TxsConserve | src/block.py:544-552 | Through a block the gap between minted and balances is exactly the fees collected so far |
| Ledger.RewardFitsCap | src/state.py:7-22 | A reward never takes the minted total past the supply cap |
| Ledger.RewardIsTheShare | src/state.py:7-22 | A block mints the most ticks whose share of what is left does not pass the decay ratio; what is left never runs out, and minting stops exactly when one tick would pass it |
| Ledger.BuilderClosesTheGap | src/chainstate.py:39-63 | Paying the builder reward and fees closes the gap the block's fees opened, whatever gap was there before |
| Ledger.TxsMoveTouched | src/state.py:111-129 | Transactions move no address but their senders and recipients |
| Ledger.NoncesCount | src/state.py:111-129 | A sender's nonces in a valid list count up by one from the ledger's |
| Ledger.FloorIsAStaircase | src/tx.py:164-174 | The board's fee floor is one tick for the first 250 posts and triples every 250 |
| AcceptedChains.PostsPayTheFloor | src/tx.py:283-290 | A board post of an accepted block pays at least the floor set by the number of board posts in all blocks before it |
| AcceptedChains.OnChainIsOrdinary | src/tx.py:186-290 | Every accepted block is within the size limit, and each of its transactions pays one to five hundred positive outputs to others, no negative fee, and never out of the burn address |
| Ledger.State.Debit | src/state.py:56-76 | Fails without a change when the balance is short; spending the last tick removes the entry |
| Ledger.State.Apply | src/state.py:111-129 | The object becomes the specified ledger, and exactly the sender and the recipients are marked dirty |
| Ledger.State.ApplyBuilderReward | src/chainstate.py:49-63 | The object becomes the ledger after the builder is paid, and the builder is marked dirty exactly when anything was paid |
| Blocks.ApplyTransactions | src/block.py:523-552 | Accepts exactly the lists valid one by one against the running state with the floor frozen at the start, and then leaves their ledger with exactly their addresses marked |
| Blocks.ApplyBlockState | src/chainstate.py:155-179 | A copy of the state becomes the ledger after the block, with exactly the block's addresses marked on top |
| Blocks.BlockMovesTouched | src/chainstate.py:39-63 | A block moves no address it does not mark |
| Blocks.ApplyBlockIsReplay | src/chainstate.py:110-179 | On a chain with no height 0 block past genesis, appending an accepted block of nonzero height and replaying the longer chain agree |
| Blocks.FromChain | src/chainstate.py:110-134 | The replay loop returns the specified state |
| AcceptedChains.HeightCountsFromLastZero | src/block.py:471-482 | On any accepted chain a block's height is its distance from the last block that claimed height 0 |
| AcceptedChains.AppendIsReplayIff | src/chainstate.py:110-179 | A chain extended block by block equals its replay at every point exactly when each accepted block claiming height 0 has no transactions, no iterations, and no builder or nothing left to mint |
| AcceptedChains.OneBlockReplays | src/chainstate.py:155-179 | Appending one accepted block is replaying it exactly when it does not claim height 0 or is inert |
| AcceptedChains.ValidIffZeroFree | src/chainstate.py:110-134 | An accepted tail makes a chain whose every block stands on a replay exactly when none of its blocks claims height 0 |
| Blocks.HeightsFollowIffNoneIsZero | src/block.py:471-482 | An accepted tail's heights follow its positions exactly when no block in it claims height 0 |
| AcceptedChains.SpacingAccumulates | src/block.py:485-496 | Between any two blocks of an accepted chain lie at least ninety seconds for each block in between |
| NodeChain.ClockBoundsLength | src/block.py:485-496 | No chain a node takes over is longer than its clock allows at that spacing since genesis |
| Blocks.ZeroHeightIsAccepted | src/block.py:499-520 | The height 0 exemption, and how appending and replaying then count work differently |
| AcceptedChains.SupplyHoldsIff | src/chainstate.py:39-63 | After any accepted tail the cap holds, no stored balance is zero, each sender's nonces on chain are 1 to n, and balances fall short of the minted total by exactly the fees of blocks without a builder; they sum to it exactly when each height 0 block names a builder or collects no fees |
| AcceptedChains.LookupIsFoldIff | src/block.py:26-61 | On any accepted chain the lookup equals folding the median rule window by window from genesis, at every point, exactly when each height 0 block at a window's first position carries the window's count |
| AcceptedChains.AllCarryIff | src/block.py:510-515 | Every block of an accepted chain carries its window's folded count exactly when those claiming height 0 do |
| AcceptedChains.CountsOnlyRise | src/block.py:26-61 | Where they do, the count is constant inside a window and never falls with height |
| Retarget.MedianIsMajority | src/block.py:55-60 | The median test is a strict majority of fast gaps in an odd window, and between half and a strict majority in an even one |
| Retarget.MedianSplitsEvenly | src/block.py:55-60 | With exactly half of an even window under the threshold the median is the average of the two gaps on either side of it |
| Retarget.BoundaryFollowsGaps | src/block.py:42-61 | At a window's end the lookup requires 51/50 of the window's own count, rounded down, where more than half its gaps are under 100 seconds, and the window's own where fewer than half are |
| Retarget.BoundaryAtHalf | src/block.py:42-61 | With exactly half under it the slowest fast gap and the fastest slow one decide by their average |
| ForkChoice.AgreementReachesDown | src/chainstate.py:16-36 | Where one of the chains has no later height 0 block, agreement at one height is agreement at every height below it |
| AcceptedChains.AgreementReachesZero | src/chainstate.py:16-36 | On any two accepted chains agreement at a height reaches down to the last block claiming height 0 |
| AcceptedChains.AgreementReachesDownIff | src/chainstate.py:16-36 | On any two accepted chains agreement at a height is agreement at every height below it exactly when they share no height 0 block above their first difference |
| AcceptedChains.SearchIsScan | src/chainstate.py:16-36 | On two such chains the binary search finds the first difference |
| ForkChoice.SearchIsScanIff | src/chainstate.py:16-36 | On any two lists the search finds the first difference exactly when it looks at no agreement above it |
| NodeLimits.SearchIsMisled | src/chainstate.py:16-36 | Two accepted chains that part at height 1 and share a height 0 block at height 2: the search finds height 3 |
| NodeLimits.MisledWinner | src/chainstate.py:185-300 | On them, at equal work, the tie-break from height 3 picks the other chain than from height 1 |
| ForkChoice.ForkPoint | src/chainstate.py:16-36 | The loop returns what the specified search returns, on any two lists |
| ForkChoice.ScanForFork | src/node.py:2119-2123 | The node's scan of a remote chain returns the first difference, for any two lists |
| ForkChoice.IsBetterThan | src/chainstate.py:185-300 | Work, then the majority of draws from where the search puts the fork, then the fallback, as specified, on any two chains |
| ForkChoice.MajorityWins | src/chainstate.py:255-287 | On equal work and different tips the chain with the lower key at more of the heights compared is better; at equal numbers the digest of all the keys decides |
| ForkChoice.JoinedInOrder | src/chainstate.py:291-300 | The joined value is the keys of the range one after the other |
| ForkChoice.LessIsBefore | src/chainstate.py:262-267 | A key is lower where the two first differ by a lower character, or by ending there |
| ForkChoice.FallsOneWay | src/chainstate.py:185-300 | No chain is better than itself, and no two are each better than the other |
| AcceptedChains.WorkGrowsIff | src/chainstate.py:209-213 | Every block accepted on a valid chain strictly adds work exactly when each that claims height 0 claims a positive count |
| AcceptedChains.TieHasSharedRangeIff | src/chainstate.py:233-245 | Different tips of accepted chains leave a diverged height both have exactly when neither extends the other; on equal work one extends the other only past a height 0 block with no positive count |
| ForkChoice.OneSideWinsUnlessKeysCoincide | src/chainstate.py:185-300 | For different tips neither chain wins exactly when work ties and every key over the heights compared coincides |
| ForkChoice.OneBlockForkIsTheDraw | src/chainstate.py:209-300 | Between two children of one chain the lower key wins |
| NodeChain.RememberKeeps | src/node.py:2047-2055 | Remembering a state keeps the cache right, ordered and within its size |
| NodeChain.ForgetThenMove | src/node.py:2056-2063 | Forgetting from the fork up keeps every remaining entry right for the new chain |
| NodeChain.EvaluateIsReplay | src/node.py:2064-2172 | The verdict resumed from the tip, from genesis or from the cache is the full replay's, on any remote chain |
| NodeChain.VerdictIsExtension | src/node.py:2099-2172 | An accepted remote chain shares the local chain up to the fork, its state is the prefix's replay extended block by block, and it has no less work |
| NodeCache.AdoptionIff | src/node.py:2233-2256 | Taking over any chain never loses work, and leaves every cached height holding what replaying the new chain to it gives exactly when no block from the fork on claims height 0, wherever the claimed height is below the fork, every height 0 block claims a positive count, or anything is left to mint |
| NodeCache.TipDecides | src/node.py:2047-2063 | After taking over any chain the cache is right exactly when the tip's entry, under the height it claims, is |
| NodeCache.CacheAgreesIff | src/node.py:2047-2172 | Along any run of commits, reorgs to any chains and sibling swaps whose height 0 blocks meet one of those three, every cached height holds what replaying the current chain to it gives, up to any point, exactly when no chain taken over before it has a height 0 block from its fork on; until then work never falls |
| NodeCache.RecentForksResume | src/node.py:2047-2097 | After k commits a fork no more than k, and no more than twenty, blocks deep is resumed without a replay |
| NodeCache.ZeroSpoilsCache | src/node.py:2047-2055 | The new tip is cached under its distance from the last height 0 block; below the fork that entry is wrong |
| NodeLimits.SpoiledIsReached | src/node.py:2233-2256 | From any valid chain, one reorg and one commit lead to a state with such an entry at height 1 |
| NodeLimits.SpoiledVerdict | src/node.py:2064-2172 | There a chain of three blocks is taken over that a full replay finds no better |
| NodeChain.DrawLeavesLowest | src/node.py:1153-1192 | The draw leaves an entrant no other entrant beats |
| NodeChain.DrawIsOrderIndependent | src/node.py:1153-1192 | Any two arrival sequences with the same entrants end on the same key, and on the same block where keys differ |
| NodeChain.SameSiblingsSameEntrants | src/node.py:1153-1192 | The same siblings in any order, each judged by the clock when it comes in, are the same entrants unless one comes in ahead of its timestamp |
| NodeChain.NoneBeatsLowest | src/node.py:1281-1297 | No entrant has a lower key than the one picked |
| NodeChain.PickAgreesWithForkChoice | src/node.py:1281-1297 | No other valid candidate's chain would replace the picked one's |
| Node.Node.RememberState | src/node.py:2047-2055 | The object's cache becomes the specified one |
| Node.Node.ResumePoint | src/node.py:2064-2097 | Whatever it returns is the replay of the shared prefix, and it returns nothing exactly when the fork's parent is neither tip, genesis nor cached |
| Node.Node.EvaluateRemoteChain | src/node.py:2099-2172 | Resuming from the cache accepts, refuses and produces exactly what a full replay does, on any remote chain |
| Node.Node.ApplyBetterChain | src/node.py:2233-2256 | Adopts exactly what a full replay would adopt, leaves everything alone otherwise, never loses work, and leaves the cache right exactly when no block from the fork on claims height 0, under the same three conditions |
| Node.Node.Commit | src/node.py:1299-1338 | The chain grows by the block, the cache stays right, work strictly rises and the height's draw opens |
| Node.Node.ReorgToSibling | src/node.py:1153-1192 | Does what the specification does while the height's draw is open, and nothing otherwise |
| Node.Node.PickWinner | src/node.py:1251-1297 | The winner is this node's candidate, unless stale, or a peer's block valid on the tip, none of those has a lower key, and there is one whenever there is any of them |
| Node.SiblingVerdict | src/node.py:1153-1192 | A lower sibling is adopted exactly when it is valid on the tip's parent |
| Node.SiblingReplacesTip | src/node.py:1153-1192 | Looking at a sibling is one step of the draw, at equal work |
| Node.SiblingsRunTheDraw | src/node.py:1153-1192 | Siblings in any order, each judged by the clock when it comes in, leave at the tip what the draw leaves |
| Persistence.DeltaEqualsRewrite | src/storage.py:318-356 | Where the dirty set covers the difference, writing the delta leaves what a full rewrite leaves |
| Persistence.PersistenceIsFaithful | src/storage.py:293-406 | Over any run of committed blocks, reorgs to accepted chains, failed writes and restarts the table differs from the ledger only on dirty addresses, both are sound, and after each successful write a restart reads back the same ledger |
| Persistence.CommitIsCovered | src/storage.py:318-356 | What a block marks covers what it changes, on top of what was not yet written |
| Persistence.CommitBlock | src/storage.py:376-388 | The objects that apply a block and write what moved do exactly one commit of that run, failed write or not |
| Persistence.FailedCommitIsCaughtUp | src/storage.py:376-388 | A failed write's changes reach the table with the next successful one |
| Persistence.Storage.SaveStateDelta | src/storage.py:318-356 | The table becomes the delta-written one and the dirty set empties |
| Persistence.Storage.RewriteState | src/storage.py:293-316 | The table becomes the rewritten one and the dirty set empties |
| Persistence.Storage.LoadState | src/storage.py:362-367 | The loaded object holds what the table holds, with nothing dirty |
| Assembly.PackedValidates | src/block.py:579-675 | If every group continues its sender's nonce without a gap and is funded, the packed list is accepted, whatever order priority gave the groups and wherever the byte limit cut them |
| Assembly.ValidIff | src/block.py:523-552 | A list validates exactly when each transaction passes alone and meets the floor, every sender's nonces continue its confirmed one without a gap, and each is paid for by the confirmed balance and what the list has moved so far |
| Assembly.GapsAreRefused | src/block.py:523-552 | Every accepted list is gap-free per sender, so the condition on gaps is needed |
| Assembly.PackedIsPrefix | src/block.py:655-668 | Per sender, what is packed is a prefix of that sender's group |
| Assembly.GroupsKeepCount | src/block.py:655-668 | The running count is exactly what was packed and stays inside the limit |
| Assembly.PackedSizeIs | src/block.py:655-668 | The packed bytes are the transactions' own and one comma between any two |
| Assembly.FilterKeeps | src/block.py:605-608 | The floor filter takes out exactly the board posts under the floor |
| Assembly.NothingLeftWithoutCause | src/block.py:655-668 | A pending transaction that clears the floor is packed unless it, or one of its own sender's that has to come first, does not fit on top of the finished list |
| Assembly.LeadRatesCompare | src/block.py:648-652 | One lead comes before another when it pays more for each byte, compared by cross products |
| Assembly.GroupingIsBySender | src/block.py:642-646 | Each group is exactly what its sender has, in list order, one group a sender |
| Assembly.PrioritizedIs | src/block.py:609-654 | Groups are nonce-ordered, hold all their sender has after the floor filter, and come best-paying lead first |
| Assembly.Assemble | src/block.py:579-675 | The nested loops produce the specified list and count |
| Assembly.AssembledIs | src/block.py:579-675 | The assembled list holds per sender a prefix of its nonce order, counts bytes exactly inside the limit, and validates when every filtered group is sendable |
| Mempool.ChooseVictims | src/mempool.py:117-142 | Takes strictly cheaper entries, cheapest first and no more than needed, and frees enough exactly when the cheaper entries could |
| Mempool.EntriesCompare | src/mempool.py:92-97 | An entry is cheaper than another when it pays less for each byte, compared by cross products |
| Mempool.Mempool.Add | src/mempool.py:117-142 | Refused exactly when already held or when everything strictly cheaper would not make room; a refusal changes nothing; the byte counter stays exact and capped |
| Mempool.Mempool.Remove | src/mempool.py:144-147 | Drops the entry and exactly its bytes |
| Mempool.Mempool.RemoveMany | src/mempool.py:149-151 | Drops exactly the given entries and their bytes |
| Probe.Overlay.Apply | src/mempool.py:77-84 | The overlay reads as the ledger after the transaction, or reports that the sender cannot pay |
| Probe.ProbeStateFor | src/mempool.py:174-203 | The overlay reads as the confirmed ledger after the sender's pending transactions in nonce order |
| Probe.HeldCopyIsRefused | src/node.py:695-700 | A copy of a transaction already held never validates |
| Gossip.Gossip.Fluff | src/gossip.py:237-246 | Marks the item and floods everyone but the excluded peer, once |
| Gossip.Gossip.Forward | src/gossip.py:207-235 | Hands the item to one peer other than the predecessor, or fluffs to everyone |
| Gossip.Gossip.ForceFluff | src/gossip.py:176-185 | Floods every peer and marks nothing |
| Gossip.Gossip.MarkSeen | src/gossip.py:187-201 | Says whether the item was marked, and marks it in its own kind's cache only |
| Gossip.TxRelay.HandleInbound | src/node.py:1976-2041 | Does exactly the specified reaction about this item and nothing about any other; the mempool holds it afterwards exactly when it did before, or there was room and the item went public here |
| Gossip.TxRelay.Spread | src/node.py:1372-1377 | Originates the item and remembers the peer it was stemmed to |
| Gossip.TxRelay.NoteEcho | src/node.py:1379-1399 | The entry stays exactly when the word comes from the peer stemmed to |
| Gossip.TxRelay.RetryUnconfirmed | src/node.py:1414-1432 | Settles the entry and floods every peer |
| Flood.TakeKeeps | src/gossip.py:157-246 | Every step keeps the frontier on the wire: a peer of a node that flooded is reached or has a public copy coming |
| Flood.OnlyTheRetrySettles | src/node.py:1976-2041 | While it holds the item the originator marks it only if it flooded at once, and only the retry settles its entry |
| Flood.FloodReachesEveryone | src/gossip.py:157-246 | With no public copy in flight, every node connected to the originator has flooded the item exactly when the originator flooded at once or by the retry |
| Flood.HeldIffSeen | src/node.py:2010-2026 | In any run a node with room that evicts nothing holds the item exactly when it has flooded it |
| Flood.FloodIsKept | src/node.py:2010-2026 | With no public copy in flight, whenever the originator flooded the item, every node connected to it that had room and evicted nothing holds it |
| Flood.StepCosts | src/gossip.py:237-246 | Every public arrival lowers the potential; no step of the stem, no loss, retry or eviction raises it |
| Flood.FloodIsBounded | src/gossip.py:224-246 | In any run the public copies handled or in flight never exceed the sum of degrees plus the originator's own |
| Flood.EvictedOriginCanLoseIt | src/node.py:1379-1432 | A concrete run in which an originator whose mempool dropped the item loses it for good |
| Flood.QuietCanDeliverIff | src/node.py:1379-1432 | After any run, evictions at the originator included, with nothing in flight everyone connected to the originator can still be reached exactly when it flooded the item or still waits for an echo |
| Reassembly.Split | src/peer_udp.py:811-817 | The pieces are the consecutive slices of the payload, at least one, none over the chunk size |
| Reassembly.JoinedPrefix | src/peer_udp.py:811-850 | Joining the first n pieces gives the payload's prefix, so all pieces give the payload |
| Reassembly.FeedKeepsBuffer | src/peer_udp.py:861-899 | Held bytes equal the bytes of all partial messages and stay inside the limit through any datagram |
| Reassembly.EvictKeepsBuffer | src/peer_udp.py:901-907 | Eviction gives back exactly the bytes it drops |
| Reassembly.GenuineStep | src/peer_udp.py:861-899 | A genuine datagram yields the payload exactly when it is accepted and every other piece is stored, and otherwise nothing |
| Reassembly.CollectingAlways | src/peer_udp.py:852-907 | Under any reordering, repetition, loss and eviction, with any other traffic, a message stays a proper part of its payload and the accounting exact |
| Reassembly.OneCountNeverFails | src/peer_udp.py:852-907 | When all datagrams of a message carry one count, the join never meets a missing index, whatever they hold |
| Reassembly.JoinFailsIff | src/peer_udp.py:838-899 | The join meets a missing index exactly when an accepted datagram fills the count while an index at or above the partial's total is held |
| Reassembly.RunFailsIff | src/peer_udp.py:838-899 | After any run, an accepted datagram fails the join exactly when it completes the opening datagram's count and some datagram since, itself included, carries an index at or above that count; it delivers exactly when none does |
| Reassembly.CanFailIff | src/peer_udp.py:838-899 | An open message can still fail, though all later datagrams agree on the count, exactly when an accepted one carries such an index |
| Reassembly.StrayIsStuck | src/peer_udp.py:838-899 | Such a message is never delivered until it is evicted |
| Reassembly.Reassembler.Feed | src/peer_udp.py:861-899 | The object becomes the specified buffer and returns the specified outcome |
| Reassembly.Reassembler.EvictStale | src/peer_udp.py:901-907 | Drops exactly the stale messages and their bytes |

## Left out

- The square root of a trust score in the exposure cap is a value passed in; fractions of the planner are exact quarters, not floats, and block timestamps and fee rates are reals.
- The create-account top-up of a first XLM payment, which may exceed the step amount once a trade: destination accounts exist in the model.
- The XLM sequence rule: both ledgers use the nonce rule; `xlm.py` and `tx.py` are not part of this model.
- Signatures, SHA-256, the VDF, compression, encoding and SQLite: verdicts, symbolic values and maps stand for them.
- SwapRuns.ExactlyOncePayment: of a LAPSE sender, for careful runs; outside them it is false, and `SwapRebuild` says exactly when.
- SwapRuns.LossNeverExceedsCap: of a LAPSE sender, for careful runs; counts the agreed stroop value of each outstanding step, not fees or exchange-rate moves.
- HonestTrade.HonestTradesFinish: the chains settle after each turn, with an unlocked wallet and funds; how long that takes, and who is at fault when it does not, are not modelled.
- "An honest peer is never blamed" is not claimed: a step's clock starts at the previous step, not at the first mover's payment.
- Order capacity, auto-matching, pricing beyond the quote, funding checks and the market's gossip of orders.
- The stall badge and every other timeout in seconds: draw windows, echo deadlines and eviction ages are parameters that may take any value.
- NodeCache.CacheAgreesIff: states are values, so the sharing of one State object between the cache and the chain state is not modelled.
- The block table, whose key is the height a block claims, and the chain read back from it at startup: `Persistence` is the state table.
- The cache of block verdicts keyed by claimed hash, and salvage of transactions from abandoned blocks.
- Transitivity of the fork choice, which a per-height majority does not give.
- The block bytes added after packing (output, proof, hash): the byte limit is proved of the running count.
- Mempool expiry by age, and queries that only list its contents.
- Flood.FloodReachesEveryone: stated for one transaction on a graph that does not change, without cache eviction or loss of public datagrams; blocks, orders and fills use the same gossip object but other handlers.
- `_PendingSync`, acknowledgements, pacing and retransmission of chunks.
- Sockets, threads, discovery, NAT traversal, HTTP routes, the GUI, settings and logging.
