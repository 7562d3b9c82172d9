# Myference: verification of the marketplace's ledger and its edges

Myference lets customers buy inference from providers' machines. A broker reserves
money of an on-chain session for each request, relays the provider's output, turns the
reported usage into a co-signed receipt, and settles receipts in batches on a contract
whose log it indexes. This project models that machinery in Dafny and proves what it is
for: no session is ever committed beyond its allowance, no request is charged more than
its customer allowed, no receipt is settled under two transactions, and what the broker
believes about the chain is what the contract's storage says, through crashes, restarts
and reorganisations.

`dafny verify dfyconfig.toml` checks everything.

## How the model is laid out

- `Tables`, `Projecting`, `Ledger`: the broker's rows, the projection of the contract's
  log, and every SQL transaction as a function from tables to tables.
- `Protocol`: all interleavings of request handlers, heartbeats, settlement batches, the
  indexer, crashes and reorganisations as one state machine. Each transaction is one
  step; a commit may land, be lost, or land without being reported.
- `Coherence`, `Solvency`, `Capacity`, `Trails`, `Nonces`, `Prices`, `Dispatch`: the
  parts of its invariant; `Safety`: that every step keeps it; `Changes`: that every step
  is one transaction on the tables; `Theorems`, `Slots`, `Drafts`, `Reporting`, `Capping`,
  `Restoring`, `Resuming`: what follows for every run; `Witnesses`: runs on which something
  fails.
- `Admission`, `Heartbeats`, `Fates`: exactly when these transactions are accepted, which
  offers a heartbeat opens, and what becomes of a request.
- `Storage`, `Settling`, `Indexing`, `Serving`, `Purchasing`: the same operations as the
  programs that carry them out, statement by statement, proved against the functions.
- `Market`, `Permits`, `Mirroring`, `Contracting`, `Agreement`: the contract, its books, who
  may call what and when, its log, and that broker and contract agree on price, customer,
  allowance and log.
- `Ceilings`, `Charging`, `Decimals`, `Routing`: prices and the choice of a provider.
- `Anthropic`, `Chunks`, `Journaling`, `Configuring`, `Mon`: the stream translation, the
  chunk protocol, the tuning journal, the credential update, and amounts as text;
  `Basics` and `Texts` hold what they share.

## What the outside world is taken to do

- The canonical chain carries a log the contract could have written, and it settles only
  receipts this broker sent out, which is what the broker's signature on every receipt is
  for. `Agreement.ContractsChainMayBeMined` derives both from the contract's code.
- In the state machine, a fresh or rewound indexer starts from a block with no log below
  it (`Protocol.MayIndex`). `Indexing.Indexer.Sync` does not assume this; it says what
  happens with and without it.
- A session identifier means the same customer and allowance, and a provider's offer
  version the same terms, on every fork.
- A block hash commits to the whole chain below it. The chain does not change during one
  synchronisation. Contract code, once present on a chain, stays, and only a deployed
  contract logs.
- Account and wallet are keys of each other.

## What turned out not to hold

- A handler that gives up before the provider accepts asks for `failed`, which the table
  of transitions does not allow from `offered`: the hold stays locked and the slot taken
  (`Theorems.OfferedLeaks`; `Witnesses.LeakIsReachable` is a run from an empty database).
  `Theorems.FailedAbortReleasesIff` says exactly when an abort releases.
- A starting block remembered from one fork can lie above the first log of another; the
  rebuilt tables then miss logs (`Resuming.StaleStartLosesLogs`), or indexing fails for
  want of them, and does so exactly when such a log exists (`Resuming.ResumeIsFoldIff`).
- A session opened before its customer enrolled has no row; re-indexing creates it, so
  the sessions table is restored exactly when there is no such session
  (`Restoring.RewindThenReindex`; `Witnesses.EnrolledTooLate` is a run with one).
- An empty piece of output is refused by the daemon but uses up a sequence number, after
  which the job can neither continue nor say that it ended; a write that fails after its
  chunk was recorded does the same (`Chunks.RunJob`).
- The cursor of an unknown request restores to an accepted one
  (`Chunks.RestoredBehavesAlikeIff`).
- Without a way to read old secrets, rolling back an update deletes the accounts it wrote
  instead of restoring them (`Configuring.Apply`; `Configuring.BlindRollbackLoses` has an
  input).
- After a crash between a change and its record, recovery does not undo that one change,
  and removes the journal all the same, although it is to go only when everything has
  been put back (`Journaling.CrashRecovery`, `Journaling.Machine.CompleteRecovery`;
  `Journaling.CrashLosesASetting` is such a moment).

## Model

| member | source | states |
|---|---|---|
| `Theorems.NeverOvercommitted` | server/internal/store/inference.go:251-295 | In every state of every run, the unreleased holds of any session plus its settlements in the projection never exceed the allowance its customer put up on chain. |
| `Theorems.IndexerConserves` | server/internal/chain/indexer.go:366-445 | Indexing any batch and rewinding the projection both leave the sum of holds and settlements of every session unchanged. |
| `Solvency.SettlementConserves` | server/internal/chain/indexer.go:347-384 | One indexed settlement moves exactly its charge from the holds of its session to its settlements, and nothing between other sessions. |
| `Solvency.UnwindConserves` | server/internal/chain/indexer.go:425-444 | A rewind moves every settled charge back to its hold, so the committed sum is unchanged although the stored balance stays net of the settlements. |
| `Solvency.AtServe` | server/internal/store/inference.go:251-295 | The balance check of a reservation keeps every session within its allowance even while balances are stale after a rewind. |
| `Theorems.SettlementFits` | server/internal/chain/indexer.go:347-369 | The next settlement of a receipt the broker sent out finds a hold of exactly provider amount plus fee and a balance of at least that, so it is neither refused nor clamped at zero. |
| `Safety.IndexNeverBlocks` | server/internal/chain/indexer.go:186-218 | From every sound state, indexing a stretch of the canonical chain that skips no log commits. |
| `Safety.Preserved` | server/internal/api/openai.go:170-285 | Every step of every activity - handlers, heartbeats, settlement batches, the indexer, crashes, reorganisations - keeps the invariant of the whole ledger. |
| `Safety.Reached` | server/internal/store/inference.go:242-382 | The invariant holds in every state of every run from an empty database. |
| `Changes.ChangeOf` | server/internal/store/inference.go:242-382 | Whatever the activity, a step changes the tables by exactly one of these transactions, or not at all; only a completion step completes and only an abort step ends a request. |
| `Admission.EdgesOfALife` | server/internal/store/store.go:90-99 | The edges of a request's life are exactly the listed ones. |
| `Admission.ExecutingStates` | server/internal/store/inference.go:184-192 | A slot is taken exactly in the four executing states. |
| `Admission.ReservesIff` | server/internal/store/inference.go:242-311 | A reservation is accepted exactly for the account of an open session, on a bonded and healthy route with a slot in the version asked for, at a worst case within the spending limit and the session's free balance. |
| `Admission.ReservesThis` | server/internal/store/inference.go:286-311 | It locks that worst case under the request's terms, takes one slot, and changes nothing else. |
| `Admission.CompletesIff` | server/internal/store/inference.go:313-344 | A report completes a request exactly while it streams, in its session, within its limits, and once; a repetition is answered in peace and one that used too much is told so. |
| `Admission.CompletesThis` | server/internal/store/inference.go:325-344 | The completion stores the report as it came and gives the slot back. |
| `Admission.AbortsIff` | server/internal/store/inference.go:346-382 | An abort to failed or cancelled is accepted exactly where the table has that edge. |
| `Admission.AbortsThis` | server/internal/store/inference.go:360-382 | It releases the hold and, if that was still held and the request executing, gives the slot back. |
| `Theorems.OneAtATime` | server/internal/store/inference.go:271-286 | Two unreleased requests that are reserved, offered, accepted or streaming never share a machine and offer. |
| `Theorems.SlotBound` | server/internal/store/inference.go:121-198 | For each machine and offer, capacity plus the number of executing requests is at most one, under every interleaving with heartbeats. |
| `Slots.ReturnedOnce` | server/internal/store/inference.go:337-377 | Over any step a request keeps its slot or gives it back by completing or aborting; without a slot it never takes one again. |
| `Slots.ReturnedExactlyOnce` | server/internal/store/inference.go:337-377 | Between a state in which a request holds a slot and one in which it does not, exactly one step of the run gave that slot back, and the route gained it. |
| `Theorems.LifeIsAPath` | server/internal/store/store.go:90-125 | The outbox events of a request form one path of allowed edges from created to its current state; the only extra edge is settled to submitted. |
| `Theorems.NoLeakAfterAcceptance` | server/internal/api/openai.go:187-282 | A handler that ran to its end, its abort not lost, leaves an accepted request signed or later, or ended with its hold released and its slot returned. |
| `Theorems.FailedAbortReleasesIff` | server/internal/store/store.go:90-99 | The abort with failed releases the hold exactly when the request is not offered, cancelled, signed, submitted or settled. |
| `Theorems.OfferedLeaks` | server/internal/api/openai.go:175-193 | The failing family: a handler that gives up before acceptance exits cleanly and leaves the hold locked and the slot taken. |
| `Witnesses.LeakIsReachable` | server/internal/api/openai.go:175-193 | Such a handler in a run from an empty database: enrolment, indexing, a heartbeat, a reservation, then the give-up and a clean exit with the wei held and the slot taken. |
| `Theorems.LateQueueingBreaksPairing` | server/internal/chain/settlement.go:37-58 | Queueing a receipt of a request that has already failed would leave it in flight with nothing held: only the handler's order of calls prevents this. |
| `Theorems.Paired` | server/internal/chain/settlement.go:37-161 | Queue state and request state go together (cosigned/signed, broadcasting/submitted, settled/settled), a request is settled exactly when its settlement is in the projection, and the receipt's total is the hold. |
| `Theorems.OneTransactionForGood` | server/internal/chain/settlement.go:60-133 | Once a queued receipt has a transaction it keeps that transaction and that receipt for the rest of every run. |
| `Theorems.BroadcastIsStored` | server/internal/chain/settlement.go:126-132 | Every transaction ever sent out is stored, receipt by receipt, under the queue rows it pays. |
| `Settling.SentIsStored` | server/internal/chain/settlement.go:64-71 | Whatever a batch run sends out is stored in the queue at that moment, whether it was just written or found pending. |
| `Settling.BatchMaySubmit` | server/internal/chain/settlement.go:72-126 | Writing a batch is the Submit step of the protocol. |
| `Settling.ChosenIsABatch` | server/internal/chain/settlement.go:77-108 | The batch is distinct co-signed rows, at most the limit; none is passed over while there is room or while a younger one is taken, and they stand in the order of their creation. |
| `Theorems.NumberedWithoutGaps` | server/internal/store/receipt.go:84-93 | In every run a provider's receipt numbers are exactly 1..n and each belongs to one request. |
| `Reporting.WhatIsReportedIsCharged` | server/internal/store/receipt.go:23-108 | Once a handler has reported what a request used, every receipt of it - signed, queued, or drafted at any later moment of the run - states that usage, those hashes and that time, and charges exactly that usage at the published rates. |
| `Reporting.EveryReceiptWasReported` | server/internal/settlement/coordinator.go:33-91 | Behind every queued receipt stand one report and, after it, one drafting: it charges the first and bears the parties, the maximum and the fee terms of the second. |
| `Reporting.DraftSucceedsIff` | server/internal/store/receipt.go:23-108 | A completed request's receipt is drafted exactly when the contract terms are in order, the machine is not revoked, the offer is still published as reserved, and no identity or hash is missing; the charge is never the obstacle. |
| `Reporting.DraftIsNumbered` | server/internal/store/receipt.go:84-99 | A receipt bears the number that is stored for its request under its provider. |
| `Drafts.OneReceiptPerRequest` | server/internal/store/receipt.go:35-108 | Once a receipt has been prepared, preparing it again under the same terms at any later moment of the run yields the identical receipt and changes nothing, or is refused. |
| `Drafts.NoRevival` | server/internal/store/receipt.go:35-80 | Once failed or cancelled, a request stays so for the rest of the run, its hold stays released, and no receipt is ever prepared for it. |
| `Theorems.ChargedWithinReservation` | server/internal/store/receipt.go:63-80 | A queued receipt never charges more than its request's reserved maximum. |
| `Theorems.CompletionIsChargeable` | server/internal/store/receipt.go:63-80 | In every run, a completion within its usage limits is never refused for exceeding its maximum. |
| `Prices.NeverTooDear` | server/internal/store/receipt.go:58-80 | With rates fixed per offer version, the exact charge of usage within limits is at most the reserved worst case. |
| `Capping.NeverAboveTheCustomersLimit` | server/internal/store/inference.go:277-286 | In whatever run a reservation is made, and whatever happens until its settlement, its receipt is never over more than a limit the reservation respects. |
| `Purchasing.Purchase` | server/internal/api/openai.go:97-173 | From the order on: an offer is bought exactly when some candidate can serve the order; then the handler begins with the reservation of the chosen one at its exact worst case, the tables end as its script says, and in no run that contains this reservation is the request charged more than the limit in the order. |
| `Purchasing.ReservationOfChoice` | server/internal/api/openai.go:170-170 | The reservation is for the principal's session and account, on the chosen machine, offer and version, up to the chosen cost. |
| `Purchasing.LimitsOfOrder` | server/internal/api/openai.go:97-133 | The limits are four tokens per byte of the prompt and 256, the one output limit given or 4,096, and two minutes. |
| `Capping.RunLeavesTerms` | server/internal/store/inference.go:242-382 | No step of a run changes anything of a request but its state. |
| `Theorems.ProjectionIsFold` | server/internal/chain/indexer.go:85-166 | While the cursor's block is canonical, the chain tables are the plain fold of the canonical log up to that block. |
| `Restoring.RewindThenReindex` | server/internal/chain/indexer.go:299-445 | Rewinding and indexing the same log again restores requests, queue, holds, receipts and the projection; the sessions table too, exactly when every indexed session of an enrolled customer had its row. |
| `Restoring.RewindThenReindexBlocks` | server/internal/chain/indexer.go:186-218 | The same in terms of blocks: the cursor is restored as well, so that only the outbox differs, and the sessions table exactly when some indexed session of an enrolled customer had no row. |
| `Witnesses.EnrolledTooLate` | server/internal/chain/indexer.go:299-320 | A run on which it does: a session is indexed, then its customer enrols; rewinding and indexing again changes the sessions table. |
| `Resuming.ResumeIsFoldIff` | server/internal/chain/indexer.go:98-116 | After a rewind, indexing from the remembered starting block succeeds and rebuilds the fold of the canonical log if and only if no log lies below that block. |
| `Resuming.StaleStartLosesLogs` | server/internal/chain/indexer.go:104-116 | An input on which it does not: the first log lies one block before the remembered start. |
| `Indexing.DeploymentStaysSound` | server/internal/chain/indexer.go:130-159 | A remembered deployment block loses nothing on any fork that has no contract code below it. |
| `Indexing.Indexer.Sync` | server/internal/chain/indexer.go:85-128 | With no log below the remembered start, one synchronisation takes only protocol steps whatever fails on the way, and on success the tables are the fold of the canonical log up to the confirmed target. When it starts from nothing and succeeds, batch after batch, they are that fold if and only if there is no such log. |
| `Indexing.Indexer.Locate` | server/internal/chain/indexer.go:98-107 | The block to go on from skips no log after the cursor, and the remembered start changes only to a deployment block, below which there is no log. |
| `Indexing.Indexer.Recover` | server/internal/chain/indexer.go:108-116 | The projection is rewound exactly when the cursor's block cannot be read or is no longer canonical. |
| `Indexing.Indexer.Advance` | server/internal/chain/indexer.go:117-127 | Batch after batch to the target: from empty tables, success projects exactly the blocks read; if no log was skipped, each batch is a protocol step and success means caught up. |
| `Indexing.Indexer.IndexRange` | server/internal/chain/indexer.go:186-218 | A batch lands whole or not at all, and reports success only if it landed. |
| `Indexing.Indexer.ApplyLog` | server/internal/chain/indexer.go:230-401 | The inserts and updates of each event, on rows that may be there or not, have the effect of the projection and of the session and settlement changes beside it. |
| `Indexing.Indexer.Rewind` | server/internal/chain/indexer.go:403-445 | The loops over reverted settlements and tables have the effect of the rewind function, over each settled request once. |
| `Indexing.FirstCodeBlock` | server/internal/chain/indexer.go:130-159 | The binary search returns a block with code that is the configured one or follows one without; it fails only on a failed read or when the head has no code. |
| `Indexing.SearchSkipsNothing` | server/internal/chain/indexer.go:130-159 | When a contract once present stays present, no log lies between the configured block and the one found. |
| `Resuming.BatchEnd` | server/internal/chain/indexer.go:161-166 | In wrapping 64-bit arithmetic, the batch ends at the target or holds exactly the batch size. |
| `Storage.Store.ReserveInference` | server/internal/store/inference.go:242-311 | The statements of the reservation have the effect of the transaction function, under commits that fail or go unreported. |
| `Storage.Store.TransitionRequest` | server/internal/store/store.go:101-125 | Likewise for a transition of a request. |
| `Storage.Store.CompleteInference` | server/internal/store/inference.go:313-344 | Likewise for a completion, including the already-completed answer and the two refusals. |
| `Storage.Store.AbortInference` | server/internal/store/inference.go:346-382 | Likewise for an abort: hold released, slot freed only if the hold was still held and the request executing. |
| `Storage.Store.PrepareReceipt` | server/internal/store/receipt.go:23-108 | Likewise for a receipt: hold shrunk to the charge, number allocated once, receipt returned only on a reported commit. |
| `Storage.Store.ReconcileProviderCapacity` | server/internal/store/inference.go:121-208 | Likewise for a heartbeat: all routes drained, then each eligible advert routed with a slot only if nothing runs on it, with the model as its evidence where kind or digest is missing. |
| `Heartbeats.BeatCountsIff` | server/internal/store/inference.go:121-155 | A heartbeat is accepted exactly from an unrevoked machine whose signer is its wallet or allowed by it, with every offer under its own hashes. |
| `Heartbeats.OpenSlotsAreEarned` | server/internal/store/inference.go:156-198 | After a heartbeat a slot of its machine is open only for an advertised offer of a bonded provider with no exit asked for, published in that version with those hashes and rates, on unchanged evidence and with nothing running; and it is one. |
| `Heartbeats.SlotOpensIff` | server/internal/store/inference.go:156-198 | An offer advertised once has a slot afterwards exactly when its advert meets those conditions, the machine has a slot to give and nothing runs on the offer. |
| `Heartbeats.OtherMachinesKeep` | server/internal/store/inference.go:130-130 | Routes of other machines are left alone. |
| `Storage.SumHeld` | server/internal/store/inference.go:262-264 | The sum over the rows is the session's unreleased holds. |
| `Storage.AnyExecuting` | server/internal/store/inference.go:184-192 | The count over the rows is positive exactly when a request executes on the offer. |
| `Storage.HighestNonce` | server/internal/store/receipt.go:87-88 | The maximum over the rows is the provider's highest receipt number, or zero. |
| `Settling.SettlementQueue.Enqueue` | server/internal/chain/settlement.go:37-58 | A receipt is queued once and its request signed; a queued one is left as it is. |
| `Settling.SettlementQueue.PendingBroadcast` | server/internal/chain/settlement.go:146-161 | A stored transaction is found exactly when a row is broadcasting, and it is the one least recently updated. |
| `Settling.SettlementQueue.SettleBatch` | server/internal/chain/settlement.go:60-133 | A pending transaction, the oldest, is sent again and nothing changes; otherwise the oldest co-signed rows are written under one transaction, sent only after a reported commit. What the caller is told in each case is stated. |
| `Serving.Handler.ServeRequest` | server/internal/api/openai.go:170-284 | The handler is a walk of protocol steps that begins with the reservation, ends with the request exited, cleanly unless its abort was lost, and leaves the tables that follow from everything outside its control. |
| `Fates.Outcome` | server/internal/api/openai.go:170-284 | What becomes of a reserved request: signed with its receipt queued exactly when the provider finishes within the limits and every call from acceptance to queue succeeds; otherwise, the abort landing, cancelled when the customer has left and failed if not, its hold released; still offered, its hold locked, when the provider never accepted. |
| `Fates.ReceiptOfLastChunk` | server/internal/api/openai.go:257-273 | The receipt then queued states the usage of the last chunk and the hashes of prompt and output, and charges that usage at the published rates. |
| `Fates.RelayIsItsEnd` | server/internal/api/openai.go:206-284 | The relay loop, input by input, comes to what its last input says once the stream has begun. |
| `Serving.Handler.Relay` | server/internal/api/openai.go:206-284 | The relay loop ends for every sequence of inputs, with the tables that follow from them one by one. |
| `Serving.Handler.Forward` | server/internal/api/openai.go:228-280 | A chunk goes on exactly when it is neither last nor failed, was written, and the stream is under way; it finishes the request exactly when it is the last, within the limits, and persisting, drafting, signing and queueing all succeed. |
| `Serving.Handler.Complete` | server/internal/settlement/coordinator.go:33-91 | Persisting, drafting, signing and queueing in this order; it succeeds exactly when all of them do, and on any failure the handler is left about to abort. |
| `Charging.ChargeExact` | protocol/v1/price.go:24-50 | The 64-bit charge is the sum of three exact ceilings; it refuses with overflow exactly when that sum needs more than 64 bits and with maximum exceeded exactly when it is above the maximum. |
| `Charging.MultiplyDivideCeilExact` | protocol/v1/price.go:52-69 | The two-word product, division and carry yield the exact ceiling or an overflow, never a wrapped value. |
| `Ceilings.CeilingIsLeast` | protocol/v1/price.go:52-69 | The ceiling used everywhere is the least number of wei that covers the quotient. |
| `Charging.WorstCaseCost` | server/internal/router/router.go:41-60 | The router's loop computes the sum of exact ceilings of a canonical rate card, or refuses. |
| `Charging.ExactCharge` | server/internal/store/receipt.go:110-132 | The receipt's loop computes the same sum under its own reading of the rate text, or refuses. |
| `Charging.ExactTotalMonotone` | server/internal/router/router.go:41-60 | The charge is monotone in every usage argument. |
| `Charging.TotalCovers` | server/internal/router/router.go:41-60 | A charge is three whole amounts, each the least that covers its units at its rate: per million tokens, and per thousand milliseconds of compute. |
| `Charging.ReceiptNeverExceedsWorstCase` | server/internal/store/receipt.go:63-80 | On every card the router accepts, both readings agree and usage within limits costs at most the worst case. |
| `Decimals.ThreeFormulasAgree` | protocol/v1/price.go:24-69 | On their common domain the three formulas agree in value and in refusal. |
| `Decimals.WorstCaseOnStoredRates` | server/internal/store/inference.go:277-281 | On stored rates the worst case is the exact total: a rate too large to parse is also too dear to charge. |
| `Decimals.ChargeOnStoredRates` | server/internal/store/receipt.go:59-66 | On stored rates the receipt's charge is the exact total, or an overflow. |
| `Routing.Select` | server/internal/router/router.go:108-150 | The selection is eligible, and no eligible candidate is cheaper; nor, at equal cost, quicker; nor then more reliable; nor then better known; nor then earlier by name. Each of the two refusals is given exactly when its reason holds. |
| `Routing.NotBeforeCarries` | server/internal/router/router.go:133-148 | Preference is a strict weak order, so a least candidate exists however the sort proceeds. |
| `Routing.LessMeans` | server/internal/router/router.go:147-147 | The order of names is that of the first byte that differs, a prefix coming first. |
| `Routing.Choose` | server/internal/api/openai.go:134-158 | A candidate is chosen exactly when one that is connected, bonded, healthy and free can serve the request within limit and balance; it is the best of those, and its cost, which the handler reserves, is its exact worst case. |
| `Contracting.EveryLogIsFaithful` | contracts/src/MyferenceMarket.sol:169-454 | Every log the contract can write, nested calls during a claim included, is well formed; its projection is the contract's storage; and the contract holds exactly what it owes. |
| `Market.ActKeepsBooks` | contracts/src/MyferenceMarket.sol:169-454 | Every call keeps the four totals equal to the sums over their mappings and the ether equal to the totals. |
| `Market.SettlingPays` | contracts/src/MyferenceMarket.sol:396-454 | A settlement's fee is the published share of the total, rounded down, and goes to the fee recipient; the rest goes to the provider; nobody else's claim changes; and the request was not settled before. |
| `Permits.SettlesIff` | contracts/src/MyferenceMarket.sol:396-446 | A receipt is settled exactly when it is new, signed by both parties, of the published fee and price, and covered by the open session of its customer in its time. |
| `Permits.NeverSettledTwice` | contracts/src/MyferenceMarket.sol:396-446 | After a settlement, whatever else is called, no receipt of that request or under that number of its provider is settled again. |
| `Permits.ClosingTakesNotice` | contracts/src/MyferenceMarket.sol:285-306 | A session that its customer asked to close is closed by that customer only, a day later at the earliest, and returns what is then left of the allowance. |
| `Permits.BondsLeaveOnNotice` | contracts/src/MyferenceMarket.sol:209-226 | A bond on its way out was asked for by its provider in some earlier call and is due the agreed delay after it. |
| `Permits.FeesStand` | contracts/src/MyferenceMarket.sol:371-381 | The fee of a version never changes. |
| `Permits.FeesChangeOnNotice` | contracts/src/MyferenceMarket.sol:363-381 | A fee waiting to apply was proposed by the owner in some earlier call and waits the agreed delay after it. |
| `Permits.FeeApplies` | contracts/src/MyferenceMarket.sol:371-381 | A fee applies no sooner than announced, as the next version. |
| `Permits.OpeningLocks` | contracts/src/MyferenceMarket.sol:262-283 | A session opens under a new identifier for its sender, until the time given, out of its balance. |
| `Permits.SlashingTakes` | contracts/src/MyferenceMarket.sol:334-361 | Slashing moves the minimum bond, or all there is, to the fee recipient, once for a request. |
| `Permits.OnlyWhoMay` | contracts/src/MyferenceMarket.sol:169-389 | What a call that succeeds tells of its sender and its time. |
| `Mirroring.ActMirrors` | server/internal/chain/indexer.go:242-401 | The event of any call may follow the log so far, and projecting it takes the image of the old storage to the image of the new one. |
| `Contracting.FaithfulClaim` | contracts/src/MyferenceMarket.sol:185-193 | Calls made by the payee in the middle of a claim, and logged before it, disturb neither the books nor the projection. |
| `Contracting.BatchIsActs` | contracts/src/MyferenceMarket.sol:320-332 | A batch that does not revert settles its receipts one after another. |
| `Agreement.SettledIsBacked` | contracts/src/MyferenceMarket.sol:447-453 | A settlement of a receipt the broker sent out is one the indexer can match. |
| `Agreement.QueuedFits` | contracts/src/MyferenceMarket.sol:434-434 | While the projection is current, every queued receipt fits what its session has left on chain, whatever else is in flight, and is not settled yet. |
| `Agreement.DraftIsSettleable` | contracts/src/MyferenceMarket.sol:412-434 | A freshly prepared receipt on an open indexed session has the price, customer and allowance the contract demands. |
| `Agreement.ContractsChainMayBeMined` | contracts/src/MyferenceMarket.sol:169-454 | Any chain whose log the contract wrote from its deployment on, with every receipt bearing the broker's signature sent out before, meets the guard of the protocol's mining step in any state. |
| `Agreement.OpenSlotsAreBacked` | server/internal/store/inference.go:168-198 | While the projection is current, the provider of an offer that a heartbeat opened has a bond on the contract that it has not asked back, and the offer is published there at the route's rates. |
| `Anthropic.InPieces` | server/internal/api/anthropic.go:97-107 | Translating a text in two pieces is translating it whole. |
| `Anthropic.OnlyTheBytesMatter` | server/internal/api/anthropic.go:97-177 | Two writers given the same bytes, however cut into writes and flushes, have written the same events and are in the same state. |
| `Anthropic.ClientText` | server/internal/api/anthropic.go:114-174 | The text deltas, put together, are the first-choice contents of the complete frames, put together. |
| `Anthropic.OneStopNoneAfterError` | server/internal/api/anthropic.go:133-164 | At most one message_stop is written, and none after an error event. |
| `Anthropic.FrameIsAnswered` | server/internal/api/anthropic.go:125-174 | What the client sees of each frame: of the first end of the stream, unless an error came before, a message_stop; of an error, an error; of a finishing choice, after its text, the end of the block and then the usage; of any other, its text. |
| `Anthropic.DataIsLastLine` | server/internal/api/anthropic.go:125-130 | The payload of a frame is its last data line without the prefix. |
| `Anthropic.ResponseWriter.WriteHeader` | server/internal/api/anthropic.go:80-96 | The first status decides; below 400 it writes the two opening events, in order and once. |
| `Anthropic.ResponseWriter.Write` | server/internal/api/anthropic.go:97-107 | The events written stay the translation of all bytes written so far. |
| `Anthropic.ResponseWriter.Flush` | server/internal/api/anthropic.go:108-113 | A flush writes no event of its own. |
| `Anthropic.ResponseWriter.Process` | server/internal/api/anthropic.go:114-177 | The loop takes every complete frame out of the buffer and no more. |
| `Chunks.NumberedInOrder` | protocol/v1/messages.go:329-353 | What the relay accepts of a request is numbered 1..n with at most one final chunk, which is last. |
| `Chunks.AcceptedAreSound` | protocol/v1/messages.go:280-288 | Every accepted chunk names its request and carries output or the end; an error comes only at the end, without output or usage, and is one of the two. |
| `Chunks.ChunkTracker.Accept` | protocol/v1/messages.go:339-353 | A chunk is accepted exactly when it is valid, its request open and its number the next one. |
| `Chunks.AcceptedToo` | cli/internal/provider/daemon.go:60-77 | What the daemon records the relay accepts, and both move on alike. |
| `Chunks.RequestState.SendChunk` | cli/internal/provider/daemon.go:542-547 | A chunk is written only if recorded, a failed write leaves the record, and all that is recorded is what the relay would accept in that order. |
| `Chunks.FrontAccepted` | server/internal/relay/hub.go:136-146 | Any front part of what was sent is accepted: what a link that breaks delivers. |
| `Chunks.HeardUpToTheFirstLoss` | protocol/v1/messages.go:339-353 | Whatever is sent after a lost chunk, interleaved with other requests or not, the relay accepts of its request exactly the chunks before the first loss and nothing ever again. |
| `Chunks.RestoredBehavesAlikeIff` | cli/internal/provider/daemon.go:97-111 | A restored cursor answers every chunk as the original request does if and only if the request was known when the cursor was saved. |
| `Chunks.RequestState.Restore` | cli/internal/provider/daemon.go:107-111 | Putting back a cursor saved while its request was known changes nothing. |
| `Chunks.RequestState.Accept` | cli/internal/provider/daemon.go:50-58 | An offer is accepted once. |
| `Chunks.RequestState.Cancel` | cli/internal/provider/daemon.go:79-88 | A cancelled request records nothing more. |
| `Chunks.RunJob` | cli/internal/provider/daemon.go:507-547 | The relay accepts exactly the pieces up to the first that is empty, cancelled or lost, and then the ending exactly when there is none such and the ending is neither cancelled nor lost. |
| `Chunks.PiecesAndEnding` | cli/internal/provider/daemon.go:519-538 | The pieces carry the output in order under the numbers 1, 2, ...; the ending comes next and carries the usage, or the failure. |
| `Journaling.CrashRecovery` | cli/internal/platform/windows/journal.go:137-166 | From any moment of a session, recovery restores all settings but at most the one in progress, and all of them exactly when every change was on record. |
| `Journaling.CrashLosesASetting` | cli/internal/platform/windows/journal.go:148-166 | A moment at which one is lost: a setting changed and not yet recorded stays changed. |
| `Journaling.Machine.Start` | cli/internal/platform/windows/optimize.go:77-102 | On success the planned settings are tuned and recorded and the rest untouched; on any error the host is as before and no journal remains, unless it could not be removed. |
| `Journaling.Machine.ApplyJournaled` | cli/internal/platform/windows/optimize.go:120-137 | Change then record; a change that cannot be recorded is undone at once. |
| `Journaling.Machine.Session` | cli/internal/platform/windows/optimize.go:104-118 | After start and cleanup, or a failed start, the host equals the snapshot, and every moment in between was recoverable. |
| `Journaling.Machine.CompleteRecovery` | cli/internal/platform/windows/journal.go:148-166 | The recorded changes are put back and the journal goes if it can be removed; the host is as before the session exactly when every change was on record, and but for one setting otherwise. |
| `Journaling.Machine.CompleteStage` | cli/internal/platform/windows/journal.go:116-132 | A stage is recorded once, in order, or the record is unchanged. |
| `Journaling.Machine.Save` | cli/internal/platform/windows/journal.go:62-89 | A journal already there is left alone. |
| `Journaling.RollbackIsReversed` | cli/internal/platform/windows/journal.go:137-143 | Every recorded stage comes once, the newest first. |
| `Journaling.PlannedStages` | cli/internal/platform/windows/optimize.go:52-75 | A valid configuration with power allowed plans, in this order, the power plan if asked for, sleep, the model server's environment and process priority, each to its tuned value. |
| `Configuring.Apply` | cli/internal/host/configure.go:31-98 | It succeeds exactly when every secret and the configuration can be saved; then the configuration is the selections put in turn and the credentials have their secrets written in turn. On any error the configuration is untouched and the credentials are those at entry, if old secrets can be read, and lack exactly the accounts written, if they cannot. |
| `Configuring.ExactlyTheSelected` | cli/internal/host/configure.go:39-72 | The backends enabled in the end are exactly those selected, each showing the last selection put in its place; the others are as they were, switched off; names and offers stay. |
| `Configuring.LastSecretStays` | cli/internal/host/configure.go:73-93 | An account holds the last secret written to it. |
| `Configuring.BlindRollbackLoses` | cli/internal/host/configure.go:44-53 | An input on which undoing without reading loses a secret that was there before. |
| `Configuring.WriteRollsBack` | cli/internal/host/configure.go:44-53 | Rolling a write back, even a second write to one account, leaves what was there. |
| `Configuring.UniqueBackendName` | cli/internal/host/configure.go:125-135 | The name found is the base name or else the first suffixed one that is free, within as many suffixes as there are backends. |
| `Configuring.Pigeonhole` | cli/internal/host/configure.go:129-134 | More names cannot be taken than there are backends. |
| `Configuring.Place` | cli/internal/host/configure.go:54-72 | A selection replaces the first backend that is the same, under its old name and offer, or is appended under a free name; nothing else changes. |
| `Mon.ParseOfFormat` | cli/internal/providerops/service.go:50-79 | Printing any amount below 2^256 wei and parsing it yields the same amount. |
| `Mon.FormatOfParse` | cli/internal/tui/model.go:1153-1167 | Parsing an accepted amount and printing it yields the text without redundant leading and trailing zeros. |
| `Mon.EqualIffCanonical` | cli/internal/providerops/service.go:50-88 | Two accepted amounts are equal if and only if their canonical forms are. |
| `Mon.OneIsWei` | cli/internal/providerops/service.go:50-79 | The amount "1" is 10^18 wei. |
| `Mon.SmallestIsWei` | cli/internal/providerops/service.go:50-79 | The amount "0.000000000000000001" is one wei. |

## Left out

- Theorems.NoLeakAfterAcceptance: covers handlers that run to their end; a broker that crashes between completing a request and queueing its receipt leaves it completed, and nothing in the repository picks it up again.
- Serving.Handler.ServeRequest: runs one handler by itself; the interleaving with other activities is in `Protocol`, whose handler steps it takes.
- Journaling.CrashRecovery: takes each setting to be restored by its own stage; the native runner restores the two Ollama settings together.
- Chunks.RunJob: begins once the workspace files have been decoded; a job with one that does not decode ends without a word.
- Configuring.Apply: assumes that undoing calls succeed and that reading fails only for absent entries.
- Market.ActKeepsBooks: the contract is modelled on values, since forks need copies of it; the reason of a revert, 256-bit overflow, ether forced into the contract and the transfer of ownership are not modelled.
- SQL text, isolation, column widths and time stamps; the chain_blocks table, which is written and never read; the rows of backends and offers a heartbeat also writes; the second capacity update that no longer has a caller.
- Keccak, ECDSA and EIP-712: a signature check is an input of the step that needs it.
- Gas, transaction nonces and liveness of settlement: a reverted transaction is sent again for ever.
- Release of holds of requests stuck in offered, and reorganisations in the middle of a synchronisation.
- Determinism of the router on full ties, and the text of identities and of base names of backends, which are inputs.
- The decoding of JSON in the stream translation, and text comparison beyond byte order, are inputs.
- Websockets, timers, authentication, credential vaults, Docker, Ollama and the operating systems' own calls, analytics, the web client and the rest of the terminal interface.
