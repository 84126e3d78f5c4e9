# Verified model of the broker

This project models the storage broker (broker daemon, auctioneer, dealer, packer and the two small libraries under
them) in Dafny and proves what the system promises over whole runs: that replicas are neither lost nor duplicated,
that messages take effect once, that auctions end with the winners they should have, that the auction queue never
falls asleep on work, that deals only move forward, and that batches fit in a sector.

`dafny verify dfyconfig.toml` checks everything.

## How it is built

Every component has two layers. A *model* on values says what one operation does to the state (`BrokerModel`,
`DealLifecycle`, `PackerModel`, the step functions of the other modules). The *running form* is imperative (`Broker`,
`BrokerStore`, `Sorter`, `WinnerSelection`, `BidIntake.Auctioning`, `AuctionQueue.AuctionQueue`, `Dealer`, `Packer`,
`RateLim.RateLim`): classes and loops that change state step by step, each method proved to do what the model says,
including the error paths. Invariants and theorems over runs are then proved of the model.

| files | component |
|---|---|
| `TxWrapper.dfy` | transactions attached to a context, nested and deferred |
| `BrokerModel.dfy`, `BrokerOutcomes.dfy`, `BrokerStore.dfy`, `Broker.dfy` | the broker's operations: model, what each comes to in terms of rows and messages, store, handlers |
| `BrokerProtocol.dfy`, `BrokerShapes.dfy`, `BrokerSlots.dfy`, `BrokerRows.dfy`, `BrokerUnpins.dfy`, `BrokerRuns.dfy` | the invariant of the broker and its theorems over runs |
| `BrokerDelivery.dfy`, `BrokerLeaks.dfy`, `BrokerAttempts.dfy`, `BrokerLeakCases.dfy` | redelivery of messages, and what attempts that are cut short leave behind |
| `BrokerClosing.dfy`, `BrokerReports.dfy` | how winners are split, what a second report does, and where the promises stop |
| `Comparators.dfy`, `Sorter.dfy`, `WinnerSelection.dfy`, `BidIntake.dfy` | one auction, from concurrent bids to the closed auction |
| `AuctionQueue.dfy` | the queue of auctions |
| `DealLifecycle.dfy`, `Dealer.dfy` | the dealer: life of a deal, store and handlers |
| `PackerModel.dfy`, `PackerRuns.dfy`, `Packer.dfy` | the packer: operations, interleaved runs, store and jobs |
| `RateLim.dfy` | the rate limiter |

Identifiers, cids, peers and addresses are opaque values with equality. Time, randomness, the chain, the message
broker and the database's failures are parameters: a `faults` set, a function saying which saves succeed, an answer
record, or a free choice. The order in which a map or a query is walked is free too.

## What the theorems assume

- A handler's transaction is atomic and isolated. What it publishes is not part of it.
- In the broker's runs (`BrokerProtocol.Admissible`), an auction reports under one operation id, a deal reports under
  one operation id, new auction ids are new, a successful auction has as many winners as were asked for, all of
  different providers, a targeted batch does not win a provider it already has a deal with, and a new batch takes no
  request that is already stored. The first, third and fourth are what the auctioneer does: `AuctionQueue.ClosedOk`
  (closed once) and `BidIntake.ProcessAuction` (exactly as many winners). The others can fail, and each has its exact
  condition: see the next section.
- The runs of `BrokerRuns` publish and commit together. `BrokerDelivery`, `BrokerLeaks` and `BrokerAttempts` drop that:
  there, an attempt can be cut short after any of its messages. Creating a request is no transaction and is not cut.
- In the queue, database writes succeed, a process that stops is out of scope, and auctions stay below the stuck
  timeout.
- In `DealLifecycle.Run`, a row is not claimed while a run on it is still going; stopped runs, failed saves and
  failed publications are all part of it.
- A turn of the dealer's deal maker or monitor is shorter than the delay by which it puts deals off.

## Where the code does not keep a promise

The model does what the code does. Where a promise turned out to be false, there is a concrete case and the exact
condition under which it holds.

- A deal that is reported again under another operation id can break the account of its batch. When it survives is
  decided by the status of the batch, the result known and the result reported (`BrokerReports.RepeatedReport`). A failure
  reported twice is auctioned twice (`BrokerReports.FailureReportedTwice`); the dealer does that when the save after its
  publication fails (`DealLifecycle.ReportedAgain`), since every publication gets a new operation id
  (msgbroker/msgbroker.go:786). A failure reported after a success, as in `DealLifecycle.ReportsDisagree`, leaves the batch
  successful with fewer confirmed deals than it wants, and asks for an auction that it will not use
  (`BrokerReports.SuccessThenFailure`).
- The first auction of a packed batch does not exclude the providers that have a deal for its piece and origin, since the
  batch is read before its piece is set; it does what it should if and only if there are none
  (`BrokerOutcomes.PackedHistoryIff`, `BrokerOutcomes.PackedMissesHistory`). Such a winner is dropped when the auction
  closes, and the gap is auctioned with them excluded.
- A batch with an IPFS source and no CAR URL kills the handler after its deal rows are written, and the deferred finish
  commits them: the deals are never proposed (`BrokerClosing.ClosingSplitsWinners`,
  `BrokerClosing.IpfsOnlyBatchStalls`, `TxWrapper.Handler`).
- What a handler published stays published when its commit fails. Rows have exactly-once effect all the same, messages
  only if no attempt that was cut short had published (`BrokerDelivery.ExactlyOnce`). Each auction leaked that way adds
  its replicas to its batch for good (`BrokerLeaks.LeakySlots`, with a run in `BrokerLeakCases.LostCommit`).
- An ended batch does not always stay ended, since nothing checks the status before a batch is marked successful. Success is
  final in any case (`BrokerAttempts.SuccessForever`). Failure is final if and only if no report is committed that brings
  the confirmed deals to the replication factor (`BrokerAttempts.FailureForeverIff`); for that, replicas must have been
  leaked for the batch (`BrokerAttempts.CompletedAfterLeak`, `BrokerAttempts.EndedUnlessLeaked`). If the batch can be
  rebatched, its payload is unpinned again: unpin jobs are created once if and only if no report completes a rebatchable
  batch that has ended (`BrokerAttempts.UnpinnedOnceIff`). `BrokerLeakCases.FailureTurnsSuccess` is a run that does both.
- A rebatching whose commit fails sends the same requests to the packer twice (`BrokerLeakCases.SentTwice`), under two
  operation ids (msgbroker/msgbroker.go:620), so that they are packed twice (`PackerModel.AddedTwice`). The second batch
  may take a request from a batch that has succeeded, and its data is then unpinned twice: the account of unpin jobs
  survives a new batch if and only if none of its requests is stored (`BrokerUnpins.CreatedKeepsUnpins`,
  `BrokerUnpins.StoredRequestTaken`).
- Proposals look their bid up by provider, on a new walk of the winning bids. With two accepted bids of one provider, one
  bid can be proposed twice and the other never; each is proposed once for all walks if and only if the accepted bids
  are of different providers (`BrokerClosing.ProposedOnceIff`, `BrokerClosing.OneBidProposedTwice`).
- Nothing is excluded for targeted batches when deals are added (`BrokerClosing.TargetedRowsStayUnique`), and a bidder
  bids once but a provider may have several bidders (`BidIntake.TwoBiddersOneProvider`,
  `BidIntake.DistinctProvidersIff`). Two rows of one batch and provider are settled by one report
  (`BrokerClosing.ReportSettlesRows`).
- Saving a resolved deal id releases the row while its run goes on; a second run can then take a finalized deal back
  (`DealLifecycle.ClaimedTwice`, `DealLifecycle.LateSave`). So does saving an accepted proposal: if its publication then
  fails, the run saves a failure over whatever the monitor and the reporter have done in the meantime, and a deal
  reported as a success is reported again as a failure (`DealLifecycle.LateFailure`, `DealLifecycle.ReportsDisagree`).
- A slashed deal is not decided at any height (`DealLifecycle.SlashedIsNeverDecided`): the chain client returns it as
  an error (cmd/dealerd/dealer/filclient/filclient_onchain.go:111-114), so the branch for it is never reached.
- A deal whose id was saved is ready at once if what follows could not be saved, so that one turn of the monitor can
  handle it twice (`DealLifecycle.NotReadyAgain`, `Dealer.Dealer.DealMonitorTick`).
- A batch that is marked done before its message could be published is never announced (`PackerRuns.Stranded`); one that
  is claimed again while it is packed can be announced twice, and only such a one (`PackerRuns.AnnouncedOnceIff`,
  `PackerRuns.PackedTwice`).
- A batch below one MiB is never closed by time, although 65 bytes is given as the lower bound
  (`PackerModel.ClosesSomeDay`).
- Start epochs compared in coarse units are not an order (`Comparators.EarlierStartEpochRanks`).

The price comparator wraps around for prices of opposite sign (`Comparators.LowerPriceWraps`), but no bid gets there:
negative prices are rejected (cmd/auctioneerd/auctioneer/auctioneer.go:415-420), and no handler ranks by price.

## Model

| member | source | states |
|---|---|---|
| TxWrapper.CtxWithTx | storeutil/txwrapper.go:34-44 | the context gets a transaction that sees the committed rows, or stays unchanged when none can be started |
| TxWrapper.FinishTxForCtx | storeutil/txwrapper.go:49-62 | commits if there was no error, rolls back otherwise; the error of the handler comes first, a lost commit is an error |
| TxWrapper.WithTx | storeutil/txwrapper.go:69-100 | joins the attached transaction and leaves its fate to the owner; alone, it commits exactly when the closure returns without error, and a panic rolls back |
| TxWrapper.Handler | storeutil/txwrapper.go:34-100 | a whole handler of nested operations is all or nothing for every error, but a panic is committed by the deferred finish |
| BrokerStore.OperationExists | cmd/brokerd/store/store.go:596-609 | records a new operation id, and reports one that is known, leaving the rows as they are |
| BrokerStore.GetBatch | cmd/brokerd/store/store.go:540-556 | the batch of that id or not found |
| BrokerStore.GetExcludedStorageProviders | cmd/brokerd/store/store.go:636-652 | lists exactly the providers with a deal, of whatever outcome, in a batch of that piece and origin |
| BrokerStore.CreateBatch | cmd/brokerd/store/store.go:176-310 | adds the batch and moves all its requests to it, or fails on a known id or an unknown request |
| BrokerStore.BatchToAuctioning | cmd/brokerd/store/store.go:314-335 | moves batch and requests to auctioning and sets the piece, whatever the status was |
| BrokerStore.BatchError | cmd/brokerd/store/store.go:338-405 | moves the batch to error, its requests to error or back to batching, and creates the unpin job, by status and by rebatchability |
| BrokerStore.BatchSuccess | cmd/brokerd/store/store.go:409-454 | moves batch and requests to success and creates the unpin jobs of a rebatchable batch |
| BrokerStore.InsertDeals | cmd/brokerd/store/store.go:486-509 | a row for each winner whose provider is not excluded, in the order of the walk, and no other |
| BrokerStore.AddDeals | cmd/brokerd/store/store.go:459-536 | the rows and the move to deal making, for batches in auctioning or deal making only; history is consulted for untargeted batches only |
| BrokerStore.SaveDeals | cmd/brokerd/store/store.go:613-631 | updates every row of the batch and provider and no other; fails when there is none |
| BrokerStore.CountConfirmed | cmd/brokerd/broker/broker.go:692-699 | the number of confirmed rows of the batch |
| Broker.Broker.CreatePrepared | cmd/brokerd/broker/broker.go:156-261 | an attempt at batch, request and first auction together; on an error nothing is committed, and the auction is out only if the commit failed |
| Broker.Broker.CreateNewBatch | cmd/brokerd/broker/broker.go:302-350 | the batch of the packer in preparing, or nothing committed |
| Broker.Broker.NewBatchPrepared | cmd/brokerd/broker/broker.go:353-412 | an attempt at the move to auctioning with one auction for all replicas; a repeated message with the same piece changes nothing; on an error the auction is out only if the commit failed |
| Broker.Broker.StartAuction | cmd/brokerd/broker/broker.go:414-484 | publishes one auction with the excluded providers, or errors the batch when the targeted providers are used up |
| Broker.Broker.BatchAuctioned | cmd/brokerd/broker/broker.go:487-613 | an attempt at what the model of the closing says, for every order, walk and fault: complete without an error; cut short with one, with the messages out that were published before it; without faults an error means that the model fails |
| Broker.Broker.FillProposals | cmd/brokerd/broker/broker.go:589-604 | for each accepted provider, the first bid of that provider on a new walk of all winning bids |
| Broker.Broker.ErrorBatchAndRebatch | cmd/brokerd/broker/broker.go:731-751 | errors the batch and asks the packer for its requests again, each once; fails if there are none, as for a batch that succeeded, since an empty message is refused (msgbroker/msgbroker.go:616) |
| Broker.Broker.BatchFinalizedDeal | cmd/brokerd/broker/broker.go:616-709 | an attempt at what the model of the finalization says: re-auction, deadline error, success or nothing more; messages are out without rows only if the commit failed |
| BrokerOutcomes.RequestWasCreated | cmd/brokerd/broker/broker.go:122-152 | accepted if and only if its id is new; the row, and the one message that sends it to the packer, field by field |
| BrokerOutcomes.PreparedWasCreated | cmd/brokerd/broker/broker.go:156-261 | accepted if and only if both ids are new; replication, deadline, providers and all other fields of the batch as requested; one auction for all replicas that excludes nobody if providers are targeted, and exactly the providers with a deal for the piece and origin otherwise |
| BrokerOutcomes.BatchWasCreated | cmd/brokerd/broker/broker.go:302-350 | accepted if and only if it has requests, all known, and a new id; the fields of the batch, and its requests and no others moved to it |
| BrokerOutcomes.BatchWasPrepared | cmd/brokerd/broker/broker.go:353-412 | accepted in preparation, or again with the same piece; one auction for all replicas with the size just found, that excludes nobody |
| BrokerOutcomes.PackedHistoryIff | cmd/brokerd/broker/broker.go:391-405 | the first auction of a packed batch excludes exactly the providers with a deal for its piece and origin if and only if there are none |
| BrokerOutcomes.PackedMissesHistory | cmd/brokerd/broker/broker.go:391-405 | a second batch of one piece whose auction does not exclude the provider of the first |
| BrokerOutcomes.ClosingTaken | cmd/brokerd/broker/broker.go:499-540 | a closing is accepted if and only if its operation is new and its batch is known and past preparation, unless it is to be rebatched without requests |
| BrokerOutcomes.EndedClosing | cmd/brokerd/broker/broker.go:517-525 | a closing of an ended batch is recorded and does nothing else |
| BrokerOutcomes.ClosingTakes | cmd/brokerd/store/store.go:471-509 | one pending row for each winner that is not of a provider with a deal for the piece and origin, for all winners if providers are targeted, and no other |
| BrokerOutcomes.AuctionSucceeded | cmd/brokerd/broker/broker.go:554-611 | with a gap, one auction for it that excludes exactly the providers with a deal for the piece and origin, new ones included, unless all targeted providers have one: then, and only then, the batch is given up; the message to the dealer field by field |
| BrokerOutcomes.ClosingNeverGivesUp | cmd/brokerd/broker/broker.go:563-575 | a closing with winners never gives its batch up, because a targeted one has no gap |
| BrokerOutcomes.AuctionWasLost | cmd/brokerd/broker/broker.go:531-546 | the batch fails with the cause; if it can be rebatched, its requests are released with one more rebatch and one message sends each of them, once, with its data and origin |
| BrokerOutcomes.FailureReported | cmd/brokerd/broker/broker.go:637-690 | from the deadline, the start epoch and the error text: given up without a message past the deadline unless the deal was rejected, given up if the targets are used up, and otherwise one auction for one replica that excludes exactly the providers with a deal, the failed one included |
| BrokerOutcomes.SuccessReported | cmd/brokerd/broker/broker.go:692-706 | batch and requests succeed if and only if as many rows are on chain as the batch wants, and stay otherwise; the result is written to its rows and no others |
| BrokerOutcomes.ReportTaken | cmd/brokerd/broker/broker.go:626-640 | a report is accepted if and only if its operation is new and there is a row for it |
| BrokerOutcomes.GivenUpCauses | cmd/brokerd/broker/broker.go:655-668 | a deal given up after too many retries is auctioned again whatever the deadline, and one that missed its start epoch is not |
| BrokerRuns.StepKeepsInv | cmd/brokerd/broker/broker.go:123-709 | every operation keeps the whole invariant: auctions, deals, operations, batches, slots, requests, providers and unpin jobs |
| BrokerRuns.SlotConservation | cmd/brokerd/broker/broker.go:554-706 | in every reachable state, replicas in open auctions, deals pending and deals confirmed add up to the replication factor of a live or successful batch, to less for a failed one; success is exactly all confirmed |
| BrokerRuns.SlotsNeverGrow | cmd/brokerd/broker/broker.go:637-706 | over every run the slots of a batch that was auctioned never grow |
| BrokerRuns.EndedForever | cmd/brokerd/store/store.go:338-419 | over every run the row of a successful or failed batch never changes again |
| BrokerRuns.RequestsMirrorBatches | cmd/brokerd/store/store.go:226-451 | in every reachable state the status of a request is the one its batch's status gives, and deadlines or targets rule out rebatching |
| BrokerRuns.ProvidersNotRepeated | cmd/brokerd/store/store.go:471-509 | over every run an untargeted batch never adds a deal with a provider that already has one for the same piece and origin |
| BrokerRuns.UnpinnedOnce | cmd/brokerd/store/store.go:388-451 | over every run there is one batch-unpin job per rebatchable batch that ended and one data-unpin job per request it stored, and no others |
| BrokerSlots.StepKeepsSlots | cmd/brokerd/broker/broker.go:487-709 | one step of any kind keeps the slot account of every batch |
| BrokerSlots.AuctionClosedSlots | cmd/brokerd/broker/broker.go:554-611 | the replicas of the auction that closes become deals, a gap auction, or are lost with the batch |
| BrokerSlots.DealFinalizedSlots | cmd/brokerd/broker/broker.go:637-706 | a deal becomes confirmed, an auction for one replica, or is lost with the batch |
| BrokerSlots.FinalizedIsLive | cmd/brokerd/broker/broker.go:697-706 | a batch can only get its last confirmation while it is live, so success needs no status check |
| BrokerRows.AcceptedExactly | cmd/brokerd/store/store.go:486-509 | the accepted bids are exactly the winners of providers not excluded, each once |
| BrokerRows.StepKeepsProviders | cmd/brokerd/store/store.go:471-509 | one step keeps the providers of a piece and origin apart |
| BrokerRows.StepKeepsMirror | cmd/brokerd/store/store.go:226-451 | one step keeps requests in step with their batch |
| BrokerUnpins.StepKeepsUnpins | cmd/brokerd/store/store.go:388-451 | one step keeps the account of unpin jobs, whatever ends a batch |
| BrokerUnpins.FinalizingExcess | cmd/brokerd/broker/broker.go:692-706 | what any report adds to the jobs beyond the account: one batch job if it completes a rebatchable batch that has ended, and the data jobs of its requests if it had succeeded |
| BrokerUnpins.ReportKeepsUnpins | cmd/brokerd/broker/broker.go:692-706 | the account of unpin jobs survives a report if and only if the report does not complete a rebatchable batch that has ended |
| BrokerDelivery.ExactlyOnce | cmd/brokerd/broker/broker.go:489-512 | for any sequence of attempts, repeated, reordered and cut short anywhere, the rows are those of the first committed attempt of each operation id, made once; the messages are those and the leaked ones, so the same if and only if nothing was leaked |
| BrokerDelivery.RedeliveryIsSilent | cmd/brokerd/broker/broker.go:500-508 | attempts at known operations change and publish nothing, cut short or not |
| BrokerDelivery.CommitRecords | cmd/brokerd/store/store.go:596-609 | a committed message had a new operation id, and exactly that one is recorded |
| BrokerLeaks.LeakySlots | cmd/brokerd/broker/broker.go:462-709 | over every run with attempts cut short after any message, leaked auctions closing like others: a live batch has its replication factor and its leaked replicas as slots, a failed one less, a successful one at most that |
| BrokerLeaks.RightUnlessLeaked | cmd/brokerd/broker/broker.go:499-501 | in such a run the slots of a batch that has not ended are right if and only if nothing was leaked for it; and right for every batch nothing was leaked for |
| BrokerAttempts.EndedStep | cmd/brokerd/store/store.go:338-419 | in every state and for every event, the row of an ended batch stays, except that a committed report which completes a failed batch marks it successful |
| BrokerAttempts.SuccessForever | cmd/brokerd/store/store.go:338-419 | over every sequence of attempts the row of a successful batch never changes |
| BrokerAttempts.FailureForeverIff | cmd/brokerd/broker/broker.go:692-706 | the row of a failed batch never changes if and only if no report that completes it is committed; otherwise it ends up successful |
| BrokerAttempts.CompletedAfterLeak | cmd/brokerd/broker/broker.go:692-706 | a report that completes a batch which has ended shows that replicas were leaked for it, and one of a deal on chain that it had failed |
| BrokerAttempts.EndedUnlessLeaked | cmd/brokerd/store/store.go:338-419 | over every run with attempts cut short a batch that ended stays as it is, if nothing was leaked for it |
| BrokerAttempts.UnpinAccount | cmd/brokerd/store/store.go:388-451 | over such runs the unpin jobs of a cid are one per ended rebatchable batch and stored request, and those of batches completed after their end |
| BrokerAttempts.UnpinnedOnceIff | cmd/brokerd/store/store.go:388-451 | over such runs the unpin jobs of every cid are created once if and only if no report that completes a rebatchable batch which has ended is committed |
| BrokerAttempts.RequestsMirrorBatches | cmd/brokerd/store/store.go:226-451 | over such runs requests mirror their batch, whatever was leaked |
| BrokerAttempts.ProvidersNotRepeated | cmd/brokerd/store/store.go:471-509 | over such runs only targeted batches repeat a provider for the same piece and origin |
| BrokerLeakCases.LostCommit | cmd/brokerd/broker/broker.go:626-681 | a run whose commit fails, from a state with the whole invariant: one replica wanted, two under way |
| BrokerLeakCases.FailureTurnsSuccess | cmd/brokerd/broker/broker.go:692-706 | a run from the same state: a report cut short leaks an auction, the batch fails and is unpinned, and the deal of the leaked auction marks it successful and unpins it again |
| BrokerLeakCases.SentTwice | cmd/brokerd/broker/broker.go:731-751 | a rebatching cut short after its message and delivered again, both admissible, sends every request of the batch to the packer twice |
| BrokerUnpins.CreatedKeepsUnpins | cmd/brokerd/store/store.go:226-310 | the account of unpin jobs survives a new batch if and only if none of its requests is stored already |
| BrokerUnpins.StoredRequestTaken | cmd/brokerd/store/store.go:226-310 | a state with the whole invariant, and a new batch that takes a stored request and breaks the account |
| BrokerClosing.ClosingSplitsWinners | cmd/brokerd/broker/broker.go:554-611 | rows for exactly the winners not excluded; proposals and gap replicas add up to the winning bids exactly when the batch has a CAR URL or nothing was accepted |
| BrokerClosing.ProposalsMatchDeals | cmd/brokerd/broker/broker.go:586-611 | with accepted bids of different providers, whatever the walks, proposals and new rows correspond one to one, each with the id, price, start epoch and flags of its own bid |
| BrokerClosing.ProposedOnceIff | cmd/brokerd/broker/broker.go:589-604 | the accepted bids are proposed once each for all walks if and only if they are of different providers |
| BrokerClosing.OneBidProposedTwice | cmd/brokerd/broker/broker.go:589-604 | two bids of one provider: two rows, one bid proposed twice |
| BrokerClosing.IpfsOnlyBatchStalls | cmd/brokerd/broker/broker.go:586-587 | a batch without CAR URL whose deal row is committed and never proposed |
| BrokerReports.ReportEffect | cmd/brokerd/broker/broker.go:637-706 | what any report makes of its batch, and exactly when it asks for an auction |
| BrokerReports.RepeatedReport | cmd/brokerd/broker/broker.go:637-706 | a second report on a deal, under another operation id and with any result, keeps the slots of its batch right if and only if: the batch is live and the deal had not failed; or it failed, and the deal had not, or nothing is auctioned, or more than one slot is missing, or the report completes it; or it succeeded, and a success is repeated, or a failure that is not auctioned |
| BrokerReports.FailureReportedTwice | cmd/brokerd/broker/broker.go:642-681 | a state with the whole invariant and its one slot taken, which a failure reported again turns into two |
| BrokerReports.SuccessThenFailure | cmd/brokerd/broker/broker.go:642-681 | a state with the whole invariant and a successful batch, which a failure reported then leaves successful without a confirmed deal |
| BrokerClosing.TargetedRowsStayUnique | cmd/brokerd/store/store.go:471-484 | one row per targeted batch and provider survives a closing if and only if no winner already has a deal in the batch |
| BrokerClosing.ReportSettlesRows | cmd/brokerd/store/store.go:613-631 | a report settles as many pending deals, and confirms as many, as there are rows of its batch and provider |
| Comparators.OrderedLoop | cmd/auctioneerd/auctioneer/sorter.go:48-59 | the first comparator that tells two bids apart decides, and zero means that none does |
| Comparators.OrderedRanks | cmd/auctioneerd/auctioneer/sorter.go:44-59 | a stack of comparators that are orders is an order |
| Comparators.LowerPriceRanks | cmd/auctioneerd/auctioneer/sorter.go:89-96 | on non-negative prices it is an order, that of the prices |
| Comparators.LowerPriceWraps | cmd/auctioneerd/auctioneer/sorter.go:89-96 | it tells the order of two prices if and only if their difference fits in 64 bits, as it does for all prices that are not negative |
| Comparators.LowerProviderRateRanks | cmd/auctioneerd/auctioneer/sorter.go:111-123 | on non-negative rates it is an order, that of the rates, with zero for unknown providers |
| Comparators.LowerProviderRateTells | cmd/auctioneerd/auctioneer/sorter.go:111-123 | it prefers the lower rate, and a provider without a rate to one with a positive rate |
| Comparators.EarlierStartEpochRanks | cmd/auctioneerd/auctioneer/sorter.go:101-109 | it is an order on all bids if and only if its unit is one epoch |
| Comparators.EarlierStartEpochTells | cmd/auctioneerd/auctioneer/sorter.go:101-109 | it prefers a bid if and only if it starts earlier by a unit at least |
| Sorter.Sorter.Select | cmd/auctioneerd/auctioneer/sorter.go:169-177 | a new sorter with the bids that pass the filter |
| Sorter.Sorter.Init | cmd/auctioneerd/auctioneer/sorter.go:180-183 | a permutation that is a heap for every comparator that is an order |
| Sorter.Sorter.Push | cmd/auctioneerd/auctioneer/sorter.go:252-255 | adds the bid and keeps the heap |
| Sorter.Sorter.Pop | cmd/auctioneerd/auctioneer/sorter.go:180-190 | takes out a bid that none left is better than, and keeps the heap |
| Sorter.Sorter.Remove | cmd/auctioneerd/auctioneer/sorter.go:218-227 | takes out the bid at the index, and keeps the others, for any comparator |
| Sorter.Sorter.Next | cmd/auctioneerd/auctioneer/sorter.go:180-227 | takes one bid while the iterator is not exhausted: the best, one of the best n, or any |
| Sorter.Sorter.ReadSorted | cmd/auctioneerd/auctioneer/sorter.go:180-190 | reading to the end gives a sorted permutation of the bids |
| Sorter.Sorter.ReadTopN | cmd/auctioneerd/auctioneer/sorter.go:193-215 | whatever is drawn, the n bids read are the best n: none left is better than any of them |
| Sorter.Sorter.ReadRandom | cmd/auctioneerd/auctioneer/sorter.go:218-227 | each bid is read exactly once, although the comparator is no order |
| WinnerSelection.IsTargeted | cmd/auctioneerd/auctioneer/auctioneer.go:538-547 | binary search in the sorted providers agrees with membership |
| WinnerSelection.Candidates | cmd/auctioneerd/auctioneer/auctioneer.go:512-548 | the pool is exactly the eligible bids: free, fast enough for the deadline, targeted |
| WinnerSelection.SelectOneWinner | cmd/auctioneerd/auctioneer/auctioneer.go:597-621 | offers bids one by one, which leave the pool, up to the first that acknowledges; at random, it gives up only when the pool is empty |
| WinnerSelection.BestRound | cmd/auctioneerd/auctioneer/auctioneer.go:557-569 | offers the win to bids of which fewer than n in the pool have a lower rate, to n of them if nobody acknowledges |
| WinnerSelection.Round | cmd/auctioneerd/auctioneer/auctioneer.go:553-579 | round 0, 2 or 3 by failures, round 1 by wins, later ones at random, with the reason of that round |
| WinnerSelection.SelectFrom | cmd/auctioneerd/auctioneer/auctioneer.go:553-594 | one round after the other from round 0 on, each from the bids the one before left, until there are enough winners or a random round finds nobody; the winners are those of the rounds, each with the reason of its own round |
| WinnerSelection.SelectWinners | cmd/auctioneerd/auctioneer/auctioneer.go:506-595 | succeeds if and only if enough eligible bids would acknowledge, whatever is drawn; exactly as many winners as replicas; nobody is offered the win twice; on failure all eligible bids were offered it; the rounds go by a fifth of the pool, five bids at least |
| BidIntake.AcceptBid | cmd/auctioneerd/auctioneer/auctioneer.go:491-504 | not after the deadline and not of an excluded provider, and everything else |
| BidIntake.Auctioning.ReceiveBid | cmd/auctioneerd/auctioneer/auctioneer.go:305-342 | validates, accepts and marks the bidder, once, while the lock can be had |
| BidIntake.Auctioning.SaveBid | cmd/auctioneerd/auctioneer/queue/queue.go:505-542 | in the bid map before its row is written, in a started auction only |
| BidIntake.BidAdded | cmd/auctioneerd/auctioneer/queue/queue.go:505-542 | a bid is in the bid map if and only if the auction is still started, and saved if its row can be written too; otherwise its handler has failed |
| BidIntake.FinalizedStays | cmd/auctioneerd/auctioneer/queue/queue.go:505-542 | in every interleaving the bid map of a finalized auction stays as it is |
| BidIntake.Auctioning.AppendBid | cmd/auctioneerd/auctioneer/auctioneer.go:347-351 | what is appended is an accepted bid that is in the bid map and the only one of its bidder; a closed list stays; the invariant is kept |
| BidIntake.RunKeepsInv | cmd/auctioneerd/auctioneer/auctioneer.go:304-361 | under every interleaving of handlers: one bid per bidder, listed bids accepted and in the bid map, all appended ones listed, and the list fixed once closed |
| BidIntake.ToClosedAuction | cmd/auctioneerd/auctioneer/auctioneer.go:458-489 | the winners found in the bid map, with the provider, price, epoch and retrieval of their own bid |
| BidIntake.WinnersAreSaved | cmd/auctioneerd/auctioneer/auctioneer.go:458-489 | no selected winner is missing from the bid map, and each won fairly |
| BidIntake.ProcessAuction | cmd/auctioneerd/auctioneer/auctioneer.go:288-489 | for every interleaving before and during selection: success if and only if enough appended bids are eligible and acknowledge; then exactly as many winning bids as replicas, none dropped, of different bidders, free, in time, fast enough, not excluded, targeted; chosen in rounds by failures, wins and at random |
| BidIntake.BidGetsIn | cmd/auctioneerd/auctioneer/auctioneer.go:304-354 | a bid whose handler is not interrupted is listed and saved if and only if it is well-formed, in time, of a provider that is not excluded and of a new bidder; otherwise nothing changes |
| BidIntake.TwoBiddersOneProvider | cmd/auctioneerd/auctioneer/auctioneer.go:337-345 | a run that lists two bids of one provider |
| BidIntake.SelectThese | cmd/auctioneerd/auctioneer/auctioneer.go:506-595 | any bids that can win, by their price, provider and time to get on chain, are the winners if they are the ones to acknowledge |
| BidIntake.DistinctProvidersIff | cmd/auctioneerd/auctioneer/auctioneer.go:337-345 | for two replicas or more, every selection, for all acknowledgements, has different providers if and only if no two eligible bids share one |
| AuctionQueue.AuctionQueue.CreateAuction | cmd/auctioneerd/auctioneer/queue/queue.go:134-179 | a new auction is started if the job channel takes it and queued otherwise; a known id or invalid data changes nothing |
| AuctionQueue.AuctionQueue.EnqueueJob | cmd/auctioneerd/auctioneer/queue/queue.go:424-438 | started and in the channel, or queued when the channel is full |
| AuctionQueue.AuctionQueue.SaveAndTransitionStatus | cmd/auctioneerd/auctioneer/queue/queue.go:584-597 | the status is the new one, saved only if it changed; deadlines and other rows stay |
| AuctionQueue.AuctionQueue.TakeJob | cmd/auctioneerd/auctioneer/queue/queue.go:440-449 | the worker gets a started auction that nobody is handling or has handled or closed; the invariant is kept |
| AuctionQueue.AuctionQueue.FinishJob | cmd/auctioneerd/auctioneer/queue/queue.go:477-503 | finalized, handed to the finalizer, and a tick unless the tick channel is full |
| AuctionQueue.GetNextReadyToExecute | cmd/auctioneerd/auctioneer/queue/queries/auction.sql:41-47 | a row with the earliest deadline among those queued or stuck, if there is one |
| AuctionQueue.AuctionQueue.ProcessNext | cmd/auctioneerd/auctioneer/queue/queue.go:559-579 | enqueues the next ready auction |
| AuctionQueue.AuctionQueue.Wake | cmd/auctioneerd/auctioneer/queue/queue.go:544-557 | woken by the timer, once, or by a tick |
| AuctionQueue.AuctionTakenIn | cmd/auctioneerd/auctioneer/queue/queue.go:134-179 | taken in if and only if valid and new, with its deadline; started if and only if the job channel has room |
| AuctionQueue.RunKeepsInv | cmd/auctioneerd/auctioneer/queue/queue.go:424-579 | in every run, for any number of workers: if an auction is queued, something will wake the queue; started means in the channel or being handled; nothing is handled or closed twice |
| AuctionQueue.RunForward | cmd/auctioneerd/auctioneer/queue/queue.go:424-503 | over every run auctions keep their deadline and never go back, and are handled in the order in which they were started |
| AuctionQueue.StepDecreases | cmd/auctioneerd/auctioneer/queue/queue.go:440-579 | every step of the queue itself uses up a measure that only new auctions refill |
| AuctionQueue.NeverStuck | cmd/auctioneerd/auctioneer/queue/queue.go:440-579 | while an auction is not finalized, some step of the queue is possible |
| AuctionQueue.EveryAuctionFinalized | cmd/auctioneerd/auctioneer/queue/queue.go:424-579 | whatever the order of steps, the queue stops after a bounded number, with every auction finalized and each handled one closed once |
| AuctionQueue.FromRestart | cmd/auctioneerd/auctioneer/queue/queue.go:92-123 | all that from a restart with any queued rows: the invariant in every run, and every auction finalized once no new ones come |
| AuctionQueue.FinalizedWasClosed | cmd/auctioneerd/auctioneer/queue/queue.go:488-503 | every auction that became finalized in a run was handed to the finalizer |
| AuctionQueue.AuctionQueue.Drain | cmd/auctioneerd/auctioneer/queue/queue.go:440-579 | workers and scheduler in any order terminate with every auction finalized |
| DealLifecycle.RunKeepsInv | cmd/dealerd/dealer/statedealmaking.go:76-164 | over every run of the three handlers, with failed saves and stops: the status never moves back, and the invariant holds |
| DealLifecycle.DealLife | cmd/dealerd/store/store.go:199-235 | a created deal is proposed at most the allowed retries plus one times, not counting proposals that left no trace; to be reported it has an error or an id and an expiration; finalized, it was reported; every report has the batch and provider of the deal and the id, expiration and error of its row, and without an error the id the market resolved and the expiration the chain gave |
| DealLifecycle.SuccessWasOnChain | cmd/dealerd/dealer/filclient/filclient_onchain.go:91-122 | a success that is reported was found on chain, not slashed, in a sector that had started, and with this end epoch |
| DealLifecycle.MakeKeepsInv | cmd/dealerd/dealer/statedealmaking.go:35-164 | a deal-making run, cut anywhere, keeps the invariant |
| DealLifecycle.ConfirmKeepsInv | cmd/dealerd/dealer/statewatching.go:76-186 | a confirmation run, cut anywhere, keeps the invariant |
| DealLifecycle.ReportKeepsInv | cmd/dealerd/dealer/statereporting.go:29-83 | a reporting run, cut anywhere, keeps the invariant |
| DealLifecycle.ConfirmDecides | cmd/dealerd/dealer/statewatching.go:95-183 | exactly when a working run moves the deal to the report, with the different bounds for a missing id and an inactive deal; the id, expiration, error and delay it leaves |
| DealLifecycle.ChainAnswered | cmd/dealerd/dealer/filclient/filclient_onchain.go:91-122 | active is a deal that is not slashed in a sector that has started, until its end epoch; a slashed one is no answer |
| DealLifecycle.ChainPromiseKept | cmd/dealerd/dealer/filclient/filclient_onchain.go:91-122 | slashed is never answered without an error, and an active deal has an expiration |
| DealLifecycle.SlashedIsNeverDecided | cmd/dealerd/dealer/statewatching.go:129-150 | at or after the start epoch, a run decides if and only if the deal is not slashed |
| DealLifecycle.SlashedGoesOn | cmd/dealerd/dealer/statewatching.go:142-183 | the branch for slashed deals saves the failure and goes on, so that a deal with time left would be moved back to confirmation |
| DealLifecycle.RetriesUsedUp | cmd/dealerd/dealer/statedealmaking.go:100-119 | the bound on proposals is reached: told to try again every time, the deal is proposed exactly the allowed retries plus one times and then given up |
| DealLifecycle.SavedWhen | cmd/dealerd/store/store.go:199-235 | a row is saved, in its new status and released, if and only if it has what its old status calls for and the write works |
| DealLifecycle.MakeUnsaved | cmd/dealerd/dealer/statedealmaking.go:51-66 | a deal-making run whose first save fails reports the deal as failed, if that can be saved, and leaves it claimed otherwise |
| DealLifecycle.ConfirmUnsaved | cmd/dealerd/dealer/statewatching.go:95-186 | which saves of a confirmation run count, and that a new deal id which can't be saved is not followed up |
| DealLifecycle.ReportPutOff | cmd/dealerd/dealer/statereporting.go:39-48 | a reporting run that does not end the deal puts it off by the delay, if that can be saved |
| DealLifecycle.NotReadyAgain | cmd/dealerd/dealer/statewatching.go:119-186 | after a run of any stage the row has moved on, is still marked as executing, or is put off by the delay, if and only if it was not left ready by a deal id that was saved without what follows; it has its deal id then |
| DealLifecycle.ReportedAgain | cmd/dealerd/dealer/statereporting.go:39-83 | a complete run ends the deal if and only if the report and the save after it worked; otherwise the next run publishes the same report again |
| DealLifecycle.MakeDecides | cmd/dealerd/dealer/statedealmaking.go:76-164 | where a deal-making run whose saves work leaves the deal, with its error, retries, proposal and delay |
| DealLifecycle.LateFailure | cmd/dealerd/dealer/statedealmaking.go:58-62 | the failure saved after the proposal was accepted moves the row back if and only if it is finalized, and gives it an error whatever was found |
| DealLifecycle.LateMake | cmd/dealerd/dealer/statedealmaking.go:51-66 | a whole late run moves the row back if and only if it decides on an earlier status |
| DealLifecycle.ReportsDisagree | cmd/dealerd/dealer/statedealmaking.go:119-164 | a run with two reports of one deal, a success and a failure |
| DealLifecycle.LateSave | cmd/dealerd/dealer/statewatching.go:119-125 | a late save moves the row back if and only if it is finalized, or waits to be reported and the run decides nothing |
| DealLifecycle.ClaimedTwice | cmd/dealerd/dealer/statewatching.go:119-125 | two overlapping runs that take a reported deal back to confirmation |
| Dealer.Validate | cmd/dealerd/store/store.go:316-361 | exactly the data and deals with everything set and in range |
| Dealer.Dealer.Create | cmd/dealerd/store/store.go:96-170 | all deals or none, none for invalid data or known auction data, each new row as created and the others untouched |
| Dealer.Dealer.GetNextPending | cmd/dealerd/store/store.go:174-195 | the pending row that has been ready longest, marked as executing, or none is pending |
| Dealer.Dealer.SaveAndMoveAuctionDeal | cmd/dealerd/store/store.go:199-235 | the row as given, in the new status and not executing, if the fields its old status expects are set; otherwise nothing changes |
| Dealer.Dealer.ExecutePending | cmd/dealerd/dealer/statedealmaking.go:76-164 | saves what the model of deal making says and fails when it does |
| Dealer.Dealer.MakeDeal | cmd/dealerd/dealer/statedealmaking.go:51-66 | a failed run moves the row as it was read to the report |
| Dealer.Dealer.ExecuteWaitingConfirmation | cmd/dealerd/dealer/statewatching.go:76-186 | saves what the model of the confirmation says, branch by branch |
| Dealer.Dealer.DealMakerTick | cmd/dealerd/dealer/statedealmaking.go:35-74 | as the clock goes on, a turn shorter than the retry delay terminates whatever fails; each deal is handled at most once, none moves back, and none is left pending |
| Dealer.Dealer.DealMonitorTick | cmd/dealerd/dealer/statewatching.go:33-74 | the same for confirmations, whatever fails, with each deal handled at most twice; and at most once, if a run that can save a deal id can also save what follows |
| Dealer.Dealer.ReportFinalizedDeal | cmd/dealerd/dealer/statereporting.go:54-83 | publishes the batch, provider, deal id, expiration and error of the row, and then moves it |
| Dealer.Dealer.ReporterTick | cmd/dealerd/dealer/statereporting.go:29-52 | terminates; every report says what the row of a deal says, no row changes in that, no deal moves back, none is finalized without a report, and a clean turn leaves none pending |
| PackerModel.LimitIsExact | cmd/packerd/packer/packer.go:369-380 | the sizes up to the limit are exactly those that fit the sector with padding and CAR overhead |
| PackerModel.FirstFit | cmd/packerd/store/queries/batches.sql:1-9 | the oldest open batch of the origin with space, and none before it has space |
| PackerModel.RequestWasAdded | cmd/packerd/store/store.go:102-195 | added if and only if not empty and new to its operation: to the oldest open batch of its origin that stays within the limit, or to a new one; ready from the minimum size on |
| PackerModel.AllOrNothing | cmd/packerd/packer/packer.go:132-174 | an operation is added if and only if each request can be read, is not empty and is new; then with one row for each |
| PackerRuns.AddedOnce | cmd/packerd/store/store.go:150-166 | delivered again at any time after, in any run, it changes nothing |
| PackerModel.AddedTwice | cmd/packerd/store/store.go:150-166 | under another operation id the same requests are added again |
| PackerModel.AddKeeps | cmd/packerd/store/store.go:102-195 | adding a request keeps the invariant of all batches, and does not touch those that are not open |
| PackerModel.ClosesWhen | cmd/packerd/store/queries/batches.sql:28-36 | the age at which a batch is closed by time, by its size |
| PackerModel.ClosedOnes | cmd/packerd/store/store.go:231-253 | closing by time makes exactly the open batches ready that have waited enough |
| PackerModel.ClosesSomeDay | cmd/packerd/store/queries/batches.sql:28-36 | a batch is closed by time at some age if and only if it has one MiB |
| PackerModel.LargerClosesNoLater | cmd/packerd/store/queries/batches.sql:28-36 | growing never makes a batch wait longer |
| PackerRuns.RunKeepsInv | cmd/packerd/store/store.go:102-296 | over every interleaving of additions, closings, claims and ends of runs: size is the sum of the requests, one origin, open below the minimum, above the maximum one request only; status never moves back; what is in flight or announced says what the batch holds |
| PackerRuns.BatchesFit | cmd/packerd/packer/packer.go:369-380 | in every reachable state a batch of several requests fits in the sector |
| PackerRuns.AnnouncedPerFinish | cmd/packerd/packer/packer.go:211-265 | over every interleaving a batch is announced once per run on it that publishes, always with the same message |
| PackerRuns.AnnouncedFaithfully | cmd/packerd/packer/packer.go:237-252 | over every interleaving a message lists one request for each row of its batch, as often as there are rows with it; its size is the sum of the rows and its origin the one they share |
| PackerRuns.AnnouncedOnceIff | cmd/packerd/store/queries/batches.sql:38-47 | however runs may end, a batch is sure to be announced at most once at every point of a run if and only if it is never claimed while a run on it is in flight |
| PackerRuns.ClaimChanges | cmd/packerd/store/store.go:258-296 | a claim marks its batch as executing, at its place in the order, and changes nothing else |
| PackerRuns.FinishChanges | cmd/packerd/packer/packer.go:224-252 | the end of a run marks the batch done and announces its message, up to the first step that fails |
| PackerRuns.ClosingChanges | cmd/packerd/packer/packer.go:211-216 | closing by time makes exactly the open batches ready that have waited enough, and changes nothing else |
| PackerRuns.Stranded | cmd/packerd/packer/packer.go:233-252 | a batch marked done by its only run is announced, now or ever, if and only if that run publishes; after a run that does not publish it is never announced if and only if no other run is in flight |
| PackerRuns.PackedTwice | cmd/packerd/store/queries/batches.sql:38-47 | a run from the empty store in which a batch is claimed twice and announced twice |
| Packer.Packer.FindOpenBatchWithSpace | cmd/packerd/store/store.go:127-132 | the loop finds the first fit |
| Packer.Packer.AddStorageRequestToOpenBatch | cmd/packerd/store/store.go:102-195 | row, size and status of one batch change together, or the caller learns that it failed |
| Packer.Packer.ReadyToBatch | cmd/packerd/packer/packer.go:132-174 | all requests or none are committed, whatever fails on the way |
| Packer.Packer.TimeBasedBatchClose | cmd/packerd/store/store.go:231-253 | exactly the open batches that waited enough become ready |
| Packer.Packer.FindNextReady | cmd/packerd/store/queries/batches.sql:38-47 | the batch that has been ready longest, or none is ready or stuck |
| Packer.Packer.GetNextReadyBatch | cmd/packerd/store/store.go:258-296 | claims the batch that has been ready longest, with the requests of exactly its rows, their total size and their origin, or finds none |
| Packer.Packer.Complete | cmd/packerd/packer/packer.go:211-265 | ends a run: marks the batch done and then announces what was read when it was claimed, up to the first step that fails |
| Packer.Packer.Pack | cmd/packerd/packer/packer.go:211-265 | one whole run is a sequence of steps of the model: closing, claim and end |
| RateLim.RunKeepsInv | ratelim/ratelim.go:28-49 | under every interleaving at most the limit run; when Wait has its tokens, nothing runs, there is one entry per failed function, and nothing can start any more, also when Exec and Wait overlap |
| RateLim.AllErrors | ratelim/ratelim.go:28-49 | when Wait has its tokens every function that was started has returned, and the errors are exactly those they returned with, each once |
| RateLim.NobodyHeldUp | ratelim/ratelim.go:28-42 | a function can be started if and only if fewer than the limit are under way or waited for, and one that was started can always go on |
| RateLim.RateLim.Wait | ratelim/ratelim.go:44-49 | terminates whenever the functions do, and returns exactly one message per function that failed, its own |
| RateLim.RateLim.Proceed | ratelim/ratelim.go:30-38 | a started function returns, records its error and gives its token back, in this order |
| RateLim.New | ratelim/ratelim.go:18-24 | an empty limiter, for a positive limit only |

## Left out

- RPC, HTTP, libp2p, PubSub, IPFS, Lotus and chain clients: they appear as answers that can be anything.
- Guards on message fields other than the one against an empty rebatching.
- Configuration, metrics, migrations, generated code and `main` packages.
- Remote wallets, manifests, tags and other data that is stored and passed on without a decision.
- The bytes of messages: conversion to and from protobuf.
- Views, listings and statistics queries that no operation decides on.
- The auctioneer's provider statistics (failure rates, winning rates, on-chain epochs): any values are allowed.
- Delivery of accepted proposals to bidders and marking of finalized deals in the auctioneer.
- Concurrency of the dealer's runs on different rows, which do not touch each other: its loops run them in turn.
- Piece preparation, CAR export and the contents of the batch DAG.
- 64-bit overflow outside of the comparators: sizes, epochs and counts are unbounded.
- Floating point in the packer's limit: it is taken over exact rationals.
- Crashes of the auction queue and its rescheduling of stuck auctions; an auction that runs longer than the timeout
  would be handled again.
- BrokerRuns.SlotConservation: does not cover attempts that are cut short after they published, because the sum is a
  different one there: `BrokerLeaks.LeakySlots` states it.
- BrokerRuns.UnpinnedOnce: does not cover attempts that are cut short either, because it is false of some of them:
  `BrokerAttempts.UnpinnedOnceIff` states of which.
- BrokerRuns.EndedForever: does not cover attempts that are cut short, for the same reason: `BrokerAttempts.SuccessForever`
  and `BrokerAttempts.FailureForeverIff` do.
- DealLifecycle.RunKeepsInv: does not cover runs on a row that overlap, because the status moves back in some
  (`DealLifecycle.ClaimedTwice`).
- AuctionQueue.RunKeepsInv: does not model database errors in the queue, because a row whose status could not be saved
  waits for the stuck timeout.
