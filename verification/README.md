# obscura capture, capacity and command-line model

A Dafny model of three parts of the repository, with proofs about every input, every run or every
reachable state.

1. **Artifact capture and retrieval** (`src/artifacts/index.ts`, `src/artifacts/store.ts`, and the
   capture generations of `src/browser/patchright-core.ts`). One event is one synchronous segment between
   two awaits; events interleave freely, and what the file system, the driver and the clock do is a
   parameter that may be anything. Re-entrancy is modelled where the source has it: a deletion notice
   reaches an operation that discards again inside it, and an untrusted download or operation may call
   back into the browser core to any depth.
2. **Browser session capacity** (`src/gateway/session-manager.ts`, `session.ts`, `orphan-sweep.ts`,
   `config.ts`). Launches, late resolves, sweeps, teardowns and reconfirms interleave freely. Ghost state
   records what really happened to each launch; a death is reported only by a close or a kill that
   confirmed it, and `BrowserSession` proves what such a kill has read. The process table may change
   between any two reads: the sweep's contracts speak of the history of its reads and signals.
3. **Text cores** (`src/cli`): shell quoting, argument parsing, the env-file edit pair, and the two
   scanners that recognize the keeper's ssh.

## Layout

| file | what it holds |
|---|---|
| `Common.dfy`, `Sums.dfy` | options, consumers, trimming; sums over finite maps |
| `ReservationLedger.dfy` | the store's capacity book, on values and as an object |
| `ResponsePermit.dfy` | the one response permit and its waiters, on values and as an object |
| `ArtifactOperation.dfy`, `OperationOutcomes.dfy` | one capture operation, on values and as an object, and what it comes to |
| `ArtifactStore.dfy`, `ArtifactStoreObject.dfy` | the store, on values and as an object |
| `StoreOutcomes.dfy` | what each step of the store does do |
| `StoreHistory.dfy` | what no step of the store undoes, and which claims outlive their capture |
| `ArtifactRuntime.dfy`, `ArtifactRuntimeObject.dfy` | the runtime over its operations and its store |
| `RuntimeInvariants.dfy`, `RuntimeProofs.dfy`, `RuntimeSteps.dfy`, `RuntimeRuns.dfy`, `RuntimeTheorems.dfy` | what the three ledgers must say, each step, and the theorems about runs |
| `RuntimeOutcomes.dfy`, `RuntimeClosing.dfy` | what each step of the runtime does do: who is discarded, retired, told, freed |
| `RuntimeWitness.dfy` | a run that ends in a grant nobody is authorized for |
| `RetrievalBudget.dfy` | the rolling rate limit |
| `CaptureGeneration.dfy`, `CaptureEvents.dfy` | who owns each driver download, and what becomes of each event |
| `SessionPool.dfy`, `SessionPoolProofs.dfy`, `SessionPoolTheorems.dfy`, `SessionPoolSteps.dfy`, `SessionPoolLoad.dfy`, `SessionPoolTicks.dfy`, `SessionManager.dfy` | sessions, orphans, the watch list, what each event does to a launch, and what it adds to and takes from the load |
| `BrowserSession.dfy`, `OrphanSweep.dfy` | one session with its force-kill; the orphan sweep |
| `GatewayConfig.dfy` | the two sizing rules |
| `ShellQuote.dfy`, `CliArgs.dfy`, `CliGrammar.dfy`, `SshArgv.dfy`, `ConsumerKeys.dfy`, `ConsumerGrants.dfy` | the text cores |

Each object method is proved equal to a function on values, and the theorems are about those functions.
A few lemmas beside the results spell out one branch each and are not listed below:
`OperationModel.InvalidationDisposes`, `OperationModel.CloseAnswersRefusals`,
`ReservationLedger.StaleReleaseIsInert`, `CaptureModel.OpensOnlyWhenClean`, `OrphanSweep.AllAccountedFor`
and `CliArgs.FlagLikeValueIsRefused`.

## Where the code and a promise part

- A flag whose name every JavaScript object inherits (`--constructor`) is accepted although the table is
  documented as the whole of what a command accepts, and so is a subcommand (`keys constructor`):
  `CliArgs.AcceptedIsHeldIff` and `CliArgs.InheritedSubcommandIff` say exactly when.
- The two ssh scanners read a lone `-` differently; they agree exactly when no lone dash comes before the
  first operand, or that operand is itself one (`SshArgv.AgreementIsExact`), and an alias `-` is accepted with no operand at all.
- `tokenLineRe` matches after a carriage return or a Unicode line separator, while revocation splits at
  line feeds alone: a token sharing such a line is removed with its neighbour
  (`ConsumerKeys.RevokeKeepsTokenIff` says exactly when one survives).
- A waiting lease request is checked against the store again but not against the owner ledger: after a
  fence a request queued before it is still granted, exactly when the store's own test passes
  (`RuntimeTheorems.FencedLeaseIsExact`), and a run that gets there exists
  (`RuntimeWitness.UnauthorizedGrantIsReachable`).
- A reservation retained after an unconfirmed cleanup survives even a clean close: which captures retain
  one is exact (`StoreHistory.LinkRetainsIff`, `StoreHistory.CommitRetainsIff`), and so is which claims a
  close leaves (`StoreModel.ClaimSurvivesCloseIff`).
- Sessions plus reservations pass the cap by the acquires between registration and return
  (`PoolLoad.CountersAreExact`). The reported count passes it only after a record that was not counted,
  whether watched, evicted or forgotten, came back to a full pool (`PoolLoad.LoadExceedsIff`,
  `PoolLoad.ReportedCountStaysWithin`). Both are by design.

## Model

| member | source | states |
|---|---|---|
| OperationModel.StepKeepsOpInv | src/artifacts/index.ts:686-767 | after any single event an operation has released if and only if nothing it must wait for is outstanding, its decision, release and disposal history is not undone, and one keeper holds the driver copy |
| OperationModel.RunIsExact | src/artifacts/index.ts:829-993 | over every run, no release is early and none is lost, no id is freed twice, no driver copy is disposed of twice |
| OperationModel.DecisionsAreFinal | src/artifacts/index.ts:865-897 | whatever happens after a terminal state, the state stays, at most one release and at most one disposal ever happen |
| OperationModel.AtMostOneReceipt | src/artifacts/index.ts:484-521 | the receipts of any run contain at most one true, and none once an event was counted |
| OperationModel.CloseMustRefuseNestedDiscards | src/artifacts/index.ts:931-960 | exactness rests on a close refusing nested discards: with a clean answer there the release would not be exact |
| OperationModel.NoteDiscardedKeepsOpInv | src/artifacts/index.ts:931-960 | a deletion notice, ordinary or close-owned, retires a live operation and keeps release exact |
| OperationModel.SettleKeepsOpInv | src/artifacts/index.ts:962-979 | the one close result and a cleanup verdict keep release exact |
| OperationOutcomes.OutcomeIsExact | src/artifacts/index.ts:829-863 | over every run: a commit is available exactly when some download event was counted, the unsupported inline pdf exactly when none was and the page's last landing was a pdf, and nothing otherwise |
| OperationOutcomes.DecisionIsExact | src/artifacts/index.ts:484-521 | exactly a second download, failed accessors, a failed copy, a commit, an invalidation and a deletion notice decide an undecided operation, each with its own reason |
| OperationOutcomes.SealIsFinal | src/artifacts/index.ts:829-863 | once sealed, nothing more is counted, noted or accepted, however the run goes on |
| OperationOutcomes.DeletionEndsWait | src/artifacts/index.ts:931-960 | a deletion notice ends the wait for the artifact; the close's own leaves only the close's result to wait for |
| OperationOutcomes.CloseEndsRefusal | src/artifacts/index.ts:962-979 | the close's result answers a refusal: clean ends the wait, failed keeps the id for good |
| OperationOutcomes.NothingIsStuck | src/artifacts/index.ts:981-993 | unless a deletion failed or the driver lost its copy, some continuation of any reachable operation gives its id back |
| Operation.ArtifactOperation.Invalidate | src/artifacts/index.ts:865-897 | the in-place retirement has exactly the specified effect and keeps the operation invariant |
| Operation.ArtifactOperation.RegisterDownload | src/artifacts/index.ts:484-521 | the in-place registration returns the specified receipt and keeps the operation invariant |
| Operation.ArtifactOperation.DeliverCapture | src/artifacts/index.ts:634-650 | the staging continuation after the store's copy, in place, with the invariant kept |
| Operation.ArtifactOperation.Commit | src/artifacts/index.ts:829-863 | the legal commit: available exactly when an artifact was staged, and then it waits for that artifact's deletion |
| Operation.ArtifactOperation.NoteArtifactDiscarded | src/artifacts/index.ts:931-960 | the in-place reaction to a deletion notice |
| Operation.ArtifactOperation.SettleStoreClose | src/artifacts/index.ts:962-979 | the in-place answer of the one close result |
| Operation.ArtifactOperation.TryRelease | src/artifacts/index.ts:981-993 | the single release point, all its conditions |
| ReservationLedger.ReplayConserves | src/artifacts/store.ts:672-690 | over every sequence of reserve, shrink and release moves, stale ones included, global and per-consumer count and bytes and the stage permits equal the sums over live reservations and stay within their limits |
| ReservationLedger.ReserveConserves | src/artifacts/store.ts:672-681 | an admitted reservation becomes live at the worst case, a refused one changes nothing, and every sum and limit holds |
| ReservationLedger.AdmitsExactlyWhatFits | src/artifacts/store.ts:672-681 | a reservation is refused exactly when the id is taken or the book with its worst case added would break a limit |
| ReservationLedger.ShrinkConserves | src/artifacts/store.ts:682 | shrinking sets the claim to the actual size and moves exactly the freed bytes everywhere; a stale or growing one changes nothing |
| ReservationLedger.ReleaseStageConserves | src/artifacts/store.ts:683 | a stage permit is returned once |
| ReservationLedger.ReleaseReservationConserves | src/artifacts/store.ts:685-690 | a release gives back exactly what its own reservation holds |
| ReservationLedger.ReserveThenReleaseRestores | src/artifacts/store.ts:672-690 | reserving and releasing restores every total |
| ReservationLedger.NoCountNoBytes | src/artifacts/store.ts:688-689 | a consumer with no live reservation is charged no bytes, so its ledger entry can go |
| LedgerBook.Book.Reserve | src/artifacts/store.ts:672-681 | the in-place reservation checks every limit before it moves any counter |
| LedgerBook.Book.ReleaseReservation | src/artifacts/store.ts:685-690 | the in-place, identity-bound release |
| PermitModel.YieldKeepsCore | src/artifacts/store.ts:445-447 | a yielding holder answers the first waiter yes and hands it the permit, the others keeping their order, or frees it with nobody waiting |
| PermitModel.SettleAllClears | src/artifacts/store.ts:560 | settling everybody leaves no holder, no unfinished lease, no waiter and a free permit, each waiter answered once |
| RuntimeTheorems.FirstComeFirstServed | src/artifacts/store.ts:435-447 | in every reachable state waiters were answered in the order they came, each once; in a healthy open store every answer was a yes, and nobody waits without a permit that is leased or on its way |
| PermitModel.ResumeThenTakeKeepsResting | src/artifacts/store.ts:438-443 | a waiter that was handed the permit is the only one handed it, and takes it alone |
| PermitModel.ResumeThenReleaseKeepsResting | src/artifacts/store.ts:438-440 | a handed waiter that may no longer lease passes the permit on without losing it |
| Permit.ResponsePermit.Release | src/artifacts/store.ts:559 | the drain loop wakes waiters in order until one is granted or none is left |
| Permit.ResponsePermit.SettleAll | src/artifacts/store.ts:560 | the settle of every responder and waiter, in place |
| StoreModel.DirectDiscardKeeps | src/artifacts/store.ts:570-596 | clean means the record is gone and a running copy tombstoned; refused means nothing moved; failed means the store is poisoned and no book moved |
| StoreOutcomes.DiscardIsExact | src/artifacts/store.ts:570-596 | the one answer a discard may give: refused in a closing store or for a streamed record, failed in a poisoned one or by the disk, and otherwise clean, the record gone, a running copy tombstoned and a finished one's capacity free; nothing else moves |
| StoreModel.QuietDiscardKeeps | src/artifacts/store.ts:630-638 | the discard nested in a notification changes no record, copy or tombstone and cannot be announced again |
| StoreModel.DeletePhysicalKeeps | src/artifacts/store.ts:618-626 | an unproven deletion poisons the store and moves no book; a proven one moves nothing yet |
| StoreModel.CaptureBeginKeeps | src/artifacts/store.ts:356-391 | a capture runs exactly when every gate at once admits it and its copy body went well, and however that body ends the books balance |
| StoreModel.CaptureLinkKeeps | src/artifacts/store.ts:391-397 | a capture goes on exactly when nothing tombstoned, closed, poisoned or unproved it and its link held; stopped, its claim is freed or retained as the source decides |
| StoreModel.CaptureCommitKeeps | src/artifacts/store.ts:398-416 | a capture publishes exactly when untombstoned in a healthy open store under a proven identity, with the consumer and size it was charged for |
| StoreModel.PublishKeeps | src/artifacts/store.ts:413-416 | publication turns the staging reservation into the record's own, releasing and reacquiring nothing |
| StoreModel.FinallyKeeps | src/artifacts/store.ts:425 | a capture that ends unpublished gives back its permit, and its capacity unless cleanup was not confirmed |
| StoreModel.LeaseEnterKeeps | src/artifacts/store.ts:435-452 | a lease is granted exactly for an available record of that consumer in a healthy open store while the permit is free and the identity proof holds, and queued exactly while the permit is busy |
| StoreModel.WaiterResumesKeeps | src/artifacts/store.ts:438-452 | a waiter that was handed the permit is granted exactly when its record is still there to lease and the identity proof holds |
| StoreModel.BeginCompletionKeeps | src/artifacts/store.ts:505-519 | a completing lease is done and detached while it still holds the permit |
| StoreModel.EndCompletionKeeps | src/artifacts/store.ts:519-522 | the permit moves on only after the record was proven deleted, or the store poisoned |
| StoreOutcomes.CompletionIsExact | src/artifacts/store.ts:501-523 | a completion whose file can be deleted removes the record and its claim and passes the permit to the first in the queue; one whose file cannot poisons the store and refuses the queue |
| StoreModel.CloseIsAllOrNothing | src/artifacts/store.ts:702 | the one close is clean exactly when every step was; clean, it removes every record, frees exactly their reservations and announces each once; failed, it leaves every book as it was |
| StoreModel.ClaimSurvivesCloseIff | src/artifacts/store.ts:702 | a claim outlives a close exactly when the close failed or swept no record for it |
| StoreHistory.CatchRetainsIff | src/artifacts/store.ts:418-425 | a copy that throws keeps its claim exactly when its staged names were not proven gone |
| StoreHistory.LinkRetainsIff | src/artifacts/store.ts:391-425 | a capture stopped before its link keeps its claim exactly when it lost the identity proof or could neither link nor unlink |
| StoreHistory.CommitRetainsIff | src/artifacts/store.ts:398-425 | a capture stopped at publication keeps its claim exactly when it lost the identity proof or could not be proved, or may not publish, and could not unlink |
| StoreHistory.RetainedClaimOutlivesCleanClose | src/artifacts/store.ts:418-425 | from any resting store with no copy running: a capture whose cleanup fails under a proven identity, then a close whose every step succeeds; the close is clean, sweeps every record, and the claim is still there |
| StoreModel.CloseRequestKeeps | src/artifacts/store.ts:650-668 | asking again changes nothing; a close waits for every active capture |
| StoreModel.ReleaseSweptKeeps | src/artifacts/store.ts:630-638 | releasing the swept records takes exactly their ids out of the ledger |
| ArtifactStoreObject.ArtifactStore.DiscardArtifactDetailed | src/artifacts/store.ts:570-596 | the in-place discard, refusal first |
| ArtifactStoreObject.ArtifactStore.DeletePhysical | src/artifacts/store.ts:618-626 | the in-place physical half |
| ArtifactStoreObject.ArtifactStore.OpenCapture | src/artifacts/store.ts:359-366 | the in-place gates and reservation of a capture |
| ArtifactStoreObject.ArtifactStore.LinkCapture | src/artifacts/store.ts:391-397 | the in-place segment of a capture from its part fsync to its link |
| ArtifactStoreObject.ArtifactStore.CommitCapture | src/artifacts/store.ts:398-425 | the in-place commit window of a capture |
| ArtifactStoreObject.ArtifactStore.Lease | src/artifacts/store.ts:435-452 | the in-place lease up to its wait |
| ArtifactStoreObject.ArtifactStore.ResumeWaiter | src/artifacts/store.ts:438-452 | the in-place re-check after the wait |
| ArtifactStoreObject.ArtifactStore.FinishClose | src/artifacts/store.ts:702 | the in-place ordered close with its sweep and release loops |
| RuntimeInvariants.LandKeeps | src/artifacts/index.ts:1136-1144 | the token-bound release closure restores every ledger invariant |
| RuntimeInvariants.ReleasedHoldsNothing | src/artifacts/index.ts:981-993 | an operation that may release has no record and no running copy |
| RuntimeProofs.NotifyKeeps | src/artifacts/index.ts:1047-1061 | a deletion notice reaches the token-bound operation, which may discard again inside it, and the three ledgers agree afterwards |
| RuntimeProofs.LogicalHalfKeeps | src/artifacts/store.ts:630-638 | forget, notify, give back: afterwards no book has the id but its operation's own |
| RuntimeSteps.DiscardKeeps | src/artifacts/store.ts:570-604 | every discard keeps the three ledgers in agreement; a clean one leaves neither record nor owner entry; other ids are untouched |
| RuntimeOutcomes.CleanDiscardReleases | src/artifacts/store.ts:630-638 | a committed artifact discarded cleanly releases its operation: record, capacity, owner entry and id are free again |
| RuntimeSteps.InvalidationLands | src/artifacts/index.ts:865-897 | invalidation with its re-entrant discard equals one store discard and one landing of the answer |
| RuntimeSteps.InvalidateOpKeeps | src/artifacts/index.ts:865-929 | invalidation at any instant of any operation keeps the ledgers in agreement and touches no other operation |
| RuntimeSteps.StartCaptureKeeps | src/artifacts/index.ts:630-634 | handing a staged file to the store keeps the ledgers in agreement |
| RuntimeOutcomes.StartDoes | src/artifacts/index.ts:630-634 | a copy runs exactly when the store admits it and its staging went well |
| RuntimeSteps.CaptureSegmentKeeps | src/artifacts/store.ts:391-425 | every later segment of a running copy does, including one that owes the store its close |
| RuntimeSteps.DeliverCaptureKeeps | src/artifacts/index.ts:634-650 | a copy that arrives in time, late or failed keeps the ledgers in agreement |
| RuntimeOutcomes.DeliverDoes | src/artifacts/index.ts:634-650 | a copy in time keeps its artifact, a failed one retires the operation, and one that arrives after the decision is discarded from the store |
| RuntimeOutcomes.AccessorsDo | src/artifacts/index.ts:596-630 | failed or stopped accessors end the staging and retire a live operation with the store's own answer |
| RuntimeSteps.CommitAtKeeps | src/artifacts/index.ts:829-863 | the owner ledger gains an entry exactly for an available artifact, under the committing token |
| RuntimeSteps.CleanupSettlesKeeps | src/artifacts/index.ts:761-767 | an operation whose driver copy is unconfirmed leaves the runtime's map and keeps its id for ever |
| RuntimeOutcomes.CleanupDoes | src/artifacts/index.ts:761-767 | a confirmed disposal is no longer waited for; an unconfirmed one poisons the runtime, which lets the operation go with its id still held |
| RuntimeSteps.RegisterDownloadKeeps | src/artifacts/index.ts:484-521 | registration keeps the ledgers in agreement; the receipt is true exactly for the first event of an open operation |
| RuntimeOutcomes.RegisterDoes | src/artifacts/index.ts:484-521 | a second event retires the operation and discards its staged file; the store's answer is folded in, and any other registration leaves the store alone |
| RuntimeSteps.RetireBelowKeeps | src/artifacts/index.ts:1226-1233 | every operation of a retired snapshot ends terminal whatever the disk does, and no other operation moves |
| RuntimeRuns.CreateKeeps | src/artifacts/index.ts:1072-1156 | an operation is created exactly when the runtime is open and unpoisoned, its lineage unfenced and the id free; created, it is new, tracked and holds the id, and refused, nothing changes |
| RuntimeRuns.FenceKeeps | src/artifacts/index.ts:1208-1233 | after the fence no operation of the lineage is undecided, no other operation moved, and no owner entry changed |
| RuntimeOutcomes.FenceDoes | src/artifacts/index.ts:1208-1233 | the fence retires exactly the undecided operations of the lineage, each with its own answer: its staged record and capacity go and its running copy is tombstoned, unless a lease streams it or a deletion before it failed |
| RuntimeRuns.DiscardLineageKeeps | src/artifacts/index.ts:1248-1284 | a clean answer leaves none of the lineage's artifacts in the owner ledger or the store, no answer touches another owner's entry, and the ledgers agree; what any other answer does is `RuntimeOutcomes.DiscardLineageIsExact` |
| RuntimeOutcomes.DiscardLineageIsExact | src/artifacts/index.ts:1248-1284 | every artifact of the lineage gets its own attempt and its own answer whatever the others answered: refused while streamed, failed once the disk failed it or one before it, else clean; one answered clean is gone from every book, any other stays in all of them, and the overall answer is the worst |
| RuntimeOutcomes.OnlyStreamedIsLeft | src/artifacts/index.ts:1248-1284 | in an open store, after any overall answer but failed, an artifact of the lineage is left if and only if it was being streamed |
| RuntimeRuns.CloseRuntimeKeeps | src/artifacts/index.ts:1378-1420 | every operation is terminal before the store is asked to close; asking again changes nothing |
| RuntimeOutcomes.RetirementDoes | src/artifacts/index.ts:1378-1400 | the close retires exactly the undecided tracked operations, each with its own answer, before the store is asked |
| RuntimeClosing.CloseTakesSnapshot | src/artifacts/index.ts:1378-1400 | the close remembers whom it tracked, and asks the store |
| RuntimeRuns.StoreCloseSettlesKeeps | src/artifacts/index.ts:1401-1412 | the one close result, told to every tracked operation, keeps the ledgers in agreement |
| RuntimeClosing.CloseSettlesTells | src/artifacts/index.ts:1401-1412 | the one result reaches every operation of the snapshot, and nobody else |
| RuntimeClosing.NotifySweptDoes | src/artifacts/store.ts:702 | exactly the tracked operations of the swept records hear of their deletion, each once |
| RuntimeClosing.NoCloseIsOwed | src/artifacts/store.ts:650-668 | in every reachable state a closed runtime has asked its store to close, and only a running copy can still hold the result up |
| RuntimeClosing.CleanCloseReleases | src/artifacts/index.ts:1401-1412 | in every reachable state after a clean close was given out, an operation of its snapshot has released exactly when its own job and disposal are over and nothing of it was lost |
| RuntimeRuns.AcquireLeaseKeeps | src/artifacts/index.ts:1310-1356 | a lease is granted or queued exactly for an authorized request for a leasable record, by whether the permit is free, and the three ledgers stay in agreement |
| RuntimeOutcomes.ServedExactly | src/artifacts/index.ts:1331-1356 | a request is granted or queued exactly when the artifact is committed and owned, it comes from the owner's consumer and, for a drive, its controller, no fence is up, the store is open and healthy, and nobody is being streamed the artifact |
| RuntimeRuns.ResumeWaiterKeeps | src/artifacts/index.ts:1343-1356 | a request that waited is granted exactly by the store's own test; the owner ledger and the fence have no part in it |
| RuntimeTheorems.ConsumesIsExact | src/artifacts/index.ts:1331-1356 | in any reachable state an event hands out a record exactly when it is a fresh request that both ledgers allow, or a waiting one that the store alone allows |
| RuntimeTheorems.FencedLeaseIsExact | src/artifacts/index.ts:1331-1354 | after a fence, however the run goes on, nobody is authorized for an artifact of the lineage, and one is handed out exactly to a request that was queued before the fence and passes the store's test |
| RuntimeWitness.UnauthorizedGrantIsReachable | src/artifacts/index.ts:1331-1354 | for any consumer, drive and two ids, some run from the start ends with a waiting request granted an artifact of a fenced lineage that nobody is authorized for |
| RuntimeWitness.CaptureIsReachable | src/artifacts/index.ts:829-863 | a capture that nothing disturbs commits, with its record, its reservation and its owner entry in place |
| RuntimeRuns.CompleteLeaseKeeps | src/artifacts/store.ts:501-523 | a completed lease leaves its record proven deleted or the store poisoned, and no longer holds the permit |
| RuntimeOutcomes.CompletionDoes | src/artifacts/store.ts:501-523 | a completed lease whose file can be deleted ends its artifact everywhere, operation included, and passes the permit on in order; otherwise the store is poisoned and the queue refused |
| RuntimeTheorems.StepKeepsInv | src/artifacts/index.ts:1047-1156 | every event in any reachable state keeps the three ledgers in agreement, undoes no fence, close or close result, lets nobody new at what a fence covers, makes no consuming record available again, and makes one consuming only by a lease |
| RuntimeTheorems.RunKeepsInv | src/artifacts/index.ts:829-957 | the same over every run, a record counted as the same one while its id keeps its reservation |
| RuntimeTheorems.ConsumingIsForEver | src/artifacts/store.ts:435-522 | over every run: a consuming record still there under the same reservation is still consuming |
| StoreHistory.OnwardIsKept | src/artifacts/store.ts:413-416 | one step publishes records only from running copies, under the token the copy reserved |
| RuntimeTheorems.LedgersAgree | src/artifacts/index.ts:1047-1156 | in every reachable state an owner entry belongs to a committed, unreleased operation that holds that id's reservation and, before a clean close, to a store record of the same consumer |
| RuntimeTheorems.NoIdIsSharedInAnyRun | src/artifacts/index.ts:1112-1144 | no id is ever held by two unreleased operations |
| RuntimeTheorems.StagedHasRecord | src/artifacts/index.ts:634-640 | an undecided operation with a staged artifact has its store record |
| RuntimeTheorems.NothingIsOrphaned | src/artifacts/store.ts:600-638 | every record and every running copy belongs to an unreleased operation holding its id |
| RuntimeTheorems.FenceIsForEver | src/artifacts/index.ts:1208-1284 | after a fence, however the run goes on, every operation of the lineage is terminal, none can be created and every lease request for its artifacts is refused |
| RuntimeTheorems.CloseIsForEver | src/artifacts/index.ts:1378-1420 | after close nothing is undecided, nothing is created, and the close result never changes |
| RuntimeTheorems.OneLease | src/artifacts/store.ts:435-560 | in every reachable state there is at most one live lease; in a healthy open store a record is consuming exactly when it holds the permit; a free permit has no waiters; no waiter is answered twice |
| RuntimeTheorems.CopyCanRun | src/artifacts/store.ts:391-425 | a capture the source would resume is never stuck |
| ArtifactRuntimeObject.ArtifactRuntime.CreateOperation | src/artifacts/index.ts:1072-1156 | creation in place |
| ArtifactRuntimeObject.ArtifactRuntime.CommitOperation | src/artifacts/index.ts:829-863 | the commit in place: the owner ledger is written only here |
| ArtifactRuntimeObject.ArtifactRuntime.CleanupSettled | src/artifacts/index.ts:761-767 | the driver's answer for its copy in place: unconfirmed poisons the runtime and drops the operation from its map |
| ArtifactRuntimeObject.ArtifactRuntime.TellAll | src/artifacts/index.ts:1401-1412 | the loop that tells every tracked operation the one close result, in creation order |
| ArtifactRuntimeObject.ArtifactRuntime.Notify | src/artifacts/index.ts:1047-1061 | the deletion callback in place, its nested discard included |
| ArtifactRuntimeObject.ArtifactRuntime.InvalidateController | src/artifacts/index.ts:1208-1233 | the fence in place: flag first, then the snapshot, in creation order |
| ArtifactRuntimeObject.ArtifactRuntime.DiscardController | src/artifacts/index.ts:1248-1284 | the lineage discard in place: one attempt and one answer for every artifact of the order, whatever the others answered |
| ArtifactRuntimeObject.ArtifactRuntime.AcquireResponseLease | src/artifacts/index.ts:1331-1356 | authorization and lease in place |
| ArtifactRuntimeObject.ArtifactRuntime.Close | src/artifacts/index.ts:1378-1420 | the runtime close in place, up to its await |
| RetrievalBudget.Budget.SpendRetrieval | src/artifacts/index.ts:1167-1181 | the pruned list decides exactly as counting all admitted attempts of the last minute over the full history, and a refused attempt is not recorded |
| RetrievalBudget.Budget.Pruned | src/artifacts/index.ts:1167-1176 | the pruning loop keeps exactly the instants still in the window, at most the limit, sorted |
| RetrievalBudget.RollingBound | src/artifacts/index.ts:1157-1181 | no window of a minute, wherever placed, holds more than the limit of admitted attempts |
| RetrievalBudget.PrunedCounts | src/artifacts/index.ts:1170-1177 | what pruning drops, the plain definition does not count |
| CaptureModel.ExactlyOneOwner | src/browser/patchright-core.ts:1660-1742 | over every run with any re-entrant order, each routed download was taken by one operation or disposed of by the core, exactly once |
| CaptureModel.OneClaimPerGeneration | src/browser/patchright-core.ts:1690-1715 | an operation is asked at most once per generation and takes at most that one download; the pending count is the number of unfinished disposals |
| CaptureModel.DirtyIsForEver | src/browser/patchright-core.ts:1905-1946 | a dirty or closing core never opens another generation, however deep the call |
| CaptureModel.SettledIsForEver | src/browser/patchright-core.ts:1965-1992 | settling a handle again gives the same outcome, whatever happens in between |
| CaptureModel.LateEventsAreNotRegistered | src/browser/patchright-core.ts:1667-1675 | a sealed generation's operation is asked by no event, and a retired generation never comes back to the slot; that the cutoff seals is `CaptureEvents.CutoffIsFinal` |
| CaptureEvents.CutoffIsFinal | src/browser/patchright-core.ts:1965-1992 | from the settlement's start on, however the run goes: the operation is never asked again, and a download emitted while its generation is still current goes to the core and tells the operation |
| CaptureEvents.AskedExactly | src/browser/patchright-core.ts:1660-1715 | an event asks the operation exactly when it is the first of an open generation, and is taken exactly when that operation said so |
| CaptureEvents.RouteGives | src/browser/patchright-core.ts:1660-1742 | whatever is let in meanwhile, a download is added to the taken ones if it was asked and taken, and to the core's own if not |
| CaptureEvents.LeafDirtiesIff | src/browser/patchright-core.ts:1660-1742 | with nothing calling back, a clean core becomes dirty exactly when an event had no generation or its receipt was no plain answer |
| CaptureEvents.OrphanDirties | src/browser/patchright-core.ts:1660-1666 | a download with no generation makes the core dirty, whatever calls back |
| CaptureEvents.BrokenReceiptDirties | src/browser/patchright-core.ts:1690-1715 | a receipt that threw or was no boolean makes the core dirty, whatever calls back |
| CaptureEvents.UnconfirmedDisposalDirties | src/browser/patchright-core.ts:1749-1784 | a disposal the driver does not confirm makes the core dirty and counts down as one that is over |
| CaptureEvents.SettlementRecords | src/browser/patchright-core.ts:1976-1992 | a settlement records the operation's answer and leaves its generation no slot; without an answer the core is dirty and nothing is recorded |
| CaptureEvents.RetireTells | src/browser/patchright-core.ts:2057-2072 | an invalidation that means the current generation tells its operation and takes it from the slot for good |
| CaptureEvents.RetireSparesOthers | src/browser/patchright-core.ts:2057-2072 | one that means another page's changes nothing |
| CaptureEvents.ShutsForGood | src/browser/patchright-core.ts:2686-2706 | after a close no run opens a generation |
| CaptureEvents.ClosingPageRefuses | src/browser/patchright-core.ts:1557-1585 | a page that began to close opens no generation, whatever called back meanwhile |
| CaptureModel.UntakenEventTells | src/browser/patchright-core.ts:1667-1742 | an event the current operation does not take always tells that operation it is over |
| CaptureEvents.OpensAndTakes | src/browser/patchright-core.ts:1926-1946 | a verb with an operation opens a generation exactly when the core is clean, open, idle and has none; it is in the slot, belongs to its page, and the first download that comes is asked for and taken |
| CaptureModel.ExecKeeps | src/browser/patchright-core.ts:1660-2072 | every call, with everything it lets in, keeps the counts and undoes no seal, claim, settlement, dirt or closing |
| CaptureModel.RunKeeps | src/browser/patchright-core.ts:1660-2072 | the same over every run of top-level segments |
| CaptureCore.PatchrightCore.RouteDownload | src/browser/patchright-core.ts:1660-1715 | the routing in place, re-entrant calls included |
| CaptureCore.PatchrightCore.RefuseClaim | src/browser/patchright-core.ts:1728-1742 | the refusal in place: sealed and told first, then disposed of |
| CaptureCore.PatchrightCore.DiscardUnattributed | src/browser/patchright-core.ts:1749-1784 | the disposal is accounted for before the driver is touched |
| CaptureCore.PatchrightCore.BeginGeneration | src/browser/patchright-core.ts:1926-1946 | the opening in place |
| CaptureCore.PatchrightCore.InvalidateGenerationSync | src/browser/patchright-core.ts:2057-2072 | the slot is cleared before the operation is told |
| CaptureCore.PatchrightCore.FinishSettling | src/browser/patchright-core.ts:1976-1992 | the settlement recorded in place |
| PoolTheorems.LiveBrowsersAreCounted | src/gateway/session-manager.ts:401-530 | over every interleaving, every core whose launch resolved and whose death is not confirmed is a session or a counted orphan, so live browsers never exceed the reported count |
| PoolTheorems.NothingRegistersAfterShutdown | src/gateway/session-manager.ts:512-530 | once shutdown began no session appears and no acquire is admitted |
| PoolTheorems.RecordProtocol | src/gateway/session-manager.ts:597-721 | in every reachable state counted and watched records are disjoint, a deferred settlement has a running sweep, a record with a core is being torn down, awaits a reconfirm or waits for its sweep, and owed groups keep a record counted |
| PoolTheorems.DirectoryRemovedOnce | src/gateway/session-manager.ts:626-637 | a profile directory is removed at most once, and then its launch has settled, its core is dead, no sweep runs and no group is owed |
| PoolTheorems.EveryDirectoryEnds | src/gateway/session-manager.ts:597-708 | in every reachable state a directory that was made and not given up has been removed exactly when its launch is over, its core dead and no orphan record or watch entry is left of it |
| PoolTheorems.CapacityHolds | src/gateway/session-manager.ts:350-388 | sessions plus unregistered launches never exceed the cap, nor one consumer's share |
| PoolTheorems.AdmitsIff | src/gateway/session-manager.ts:350-378 | in every reachable state an acquire is admitted exactly when no shutdown began and sessions, orphans and acquires together leave room, in the pool and, tagged, in its share |
| PoolTheorems.FloorLeavesRoom | src/gateway/config.ts:109-122 | if the floor accepts as many consumers as there are, an untagged acquire is admitted whenever nothing untagged, no orphan and no returning acquire is about |
| PoolTheorems.ShareIsGuaranteed | src/gateway/config.ts:109-122 | if the floor accepts as many consumers as there are, a tagged acquire is admitted exactly while its own share has room, whatever the other consumers do, unless something untagged, an orphan or a returning acquire is about |
| GatewayConfig.FloorIsExact | src/gateway/config.ts:109-122 | the floor accepts a size exactly when consumers within their shares can never fill the pool, and names the least size it would accept |
| PoolLoad.CountersAreExact | src/gateway/session-manager.ts:379-387 | in every reachable state sessions plus reservations exceed the occupied slots by exactly the acquires between registration and return, and so exceed the cap exactly when those outnumber the free slots |
| PoolTheorems.CountersMayExceedTheCap | src/gateway/session-manager.ts:379-387 | a run where they do |
| PoolLoad.LoadStep | src/gateway/session-manager.ts:350-388 | the load after any event, exactly: what it was, with the launch of an admitted acquire, which fits, or of a record coming back, and without the launch that a return, a confirmed death, an end of a teardown or reconfirm with nothing owed, or a sweep that found nobody freed |
| PoolLoad.ConfirmedSweepEnds | src/gateway/session-manager.ts:662-683 | a sweep confirmed for a settled, undeferred record with no core uncounts it, forgets it, and removes its directory, which was not removed before: the reported count goes down by one |
| PoolLoad.RemovalStep | src/gateway/session-manager.ts:626-637 | the events that remove a directory, exactly, and each removes it once |
| PoolLoad.DirectoryStep | src/gateway/session-manager.ts:401-530 | the events that make a directory, and those that give one up unremoved, exactly |
| PoolSteps.StepBecomes | src/gateway/session-manager.ts:401-530 | what each event makes of the launch it is about, slot by slot, everybody else left alone but for idle entries a full watch list forgets |
| PoolSteps.RestBecomes | src/gateway/session-manager.ts:350-388 | an acquire adds a minting launch exactly when admitted; a tick forgets idle watched entries at most, and a shutdown's flag changes no launch |
| PoolTicks.TickSweepsEverybody | src/gateway/session-manager.ts:858-864 | after a tick, in every reachable state, each counted or watched record has a sweep running or a core whose teardown owns it, and nobody was uncounted or, but for the idle entries its cap evicts, forgotten |
| PoolTicks.ShutdownLeavesNobody | src/gateway/session-manager.ts:896-916 | once a shutdown has begun the teardowns that remained, then over every run: no session appears, each one there is being torn down or awaits its reconfirm, and each one gone has a confirmed death |
| PoolLoad.LoadExceedsIff | src/gateway/session-manager.ts:283-291 | the load passes the cap exactly when a record counted in no way comes back to a full pool: a late resolve, a late reject with a directory, or a watched record whose sweep ends unconfirmed or fails |
| PoolLoad.ReportedCountStaysWithin | src/gateway/session-manager.ts:283-291 | over every run without such a return the reported count stays within the cap |
| PoolTheorems.WatchedRecordMayExceedTheCap | src/gateway/session-manager.ts:283-291 | a run where a record coming back from the watch list pushes the reported count above the cap |
| PoolTheorems.StepKeepsPool | src/gateway/session-manager.ts:350-530 | every event keeps every launch accounted for and the caps respected |
| PoolTheorems.SharesAddUp | src/gateway/config.ts:109-122 | occupants owned by some of the consumers are at most their number times one share |
| PoolInvariants.ParkKeeps | src/gateway/session-manager.ts:728-735 | a park ends with the watch list within its cap, or with every older entry mid-sweep |
| PoolInvariants.EvictSlots | src/gateway/session-manager.ts:737-752 | eviction forgets only idle watched records, which owe nothing, and ends within the cap or with every entry mid-sweep |
| PoolInvariants.EvictsOldestFirst | src/gateway/session-manager.ts:737-752 | eviction takes idle entries oldest first, takes none it need not, and stops within the cap or at an all-busy list |
| PoolInvariants.SweepDoneKeeps | src/gateway/session-manager.ts:662-708 | every sweep verdict, deferred or not, keeps every launch's record in order; what it does to the record is `PoolLoad.ConfirmedSweepEnds` and `PoolSteps.StepBecomes` |
| PoolInvariants.SweepErrorKeeps | src/gateway/session-manager.ts:709-722 | a failed scan resumes a deferred settlement and counts a watched record again |
| PoolInvariants.OrphanTeardownKeeps | src/gateway/session-manager.ts:572-586 | a late core's teardown, confirmed or not, keeps its record counted or settles it |
| PoolInvariants.LateKeeps | src/gateway/session-manager.ts:490-506 | a late resolve counts the record again; a late reject settles it and sweeps it once more |
| PoolInvariants.LaunchStepKeeps | src/gateway/session-manager.ts:401-530 | every outcome of a launch leaves exactly one holder for the core and the directory |
| PoolInvariants.SessionStepsKeep | src/gateway/session-manager.ts:754-776 | a session is counted until its death is confirmed |
| PoolInvariants.ReconfirmKeeps | src/gateway/session-manager.ts:800-819 | a kill-only reconfirm frees a session or settles an anchorless orphan |
| SessionPool.SessionManager.Acquire | src/gateway/session-manager.ts:350-378 | admission in place |
| SessionPool.SessionManager.EnforceWatchCap | src/gateway/session-manager.ts:742-752 | the eviction loop in place |
| SessionPool.SessionManager.TickSweep | src/gateway/session-manager.ts:858-864 | the last segment of a tick in place: the cap, then a sweep for each record |
| SessionPool.SessionManager.ReleaseAll | src/gateway/session-manager.ts:910-916 | a teardown begun for each of a list of sessions, in place |
| SessionPool.SessionManager.SweepSettled | src/gateway/session-manager.ts:662-708 | a sweep's verdict in place: a confirmed one finalizes a settled record, which frees its slot and removes its directory, and parks a pending one |
| SessionPool.SessionManager.SettleReapedOrphan | src/gateway/session-manager.ts:597-613 | the settlement in place |
| SessionPool.SessionManager.LaunchResolved | src/gateway/session-manager.ts:510-530 | the shutdown re-check and the registration in place, as one segment |
| SessionPool.SessionManager.ReapLateLaunch | src/gateway/session-manager.ts:491-494 | a launch that resolves after its deadline, in place: counted again and torn down |
| SessionPool.SessionManager.LateRejection | src/gateway/session-manager.ts:495-505 | a launch that rejects after its deadline, in place: counted again unless watched, then swept once more |
| SessionPool.SessionManager.SweepRejected | src/gateway/session-manager.ts:709-722 | a failed scan in place |
| SessionPool.SessionManager.TeardownConfirmed | src/gateway/session-manager.ts:758-765 | a confirmed teardown in place: the slot and the directory go then, and only then |
| SessionPool.SessionManager.TeardownUnconfirmed | src/gateway/session-manager.ts:766-771 | an unconfirmed teardown in place: still counted, handed to the reconfirms |
| SessionPool.SessionManager.Reconfirmed | src/gateway/session-manager.ts:800-819 | one reconfirmed kill in place |
| BrowserSession.Session.Teardown | src/gateway/session.ts:135-157 | closed only by a group that read as gone or, without force-kill, by a clean close; a teardown that fails leaves the session open, and with force-kill has seen the group outlive its signal |
| BrowserSession.Session.EnterReconfirm | src/gateway/session.ts:167-174 | a reconfirm starts a kill exactly when the session is open and no other reconfirm runs |
| BrowserSession.Session.Reconfirm | src/gateway/session.ts:174-182 | a reconfirm never closes again, confirms only a group that read as gone, and clears its latch however it ends |
| BrowserSession.Session.Stale | src/gateway/session-manager.ts:847-853 | the reaper's choice, stated over the whole history of verbs, skipping sessions being torn down or awaiting a reconfirm |
| BrowserSession.Session.BeginActivity | src/gateway/session.ts:82-86 | entering a verb starts the burst exactly when nothing was in flight |
| BrowserSession.Session.EndActivity | src/gateway/session.ts:91-95 | leaving a verb ends the burst exactly when nothing is left in flight |
| BrowserSession.BurstIsUnbroken | src/gateway/session.ts:67-95 | the burst in flight began at an entry that found nothing in flight, and something has been in flight ever since |
| BrowserSession.BrowserCore.Kill | src/browser/patchright-core.ts:2740-2760 | a group that does not read as gone is signalled, once; the kill resolves only on a later read that says gone, and rejects only after the deadline, having found the group still ours after its signal; the leader alone is signalled only right after and only when known alive |
| BrowserSession.BrowserCore.OurGroupGone | src/browser/patchright-core.ts:2772-2796 | gone exactly when a read said empty, foreign, recycled or all zombies; otherwise every read of it said a member of ours is there |
| BrowserSession.BrowserCore.ConfirmGroupGone | src/browser/patchright-core.ts:2811-2836 | the wait after the signal ends on a read that says gone, or at the deadline with a read that said still ours |
| OrphanSweep.Sweep.Run | src/gateway/orphan-sweep.ts:119-397 | confirmed: the last scan found nothing of the launch and since then every group owed or ever seen read as gone; unconfirmed: a stamp for every such group, after the deadline, and in the last pass something was still there; in every pass each process found was stamped and each stamp re-read and, when still itself, its group signalled; each group owed from before got one more signal if its leader's stamp still held; a throw loses nothing and signals nobody |
| OrphanSweep.Sweep.KillMatches | src/gateway/orphan-sweep.ts:245-309 | one pass: every process the scan found is dismissed by a read or its group stamped; every stamp is re-read once, and one still at its generation is followed by the kill of its group; nobody else is signalled |
| OrphanSweep.Sweep.ObservePid | src/gateway/orphan-sweep.ts:262-268 | a process is stamped only when it still belongs to the launch after its stat was read |
| OrphanSweep.Sweep.LeaderOf | src/gateway/orphan-sweep.ts:278-288 | a leader is adopted only while the member that led to it is still there |
| OrphanSweep.Sweep.SignalGroups | src/gateway/orphan-sweep.ts:298-307 | each representative is re-read exactly once, in order, and its group is signalled next if and only if that read gave its group at its stamped generation |
| OrphanSweep.Sweep.ResignalOwed | src/gateway/orphan-sweep.ts:362-375 | each ledger group under its leader's stamp read as gone, or was signalled right after its reads said it is still there; a signal needs such a stamp and such reads |
| OrphanSweep.Sweep.AllGone | src/gateway/orphan-sweep.ts:376-397 | all gone only if every stamped group read as gone since the pass; otherwise some stamped group read as still there |
| OrphanSweep.FoundIsPursued | src/gateway/orphan-sweep.ts:245-309 | a process a scan found is dismissed by a read of it, or its group was stamped in that pass and re-read for its signal, unless the pass was cut short by a scan that failed |
| OrphanSweep.Sweep.GroupGone | src/gateway/orphan-sweep.ts:321-338 | gone only if a read said empty, foreign, provably recycled or all zombies; not gone only if every read said still there |
| OrphanSweep.OnlyOursIsSignalled | src/gateway/orphan-sweep.ts:225-375 | only groups owed from before or seen in this attempt can ever be signalled |
| OrphanSweep.NoSignalWithoutStamps | src/gateway/orphan-sweep.ts:351-358 | with nobody owed and nobody seen nobody was signalled |
| OrphanSweep.MergeKeepsGroups | src/gateway/orphan-sweep.ts:240-243 | merging a stamp adds its group and loses none |
| OrphanSweep.MergeIsExact | src/gateway/orphan-sweep.ts:240-243 | merging keeps one stamp a group: a leader's stamp, or the first of a group, goes in, and every other stays |
| GatewayConfig.PositiveIntRoundTrip | src/gateway/config.ts:90-97 | a printed positive integer is read back, whatever the fallback |
| GatewayConfig.PositiveIntIsExact | src/gateway/config.ts:90-97 | a number other than the fallback comes out exactly when the trimmed text is its decimal numeral, leading zeros allowed |
| ShellQuote.QuoteRoundTrip | src/cli/prod-ssh.ts:44-46 | reading a quoted value as a shell word gives the value back, exactly when it has no NUL |
| ShellQuote.EscapedReads | src/cli/prod-ssh.ts:44-46 | the escaped text inside quotes reads as the value, glued to whatever follows |
| ShellQuote.ExecLineSplits | src/cli/vault.ts:35-45 | the built line splits into the fixed words and exactly the --name value pairs it was given, in order |
| ShellQuote.JoinSplits | src/cli/vault.ts:36-39 | pieces that read as words, joined by blanks, split into exactly those words |
| CliArgs.PrintThenParse | src/cli/args.ts:106-170 | printing a well-formed invocation with --name=value flags and parsing it returns the same invocation, list order and positionals preserved |
| CliArgs.RenderThenParse | src/cli/args.ts:135-167 | any sequence of well-formed flags and positionals, in any order and with repetitions, parses to what it says |
| CliArgs.TwoTokensParseAlike | src/cli/args.ts:150-157 | for every flag that takes a value, list flags included, the value may be its own argument when it is not empty and does not look like a flag |
| CliArgs.InheritedNameIsAccepted | src/cli/args.ts:143-149 | a name every object inherits is accepted as a boolean flag though no command declares it |
| CliArgs.ScanSetsDeclaredIff | src/cli/args.ts:132-167 | for every argument list that is taken: each flag argument was found, and only declared flags were set exactly when every flag argument names one |
| CliGrammar.TakenIff | src/cli/args.ts:133-167 | an argument list is taken exactly when it is spelled by a sequence of flags and positionals the table allows |
| CliGrammar.SpelledIsRead | src/cli/args.ts:133-167 | and then it means what that sequence means, piece by piece |
| CliGrammar.TrimIsExact | src/cli/args.ts:158-163 | trimming takes exactly the blanks at both ends |
| CliGrammar.SplitIsExact | src/cli/args.ts:158-163 | the parts of a list hold no comma and join to the text |
| CliGrammar.RulesAre | src/cli/args.ts:158-163 | the list value is the trimmed parts in order, the blank ones left out |
| CliArgs.AcceptedIsHeldIff | src/cli/args.ts:62-81 | for every argv that is taken: its subcommand and every flag it sets lie inside the documented table exactly when argv names only declared ones, `__proto__`, which sets nothing, apart |
| CliArgs.InheritedSubcommandIff | src/cli/args.ts:116-126 | a subcommand no command declares is taken exactly when it is an inherited name and its flags are members of that value |
| CliArgs.KeysConstructorIsAccepted | src/cli/args.ts:116-126 | concretely, `keys constructor` is no usage error |
| CliArgs.ConstructorIsAFlagOfConnect | src/cli/args.ts:143-149 | a concrete flag the table does not hold and the parser takes |
| CliArgs.ParseCliArgs | src/cli/args.ts:106-170 | the index loop computes the specified parse |
| CliArgs.ScanArgs | src/cli/args.ts:133-167 | the flag and positional loop computes the specified scan |
| SshArgv.ScannersAgree | src/cli/tunnel.ts:269-328 | on every argv the allowlist lets through, the two scanners stop at the same operand, lone dashes apart |
| SshArgv.AcceptedShape | src/cli/tunnel.ts:307-328 | accepted, for any alias but a dash, means the destination is the first operand and the alias, only keeper options precede it, and some -L forwards our port |
| SshArgv.AcceptedIff | src/cli/tunnel.ts:307-328 | an argv is ours exactly when all of it is keeper options, flags and operands, some -L forwards our port and, lone dashes apart, its first operand is the alias |
| SshArgv.KeeperIsAccepted | src/cli/tunnel.ts:307-328 | the keeper's own argv, `-N -T -L port:target alias`, is accepted for every alias that does not begin with a dash |
| SshArgv.AgreementIsExact | src/cli/tunnel.ts:269-328 | on an argv the allowlist lets through the scanners agree exactly when no lone dash precedes its first operand, or that operand is itself a dash |
| SshArgv.LoneDashIsTheDestination | src/cli/tunnel.ts:276-298 | with a lone dash in front the finder calls the dash the destination |
| SshArgv.DashAliasIsAccepted | src/cli/tunnel.ts:307-328 | the one alias that escapes the shape, concretely |
| SshArgv.SshDestination | src/cli/tunnel.ts:269-298 | the destination loop computes its specification |
| SshArgv.IsOurKeeperInvocation | src/cli/tunnel.ts:307-328 | the allowlist loop computes its specification |
| ConsumerKeys.NewThenRevoke | src/cli/keys.ts:316-355 | minting then revoking restores the manifest entries, and the env text up to a final newline |
| ConsumerKeys.EditsKeepConsistent | src/cli/keys.ts:415-450 | every sequence of completed edits keeps env keys distinct, one token line per consumer, no token without a consumer |
| ConsumerKeys.NewKeepsConsistent | src/cli/keys.ts:316-350 | a completed mint does |
| ConsumerKeys.RevokeKeepsConsistent | src/cli/keys.ts:415-450 | a completed revocation does |
| ConsumerGrants.LastEditDecides | src/cli/keys.ts:316-355 | over every sequence of completed edits a consumer's entry is what its last edit said: one entry, with the rules of that mint verbatim or `*` only when none were given, or none after a revocation |
| ConsumerGrants.UntouchedIsKept | src/cli/keys.ts:316-355 | a consumer no completed edit named has the entries it had |
| ConsumerGrants.TokenIsOfLastMint | src/cli/keys.ts:343-350 | after any sequence of completed edits the token in the env line of a consumer last minted is that mint's, is the one in the keychain, and no other line carries its key |
| ConsumerGrants.MintsIff | src/cli/keys.ts:316-342 | a mint completes exactly when the id is valid and new, its env key nobody's and nowhere, and the pool has room for one more share |
| ConsumerGrants.RevokesIff | src/cli/keys.ts:415-440 | a revocation completes exactly when the consumer is known, or an unowned token line is |
| ConsumerGrants.RevokeLeavesNothing | src/cli/keys.ts:415-450 | and then no entry, token line or keychain item of it is left |
| ConsumerKeys.MintPrefixesHaveNoOrphan | src/cli/keys.ts:343-347 | a mint interrupted after any of its writes leaves no token line without a manifest entry |
| ConsumerKeys.EnvFirstLeavesAnOrphan | src/cli/keys.ts:343-347 | the other write order would leave one at once |
| ConsumerKeys.RevokeKeepsTokenIff | src/cli/keys.ts:440-444 | a revocation keeps another key's token exactly when some line carries it without the revoked one |
| ConsumerKeys.SharedLineIsLost | src/cli/keys.ts:66-68 | concretely, a token sharing its line through a carriage return is lost with its neighbour |
| ConsumerKeys.TokenInLines | src/cli/keys.ts:66-68 | the text has a token exactly when one of its lines has it |
| ConsumerKeys.TestIsHasToken | src/cli/keys.ts:66-68 | the scan from the front finds exactly the matches at line starts |
| ProdHost.ProdFiles.KeysNew | src/cli/keys.ts:316-355 | the mint in place, its three writes in order and nothing written unless every check passed; what it grants is `ConsumerGrants.LastEditDecides` |
| ProdHost.ProdFiles.KeysRevoke | src/cli/keys.ts:415-450 | the revocation in place: the manifest is never behind |

## Left out

- Real files, descriptors, hashes and timers: the data directory is not modelled; each identity proof, unlink, fsync and close step is a boolean that may be false, and any armed deadline may fire at any moment as an invalidation.
- A reaping pass of the store is a run of single discards, and a lease whose read fails is a lease taken and completed at once.
- The two untrusted accessors of a staging job (`failure`, `path`) are one asking phase of the operation; hostile getters inside them are not modelled, those inside driver disposal are.
- The disabled store, option canonicalization, metadata projection and test seams of the artifact modules.
- Close-owned notifications are delivered after the store's own books have moved; the closing store refuses every discard nested in them, so the order is not observable.
- Reservation objects are tokens of a map rather than shared references, and orphan records are values of a map: aliasing is not modelled.
- Operations inside the runtime object are values; the operation object with its in-place methods stands beside it in the module Operation.
- The drain of pending driver disposals before a page or context closes, and the two driver calls of one disposal, which are one boolean.
- BrowserSession.BrowserCore.Kill: the fence and the invalidation it raises before anything else are `CaptureModel`'s `Shuts`, not part of this contract.
- ArtifactRuntimeObject.ArtifactRuntime.Close: the orchestration-failure latch is not modelled, because no step of the model throws there.
- CaptureModel.SettledIsForEver: does not model two settlements of one handle running at once; a verb awaits its own settlement before its `finally` asks again, and what two racing ones return is then the operation's answer, whichever is recorded last.
- What a tick and a shutdown wait for between their segments, and the bounded rounds of reconfirms: each reconfirm and each sweep's end is an event that may come or not.
- Single flight of a sweep is one flag of its record, as in the source; running sweeps are not counted apart from it.
- `classifyPortOwner`, `parsePortListeners`, `inspectConsumers` and `manifestJson`: short tables and formatting with only easy claims.
- Which names an inherited value answers to depends on the JavaScript engine and is a parameter of the parse.
- Numbers above 2^53 in `positiveIntOr`, which the source rounds.
- The shell, the keychain and the remote host behind the key commands: each write succeeds, or the run stops before it.
- `tokenEnvKey` is an unknown function of which only the alphabet of its results is used.
