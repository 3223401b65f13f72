# Privana service: a verified model

The Python service behind Privana takes deposits on one chain, credits them on another and pays
withdrawals out, through nodes that lag and a process that may stop at any await. These modules model
the decisions that are hard to take back, what is saved before what is signed and what is believed to
be paid, and prove their guarantees: over all interleavings for the concurrent parts, over all inputs
for the rest.

`dafny verify dfyconfig.toml` checks everything.

| file | what it models |
|---|---|
| `SweepModel` | the sweep protocol as a state machine: files, ledger, tasks, locks, crashes |
| `SweepSolvency`, `Sums` | every credit is backed by its own mined sweep |
| `SweepDurability`, `SweepHashLoss`, `SweepCounterexample` | when a saved sweep hash is kept: always with one driver per deposit, with any number exactly when no task saves its record over it, and a run that loses it |
| `SweepRetry`, `SweepClaims` | what a failed sweep leaves behind; where claims come from and what records say |
| `SweepLocks` | the address locks and the gas-tank lock |
| `SweepRecovery` | what every startup pass does to a deposit |
| `GasTank` | gas-tank nonces |
| `SweepStore` | the record files and the migration of legacy names, as a class |
| `SignedSubmission` | signed writes: single flight, durable records, honest reports |
| `WithdrawalIndex` | the incremental index over the contract's withdrawals |
| `HighWater`, `WithdrawalOrder`, `WithdrawalProcessor` | the order of resolution; the nonce gate, proof of payment, catch-up and per-chain loop |
| `DepositDiscovery` | the capped, chunked log scan and the status of one transfer |
| `Base64Url`, `IntentJson`, `OnRampIntent` | the signed intent codec |
| `ChainConfigs`, `GasFunding` | chain settings, gas funding and deposit verification |
| `RpcIdentity` | the gate on RPC endpoints |
| `RateLimiter`, `Transak` | windows in time: rate limits, attestations, token overlap |
| `Options`, `Arithmetic`, `FiniteSets`, `SortedSeqs` | shared helpers |

## How it is modelled

Concurrent code is a state machine whose steps end where the source awaits; a crash drops tasks,
locks and caches and keeps files, chains and the contract, and a cancellation drops one task. Code that only changes things between two
awaits is a class or a loop proved against the function the machine uses. Codecs and settings are
functions.

What nodes, the contract and the relay answer is a step or a parameter. The hypotheses are:

- A node decides about a broadcast when it is sent; the reply may be lost. It accepts given bytes at
  most once, and of the transactions of one address and nonce at most one is mined.
- The contract credits a deposit id at most once; `resolved` only goes from false to true; a
  resolved withdrawal keeps its nonce, which no other on its chain has.
- A receipt from an endpoint that passes the identity check is true. The pending nonce count is above
  every accepted nonce of the gas tank, whose key nobody else uses.
- Record files are intact and a file named by a deposit id holds that deposit's record. Tokens are
  not fee-on-transfer. Keyed hashes have 32 bytes; deposit ids are injective.
- `SweepDurability` needs one driver per deposit at a time. The startup pass gives it, because it
  ends before requests and before the loop begin; the recovery loop works from a snapshot and does
  not, and `SweepCounterexample` is a run that loses a hash. `SweepHashLoss` gives the exact condition
  for any number of drivers. Solvency needs no such hypothesis.
- `SweepRecovery` has no other unswept deposit of the token at the address, no other task act there
  during the pass, and what was broadcast for the deposit mined. Earlier deposits at the address may
  have been swept; those at other addresses go on in any way.
- `WithdrawalOrder` has token lookups succeed, block numbers not decrease with the index, and this
  process as the only resolver.
- Truthful reports need records that do not expire while their call has landed or may land;
  `ExpiryIsHarmlessExactlyIf` is that condition, both ways, and `ExpiryBreaksTruth` a run without it.
- Times do not go back, and a rate-limited request reads the clock once.

## Model

| member | source | states |
|---|---|---|
| `SweepSolvency.CreditsAreBacked` | src/services/sweep_engine.py:456-496 | In every run of sweeps, recovery passes, cancellations, crashes and restarts, each credited deposit has its own mined, successful sweep of exactly its amount, distinct credits have distinct sweeps, and per token no more is credited than was swept. |
| `SweepSolvency.RunsAreSolvent` | src/services/sweep_engine.py:758-808 | The invariant behind it: a hash in any task or file is of bytes accepted for that deposit, and only mined sweeps are promoted. |
| `SweepSolvency.PayersAreDistinct` | src/services/deposit_verifier.py:220-231 | Two credits never rest on one sweep, nor on one nonce of an address, even when the transaction a deposit is attributed to was wrong. |
| `SweepSolvency.BroadcastRecordsAreNeverFlagged` | src/services/deposit_processor.py:194-211 | No record on disk is both flagged and broadcast, so an existing record may be replaced exactly when it is flagged. |
| `SweepSolvency.BroadcastsNeedServedChains` | src/services/sweep_engine.py:236-245 | In every run, a sweep a node accepts was requested in the very step of its task that found the chain passing the identity check; the task makes no step in between. |
| `SweepSolvency.GasTransfersNeedServedChains` | src/services/sweep_engine.py:424-425 | The same for a transfer out of the gas tank. |
| `SweepSolvency.OnlyAcceptanceBroadcasts` | src/services/sweep_engine.py:411-460 | Nothing but these two kinds of step ever adds a broadcast. |
| `SweepSolvency.SweptRecordsWereChecked` | src/services/sweep_engine.py:778-795 | In every run, each record that is SWEPT on disk became so in an earlier step that found its chain passing the identity check. |
| `SweepRetry.FailedSweepsCanBeRetried` | src/services/deposit_processor.py:284-286 | However the sweeps of a deposit fail, with any number of drivers, short of a crash or a cancellation: it is credited, or its hash is saved, or a task still works on it, or the user may submit it again. |
| `SweepRetry.OnlyFailuresFlag` | src/services/sweep_engine.py:810-821 | Only a failure of a task of the deposit, with no hash saved, flags its record. |
| `SweepRetry.RestartClearsFailure` | src/services/deposit_processor.py:196-211 | With one driver per deposit, a deposit submitted again has no flagged record as long as its task lives. |
| `SweepRetry.RecordsAreRemovedWhenDone` | src/services/sweep_engine.py:472-496 | A record leaves the disk only when its deposit is submitted again after a failure, or once its task had the answer that it was credited. |
| `SweepClaims.OnlyClaimsAreCredited` | src/services/deposit_processor.py:214-227 | In every run, what a deposit is credited is a claim that a user submitted under its id. |
| `SweepClaims.OnlyClaimsAreSwept` | src/services/sweep_engine.py:445-457 | Every accepted sweep is from the address of a submitted claim, in its token and amount. |
| `SweepClaims.OnlyClaimsAreFunded` | src/services/sweep_engine.py:411-430 | Every accepted gas transfer goes to the address of a submitted claim, on its chain. |
| `SweepClaims.RecordsTellTheTruth` | src/services/sweep_engine.py:426-441 | A record is PENDING exactly until its gas transfer is saved; that was accepted by a node for this address, and mined with status 1 before any sweep is signed. |
| `SweepClaims.OnlyCoveredClaimsGoOn` | src/services/sweep_engine.py:358-376 | A sweep goes on only from a balance that covers its claim. |
| `SweepLocks.SweepsOfAnAddressAreSerial` | src/services/sweep_engine.py:353-355 | In every run, no two tasks are in the midst of sweeping one address on one chain, or of using the gas tank. |
| `SweepLocks.NoLockOutlivesItsTask` | src/services/sweep_engine.py:405-439 | However tasks end, whoever waits for a lock can take it or waits for a live task that holds it. |
| `SweepDurability.SavedHashIsKept` | src/services/sweep_engine.py:313-332 | With one driver per deposit, a saved sweep hash is neither overwritten nor flagged nor deleted before the deposit is processed. |
| `SweepDurability.NoSecondSweep` | src/services/sweep_engine.py:898-917 | While a hash is saved, no sweep is signed or newly accepted for its deposit. |
| `SweepHashLoss.HashesAreKeptExactlyIfNoBlindSave` | src/services/sweep_engine.py:282-287 | In every run with any number of drivers, the hashes saved for a deposit are kept, unflagged, until it is credited if and only if no task saves its PENDING record, its gas hash or its own sweep hash over the hash of another sweep. |
| `SweepHashLoss.HashesAreKeptExactlyIf` | src/services/sweep_engine.py:381-393 | When the deposit's tasks are for one address, if and only if no task saves its fresh PENDING record over one. |
| `SweepHashLoss.BlindSaveLosesHash` | src/services/sweep_engine.py:381-393 | Each such save loses the hash at once. |
| `SweepHashLoss.SingleDriverMeetsTheCondition` | src/main.py:187-195 | With one driver per deposit no such save happens. |
| `SweepDurability.GapFreeRunsSaveEverySweep` | src/services/sweep_engine.py:456-460 | Unless a reply is lost, or a crash or cancellation falls between acceptance and save, every accepted sweep is saved, credited, or about to be saved. |
| `SweepDurability.GapFreeRunsStayUncredited` | src/services/deposit_processor.py:183-211 | In such runs a credited deposit has no record without a hash and no task on the way to one. |
| `SweepCounterexample.HashCanBeLost` | src/services/sweep_engine.py:959-989 | With two drivers a saved hash can be overwritten: a run that ends with the deposit swept, uncredited, and no record naming the sweep. |
| `SweepRecovery.StartupPass` | src/services/sweep_engine.py:857-941 | Every fault-free startup pass that has ended has completed the deposit if and only if no accepted sweep of it was missing from disk: credited as before or, if it was not, with exactly its own claim. A deposit orphaned so keeps its credit or lack of one, and its record, newly flagged unless it was processed. |
| `SweepRecovery.PassIsShort` | src/services/sweep_engine.py:823-855 | The task of a pass makes at most 18 steps. |
| `SweepRecovery.PassNeverSticks` | src/services/sweep_engine.py:857-941 | In every unfinished pass some fault-free step brings it on, unless another live task is using the gas tank it waits for. |
| `SweepRecovery.PassCanFinish` | src/services/sweep_engine.py:857-941 | Every pass that runs by itself can be brought to its end. |
| `SweepRecovery.CrashOutsideTheGapIsRepaired` | src/services/sweep_engine.py:857-941 | After every run without a crash, cancellation or lost reply between a broadcast and the save of its hash, every fault-free startup pass that has ended has completed the deposit, with its credit. |
| `GasTank.TankNoncesNeverRepeat` | src/services/sweep_engine.py:405-439 | Under any interleaving, receipt timeouts and crashes included, no two accepted gas transfers of a chain share a nonce. |
| `SweepStore.MigrationKeepsOneFilePerDeposit` | src/services/sweep_engine.py:717-756 | After the load pass exactly one file per deposit present is left, under its canonical name, and a copy already named so wins a clash. |
| `SweepStore.MigrationReturnsEveryDepositOnce` | src/services/sweep_engine.py:717-756 | The pass returns exactly the records left, one for every deposit that had a file. |
| `SweepStore.SecondMigrationChangesNothing` | src/services/sweep_engine.py:728-744 | A second pass, in any order, changes no file and returns the same records. |
| `SweepStore.SweepEngine.LoadIncompleteSweeps` | src/services/sweep_engine.py:717-756 | The loop that renames and unlinks while it goes computes that pass, and adds the gas hashes of the returned records. |
| `SweepStore.SweepEngine.SaveRecord` | src/services/sweep_engine.py:271-287 | A save replaces the file of the record's deposit and no other. |
| `SweepStore.SweepEngine.PersistError` | src/services/sweep_engine.py:313-332 | Flags the record found by deposit id unless a sweep was broadcast for it: the step with which the machine's handler makes a failed sweep retryable. |
| `SweepStore.SweepEngine.ReconcileSweepTx` | src/services/sweep_engine.py:758-808 | Promotes and saves a record exactly when its saved sweep was mined with status 1 and its chain is served. |
| `SignedSubmission.ReportsAreTruthful` | src/services/accounting_contract.py:366-407 | In every run a reported success is of a submission that executed, and a definite failure is reported only if no submission of that calldata executed or still can, unless its record expired while one had or could. |
| `SignedSubmission.ExecutedIsNeverResubmitted` | src/services/accounting_contract.py:372-376 | A call recorded as executed stays so until the record expires, and is never submitted again while it does. |
| `SignedSubmission.ExpiryIsHarmlessExactlyIf` | src/services/accounting_store.py:34-44 | When a record expires, every later report of its calldata up to the next expiry stays truthful if and only if no submission of it had executed or still could. |
| `SignedSubmission.ExpiryBreaksTruth` | src/services/accounting_store.py:34-44 | A run in which an expired record makes a definite failure untrue. |
| `SignedSubmission.RunsAreHonest` | src/services/accounting_contract.py:370-393 | The invariant: a calldata that may have landed has a record, and a first submission is the only one. |
| `SignedSubmission.CallersAwaitTheirOwn` | src/services/accounting_contract.py:395-400 | In every run a caller waits for, or was woken about, the calldata it submitted, and while it waits a live task is at it. |
| `SignedSubmission.EveryWaiterIsWoken` | src/services/accounting_contract.py:393-407 | A live task can always end, and when it does every caller waiting for it is woken with its outcome, and a reply is recorded. |
| `SignedSubmission.SubmissionsAreSingleFlight` | src/services/accounting_contract.py:395-400 | While the task of a calldata waits for the relay no second submission of it is made and it goes on waiting until it ends, and the submission of a first attempt is the only one that may have landed. |
| `SignedSubmission.AccountingContractService.BeginSubmission` | src/services/accounting_contract.py:370-381 | The task answers from an executed record, and otherwise leaves a pending one before it submits. |
| `SignedSubmission.AccountingContractService.EndSubmission` | src/services/accounting_contract.py:381-393 | It records an execution, deletes the record only on the revert of a first submission, and leaves the table. |
| `SignedSubmission.AccountingContractService.SubmitSigned` | src/services/accounting_contract.py:366-407 | A whole uninterrupted call: joins a live task, answers from an executed record, and otherwise reports and records what the relay answered. |
| `SignedSubmission.AccountingContractService.Report` | src/services/accounting_contract.py:399-407 | A failure is reported as unknown exactly when a record is left. |
| `WithdrawalIndex.ListingIsExact` | src/services/accounting_contract.py:1175-1205 | In every run of concurrent refreshes, failed batches and lagging nodes, a listing is in index order, holds only entries of the user who asked not shown resolved by its own re-read, and misses none of the user's that is unresolved below the larger of the count it saw and the scan mark when its refresh returned. |
| `WithdrawalIndex.ResolvedStaysDropped` | src/services/accounting_contract.py:1192-1198 | What a re-read showed resolved leaves the index, and is not indexed again while the process lives. |
| `WithdrawalIndex.IndexedWasSeenOpen` | src/services/accounting_contract.py:1158-1164 | Only what a batch read showed unresolved is ever indexed. |
| `WithdrawalIndex.LockIsHeldByReader` | src/services/accounting_contract.py:1151-1166 | However refreshes fail, the lock is free unless a live task is reading a batch under it. |
| `WithdrawalIndex.CurrentListingIsFullScan` | src/services/accounting_contract.py:1175-1205 | With a current count and re-read the listing equals a scan of the whole array. |
| `WithdrawalIndex.ScanMarkOnlyGrows` | src/services/accounting_contract.py:1132-1173 | The scan mark never goes back, and every unresolved withdrawal below it is in the map. |
| `WithdrawalIndex.RunsIndex` | src/services/accounting_contract.py:193-200 | The invariant over map, mark, lock and tasks. |
| `WithdrawalIndex.WithdrawalCache.RecordBatch` | src/services/accounting_contract.py:1158-1164 | The inner loop indexes the unresolved results of one batch and moves the mark past it. |
| `WithdrawalIndex.WithdrawalCache.ListPending` | src/services/accounting_contract.py:1192-1205 | The final loop drops what was seen resolved and lists the rest. |
| `WithdrawalOrder.ResolvedInIndexOrder` | src/services/withdrawal_processor.py:471-506 | On each chain withdrawals are first resolved in increasing index order, none left behind, over runs with restarts, lagging reads and late submissions. |
| `WithdrawalOrder.HighWaterHidesNothing` | src/services/withdrawal_processor.py:568-602 | The mark stands at a withdrawal of which a node accepted signed bytes, with everything at or below it resolved, so a poll never filters out an unresolved one. |
| `WithdrawalOrder.QueueIsExact` | src/services/withdrawal_processor.py:479-506 | A poll queues for a chain exactly its listed withdrawals that are a block old and above the mark, in index order. |
| `WithdrawalOrder.HeadCanBeServed` | src/services/withdrawal_processor.py:512-610 | The head of a queue can always be submitted, resolved, broadcast and settled, which brings the next one to the head. |
| `WithdrawalOrder.ServedIsNotQueuedAgain` | src/services/withdrawal_processor.py:479-489 | While a process lives, no poll queues again what it has served, however stale the listing. |
| `HighWater.RaisedShutsOut` | src/services/withdrawal_processor.py:599-601 | Raising the mark to an index shuts out that index and those below it on the chain, and nothing else. |
| `WithdrawalProcessor.PollBuildsTheQueue` | src/services/withdrawal_processor.py:471-506 | The queue the poll's loop builds for a chain is the one whose processing the order theorem is about. |
| `WithdrawalProcessor.ProofSurvivesResigning` | src/services/withdrawal_processor.py:256-298 | Whether the remembered or the newly signed bytes paid, the rule finds the payment, and only then. |
| `WithdrawalProcessor.WithdrawalProcessor.FindBroadcastTx` | src/services/withdrawal_processor.py:275-298 | The candidate loop computes that rule, and a proof is a status-1 receipt of bytes signed for the withdrawal. |
| `WithdrawalProcessor.WithdrawalProcessor.ChainNonceState` | src/services/withdrawal_processor.py:140-195 | The chain is refused exactly when the contract's next nonce is below the pending count, and is reported as divergent exactly then. |
| `WithdrawalProcessor.AlarmMeansTenStuckReads` | src/services/withdrawal_processor.py:197-226 | Over any history of reads of any chains, a chain's alarm is on exactly when its last ten reads all found a signed nonce stuck. |
| `WithdrawalProcessor.WithdrawalProcessor.BroadcastMissingForChain` | src/services/withdrawal_processor.py:372-469 | From the newest down, exactly the wanted withdrawals it gets to are attempted; a nonce counts as found exactly when its bytes are accepted or proven paid; what is accepted is remembered; and the scan stops early only with every wanted nonce found or at a contract call that raised. |
| `WithdrawalProcessor.FoundIsPaid` | src/services/withdrawal_processor.py:445-452 | A nonce is found only where a node accepted its payment or a receipt proves it. |
| `WithdrawalProcessor.AllFoundAllAttempted` | src/services/withdrawal_processor.py:393-396 | The early exit on the count of found nonces loses nothing. |
| `WithdrawalProcessor.WithdrawalProcessor.CatchUp` | src/services/withdrawal_processor.py:340-364 | With the gate open, exactly the readable resolved withdrawals whose nonce the chain has not mined are attempted, down to the first contract call that raises. |
| `WithdrawalProcessor.WithdrawalProcessor.GetPendingWithdrawals` | src/services/withdrawal_processor.py:471-506 | Per chain, exactly the eligible withdrawals of a registered token, in index order. |
| `WithdrawalProcessor.WithdrawalProcessor.ResolveAndBroadcast` | src/services/withdrawal_processor.py:512-610 | For a registered token, succeeds exactly when the withdrawal is seen resolved, at once or by a poll before which every poll answered, and its bytes are accepted or proven paid; only then does the mark move, and only to this index; the hash is remembered only on acceptance. |
| `WithdrawalProcessor.WithdrawalProcessor.ProcessChain` | src/services/withdrawal_processor.py:612-648 | A refused chain is untouched; otherwise withdrawals are served in order up to the first failure or stop, each accepted or proven, the mark ends at the last served, a failure and nothing else is followed by a catch-up, and the hashes remembered are those accepted. |
| `DepositDiscovery.Scan` | src/services/deposit_discovery.py:155-251 | The answer is the first 20 returnable among the first 60 candidates of the window, newest first, with the exact coverage bound, whatever the chunk size and the node's order. |
| `DepositDiscovery.ScanWindow` | src/services/deposit_discovery.py:196-245 | The loop over chunks walks the window down to its first block or to a cap. |
| `DepositDiscovery.ScanEntries` | src/services/deposit_discovery.py:215-244 | The loop over one chunk classifies its candidates in order and stops at either cap. |
| `DepositDiscovery.AnswerIsUnique` | src/services/deposit_discovery.py:186-251 | The window alone determines the answer. |
| `DepositDiscovery.CoverageIsTight` | src/services/deposit_discovery.py:222-244 | The coverage falls short of the window only below the entry that filled the list or the first one not classified. |
| `DepositDiscovery.WindowIsCovered` | src/services/deposit_discovery.py:193-195 | Every transfer worth a deposit, in a block from the reported one up, was classified. |
| `DepositDiscovery.SortedAnswerIsWindow` | src/services/deposit_discovery.py:216-218 | Sorting any answer of the node gives the window, newest first. |
| `DepositDiscovery.RoundingIsFree` | src/services/deposit_discovery.py:115-135 | Rounding covers what was asked within the maximum, needs no more node calls, and leaves one window per call count. |
| `DepositDiscovery.DefaultWindow` | src/services/deposit_discovery.py:127-132 | A request without a window gets the chain's own, and one for less than a block is refused. |
| `DepositDiscovery.IdsAreDistinct` | src/services/deposit_discovery.py:265-268 | Two transfers share a deposit id only if they are one log of one transaction and token. |
| `DepositDiscovery.ListedMeansSubmittable` | src/services/deposit_discovery.py:253-300 | For the caller's own transfers, listed as fresh if and only if submitting starts a sweep, as processing if and only if the status is pending, and unlisted only if credited; a reported error means it can be submitted again or was credited. |
| `DepositDiscovery.ForeignRecordsStayHidden` | src/services/deposit_processor.py:288-320 | Another user's record is never listed, and its status reads as if there were none. |
| `Base64Url.Inverse` | src/services/onramp_intent.py:363-377 | Encoding and decoding are inverse between nonempty byte strings and accepted strings. |
| `Base64Url.AcceptedStrings` | src/services/onramp_intent.py:367-377 | A string decodes if and only if it is nonempty, in the alphabet, of a possible length, and has zero trailing bits. |
| `Base64Url.EncodedLength` | src/services/onramp_intent.py:363-364 | The exact length of an encoding, and its alphabet. |
| `Base64Url.AlphabetIsStandard` | src/services/onramp_intent.py:363-364 | Which character stands for which value: table 2 of RFC 4648. |
| `Base64Url.EncodedBits` | src/services/onramp_intent.py:363-364 | Every group of an encoding carries the bits of its bytes, most significant first and padded with zeros. |
| `IntentJson.ParsePrint` | src/services/onramp_intent.py:277-297 | Parsing a printed object of ASCII strings, escapes included, gives its members back. |
| `IntentJson.PrintedNumber` | src/services/onramp_intent.py:277-286 | Numbers are printed in decimal without leading zeros. |
| `IntentJson.PrintedText` | src/services/onramp_intent.py:277-286 | Texts are printed between quotes, with the escapes of two characters where there is one and of six otherwise. |
| `IntentJson.PrintedMembers` | src/services/onramp_intent.py:277-286 | Objects are minified: quoted keys, colons, commas and braces without spaces. |
| `OnRampIntent.DecodesExactlyWhatWasMinted` | src/services/onramp_intent.py:165-206 | A token decodes to a payload if and only if the payload is valid and current and minting makes, character for character, this token of it under a retained key. |
| `OnRampIntent.DecodeToken` | src/services/onramp_intent.py:242-251 | The token of a valid payload decodes under any ring that retains its key, to its payload or to expiry, unless it is too long. |
| `OnRampIntent.AcceptedIsMinted` | src/services/onramp_intent.py:182-206 | Whatever decodes was minted. |
| `OnRampIntent.TokenLength` | src/services/onramp_intent.py:36-40 | The exact token length, which of the valid payloads keep the 448 characters that the source names as the bound, all without control whitespace among them, and which pass the length check. |
| `OnRampIntent.LongestToken` | src/services/onramp_intent.py:36-40 | The bound 448 is attained. |
| `OnRampIntent.TabbedTokenIdIsTooLong` | src/services/onramp_intent.py:331-341 | It is not kept by all: a token id of vertical tabs passes the hex check, and its escapes make the token too long to mint. |
| `OnRampIntent.NormalHex` | src/services/onramp_intent.py:331-341 | A hex field passes validation exactly when it has its length and reads as lower-case hex without prefix, whitespace between bytes skipped; without whitespace that is its digits. |
| `OnRampIntent.NormalAsset` | src/services/onramp_intent.py:350-360 | An asset code passes exactly when it matches the pattern as it stands. |
| `OnRampIntent.HexPayloadIsExact` | src/services/onramp_intent.py:331-341 | A hex argument is accepted with or without prefix and in either case, and gives its lower-case digits. |
| `OnRampIntent.AssetCodeIsExact` | src/services/onramp_intent.py:350-360 | An asset argument is accepted between blanks and in any case, and gives the code in lower case. |
| `OnRampIntent.ValidIsNormal` | src/services/onramp_intent.py:299-322 | A payload is valid exactly when its version and provider are known, its hex fields and asset code are their own normal forms, and its numbers are in range with expiry not before issue. |
| `OnRampIntent.MintedFields` | src/services/onramp_intent.py:135-162 | Each field of a minted intent is the argument of its name, hex and asset normalised, with expiry a day after issue; the token is the prefix, the JSON of these fields under their keys, and its keyed hash. |
| `OnRampIntent.MintingSucceedsExactlyIf` | src/services/onramp_intent.py:135-162 | Minting succeeds if and only if every field is acceptable and the variable part of the intent, the escapes of the token id included, has at most 110 characters. |
| `OnRampIntent.MintedIntentLastsADay` | src/services/onramp_intent.py:135-162 | A minted intent decodes for exactly a day, and later only with expiry waived. |
| `GasFunding.PriceIsLeastSafe` | src/services/sweep_engine.py:247-269 | The price is the least one not below the node's, the floor, or 1.25 times the base fee rounded down; there is none only without any signal. |
| `GasFunding.FundingCoversDoubling` | src/services/sweep_engine.py:396-403 | Funding covers the sweep if and only if its price is at most twice the one it was funded at and the cap covers it. |
| `GasFunding.PriceWithinDouble` | src/services/sweep_engine.py:247-269 | A base fee below double and a node price within double keep the price within double. |
| `GasFunding.DoubledBaseFeeCanFallShort` | src/services/sweep_engine.py:247-269 | An exact doubling of the base fee can fall short by one wei of price, because the 1.25 multiple is rounded down. |
| `GasFunding.FloorPriceIsNeverCapped` | src/config/chain_config.py:66-77 | A floor-priced sweep without L1 fee is funded in full. |
| `GasFunding.FundingIsNoDeposit` | src/config/chain_config.py:49-57 | Whatever the prices and the L1 fee, a funding amount is positive and below the minimum native deposit. |
| `ChainConfigs.ShippedConfigsAreValid` | src/config/chain_config.py:85-170 | Every shipped chain entry, the local mirror included, passes every check, and no chain has two. |
| `GasFunding.AcceptDeposit` | src/services/deposit_processor.py:152-181 | A claim not known as gas funding is accepted if and only if its transaction succeeded and is final and supports it, by the transfer it names or natively at index zero, for its amount, which meets the minimum of its kind; a gas-funding transfer is never accepted, even when its hash was forgotten. |
| `GasFunding.VerifyDeposit` | src/services/deposit_verifier.py:63-254 | A claim is confirmed exactly when its evidence supports it: the transfer it names, or the direct value, or the balance change; always for the amount claimed. |
| `GasFunding.IndexNamesOneTransfer` | src/services/deposit_verifier.py:137-149 | Among the transfers of a transaction, a log index names one. |
| `RpcIdentity.ClientsAreVerified` | src/services/rpc_identity.py:317-353 | After any run a client is the originally configured one of its chain, and the last committed pass saw it report that chain, unless someone opted out since. |
| `RpcIdentity.DroppedChainIsRefused` | src/services/rpc_identity.py:337-353 | A chain that failed the last pass is refused to every consumer at once and its memoised client evicted. |
| `RpcIdentity.AnsweringChainIsReadmitted` | src/services/rpc_identity.py:236-270 | A configured chain is served again as soon as one pass hears it. |
| `RpcIdentity.SettingsAreNarrowed` | src/services/rpc_identity.py:158-172 | Once a pass has committed, the shared settings hold exactly what it verified. |
| `RpcIdentity.OptOutServesUnheard` | src/services/rpc_identity.py:368-377 | Before any pass nothing is served, and after an opt-out then, the configured endpoint of every chain. |
| `RpcIdentity.UrlCheckIsGated` | src/services/rpc_identity.py:356-365 | After any run, unless someone opted out since the last pass, the check admits exactly the URL whose client is handed out for the chain: the configured one, if that pass heard it. |
| `RpcIdentity.IdentityGate.Initialize` | src/services/rpc_identity.py:174-233 | The startup pass commits what it verified, then fails if nothing verified or the Sapphire endpoint did not. |
| `RpcIdentity.IdentityGate.VerifyChainRpcUrls` | src/services/rpc_identity.py:113-155 | The loop keeps exactly the endpoints that reported their own chain. |
| `RpcIdentity.IdentityGate.RequireVerifiedWeb3` | src/services/rpc_identity.py:337-353 | Hands out the memoised client only while the chain is served, and evicts it otherwise. |
| `RateLimiter.WindowsAreLongAndLimited` | src/auth/rate_limiter.py:30-67 | Although a record expires on truncated seconds, every window lasts more than its length less one second and admits at most the limit. |
| `RateLimiter.AtMostTwiceTheLimit` | src/auth/rate_limiter.py:30-67 | Any interval of a window's length less one second admits at most twice the limit. |
| `RateLimiter.RefusalIsEarnedAndShort` | src/auth/rate_limiter.py:57-59 | A refusal means the window admitted exactly the limit; the answer is the whole seconds left of that window, at least one, and waiting one more is enough. |
| `RateLimiter.AuthRateLimiter.Hit` | src/auth/rate_limiter.py:30-67 | The stored record and answer of one hit, leaving other keys alone. |
| `Transak.NonceReturnsOnlyAfterExpiry` | src/services/transak.py:220-228 | A nonce is accepted again only once the claim that used it has expired. |
| `Transak.ClaimIsAcceptedOnce` | src/services/transak.py:231-308 | A claim, by nonce and expiry, is accepted at most once in a process run. |
| `Transak.MemoryIsBounded` | src/services/transak.py:220-228 | At most 10,000 nonces are kept, each of an accepted claim and expiring within 120 seconds of that acceptance. |
| `Transak.AttestationMemory.VerifyIpAttestation` | src/services/transak.py:262-308 | Acceptance, and the memory left behind, of one claim. |
| `Transak.WebhookTokensAreRecent` | src/services/transak.py:601-622 | After any run, at most two distinct tokens verify a webhook, each issued and at most 900 seconds past expiry, the current one among them. |
| `Transak.RotationOverlaps` | src/services/transak.py:590-598 | Whatever uses follow, until the next rotation a replaced token verifies exactly for 900 seconds, or to 900 seconds past its expiry if that is sooner, and its replacement does too. |
| `Transak.OneRefreshPerRejection` | src/services/transak.py:548-563 | Once the first caller whose token was rejected has replaced it, no sequence of later uses replaces the replacement before it expires, however many callers were rejected with other tokens. |

## Left out

- HTTP routes, models, templates and clients: plumbing that would only add easy members.
- Web3, the relay, diskcache and the HTTP client: steps or parameters; of diskcache only its expiry rule is modelled.
- Sweeps in place: the engine's interleavings are modelled on values, since a method cannot be interrupted; its file operations are a class.
- The recovery pass's loop over several records: records of one pass may interleave freely in the machine, which only adds runs.
- Beneficiaries, chain types, versions and token-id encodings of a sweep: carried through unchanged.
- Corrupt sweep files, which are renamed and skipped, and the process-local cache of address locks.
- SweepRecovery.StartupPass: deposits unswept at one address at the same time are outside it, because the zero-balance check then depends on the order of their sweeps.
- SweepHashLoss.HashesAreKeptExactlyIf: a native deposit id claimed for two addresses, which a wrong attribution by balance change allows, is outside it; `SweepHashLoss.HashesAreKeptExactlyIfNoBlindSave` covers it.
- SignedSubmission.ReportsAreTruthful: after a record expired over a call that had landed or could, a definite failure may be untrue until none of its submissions can land; `SignedSubmission.ExpiryIsHarmlessExactlyIf` is the exact condition.
- WithdrawalOrder.ResolvedInIndexOrder: when token lookups fail a withdrawal is skipped by the poll, so the order is stated for lookups that succeed.
- The poll loop around the per-chain turns, and its catch-up every tenth poll.
- The mempool lookup after an unproven broadcast: it only logs.
- The destination balance check before a withdrawal request and the L2 fee oracles: a formula and inputs settled by one reading.
- The 30-second scan cache of discovery, and the decoding of logs: a log is well formed or not.
- General JSON: text the parser does not read is printed differently from any accepted payload, so both refuse it.
- Address checksums, keyed hashes and key derivation: parameters. Letters outside ASCII are kept by the lower-casing, except the Kelvin sign, which becomes `k`.
- Sweep gas that an address already holds, and transactions that pay a deposit address by an internal call: only the balance change shows them.
- Attestation formats, addresses and signatures: one flag. The order of the error messages is not modelled.
