# Verified model of the wallet's money-handling core

This project models the parts of the wallet where an error would cost money, and proves what they
promise. It is one Dafny program; `dafny verify dfyconfig.toml` checks it.

| area | modules |
|---|---|
| dollar position over Lightning | `StableMath`, `StableTypes`, `StableStore`, `StableChanges`, `StableRuns`, `StablePayments`, `StableQuotes`, `StableOperations`, `StablePromises`, `StableClient` |
| channel funding by splicing | `CoinSums`, `SpliceSelection`, `SpliceFunding`, `SpliceProtocol`, `SpliceOperations`, `SplicePromises`, `SpliceController` |
| fee-subsidised sweep | `SubsidySelection`, `PsbtFormat`, `PsbtCodec`, `PsbtRoundTrip`, `PsbtExample`, `PsbtSurgery`, `SweepPlan`, `Sweep` |
| close records on several devices | `CloseRecord`, `CloseFacts`, `CloseRecordSync`, `CloseCompletion`, `CloseRecordStore` |
| single-flight saving | `SerialPersister` |
| invoice packing | `Digits`, `Bolt11` |

`Results` and `Arithmetic` are shared helpers.

## How it is built

Arithmetic and decisions are functions. Whatever the source updates in place is a class or a method
with loops, proved against such a function. The four protocols (client, splice controller, close
records, persister) also have a world of their own: its steps are single saves, sends, server answers and
crashes, and the safety theorems quantify over every run. The classes of the client, the splice controller
and the close-record store carry a ghost trace and extend it by such steps with everything they do, so the theorems
about runs hold of every history of those objects. The persister's class carries the machine's state in the same way.

The functions that the methods are proved against are not the last word: `StablePromises`, `SplicePromises` and `CloseFacts` say in
terms of the states before and after, and of nothing the program decides in between, what each operation owes its user, in both
directions, and prove it of those functions for all inputs.

Faults are parameters, never free choices: each save takes a record that says whether the local database
accepts it and what the server answers, each look at the channel, clock and wallet is a value, and the
contracts say what the method does for every such value. Fresh payment ids are assumed distinct from earlier ones, and
a verified signature or an equal hash is part of the typed message.

A promise about the surroundings that a theorem needs, such as a server that keeps the state or a page that loads once, is a
flag of the run's configuration. Where a safety property does not hold in every configuration, a lemma says in exactly
which ones it does, and the other half of its proof is a whole run that breaks it.

A position carries a log of the payments that changed it, and a splice the coins that were counted for its quote and what
its signed transaction costs the wallet. These are not part of the saved state of the program; they travel with
each copy of it, so a crash that brings back an older copy brings back its history.

## Where the code does less than its comments or its tests suggest

- The first-receive conversion searches cents by bisection. Up to a price of one satoshi to the cent it always
  finds the greatest accepted target. Above that price, up to ten times which the feed accepts, it still does in every channel
  that holds at least three satoshis, reserve included; in a channel of one or two it can refuse a target that would be
  accepted (`FirstSearchRightIff` gives the exact condition, `FirstSearchCanMiss` an input). `quoteMaximum` has no such limit.
- Splice signatures are called durably stored before submission. That holds exactly when a server keeps the state
  or the local database never refuses a write (`SubmissionsDurableIff`): the state in memory is set before
  the local write, so a replayed event submits a signature that no disk holds.
- The close-record merge is documented as deterministic and field-wise. It is associative exactly around records whose
  repeated txids do not conflict (`AssociativeIff`), and a complete record without a resolution turns
  unverified exactly when an unverified one is merged in (`CompleteDowngradesIff`). The completions recorded here all carry
  one, and then what is shown as complete stays so (`RemoteStaysCompleteIff`, `MemoryStaysCompleteIff`).
- A comment says that the invoice timestamp is masked to 35 bits; the JavaScript operators act on 32 bits, so it is
  exact only below 2^31 and in the top 2^31 of the 35-bit range (`TimestampExactIff`). Integers in fields are exact below 2^31
  (`IntWordsExactIff`).
- The subsidy search is complete for the variant with change. A changeless choice of smaller coins it can miss, also
  with the 10,000-sat reserve that the wallet uses (`ReserveCanHideChangeless`). Over all transactions that LDK makes at its
  floor rate it misses nothing exactly when, for every affordable choice, some prefix pays the most that such a transaction
  can ask of that choice (`NothingMissedIff`); a reserve of at most the smallest coin is enough for that. That LDK
  at its floor pays a quarter of the weight, rounded down, is taken as given.
- A call that reaches the persister between the end of its loop and the finally callback receives a promise whose
  run is already over (`CallInTheGapWaits`); its work is kept, but only the next call starts it. That gap is the only such
  place (`ServedIff`).
- Loading close records again in a page that still holds a version can overwrite remote facts when the remote read
  of that load fails, even if the local database never fails. Without such a load, or without such a failure, no run
  loses a fact (`NothingLostIff`).

## Model

| member | source | states |
|---|---|---|
| `StableRuns.SavedBeforeItsOnlySend` | src/stable/client.ts:351-380 | whenever LDK is called, the intent is the pending one in memory and in what a crash would recover, its id was never sent before, and every earlier payment has its fate on record |
| `StableRuns.OneOpenPayment` | src/stable/client.ts:351-380 | at any moment of any run at most one payment handed to LDK is open; it is the pending intent, and no crash forgets it |
| `StableRuns.PendingNeverReplaced` | src/stable/client.ts:351-380 | no step of a run, crashes included, replaces a pending intent by another or moves the position while it is pending |
| `StableRuns.PendingSettlementBalances` | src/stable/client.ts:488-523 | in every run a pending settlement is the exact difference between the position's backing and what it will leave |
| `StableRuns.PositionIsSumOfPaymentsCountedOnce` | src/stable/client.ts:686-727 | in every run the backing is the sum of the logged effects, each received payment, settlement id and sync version counts at most once in a position's lifetime, sync versions rise, and inbox ids stay distinct |
| `StableRuns.ReceiptsAreInjective` | src/stable/client.ts:639-647 | two payments of one position never have the same receipt |
| `StableRuns.TargetWithinCommitted` | src/stable/client.ts:605-617 | in every run from an empty state the acknowledged target exceeds the largest committed trade target by at most one unit, and that target was committed by some step of the run |
| `StableRuns.EveryRunKeepsInv` | src/stable/client.ts:150-178 | the invariant behind the run theorems holds after every flush, save, launch and crash |
| `StableRuns.OnlyLaunchSends` | src/stable/client.ts:367-369 | no other step hands anything to LDK |
| `StableChanges.PendingFreezes` | src/stable/client.ts:539-565 | a saved change keeps a pending intent and the whole position, or resolves the intent and records it as closed |
| `StableChanges.SettlementDebitsItsAmount` | src/stable/client.ts:555-564 | a paid settlement debits exactly the satoshis it carried and changes nothing else of the position but the time |
| `StableChanges.PositionMovesByEffects` | src/stable/client.ts:637-683 | only a sync, a top-up or a paid settlement moves the amounts, and each adds one effect with its difference |
| `StableChanges.ChangeKeepsInv` | src/stable/client.ts:539-683 | every change the code saves keeps the invariant of the state and its log |
| `StableChanges.CleanCountsOnce` | src/stable/client.ts:567-665 | in a log grown by the code's checks no payment, settlement or version repeats and versions rise |
| `StablePayments.JudgeIsSound` | src/stable/client.ts:567-684 | whatever an inbox entry makes the client save can be taken by the state; a sync leaves the backing within the receiver's balance and a top-up adds at most the payment |
| `StablePayments.UnsolicitedSyncOnlyReconciles` | src/stable/client.ts:615-636 | a sync the provider sends on its own raises nothing, keeps the backing at the same target, and lowers the target only by the worth of satoshis that left the channel, to within one percent and three satoshis |
| `StableQuotes.QuoteFits` | src/stable/client.ts:271-303 | an accepted quote names a real dollar amount, and fee and backing fit the channel together |
| `StableQuotes.QuotesDownwardClosed` | src/stable/client.ts:305-323 | once one cent more is accepted, the accepted targets above the position are downward closed, at any price |
| `StableOperations.MaximumQuoteIsGreatest` | src/stable/client.ts:305-323 | the maximum is a quote above the present target and no greater target up to the worth of the channel is accepted; there is none exactly when one cent more is refused |
| `StableQuotes.FirstQuoteAgrees` | src/stable/client.ts:434-450 | the nano-dollar quote after the first-receive search has the fee and backing of the search; only the liquidity and size guards can still refuse it |
| `StableQuotes.CommitIsWhatWasReviewed` | src/stable/client.ts:382-416 | a committed trade pays the reviewed fee or one millisatoshi, asks for the reviewed backing, and nothing was saved since the review |
| `StableQuotes.TickPaysTheExcess` | src/stable/client.ts:476-524 | a tick pays only what is held above the target, within capacity and at least two minutes after the last settlement, and then the position is a fixed point at that price |
| `StableOperations.FirstConversionIsGreatest` | src/stable/client.ts:418-451 | for every price and channel: the conversion commits the greatest accepted target of its range and calls the payment too small only when there is none, or, outside the stated condition, calls it too small although one is accepted |
| `StableOperations.FirstSearchCanMiss` | src/stable/client.ts:429-449 | a one-satoshi channel without reserve in which the search misses an accepted target |
| `StableOperations.AttemptEndsClean` | src/stable/client.ts:351-380 | an attempt leaves an intent pending on disk and in memory if LDK took it, leaves none if it was rejected first, and never moves the position |
| `StableOperations.DrainLeavesOnlyWaiting` | src/stable/client.ts:686-727 | when the inbox loop ends without an error, what is left waits for the client's own payment; it never adds entries, and the inbox length bounds it |
| `StableOperations.RoundShrinks` | src/stable/client.ts:709-725 | every completed round of the inbox loop shortens the inbox |
| `StableOperations.ReplayedReceiptIsIgnored` | src/stable/client.ts:755-760 | a replayed event for a payment in the inbox or on the receipts changes nothing |
| `StablePromises.JudgeKeepsPromises` | src/stable/client.ts:567-684 | the first record of an entry that concerns the client decides: a settlement leaves the greatest backing that payment, channel and target allow, an acknowledgement the intent's own backing at the message's target and version, a refusal nothing pending, a report the reconciled position, each with its receipt; it is taken exactly when price and capacity allow |
| `StablePromises.RoundKeepsPromises` | src/stable/client.ts:709-725 | a round does what its entry asks, if anything, then takes out that entry and no other, and fails only when a save does or it cannot be done now |
| `StablePromises.DrainFailsInARound` | src/stable/client.ts:686-727 | an error of the inbox loop is the error of one of its rounds |
| `StablePromises.OutcomeKeepsPromises` | src/stable/client.ts:539-565 | for the pending payment and for no other: a paid settlement debits its amount at that time, a paid trade stays pending as sent, a failed payment leaves nothing pending and the position alone |
| `StablePromises.ReceiveKeepsPromises` | src/stable/client.ts:738-791 | a payment for the first receive is recorded whole; any other new payment with a signed message about the channel goes to the end of the inbox with exactly those records in order; everything else changes nothing |
| `StablePromises.PrepareKeepsPromises` | src/stable/client.ts:226-239 | a hash joins those already tracked exactly while nothing was received, allocated or committed |
| `StablePromises.ClearKeepsPromises` | src/stable/client.ts:244-255 | the position is cleared, and nothing else, exactly when its channel is gone and nothing is under way |
| `StablePromises.RebindKeepsPromises` | src/stable/client.ts:453-463 | the position moves to the spliced channel, and nothing else changes, exactly when it was on the old one and nothing is under way |
| `StablePromises.TickKeepsPromises` | src/stable/client.ts:473-525 | a tick pays a settlement if and only if one is due, and then the whole satoshis above the target, stated in the message as they are in the intent |
| `StablePromises.TickAttempts` | src/stable/client.ts:473-525 | with an empty inbox a tick attempts exactly that settlement |
| `StablePromises.TickSendsWhatIsDue` | src/stable/client.ts:473-525 | whatever the inbox held, a tick sends nothing but one settlement that is due after it |
| `StablePromises.QuoteKeepsPromises` | src/stable/client.ts:271-303 | a target is quoted if and only if it has a fee of one percent and a backing that fit the channel and nothing stands in the way; the quote names them |
| `StablePromises.CommitKeepsPromises` | src/stable/client.ts:382-416 | a commit forms the trade of the reviewed quote, payload and correlation included, and refuses only a quote that is no longer given |
| `StablePromises.AttemptKeepsPromises` | src/stable/client.ts:351-380 | an operation says that it paid only if LDK was called once with its intent, from a wallet fit to send, and the intent is pending; when nothing fails it does so, and without an intent nothing changes |
| `StablePromises.AllocateAllKeepsPromises` | src/stable/client.ts:464-472 | the maximum is committed as quoted before the announcement, and refused only if it cannot be |
| `StablePromises.FirstConversionOnce` | src/stable/client.ts:418-427 | the first receive is converted only while untouched, over its own channel, and never after a trade was proposed |
| `StableStore.SaveMovesDrift` | src/stable/store.ts:150-163 | a save that works leaves memory and disk together on the new state; one that fails changes nothing, or leaves exactly one of them a save ahead |
| `StableStore.FlushRejoins` | src/stable/store.ts:145-149 | a flush brings the local database level with memory and moves nothing else |
| `StableStore.ReloadRejoins` | src/stable/store.ts:133-144 | after a reload memory holds what the disk held |
| `StableStore.Persistence.Save` | src/stable/store.ts:150-163 | new memory, versions, local and remote copies for every way a save can go |
| `StableStore.Persistence.Flush` | src/stable/store.ts:145-149 | the pending local write is retried before anything else |
| `StableStore.Persistence.Load` | src/stable/store.ts:133-144 | the remote object wins over the local copy, and its version is taken with it |
| `StableClient.StableClient.Begin` | src/stable/client.ts:150-153 | refuse after stop, then flush, or do nothing |
| `StableClient.StableClient.TrySave` | src/stable/client.ts:171-178 | one saved change with the next revision, recorded in the run |
| `StableClient.StableClient.Enable` | src/stable/client.ts:222-225 | the whole new state after enabling |
| `StableClient.StableClient.PrepareFirstReceive` | src/stable/client.ts:226-239 | a payment hash is tracked only while no first receive or position exists |
| `StableClient.StableClient.Pause` | src/stable/client.ts:240-243 | the whole new state after pausing |
| `StableClient.StableClient.ClearClosedPosition` | src/stable/client.ts:244-255 | a position is cleared only when its channel is gone and nothing is pending |
| `StableClient.StableClient.Refresh` | src/stable/client.ts:256-270 | a new price, or quarantine of the old one |
| `StableClient.StableClient.QuoteMaximum` | src/stable/client.ts:305-323 | the loop computes the search over quotes |
| `StableClient.StableClient.Send` | src/stable/client.ts:351-380 | image, answer and LDK calls of an attempt for every fault; the intent is handed over exactly when saved and the wallet is still fit |
| `StableClient.StableClient.CommitQuote` | src/stable/client.ts:382-416 | the re-quoted trade is sent, or refused if anything changed |
| `StableClient.StableClient.Commit` | src/stable/client.ts:381-381 | a commit as a serialised operation |
| `StableClient.StableClient.SearchFirstTarget` | src/stable/client.ts:429-448 | the loop computes the search over cents |
| `StableClient.StableClient.AutoConvertFirstReceive` | src/stable/client.ts:418-451 | the first conversion as a serialised operation |
| `StableClient.StableClient.RebindSplicedChannel` | src/stable/client.ts:453-463 | the position follows its spliced channel, and no other |
| `StableClient.StableClient.AllocateAll` | src/stable/client.ts:464-472 | the maximum is committed after the announcement |
| `StableClient.StableClient.TickOnce` | src/stable/client.ts:473-525 | inbox first, then the settlement that is due |
| `StableClient.StableClient.OnOutcome` | src/stable/client.ts:539-565 | the state after LDK reports a payment sent or failed |
| `StableClient.StableClient.KeepPayment` | src/stable/client.ts:738-791 | the first receive, a place in the inbox, or nothing, saved |
| `StableClient.StableClient.ApplyRecords` | src/stable/client.ts:583-684 | the first record that is not skipped decides |
| `StableClient.StableClient.OnReceived` | src/stable/client.ts:729-791 | a received payment is saved as first receive or inbox entry, or ignored |
| `StableClient.StableClient.FilterRecords` | src/stable/client.ts:763-772 | the loop keeps the records for this channel in order |
| `StableClient.StableClient.ApplyPayment` | src/stable/client.ts:567-684 | the state after the first record that counts |
| `StableClient.StableClient.WorkOff` | src/stable/client.ts:709-725 | effect saved first, entry removed second |
| `StableClient.StableClient.ApplyInbox` | src/stable/client.ts:686-727 | the loop computes the drained inbox |
| `StableClient.StableClient.ProcessInbox` | src/stable/client.ts:728-728 | the drained inbox as a serialised operation |
| `StableClient.StableClient.Restart` | src/stable/store.ts:133-144 | a crash is a step of the run |
| `StableMath.PaymentLeavesRemainder` | src/stable/math.ts:14-19 | a payment leaves the drift modulo the price, and is stable exactly when that remainder is within a tolerance |
| `StableMath.SettlementIsFixedPoint` | src/stable/math.ts:3-20 | at every price up to 1,000,000,000 cents a paid settlement is a fixed point worth at least the target |
| `StableMath.ReceivedBackingIsGreatest` | src/stable/math.ts:70-89 | the new backing never falls, never exceeds the channel, is the greatest that is worth no more than the target, and owes no payment when the old one was under the target |
| `StableMath.AllocationKeepsValue` | src/stable/math.ts:22-68 | fee and backing fit, and the value over target moves by less than a satoshi, or by less than a cent for a fresh allocation |
| `StableMath.FreshAllocationIsStable` | src/stable/math.ts:49-59 | a fresh allocation is stable at its own price |
| `StableMath.AllocationScales` | src/stable/math.ts:22-68 | scaling all dollar amounts by one factor changes no outcome, fee or backing |
| `StableMath.IncreasesAcceptedBetween` | src/stable/math.ts:22-68 | every target between two accepted increases is accepted |
| `StableMath.FirstSearchRightIff` | src/stable/client.ts:429-448 | the search of the first conversion is right on its range if and only if a cent is worth at least a satoshi, or the channel can take nothing, or it holds three satoshis or more, or it holds one or two and the price has the stated remainder |
| `StableMath.SearchInTinyChannel` | src/stable/client.ts:429-448 | in every other channel of one or two satoshis the search finds nothing although its range holds an accepted target |
| `StableMath.FreshClosedIff` | src/stable/math.ts:22-68 | the accepted first targets are downward closed exactly when a cent is worth at least a satoshi or the channel can take nothing |
| `StableMath.SearchSkipsGap` | src/stable/client.ts:432-448 | a search whose range reaches 2f-1 never probes below f when the targets from f to 2f-1 are accepted, so it ends at the greatest |
| `StableMath.SearchFindsGreatest` | src/stable/client.ts:432-448 | on a downward closed range the search ends at the greatest accepted value |
| `SpliceSelection.MaximumAmount` | src/stable/splice.ts:330-340 | the maximum over prefixes is fundable and nothing greater is |
| `SpliceSelection.Select` | src/stable/splice.ts:341-364 | succeeds exactly on fundable amounts, with the shortest largest-first prefix; the maximum it finds is the greatest amount it accepts; each error has its exact cause |
| `SpliceSelection.PrefixesLoseNothing` | src/stable/splice.ts:325-325 | with coins sorted largest first, any choice of at most 100 coins that funds an amount has a prefix that does |
| `SpliceSelection.FundableBelow` | src/stable/splice.ts:347-364 | smaller amounts stay fundable |
| `SpliceFunding.CheckInputs` | src/stable/splice-bitcoin.ts:100-128 | first faulty input in order, or both sums |
| `SpliceFunding.CheckOutputs` | src/stable/splice-bitcoin.ts:130-150 | a foreign change script is refused; the funding output must be the only one |
| `SpliceFunding.ValidateSpliceFunding` | src/stable/splice-bitcoin.ts:86-155 | passes exactly the transactions that keep every promise of the review, with the exact cause of each refusal |
| `SpliceFunding.ValidatedSpliceCost` | src/stable/splice-bitcoin.ts:145-154 | a validated splice spends the reviewed coins only and costs the wallet between the amount and amount plus fee |
| `SpliceFunding.ValidatedSpliceShape` | src/stable/splice-bitcoin.ts:100-155 | a validated splice has each input once with the transaction it names, the unchanged channel output, the reviewed coins and no other of the wallet, no payment to the wallet but the reviewed change, and one funding output |
| `SpliceFunding.QuotedSpliceKeepsReserve` | src/stable/splice.ts:355-364 | a validated quote keeps the 10,000-sat reserve in the counted coins and adds at least the amount to the channel |
| `SpliceProtocol.SubmissionsDurableIff` | src/stable/splice.ts:252-267 | every transaction handed to LDK for a splice is the single durably saved one in all runs, if and only if a server keeps the state or the local database never refuses a write |
| `SpliceProtocol.TwoTransactionsReachLdk` | src/stable/splice.ts:262-265 | a run without a server in which two transactions of one splice reach LDK |
| `SpliceProtocol.SignedSpliceEndsTwoWays` | src/stable/splice.ts:466-482 | a signed splice leaves the pending state exactly by LDK's failure that names all its inputs or by its ready channel; it cannot be cancelled, signed again or replaced |
| `SpliceProtocol.SubmittedSpliceEndsTwoWays` | src/stable/splice.ts:557-600 | over whole runs with crashes, a submitted transaction stays with its pending splice until one of those two endings |
| `SpliceProtocol.ReservedArePendingInputs` | src/stable/splice.ts:112-115 | the reserved set is always the inputs of the pending splice |
| `SpliceProtocol.ConvertedAtMostOnce` | src/stable/splice.ts:604-608 | the allocation after a splice is started at most once for each splice |
| `SpliceProtocol.RunKeepsSubmissions` | src/stable/splice.ts:483-566 | the durable invariant behind the theorems, for every run |
| `SpliceProtocol.SubmissionsKeepReserve` | src/stable/splice.ts:355-364 | over all runs with crashes, in every configuration, each transaction that reaches LDK was quoted from coins of the wallet, costs it between the amount and amount plus the quoted fee, and leaves the 10,000-sat reserve in the coins counted then |
| `SpliceOperations.SigningStaysWithin` | src/stable/splice-bitcoin.ts:86-155 | what the wallet signs spends exactly the quoted coins and stays within the review |
| `SpliceController.Controller.HandedKeepsReserve` | src/stable/splice.ts:510-550 | in every reachable state, a first signature that reaches LDK spends the quoted coins only, costs between amount and amount plus fee, and keeps the 10,000-sat reserve in the coins counted at quote time |
| `SpliceOperations.CleanLook` | src/stable/splice.ts:413-422 | a commit goes on only when the explorer calls every quoted coin unspent |
| `SpliceOperations.HandedIsSaved` | src/stable/splice.ts:510-550 | a signing request hands over at most the transaction saved for that hash, and a first signature only after its save |
| `SpliceController.Controller.CreateQuote` | src/stable/splice.ts:278-387 | the refusals of wallet, fee rate, channel, peer and funding details in order; after them a quote exists exactly when the request is fundable, and it has the terms of the channel, the first coins and their fee |
| `SpliceController.Controller.CheckCommit` | src/stable/splice.ts:397-431 | the first fault that channel, wallet, explorer and coins give, in that order |
| `SpliceController.Controller.CommitSplice` | src/stable/splice.ts:388-465 | state and answer of a commit for every fault |
| `SpliceController.Controller.ValidateAndSign` | src/stable/splice.ts:516-531 | the wallet signs exactly the transactions that keep the review |
| `SpliceController.Controller.HandOver` | src/stable/splice.ts:534-552 | at most one hand-over for each hash and page |
| `SpliceController.Controller.ConvertOnce` | src/stable/splice.ts:604-608 | announced, asked for and saved as done |
| `SpliceController.Controller.Cancel` | src/stable/splice.ts:466-482 | only an unsigned pending splice is given up |
| `SpliceController.Controller.HandleSign` | src/stable/splice.ts:510-553 | saved before submitted; one submission for each hash and page; a changed transaction is refused |
| `SpliceController.Controller.Handle` | src/stable/splice.ts:483-566 | state and answer for each event |
| `SpliceController.Controller.ReconcileReady` | src/stable/splice.ts:579-600 | refuses when the provider has no single channel, and completes exactly on the recorded funding output |
| `SpliceController.Controller.Tick` | src/stable/splice.ts:601-610 | conversion announced before it is asked for |
| `SpliceController.Controller.Load` | src/stable/splice.ts:237-251 | the remote state wins; reservations follow |
| `SpliceController.Controller.Write` | src/stable/splice.ts:252-267 | server, memory and reservations, local database, in that order |
| `SplicePromises.ReadyKeepsPromises` | src/stable/splice.ts:579-600 | a splice completes if and only if the provider's one channel is usable, is the quoted one, has the recorded new funding output, both records succeed and the save is taken; otherwise nothing changes |
| `SplicePromises.TickKeepsPromises` | src/stable/splice.ts:601-610 | a tick completes the splice exactly then, converts a complete one that was not converted, and does nothing else |
| `SplicePromises.ConvertKeepsPromises` | src/stable/splice.ts:604-608 | marked as attempted once the announcement is saved and as done once placed; done when nothing fails |
| `SplicePromises.SignKeepsPromises` | src/stable/splice.ts:510-553 | the first signature is made exactly when the transaction keeps the review, saved with its hash, and handed over exactly when that save is complete; a signed one again once for each page; another hash is refused |
| `SplicePromises.HandleKeepsPromises` | src/stable/splice.ts:483-566 | what each event does to the splice of its channel, and that no other event changes anything or is an error, but for a signing request that cannot be passed over |
| `SplicePromises.CommitKeepsPromises` | src/stable/splice.ts:388-465 | a commit starts if and only if the quote is the reviewed one and fresh and channel and coins are as quoted; it is saved as prepared first and with LDK's answer second |
| `SplicePromises.LookKeepsPromises` | src/stable/splice.ts:397-431 | no fault exactly when the channel is unchanged and usable and every coin unspent in wallet and explorer and contributable |
| `SplicePromises.CancelKeepsPromises` | src/stable/splice.ts:466-482 | only an unsigned splice is given up, and only its status changes |
| `SplicePromises.QuoteKeepsPromises` | src/stable/splice.ts:278-312 | exactly when nothing but the coins stands in the way of a quote, and the terms it then has |
| `SplicePromises.FundedQuoteCosts` | src/stable/splice.ts:341-364 | 220 vbytes and 69 for each input, at most 50,000 sats and 100 coins, and 10,000 sats left in the coins counted |
| `SplicePromises.SaveKeepsPromises` | src/stable/splice.ts:252-267 | a save that the server takes changes memory, and is complete when the local database takes it too; any other leaves memory alone |
| `SplicePromises.LoadKeepsPromises` | src/stable/splice.ts:237-251 | the server's splice, or else the local one |
| `SubsidySelection.SelectSubsidyInputs` | src/ldk/subsidized-sweep.ts:103-163 | the shortest largest-first prefix of at most 20 coins that fits either variant, and a shortfall exactly when none does |
| `SubsidySelection.NoLongerPrefixFits` | src/ldk/subsidized-sweep.ts:156-158 | the early break loses no longer prefix |
| `SubsidySelection.NoSubsetFitsWithChange` | src/ldk/subsidized-sweep.ts:198-198 | with sorted candidates, any choice of at most 20 coins that carries the sweep with change has a prefix that fits |
| `SubsidySelection.NothingMissedIff` | src/ldk/subsidized-sweep.ts:103-163 | over every transaction that LDK makes at its floor rate and every rate from 2, no choice of at most 20 coins carries a sweep that all prefixes fail, if and only if for each affordable choice some prefix pays the most that can be asked of it |
| `SubsidySelection.SmallReserveMissesNothing` | src/ldk/subsidized-sweep.ts:144-154 | a reserve of at most the smallest coin hides no choice in either variant |
| `SubsidySelection.LargestCoinBeyondBudget` | src/ldk/subsidized-sweep.ts:127-159 | when the largest coin exceeds the budget by the dust limit, nothing is missed at a rate if and only if the budget pays that coin, a change output and the most that can be asked of each affordable choice |
| `SubsidySelection.ReserveCanHideChangeless` | src/ldk/subsidized-sweep.ts:156-158 | a wallet, with the 10,000-sat reserve, and a demand at the floor rate of which the search misses a changeless choice |
| `SubsidySelection.SelectionFee` | src/ldk/subsidized-sweep.ts:88-91 | the fee pays the target rate, a changeless result overpays by less than 546 sats and 31 vbytes, and the wallet keeps min(total, reserve) |
| `PsbtSurgery.PlanSweep` | src/ldk/subsidized-sweep.ts:328-382 | a built sweep is LDK's transaction with the first coins as replaceable inputs behind it and at most one output, which pays what they hold beyond the subsidy to the change script; the wallet keeps min(total, reserve), the fee pays the rate, and it costs less than it rescues; a shortfall means no prefix fits |
| `PsbtSurgery.CombinedFee` | src/ldk/psbt-surgery.ts:347-374 | witness amounts minus outputs of the combined PSBT equal the computed fee |
| `PsbtSurgery.AppendedWitnessValues` | src/ldk/psbt-surgery.ts:331-340 | the combined maps read back the old amounts and the added coins |
| `PsbtSurgery.AppendKeepsOriginal` | src/ldk/psbt-surgery.ts:331-374 | surgery keeps every old input, output, map, pair, version and locktime in place, and adds for each coin an input with its txid in internal byte order, its index and the replaceable sequence, and its map |
| `PsbtSurgery.WitnessMapReads` | src/ldk/psbt-surgery.ts:331-340 | the map of a coin reads back as its amount and script |
| `PsbtSurgery.FirstWitnessIs` | src/ldk/psbt-surgery.ts:381-395 | the amount is that of the first pair with key 1, which must hold one output and nothing else |
| `PsbtSurgery.AppendedSurvivesBytes` | src/ldk/psbt-surgery.ts:347-374 | the combined PSBT survives printing and parsing |
| `PsbtSurgery.ReadWitnessUtxoValues` | src/ldk/psbt-surgery.ts:381-395 | one amount for each input map, or an error exactly when a map has none |
| `PsbtRoundTrip.ParsePrint` | src/ldk/psbt-surgery.ts:306-328 | parsing a printed PSBT gives it back, for every well-formed one |
| `PsbtRoundTrip.CanonicalIsPrinted` | src/ldk/psbt-surgery.ts:267-304 | printing an accepted canonical PSBT gives the same bytes |
| `PsbtRoundTrip.PrintParseIff` | src/ldk/psbt-surgery.ts:267-328 | printing gives back the accepted bytes if and only if they are canonical |
| `PsbtRoundTrip.PrintNormalises` | src/ldk/psbt-surgery.ts:267-328 | printing an accepted PSBT and parsing again gives the same PSBT |
| `PsbtRoundTrip.ParsedIsGood` | src/ldk/psbt-surgery.ts:267-304 | whatever the parser accepts is well-formed |
| `PsbtRoundTrip.PrintedIsCanonical` | src/ldk/psbt-surgery.ts:306-328 | the printer's bytes are canonical |
| `PsbtExample.TxBytes` | src/ldk/psbt-surgery.ts:219-231 | the bytes of a transaction, field by field, little-endian |
| `PsbtExample.PsbtBytes` | src/ldk/psbt-surgery.ts:306-328 | the bytes of a whole PSBT: magic, transaction under key 0, other pairs, terminator, input maps, output maps |
| `PsbtExample.CompactSizes` | src/ldk/psbt-surgery.ts:143-161 | the four forms of a CompactSize |
| `PsbtCodec.ByteReader.ReadBytes` | src/ldk/psbt-surgery.ts:87-92 | bytes taken and offset moved, or an error and nothing moved |
| `PsbtCodec.ByteReader.NextU32` | src/ldk/psbt-surgery.ts:94-99 | little-endian 32-bit value |
| `PsbtCodec.ByteReader.NextU64` | src/ldk/psbt-surgery.ts:108-113 | little-endian 64-bit value |
| `PsbtCodec.ByteReader.NextVarint` | src/ldk/psbt-surgery.ts:116-127 | CompactSize in all four forms |
| `PsbtCodec.ByteReader.NextSize` | src/ldk/psbt-surgery.ts:130-134 | a size above the safe integers is refused |
| `PsbtCodec.ByteReader.NextRawMap` | src/ldk/psbt-surgery.ts:240-250 | raw bytes of one map up to its terminator |
| `PsbtCodec.ByteReader.NextGlobal` | src/ldk/psbt-surgery.ts:274-289 | one unsigned transaction and the other pairs in order |
| `PsbtCodec.NextCountedInputs` | src/ldk/psbt-surgery.ts:194-203 | a counted list of inputs |
| `PsbtCodec.NextCountedOutputs` | src/ldk/psbt-surgery.ts:205-212 | a counted list of outputs |
| `PsbtCodec.ParseUnsignedTx` | src/ldk/psbt-surgery.ts:190-217 | the loops compute the parse |
| `PsbtCodec.ParsePsbtBytes` | src/ldk/psbt-surgery.ts:267-304 | the loops compute the parse |
| `PsbtCodec.IterateMapKvs` | src/ldk/psbt-surgery.ts:252-265 | the pairs of one map |
| `PsbtCodec.WriteVarintBytes` | src/ldk/psbt-surgery.ts:143-161 | the shortest CompactSize |
| `PsbtCodec.ConcatBytes` | src/ldk/psbt-surgery.ts:163-172 | the copying loop computes the concatenation |
| `PsbtCodec.SerializeUnsignedTx` | src/ldk/psbt-surgery.ts:219-231 | the loops compute the printed transaction |
| `PsbtCodec.SerializePsbtBytes` | src/ldk/psbt-surgery.ts:306-328 | the loops compute the printed PSBT |
| `SweepPlan.NothingIsLost` | src/ldk/sweep.ts:256-348 | over any history of passes a stored descriptor stays stored unless a pass broadcast it or found it wallet-owned |
| `SweepPlan.PassConserves` | src/ldk/sweep.ts:318-348 | the same for one pass, with every combination of failed writes |
| `SweepPlan.PlanPassInv` | src/ldk/sweep.ts:256-338 | the batch repeats no bytes, everything in it stays stored until broadcast, and everything seen is in the batch, wallet-owned or in an entry left alone |
| `SweepPlan.PassClears` | src/ldk/sweep.ts:256-466 | a pass leaves undecodable entries untouched, removes the others once broadcast, and what it rewrites keeps its channel and its own sweepable descriptors only |
| `SweepPlan.SkippedAreStuck` | src/ldk/sweep.ts:302-305 | the skipped count is the number of descriptors in entries that do not decode |
| `Sweep.ScanDescriptors` | src/ldk/sweep.ts:264-299 | the inner loop computes the scan of one entry |
| `Sweep.Sweeper.BuildBatch` | src/ldk/sweep.ts:256-338 | the outer loop computes the plan and persists the pruned entries |
| `Sweep.Sweeper.Spend` | src/ldk/sweep.ts:357-466 | flags, store and result for each answer of the outside world |
| `Sweep.Sweeper.Finish` | src/ldk/sweep.ts:459-466 | swept entries are dropped before the flags are settled; a failed deletion throws |
| `Sweep.Sweeper.SweepSpendableOutputs` | src/ldk/sweep.ts:233-470 | store, flags and result of a pass; a second pass at the same time does nothing |
| `Sweep.BannerClearsOnlyWhenDone` | src/ldk/sweep.ts:361-465 | the pending flag clears exactly when nothing was skipped and no batch was left behind |
| `Sweep.AttributionsFollowKeys` | src/ldk/sweep.ts:313-337 | each attribution stands beside the key whose entry it describes and invents no outpoint |
| `CloseRecord.MergeCloseRecords` | src/ldk/close-records/close-record.ts:83-122 | the merge loops compute the field-wise merge |
| `CloseRecord.CollectTxs` | src/ldk/close-records/close-record.ts:84-98 | the two loops over transactions |
| `CloseRecord.AssociativeIff` | src/ldk/close-records/close-record.ts:83-122 | merging around a record is associative for all neighbours if and only if its repeated txids do not conflict |
| `CloseRecord.MergeAssociative` | src/ldk/close-records/close-record.ts:83-122 | associativity around a record whose repeated txids do not conflict |
| `CloseRecord.DistinctMergeAssociative` | src/ldk/close-records/close-record.ts:83-122 | associativity around every record with distinct txids |
| `CloseRecord.GatheringFirst` | src/ldk/close-records/close-record.ts:83-122 | merging records in one by one is merging them in at once after they were merged with each other |
| `CloseRecord.ConflictingDuplicatesBreakAssociativity` | src/ldk/close-records/close-record.ts:85-98 | a record whose repeated txids break it |
| `CloseRecord.MergeIdempotent` | src/ldk/close-records/close-record.ts:83-122 | merging a record with itself changes nothing when its txids are distinct |
| `CloseRecord.MergeKnowsBoth` | src/ldk/close-records/close-record.ts:83-122 | a merge knows every fact of both records |
| `CloseRecord.MergesKeepFacts` | src/ldk/close-records/close-record.ts:83-122 | along any sequence of merges txids stay, confirmation heights and completion never change once set, creation time never grows |
| `CloseRecord.CompleteDowngradesIff` | src/ldk/close-records/close-record.ts:59-62 | a complete record becomes resolved-unverified if and only if it has no resolution and an unverified one is merged in |
| `CloseRecord.CompleteCanDowngrade` | src/ldk/close-records/close-record.ts:100-104 | such a pair of records |
| `CloseRecord.VerifiedStaysComplete` | src/ldk/close-records/close-record.ts:100-104 | a verified record stays complete under any merges |
| `CloseFacts.MergesDecide` | src/ldk/close-records/close-record.ts:83-122 | along any sequence of merges each identifying fact, extra field, and role, fee and height of a transaction is that of the first record that has it; measurements, close type and initiator those of the last; creation time is the least, and verified wins |
| `CloseFacts.MapsDecided` | src/ldk/close-records/store.ts:80-85 | merged maps have the records of both, decided in that way where both have one |
| `CloseFacts.UpsertDecided` | src/ldk/close-records/store.ts:192-197 | upserted facts meet the record at hand in that way and touch no other |
| `CloseFacts.StatusSays` | src/ldk/close-records/close-record.ts:59-75 | the status shown, read off completion, resolution, sweeps and timelock |
| `CloseCompletion.EveryRunStaysPaired` | src/ldk/close-records/reconcile.ts:272-313 | when every recorded completion carries its resolution, as all the completions recorded here do, so does every record of every device and of the remote object in every run |
| `CloseCompletion.RemoteStaysCompleteIff` | src/ldk/close-records/close-record.ts:100-104 | what the remote object shows as complete stays complete in all runs, if and only if no fact is ever lost and every recorded completion carries its resolution |
| `CloseCompletion.MemoryStaysCompleteIff` | src/ldk/close-records/close-record.ts:100-104 | what a device shows as complete stays complete while its page keeps its memory, in all runs, if and only if every recorded completion carries its resolution |
| `CloseCompletion.CompletionOvertaken` | src/ldk/close-records/close-record.ts:59-62 | a whole run in which a completion without a resolution turns unverified, in memory and in the remote object |
| `CloseRecordSync.EveryRunKeepsInv` | src/ldk/close-records/store.ts:87-170 | the replication invariant over all runs of any number of devices, in every configuration of loads and faults |
| `CloseRecordSync.NothingLostIff` | src/ldk/close-records/store.ts:135-170 | no write of any device ever loses a fact of the remote object, in all runs, if and only if no page loads again while it holds a version or the remote read of a load always succeeds |
| `CloseRecordSync.HoldingAVersionMeansKnowing` | src/ldk/close-records/store.ts:98-113 | under that condition whoever holds the current version knows every fact of the remote object, except a page that is just loading again |
| `CloseRecordSync.NoWriteLosesAFact` | src/ldk/close-records/store.ts:87-120 | under that condition no later remote object lacks a fact that an earlier one had |
| `CloseRecordSync.ReloadingWithinAPageCanLose` | src/ldk/close-records/store.ts:137-163 | otherwise a whole run from unused devices, without any failed local read or write, in which a write erases another device's verified record |
| `CloseRecordStore.MergeMapInto` | src/ldk/close-records/store.ts:80-85 | the loop computes the merge of two maps |
| `CloseRecordStore.Store.UpsertCloseRecord` | src/ldk/close-records/store.ts:192-197 | the memory knows the new facts at once and loses none |
| `CloseRecordStore.Store.PersistLocked` | src/ldk/close-records/store.ts:87-120 | after a save the remote object knows all that memory knew; without faults only a second lost race fails |
| `CloseRecordStore.Store.FirstWrite` | src/ldk/close-records/store.ts:98-101 | a write at the held version, or the conflict path |
| `CloseRecordStore.Store.RewriteMerged` | src/ldk/close-records/store.ts:101-113 | fetch, merge and write again |
| `CloseRecordStore.Store.TakeRemote` | src/ldk/close-records/store.ts:102-111 | a version is adopted together with its facts |
| `CloseRecordStore.Store.WriteMerged` | src/ldk/close-records/store.ts:112-114 | the merged write |
| `CloseRecordStore.Store.PutAgain` | src/ldk/close-records/store.ts:113-118 | the second write at the adopted version, for every answer |
| `CloseRecordStore.Store.ReadLocal` | src/ldk/close-records/store.ts:138-145 | the local copy replaces memory unless it cannot be read, and the held version stays |
| `CloseRecordStore.Store.InitCloseRecords` | src/ldk/close-records/store.ts:135-170 | local facts first, then the remote ones with their version; a failed remote read leaves a held version as it is |
| `CloseRecordStore.Store.SeedFrom` | src/ldk/close-records/store.ts:149-160 | the merged seed and its local copy |
| `CloseRecordStore.Store.VersionMeansKnowing` | src/ldk/close-records/store.ts:98-113 | the replication theorem at this device |
| `SerialPersister.EveryRunKeepsInv` | src/ldk/storage/serial-persister.ts:43-103 | in every reachable state no signal is forgotten, at most one persist runs, and every run was paid for by a signal or a failure |
| `SerialPersister.StepKeepsInv` | src/ldk/storage/serial-persister.ts:56-95 | each synchronous stretch keeps that |
| `SerialPersister.BurstsDrainInTwoRuns` | src/ldk/storage/serial-persister.ts:67-90 | once signals stop two successful runs save them all |
| `SerialPersister.CallInTheGapWaits` | src/ldk/storage/serial-persister.ts:65-92 | a call between the loop's end and the finally callback starts no run; its work stays flagged for the next call |
| `SerialPersister.ServedIff` | src/ldk/storage/serial-persister.ts:56-95 | a call is served, however the machine goes on without a cancel or a failure, if and only if it is not made in that gap or everything is saved already |
| `SerialPersister.CallIsCovered` | src/ldk/storage/serial-persister.ts:56-95 | a call with work when idle starts the run that covers it; one during a run is covered by the next run at the latest |
| `SerialPersister.RunStartsIff` | src/ldk/storage/serial-persister.ts:56-95 | a run starts exactly by a call with work while none is in flight, or right after a success if more was flagged |
| `SerialPersister.FailureWaitsForTheNextCall` | src/ldk/storage/serial-persister.ts:78-92 | a failure ends the loop and is tried again by the next call, without new work |
| `SerialPersister.CancelStartsNothing` | src/ldk/storage/serial-persister.ts:99-101 | no run starts after cancel |
| `SerialPersister.Scheduler.Schedule` | src/ldk/storage/serial-persister.ts:56-95 | the closure variables after a call |
| `SerialPersister.Scheduler.RunLoop` | src/ldk/storage/serial-persister.ts:68-77 | the loop head |
| `SerialPersister.Scheduler.AfterPersist` | src/ldk/storage/serial-persister.ts:78-88 | after success loop again, after a failure latch the retry |
| `SerialPersister.Scheduler.FinallyCallback` | src/ldk/storage/serial-persister.ts:90-92 | the promise slot is freed |
| `SerialPersister.Scheduler.CancelRuns` | src/ldk/storage/serial-persister.ts:99-101 | the flag is set |
| `Bolt11.WordsToBuffer` | src/ldk/lsps2/bolt11-encoder.ts:175-192 | the exact big-endian concatenation padded with fewer than eight zero bits, although the accumulator wraps at 32 bits |
| `Bolt11.PacksUnique` | src/ldk/lsps2/bolt11-encoder.ts:175-192 | no other bytes satisfy that |
| `Bolt11.BytesSurviveWords` | src/ldk/lsps2/bolt11-encoder.ts:169-172 | bytes cut into words come back |
| `Bolt11.IntToWords` | src/ldk/lsps2/bolt11-encoder.ts:200-209 | the loop with its 32-bit operators |
| `Bolt11.IntWordsExactIff` | src/ldk/lsps2/bolt11-encoder.ts:200-209 | the words denote the integer if and only if it is below 2^31 |
| `Bolt11.TimestampExactIff` | src/ldk/lsps2/bolt11-encoder.ts:128-132 | the seven words denote a 35-bit timestamp exactly below 2^31 and in the top 2^31 |
| `Bolt11.AddTaggedField` | src/ldk/lsps2/bolt11-encoder.ts:154-164 | tag, 10-bit length and data appended, or the length refused |
| `Bolt11.FieldsSurvive` | src/ldk/lsps2/bolt11-encoder.ts:154-164 | a reader recovers every field in order |
| `Bolt11.BigintToBytes` | src/ldk/lsps2/bolt11-encoder.ts:244-252 | big-endian bytes of the value |
| `Bolt11.EncodeRouteHint` | src/ldk/lsps2/bolt11-encoder.ts:218-242 | the loop computes the hop bytes in words |
| `Bolt11.HopSurvives` | src/ldk/lsps2/bolt11-encoder.ts:221-240 | 51 bytes read back as the hop |
| `Bolt11.RouteSurvives` | src/ldk/lsps2/bolt11-encoder.ts:218-242 | words read back as the route |
| `Bolt11.BuildDataPart` | src/ldk/lsps2/bolt11-encoder.ts:125-152 | timestamp and all fields in order, or the first oversize field refused |
| `Bolt11.DataPartReadsBack` | src/ldk/lsps2/bolt11-encoder.ts:125-152 | a reader recovers the timestamp below 2^31, every fixed field and every route |
| `Bolt11.HrpSaysAmount` | src/ldk/lsps2/bolt11-encoder.ts:93-121 | the prefix denotes exactly the amount in millisatoshis, and is bare exactly when there is none |
| `Bolt11.ScidUnpacks` | src/ldk/lsps2/bolt11-encoder.ts:257-268 | the packed id splits into its parts, and out-of-range parts are refused |

## Left out

- JSON, wire and backup decoding: states, messages and records arrive as typed values; the shape checks of `validateState`, `validate` and the codec of close records are not modelled.
- LDK, BDK, signing, hashing, bech32, fetch, IndexedDB, VSS transport and timers: their answers are parameters.
- Floating-point dollars: amounts are integer nano-dollars, the 1e-9 tolerance is one unit, and rounding a target to cents is exact.
- Display state: status texts, notices, listeners, snapshots, the busy flag and the sorting of close-record snapshots.
- Interleavings inside one serialised operation of the client: between its awaits the surroundings may change and the page may crash, but `stop` and price refreshes wait their turn.
- A failed local write while loading a backup: loading then throws and nothing starts.
- Another wallet taking over the same backup: the model's server is written by this client only, apart from close records.
- Price consensus and price feeds: only the accepted price range is used.
- Listing and sorting of wallet coins, address reveal and the set of outpoints spent by earlier sweeps: coins are given, sorted where a lemma says so.
- Which previous transaction belongs to which splice input, and fetching the foreign ones: the list, or a failure to fetch it, is given.
- `splicePsbt` and `trackFundingTransaction`: they build a PSBT for the wallet and inform it, and decide nothing.
- The funding-outpoint map of the close-record store and reconciliation against chain data.
- Splitting a short channel id at its separators, UTF-8 of descriptions, and the invoice signature: parts and bytes are given.
- The second and third fee checks of a sweep, which compare the PSBT's own fee with the computed one: the model proves that they agree.
- CloseRecordStore.Store.Await: says only that other devices made legal steps and that no fact left memory.
