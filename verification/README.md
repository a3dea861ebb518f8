# THBC settlement: a verified model

THBC is a fiat-backed token. This project models its payment leg and proves what holds of it:

- **The ledger** (`Ledger`, `SimulatedLedgers`): supply, balances, escrows, nullifiers, inventory and attestation. Each
  call is an atomic transition on a `Treasury` value; the in-place `SimulatedLedger` class, which writes some fields before
  its last checked operation, is proved to be that transition by means of conservation.
- **The stores** (`Repositories`, `Postgres`): in-memory whole-row maps with checked folds, and the SQL tables with
  partial-column updates, signed columns, re-normalised reads, CHECK constraints and filters.
- **The services** (`Issuance`, `OffRamps`, `ReserveServices`): the step-by-step methods, each proved equal to a
  specification function over ledger and rows.
- **Sequential runs** (`PaymentLeg`, `SequentialTheorems`): each service call is one step and both clocks move together.
  Records and ledger agree exactly, and F2, F3, F4 and F7 follow for every run.
- **What each call does** (`LedgerEffects`, `ServiceEffects`): every figure a call moves and every one it leaves, and each
  refusal with its reason, stated in integers and literals and not through the specification functions.
- **Interleaved runs** (`Interleaving` and its companions): each port call is one step; any number of calls are in flight
  with stale copies; a call may die between any two steps; the ledger may answer `Submitted` whether or not the effect
  landed, `Failed`, or the `Confirmed` it recorded when the same request landed before; its clock and attestation move on
  their own; and the reconciler's four reads are four steps. `InterleavingOperations` ties the two kinds of run
  together: a call run on its own is the sequential one. `PostgresRuns` puts the tables under these runs.
- **The exchange** (`Exchange`): two truncating quotes with fees, and sequences of trades at one rate.
- **Keys and replies** (`BankRefs`, `BankRefVariants`, `ChainBridge`): normal forms, which texts are one reference, hexadecimal, idempotency keys, reply mapping.

`SHA256` is a constant function about which nothing is assumed; no theorem needs it to be collision-free, since everything
is keyed by the digest. Compliance is an arbitrary answer supplied with each call. Machine integers are subset types with
their overflow, wrap-around and saturation written out.

Where the code and its documentation differ, the model follows the code:

- The payout barrier is documented as keeping fiat behind a confirmed burn (`crates/thbc-logic/src/redemption.rs:116-131`,
  `migrations/20260729000001_init_thbc.sql:79-85`). What the code requires is a confirmed *escrow*; the burn comes later, and
  a queued payout can still be reclaimed. `WireFollowsEscrow` states what holds. In sequence the wire can precede the
  return (`WiredTokens`, `WireOutlivesReclaim`); with overlapping calls or a lost reply it can also follow it
  (`WiredAfterReturn`, `LostReturnThenWired`), in exactly the states that `PayoutWiresReturnedExactly` gives.
- `confirm` is described as recording a burn. It burns before it consults the row, so a `Requested` row whose escrow reply
  was lost is burned and the call then fails; `ConfirmRecordsExactly` gives the exact condition.
- "Issued implies screened" holds of service runs, which never open a dispute. Of the bare deposit machine it holds exactly
  when the first accepted step is not a dispute (`IssuedWasScreenedExactly`), and it does fail (`DisputeSkipsTheScreen`).
- Enqueuing is documented as idempotent so that a payout may be retried (`crates/thbc-logic/src/redemption.rs:127-129`). The retry
  is refused, because the row already says `PayoutQueued`; `QueuedWireExactly` and `CrashedPayoutIsNeverWired` say exactly
  when the wire can still come.
- A deposit left in `Attested` is documented as resolved by the reconciler (`crates/thbc-logic/src/issuance.rs:180-182`).
  The reconciler writes no row, and nothing else takes up such a row: `RecordPossibleExactly` says exactly when the mint can
  still be recorded, `LostMintStaysUnrecorded` what is left otherwise.
- The reconciler is documented as comparing records with the ledger. Its totals and its snapshot are read at different
  times, so that its drift is the gap only when what changed in between cancels out: `ReportedDrift`, `ReportsMislead`.
- The service's delta is configurable while the simulated ledger's is fixed at a day; with a shorter service delta the
  sweep lists redemptions that the ledger refuses (`ShortDeltaListsTooEarly`, `SweptTooEarly`).

## Model

| member | source | states |
|---|---|---|
| InterleavingTheorems.SupplyGap | crates/thbc-core/src/reconcile.rs:90-119 | F2 under every interleaving, crash and lost or refused ledger reply: supply minus (issued rows minus confirmed rows) equals the minted amounts whose row is not `Issued` minus the burned amounts whose row is not `Confirmed`, in integers |
| InterleavingReports.ReportedDrift | crates/thbc-logic/src/reserve.rs:217-254 | every report recorded in any interleaved run comes from four reads in order; its drift is the gap at the snapshot, plus what became `Issued` since the issued total was read, minus what became `Confirmed` since the redeemed total was read, and it is the gap exactly when those two are equal; its other figures are those of the snapshot and of the backing read |
| InterleavingTornReads.TornReadInventsDrift | crates/thbc-logic/src/reserve.rs:217-254 | from any reachable state with an admissible held deposit, one retry completing after the issued total was read is reported as drift of its amount that is not there |
| InterleavingTornReads.TornReadHidesAGap | crates/thbc-logic/src/reserve.rs:217-254 | and a stale save after that read hides the gap it opens |
| InterleavingTornReads.QuietReport | crates/thbc-logic/src/reserve.rs:217-254 | with nothing between its reads the reconciler reports the gap there is |
| InterleavingWitness.ReportsMislead | crates/thbc-logic/src/reserve.rs:217-254 | concrete runs from a new system: drift 1 reported with nothing unrecorded, drift 0 reported with a mint unrecorded |
| InterleavingGaps.MintGapExactly | crates/thbc-logic/src/issuance.rs:140-190 | after one event a mint is unrecorded exactly if the event landed it, or saved a copy from before it over `Issued`, or it was unrecorded and the event did not save it as issued |
| InterleavingGaps.BurnGapExactly | crates/thbc-logic/src/redemption.rs:131-209 | the twin for burns: a landed burn, or a save of an unconfirmed copy over `Confirmed` |
| InterleavingGaps.MintGapOfRun | crates/thbc-logic/src/issuance.rs:93-276 | at the end of any run a mint is unrecorded exactly if some event opened its gap and no later event saved it as issued |
| InterleavingGaps.BurnGapOfRun | crates/thbc-logic/src/redemption.rs:131-209 | the same for burns |
| InterleavingGaps.ReturnGapExactly | crates/thbc-logic/src/redemption.rs:181-209 | the twin for returns: a landed return, or a save of an unreclaimed copy over `Reclaimed` |
| InterleavingGaps.ReturnGapOfRun | crates/thbc-logic/src/redemption.rs:181-209 | the same for returns over whole runs |
| InterleavingGaps.SavedRunsDoNotDrift | crates/thbc-core/src/reconcile.rs:90-119 | runs without stale saves whose landed effects are later saved end with nothing unrecorded and supply = issued - confirmed |
| InterleavingOrderly.OrderlyRunsDoNotDrift | crates/thbc-core/src/reconcile.rs:90-119 | if calls holding copies of one row never overlap, the ledger answers promptly and no call dies between an answer and its save, a run at rest has no unrecorded mint, burn or return, and supply = issued - confirmed |
| InterleavingReturns.WiredAfterReturn | crates/thbc-logic/src/redemption.rs:131-209 | from any reachable state with an escrowed redemption that service and ledger would let its holder reclaim, a payout overlapping the reclaim wires the returned tokens and leaves the row `PayoutQueued` |
| InterleavingReturns.LostReturnThenWired | crates/thbc-logic/src/redemption.rs:131-209 | a reclaim whose reply is lost, followed by a payout, ends the same way with nothing overlapping |
| InterleavingReturns.PayoutWiresReturnedExactly | crates/thbc-logic/src/redemption.rs:131-150 | a payout that runs on its own wires returned tokens exactly when the row says `Escrowed` and the return has landed |
| InterleavingWitness.ReturnedIsWired | crates/thbc-logic/src/redemption.rs:131-209 | concrete runs from a new system in which returned tokens are wired both ways |
| InterleavingPhases.EveryKeyIsPhased | crates/thbc-core/src/redemption.rs:137-218 | in every interleaved state: one request per row, in flight only while the row says `Requested` and nothing else acts on it; an `Escrowed` row is not wired and no wire is on its way |
| InterleavingDepositPhases.EveryDepositIsPhased | crates/thbc-core/src/deposit.rs:143-200 | in every interleaved state: one screening per row, in flight only while the row says `Observed`; before `Attested` nothing is minted or being minted; no row is disputed |
| InterleavingDepositPhases.MintedIsAttestedOrIssued | crates/thbc-logic/src/issuance.rs:140-190 | a deposit that was minted for says `Attested` or `Issued`, so a mint is unrecorded exactly when its row says `Attested` |
| InterleavingFutures.WirePossibleExactly | crates/thbc-logic/src/redemption.rs:131-150 | a recorded redemption whose escrow is not still being asked for can be wired in some continuation exactly if it is wired, its row says `Escrowed`, or a call in flight is saving the confirmed escrow, saving the payout or sending the wire |
| InterleavingFutures.QueuedWireExactly | crates/thbc-logic/src/redemption.rs:131-150 | a queued payout can still be wired exactly if it is, or a call in flight is saving the payout or sending the wire |
| InterleavingFutures.EscrowedCanBeWired | crates/thbc-logic/src/redemption.rs:131-150 | from an `Escrowed` row a wire is always still possible |
| InterleavingFutures.GrantableCanBeWired | crates/thbc-logic/src/redemption.rs:87-114 | so it is while the escrow is being asked for and the ledger would grant it |
| InterleavingFutures.LostWireStaysLost | crates/thbc-logic/src/redemption.rs:131-150 | in every continuation of a state with none of these the redemption is never wired |
| InterleavingFutures.CrashedPayoutIsNeverWired | crates/thbc-logic/src/redemption.rs:131-150 | after a payout dies between saving and enqueuing, its wire can still come exactly if another call was already on its way to it; no retry brings it |
| InterleavingFutures.RecordPossibleExactly | crates/thbc-logic/src/issuance.rs:163-190 | an unrecorded mint with no copy waiting at the ceiling can be recorded in some continuation exactly if a call in flight is saving the attestation, asking for the mint or saving the issuance; and exactly then its row can change at all |
| InterleavingFutures.AbandonedForever | crates/thbc-logic/src/issuance.rs:163-190 | a row that is not `Screened` and that no call works on never changes again, and nothing is minted for it again |
| InterleavingFutures.LostMintStaysUnrecorded | crates/thbc-logic/src/issuance.rs:163-190 | so a mint whose reply was lost, and whose call is over, stays unrecorded in every continuation |
| InterleavingWitness.LossesHappen | crates/thbc-logic/src/redemption.rs:131-150 | concrete runs from a new system into both of those states |
| InterleavingTheorems.RecordsAreTrue | crates/thbc-logic/src/issuance.rs:93-190 | every `Issued` row was minted for its amount, every `Confirmed` row burned, every `Reclaimed` row returned, every row past the escrow escrowed, each for its amount |
| InterleavingTheorems.EffectsAtMostOnce | crates/thbc-ledger/src/simulated.rs:199-313 | over a whole interleaved run a nullifier is minted at most once; a (user, seq) is escrowed, burned, returned and wired at most once each, never both burned and returned, always after its escrow and for the recorded amount |
| InterleavingWallets.MintsPayTheirDeposits | crates/thbc-logic/src/issuance.rs:140-190 | over a whole interleaved run every mint is for a recorded deposit: its amount, to its own beneficiary wallet |
| InterleavingTheorems.WireFollowsEscrow | crates/thbc-logic/src/redemption.rs:131-150 | F4 over all interleavings and crashes: each wire is the only one for its key, carries the redemption's amount, and comes after a landed escrow of that amount |
| InterleavingTheorems.SeqNumbersContiguous | crates/thbc-persistence/src/memory.rs:119-159 | however requests overlap, a user's recorded sequence numbers are exactly 1..n; zero appears only after 2^64 - 1 of them |
| InterleavingTheorems.NextSeqIsNew | crates/thbc-persistence/src/memory.rs:151-159 | `max + 1` can collide only when the user's last number is 2^64 - 1 |
| InterleavingTicks.StalePayoutHidesABurn | crates/thbc-logic/src/redemption.rs:131-150 | from any reachable state with an escrowed redemption, a payout overlapping a confirm overwrites `Confirmed` with `PayoutQueued` |
| InterleavingTicks.StaleRetryHidesAMint | crates/thbc-logic/src/issuance.rs:233-276 | from any reachable state with a held deposit that gate and ledger admit, two overlapping retries overwrite `Issued` with `Attested` |
| InterleavingTicks.ConfirmRecordsExactly | crates/thbc-logic/src/redemption.rs:154-175 | a `confirm` on a live escrow burns in any case; the burn goes unrecorded exactly when the row is not pending |
| InterleavingTicks.ConfirmAlone | crates/thbc-logic/src/redemption.rs:154-175 | a `confirm` of a pending row that nothing overlaps burns once and records it |
| InterleavingTicks.RetryAlone | crates/thbc-logic/src/issuance.rs:233-276 | a retry that nothing overlaps mints once and records it |
| InterleavingWitness.GapsOpen | crates/thbc-logic/src/redemption.rs:87-114 | concrete runs from a new system in which each of the three gaps opens |
| InterleavingSteps.HappenKeepsInv | crates/thbc-logic/src/issuance.rs:93-276 | every port call, crash, clock move and ledger-side call keeps the invariant of stores, log and stale copies |
| InterleavingSteps.RunKeepsInv | crates/thbc-logic/src/redemption.rs:87-209 | so does every finite run |
| InterleavingSteps.ReachableInv | crates/thbc-logic/src/redemption.rs:87-209 | every reachable interleaved state satisfies it |
| Interleaving.AppendKeepsLogInv | crates/thbc-ledger/src/simulated.rs:224-313 | an effect that is new and whose escrow has landed keeps the history free of clashes |
| Interleaving.TalliesAreTheLog | crates/thbc-ledger/src/simulated.rs:186-313 | the minted and moved totals list exactly the effects in the history |
| PaymentLeg.EveryRunIsGood | crates/thbc-ledger/src/simulated.rs:186-335 | after any sequential run with synchronised clocks: conservation, no `Attested` or `Disputed` deposit at rest, nullifiers = issued rows, chain encumbrance at most the repository total, escrow map = redemption rows, one wire per queued payout, supply = issued - confirmed |
| PaymentLeg.RunKeepsGood | crates/thbc-logic/src/issuance.rs:93-276 | the agreement of records and ledger is kept by every finite sequence of calls from any agreeing state |
| PaymentLeg.ApplyKeepsGood | crates/thbc-logic/src/redemption.rs:87-209 | and by every single call of the three services and the ledger's test helpers |
| PaymentLeg.LedgerAdmitsWhatTheServiceAdmits | crates/thbc-logic/src/issuance.rs:74-91 | in such a state whatever the service's ceiling admits the ledger also admits: nullifier new, encumbrance no greater, no overflow |
| PaymentLeg.TryIssueAllOrNothing | crates/thbc-logic/src/issuance.rs:140-190 | issuing a screened deposit either mints, credits the beneficiary's wallet alone and records `Issued`, or changes nothing at all |
| PaymentLeg.RequestAllOrNothing | crates/thbc-logic/src/redemption.rs:87-114 | a request is escrowed in full from the user's balance, or recorded as `Requested` with nothing moved |
| PaymentLeg.PayoutKeepsGood | crates/thbc-logic/src/redemption.rs:131-150 | a payout succeeds exactly on `Escrowed` rows and then appends one wire for the recorded amount; otherwise nothing changes |
| PaymentLeg.ConfirmExactly | crates/thbc-logic/src/redemption.rs:154-175 | `confirm` succeeds exactly on pending redemptions, burns their amount and records it; otherwise nothing changes |
| PaymentLeg.ReclaimExactly | crates/thbc-logic/src/redemption.rs:181-209 | F7: `reclaim` succeeds exactly past both timelocks; the holder alone is credited the amount, supply and inventory stay |
| SequentialTheorems.ReportExactly | crates/thbc-logic/src/reserve.rs:217-254 | the reconciler returns a report exactly when the issued and encumbered totals fit 64 bits; it then has drift 0 and the ledger's supply as the expected one, and every figure is the world's: free backing max(0, reserve - encumbered), shortfall max(0, supply - that), the clock |
| SequentialTheorems.NoRunEverDrifts | crates/thbc-logic/src/reserve.rs:217-254 | every report recorded in any sequential run has drift 0 |
| SequentialTheorems.QueueLengthsAgree | crates/thbc-ledger/src/simulated.rs:174-184 | the ledger's `redemption_queue_len` equals the repository's `pending_count` |
| SequentialTheorems.SweptCanBeReclaimed | crates/thbc-logic/src/redemption.rs:218-228 | F7: with a service delta of at least the ledger's day, whatever the sweep lists can be reclaimed at once on both sides |
| SequentialTheorems.ShortDeltaListsTooEarly | crates/thbc-ledger/src/simulated.rs:284-313 | whatever the delta, a listed redemption is reclaimed exactly if it is a day old; a younger one is refused by the ledger, with no effect |
| SequentialWitness.SweptTooEarly | crates/thbc-ledger/src/simulated.rs:284-313 | from a new world with a delta of one second: webhook, request, one second later the sweep lists what the ledger refuses |
| SequentialWitness.WiredAndReturned | crates/thbc-core/src/redemption.rs:202-218 | from a new world: webhook, request, payout, one day later the reclaim succeeds and the wire is still queued |
| SequentialTheorems.ReclaimableUntilClosed | crates/thbc-core/src/redemption.rs:187-218 | F7: once reclaimable, a redemption stays so through any later calls until confirmed or reclaimed |
| SequentialTheorems.ClosedStays | crates/thbc-core/src/redemption.rs:173-218 | a confirmed or reclaimed redemption never reopens |
| SequentialTheorems.WiredTokens | crates/thbc-core/src/redemption.rs:193-218 | after any sequential run, for a queued wire the tokens are in escrow, burned or back with the holder exactly as the row says `PayoutQueued`, `Confirmed` or `Reclaimed` |
| SequentialTheorems.WireOutlivesReclaim | crates/thbc-core/src/redemption.rs:202-218 | after any sequential run, a queued payout can be reclaimed once both timelocks are past, and its wire stays queued |
| SequentialTheorems.RetryAllIsMaximal | crates/thbc-logic/src/issuance.rs:205-228 | for any iteration order of held deposits: supply grows by exactly the deposits moved to `Issued`, the count is exact, and each deposit still held is stale or over the remaining headroom |
| SequentialTheorems.RetryAllWithoutTotal | crates/thbc-logic/src/issuance.rs:205-228 | when the encumbrance total does not fit, the sweep changes nothing |
| SequentialTheorems.ReplaysDoNotMatter | crates/thbc-logic/src/issuance.rs:109-128 | F3: deleting every replayed webhook from any sequential run leaves the final state unchanged |
| SequentialTheorems.ReplayIsQuiet | crates/thbc-logic/src/issuance.rs:109-128 | a replay changes nothing and its answer is a function of the stored row, whatever the new amount or wallet |
| ServiceEffects.FailedScreen | crates/thbc-logic/src/issuance.rs:133-146 | a new deposit that fails its screen: the row is the observed one marked `Encumbered`, the encumbrance total grows by exactly its amount, the ledger stays, the answer says encumbered |
| ServiceEffects.UnansweredScreen | crates/thbc-logic/src/issuance.rs:118-138 | a screen that is not answered leaves the row `Observed`, ledger and encumbrance as they were, and passes its error on |
| ServiceEffects.PassedScreen | crates/thbc-logic/src/issuance.rs:133-190 | a passed screen mints to the deposit's wallet and records `Issued` exactly when the attestation is fresh and supply + amount + encumbrance are within the reserve; otherwise the row rests in `Screened`, nothing moves and the answer says what refused |
| ServiceEffects.WebhookRefused | crates/thbc-core/src/deposit.rs:99-123 | a zero amount or a blank wallet is refused before anything is recorded |
| ServiceEffects.FailedScreenIsNeverMinted | crates/thbc-core/src/deposit.rs:143-151 | after a failed screen of a new deposit, no run of calls whatever mints under its digest or touches its row |
| InterleavingFutures.EncumberedIsNeverMinted | crates/thbc-core/src/deposit.rs:143-151 | the same in every continuation of a reachable interleaved state |
| ServiceEffects.ReplayExactly | crates/thbc-logic/src/issuance.rs:109-128 | what each stored state makes of a replay: already issued, encumbered with the stored amount, or held as incomplete |
| ServiceEffects.VariantIsReplay | crates/thbc-core/src/bank_ref.rs:25-42 | F3: once a webhook is recorded, one whose reference differs only in surrounding whitespace and ASCII case changes nothing at any later time |
| ServiceEffects.RetryExactly | crates/thbc-logic/src/issuance.rs:233-276 | a retry mints exactly screened rows that are admitted; for every other row it does nothing and says why |
| ServiceEffects.AdmittedExactly | crates/thbc-logic/src/issuance.rs:74-91 | the service's gate in figures: fresh, positive, and supply + amount + total encumbrance within the reserve |
| ServiceEffects.EffectiveExactly | crates/thbc-logic/src/issuance.rs:74-91 | each figure of the effective reserve, and the error exactly when the encumbrance total exceeds 64 bits |
| ServiceEffects.AttestExactly | crates/thbc-logic/src/reserve.rs:90-167 | an attestation succeeds exactly when the encumbrance total fits; it publishes the given reserve, the ledger's clock and that very total, and keeps time to live, supply and all else |
| ServiceEffects.AttestedGatesAgree | crates/thbc-logic/src/reserve.rs:90-167 | right after it, the ledger's gate and the service's gate admit the same screened deposits |
| ServiceEffects.PayoutAnswers | crates/thbc-logic/src/redemption.rs:131-150 | each refusal of a payout and its reason, with nothing changed |
| ServiceEffects.ConfirmAnswers | crates/thbc-logic/src/redemption.rs:154-175 | a confirm is refused by the ledger alone: burned already, or no such escrow |
| ServiceEffects.ReclaimAnswers | crates/thbc-logic/src/redemption.rs:181-209 | a reclaim is refused by the row, closed or too young, or by the ledger's own day, in that order |
| ServiceEffects.RequestRefused | crates/thbc-logic/src/redemption.rs:87-114 | a request for nothing, or under a taken number, does nothing |
| ServiceEffects.ReconcileExactly | crates/thbc-logic/src/reserve.rs:217-254 | in any state: the first total that does not fit, an underflow when more is redeemed than issued, or a report whose every figure is the rows' and the ledger's |
| ServiceEffects.ReconciliationTakesEffect | crates/thbc-logic/src/reserve.rs:217-254 | in a run the report is stored last in the history with all its figures and nothing else changes; without a report nothing does |
| InterleavingOperations.WebhookAlone | crates/thbc-logic/src/issuance.rs:93-190 | a webhook run on its own, port call by port call over the interleaved system, ends with the rows and the ledger of the sequential specification |
| InterleavingOperations.RetryAlone | crates/thbc-logic/src/issuance.rs:233-276 | the same for a retry |
| InterleavingOperations.RequestAlone | crates/thbc-logic/src/redemption.rs:87-114 | the same for a request |
| InterleavingOperations.PayoutAlone | crates/thbc-logic/src/redemption.rs:131-150 | the same for a payout, its wire included |
| InterleavingOperations.ConfirmAlone | crates/thbc-logic/src/redemption.rs:154-175 | the same for a confirm |
| InterleavingOperations.ReclaimAlone | crates/thbc-logic/src/redemption.rs:181-209 | the same for a reclaim |
| InterleavingOperations.ListingsAlone | crates/thbc-persistence/src/memory.rs:87-94 | the calls that only list or count ask the repository once, change nothing and are over |
| Adapters.EnqueueExactly | crates/thbc-logic/src/adapters.rs:152-166 | a wire is sent once per key: a second one changes nothing, whatever its amount |
| ServiceEffects.OnRampOpsTakeEffect | crates/thbc-logic/src/issuance.rs:93-276 | in a run a failed webhook grows the encumbrance, an admitted retry issues its deposit, an attestation publishes its figures |
| ServiceEffects.OffRampOpsTakeEffect | crates/thbc-logic/src/redemption.rs:131-209 | in a run a payout, a confirm and a reclaim that succeed leave the row, the wires, the supply and the balance as each says |
| ServiceEffects.RequestTakesEffect | crates/thbc-logic/src/redemption.rs:87-114 | in a run a request within the user's balance is escrowed under the next number |
| ServiceEffects.OtherOpsTakeEffect | crates/thbc-ledger/src/simulated.rs:113-165 | in a run funding, parameters and the clock take the values given |
| InterleavingChanges.LedgerMovesOnItsOwn | crates/thbc-ledger/src/simulated.rs:113-165 | between calls the ledger may attest, fund, and change clock, parameters and encumbrance, and nothing else; the rest of the system stays |
| LedgerEffects.IssueExactly | crates/thbc-ledger/src/simulated.rs:186-222 | a mint moves the supply, the wallet's balance and the nullifiers, and nothing else; each refusal with its reason |
| LedgerEffects.EscrowExactly | crates/thbc-ledger/src/simulated.rs:224-258 | an escrow leaves the user's balance alone of all, is stored unburned with the ledger's clock, and moves no supply |
| LedgerEffects.BurnExactly | crates/thbc-ledger/src/simulated.rs:260-282 | a burn leaves the supply, comes from no balance, and keeps the record, marked |
| LedgerEffects.ReturnExactly | crates/thbc-ledger/src/simulated.rs:284-313 | a return is refused before 86 400 seconds; it credits the holder alone and removes the record, the supply stays |
| LedgerEffects.AttestExactly | crates/thbc-ledger/src/simulated.rs:315-335 | which figures an attestation replaces and which it keeps |
| LedgerEffects.FundingExactly | crates/thbc-ledger/src/simulated.rs:113-150 | funding moves the amount from one balance into the THBC side, or adds to the GRX side; the other side stays |
| LedgerEffects.SnapshotExactly | crates/thbc-ledger/src/simulated.rs:174-184 | a snapshot shows reserve, inventory and parameters as they are, and the number of unburned escrows up to 2^32 - 1 |
| Ledger.EveryReachableTreasuryConserves | crates/thbc-ledger/src/simulated.rs:186-313 | in every reachable ledger state balances + unburned escrows + THBC inventory = supply, for any users and calls |
| Ledger.PerformConserves | crates/thbc-ledger/src/simulated.rs:113-335 | every ledger call keeps that sum |
| Ledger.RefusedChangesNothing | crates/thbc-ledger/src/simulated.rs:113-335 | a refused call leaves the treasury as it was |
| Ledger.IssueConserves | crates/thbc-ledger/src/simulated.rs:186-222 | `issue` conserves, and with conservation succeeds exactly when the nullifier is new and the gate admits the amount: the credit cannot overflow |
| Ledger.EscrowConserves | crates/thbc-ledger/src/simulated.rs:224-258 | `escrow_redemption` conserves: what leaves the balance is what the escrow holds |
| Ledger.BurnConserves | crates/thbc-ledger/src/simulated.rs:260-282 | `confirm_redemption` conserves and succeeds exactly on live escrows: the supply cannot underflow |
| Ledger.ReturnConserves | crates/thbc-ledger/src/simulated.rs:284-313 | `reclaim_redemption` conserves and succeeds exactly on live escrows a day old: the balance cannot overflow |
| Ledger.FundInventoryConserves | crates/thbc-ledger/src/simulated.rs:113-136 | `fund_inventory` conserves; the inventory addition cannot overflow |
| Ledger.BreachExactly | crates/thbc-ledger/src/simulated.rs:161-165 | from a solvent state a call breaches F1 exactly when it is a re-attestation or encumbrance write that drops free backing below supply |
| Ledger.FirstBreach | crates/thbc-ledger/src/simulated.rs:315-335 | in any ledger run the first insolvent state is reached by such a call |
| SimulatedLedgers.SimulatedLedger.Issue | crates/thbc-ledger/src/simulated.rs:186-222 | in place, nullifier inserted first and removed on refusal: same reply and state as the atomic transition, and an error leaves the treasury as it was |
| SimulatedLedgers.SimulatedLedger.FundInventory | crates/thbc-ledger/src/simulated.rs:113-136 | in place, balance written before the checked inventory addition: same reply and state as the atomic transition |
| SimulatedLedgers.SimulatedLedger.EscrowRedemption | crates/thbc-ledger/src/simulated.rs:224-258 | same reply and state as the atomic escrow |
| SimulatedLedgers.SimulatedLedger.ConfirmRedemption | crates/thbc-ledger/src/simulated.rs:260-282 | same reply and state as the atomic burn |
| SimulatedLedgers.SimulatedLedger.ReclaimRedemption | crates/thbc-ledger/src/simulated.rs:284-313 | same reply and state as the atomic return |
| SimulatedLedgers.SimulatedLedger.UpdateAttestation | crates/thbc-ledger/src/simulated.rs:315-335 | replaces reserve, stamp and encumbrance, keeps supply and time to live |
| SimulatedLedgers.SimulatedLedger.Snapshot | crates/thbc-ledger/src/simulated.rs:174-184 | reports the state and the number of unburned escrows, saturated to 32 bits |
| Issuance.IssuanceService.Handle | crates/thbc-logic/src/issuance.rs:93-190 | the step-by-step body over the repository and the in-place ledger equals the on-ramp transition and answer, whose cases `ServiceEffects` states one by one |
| Issuance.IssuanceService.Retry | crates/thbc-logic/src/issuance.rs:233-276 | the same for a single retry, refusing what is not held |
| Issuance.IssuanceService.RetryAllHeld | crates/thbc-logic/src/issuance.rs:205-228 | the loop over held deposits equals the fold of single retries, for the order the repository gave |
| Issuance.IssuanceService.ReadEffectiveReserve | crates/thbc-logic/src/issuance.rs:74-91 | the ledger's attestation and its supply, with the repository's encumbrance |
| OffRamps.RedemptionService.RequestRedeem | crates/thbc-logic/src/redemption.rs:87-114 | equals the specified request transition and answer |
| OffRamps.RedemptionService.Payout | crates/thbc-logic/src/redemption.rs:131-150 | equals the specified payout: the row is saved before the wire is enqueued |
| OffRamps.RedemptionService.ConfirmRedeem | crates/thbc-logic/src/redemption.rs:154-175 | equals the specified confirm: the burn comes before the record is consulted |
| OffRamps.RedemptionService.ReclaimRedeem | crates/thbc-logic/src/redemption.rs:181-209 | equals the specified reclaim: the record is consulted before the return |
| OffRamps.RedemptionService.SweepReclaimable | crates/thbc-logic/src/redemption.rs:218-228 | each reclaimable row once |
| ReserveServices.ReserveService.Attest | crates/thbc-logic/src/reserve.rs:90-167 | equals the specified attestation, whose figures `ServiceEffects.AttestExactly` states |
| ReserveServices.ReserveService.IsIssuanceOpen | crates/thbc-logic/src/reserve.rs:76-81 | open exactly when the attestation is fresh and headroom is positive |
| ReserveServices.ReconciliationService.Run | crates/thbc-logic/src/reserve.rs:217-254 | equals the specified report, whose figures `ServiceEffects.ReconcileExactly` states, and appends it to the history |
| Adapters.RecordingPayoutQueue.EnqueueWire | crates/thbc-logic/src/adapters.rs:152-166 | appends a wire for a new key, changes nothing for a known one |
| Repositories.InMemoryDepositRepo.Insert | crates/thbc-persistence/src/memory.rs:47-58 | stores a new digest, conflicts on a known one |
| Repositories.InMemoryDepositRepo.Update | crates/thbc-persistence/src/memory.rs:69-77 | replaces the whole row, or `NotFound` |
| Repositories.InMemoryRedemptionRepo.Insert | crates/thbc-persistence/src/memory.rs:119-130 | stores a new (user, seq), conflicts on a known one |
| Repositories.InMemoryRedemptionRepo.NextSeq | crates/thbc-persistence/src/memory.rs:151-159 | one past the user's greatest number, wrapping |
| Repositories.InMemoryRedemptionRepo.Reclaimable | crates/thbc-persistence/src/memory.rs:161-168 | each reclaimable row once |
| Repositories.TryTotal | crates/thbc-persistence/src/memory.rs:79-102 | the checked fold returns the exact sum, or overflow, in whatever order entries come |
| Repositories.CollectRows | crates/thbc-persistence/src/memory.rs:87-94 | lists each row of a filtered map exactly once |
| Repositories.ReductionsAreConfirmed | crates/thbc-core/src/redemption.rs:224-230 | folding `supply_reduction` over all rows is summing the confirmed ones |
| Deposits.UndisputedPath | crates/thbc-core/src/deposit.rs:143-200 | without disputes a deposit is where its accepted steps put it: `Issued` means screened, attested, issued, in order |
| Deposits.IssuedWasScreenedExactly | crates/thbc-core/src/deposit.rs:143-200 | an issued deposit passed the screen exactly if the first step it accepted was not a dispute |
| Deposits.DisputeSkipsTheScreen | crates/thbc-core/src/deposit.rs:156-183 | the bare machine can reach `Issued` with no screening, through a dispute |
| Deposits.TerminalStays | crates/thbc-core/src/deposit.rs:70-73 | a terminal deposit accepts no step |
| Redemptions.RunNeedsConfirmedEscrow | crates/thbc-core/src/redemption.rs:137-159 | over any run the rank never falls and anything past the escrow was stamped by a `Confirmed` reply |
| Redemptions.ReclaimExactly | crates/thbc-core/src/redemption.rs:205-218 | `reclaim` is admitted exactly when `is_reclaimable`, except for an unstamped pending row with a non-positive delta |
| Deposits.DepositRecord.Screen | crates/thbc-core/src/deposit.rs:143-149 | the field update equals the transition; a refusal leaves the record as it was |
| Redemptions.RedemptionRecord.Reclaim | crates/thbc-core/src/redemption.rs:205-218 | the field update equals the transition; a refusal leaves the record as it was |
| Redemptions.RedemptionRecord.ApplyEscrowOutcome | crates/thbc-core/src/redemption.rs:137-159 | the state and the stamp are set together, on `Confirmed` only |
| Reserve.CheckIssuanceExactly | crates/thbc-core/src/reserve.rs:148-166 | `check_issuance` succeeds exactly when the attestation is fresh and 0 < amount <= headroom, and returns the new supply |
| Reserve.FreshExactly | crates/thbc-core/src/reserve.rs:69-93 | freshness in unbounded integers: not in the future and within the time to live, ages saturating at `i64::MAX` |
| Reconciliation.VerdictsExactly | crates/thbc-core/src/reconcile.rs:79-140 | when each severity is reported; `assert_f2` passes exactly at zero drift; an error exactly when redeemed exceeds issued |
| Reconciliation.FiguresExactly | crates/thbc-core/src/reconcile.rs:90-140 | every figure of a report in unbounded integers: expected supply issued - redeemed, free backing max(0, reserve - encumbered), shortfall max(0, supply - free backing), insolvent exactly at a positive shortfall, stamped with the clock |
| LedgerEffects.NewTreasuryIs | crates/thbc-ledger/src/simulated.rs:64-90 | a new treasury in figures: nothing minted, held or escrowed, rate 4 000 000, fee 25, open |
| LedgerEffects.CallsAreOperations | crates/thbc-ledger/src/simulated.rs:113-335 | each call of a ledger run is the operation of its name |
| Reserve.GateExactly | crates/thbc-core/src/reserve.rs:148-166 | `check_issuance` in figures: each refusal with its payload, in order, and the new supply otherwise |
| Reserve.BackingExactly | crates/thbc-core/src/reserve.rs:125-141 | free backing, headroom and F1 in unbounded integers |
| Deposits.StepsExactly | crates/thbc-core/src/deposit.rs:130-206 | from which state each step leads to which, what else it changes, and what each refusal names |
| Deposits.ObservedExactly | crates/thbc-core/src/deposit.rs:99-123 | when an observation is refused, and every field of the row otherwise |
| Redemptions.StepsExactly | crates/thbc-core/src/redemption.rs:126-218 | the same for redemptions: the stamp is set by a confirmed escrow and by nothing else |
| Redemptions.RequestedExactly | crates/thbc-core/src/redemption.rs:105-124 | every field of a new redemption |
| Redemptions.ListedExactly | crates/thbc-core/src/redemption.rs:187-200 | which rows the sweep lists: pending, stamped, and as old as their delta, in unbounded integers |
| Deposits.StatesSpelled | crates/thbc-core/src/deposit.rs:58-67 | each state is written as its own word and no other |
| Redemptions.StatesSpelled | crates/thbc-core/src/redemption.rs:64-73 | the same for redemptions |
| Reconciliation.VerdictsSpelled | crates/thbc-core/src/reconcile.rs:70-77 | the same for verdicts |
| Reconciliation.ShortfallExample | crates/thbc-core/src/reconcile.rs:90-119 | an insolvent report written out as literals |
| OffRamps.OutcomesExactly | crates/thbc-logic/src/redemption.rs:87-114 | escrowed and failed requests are told apart from all others, which are pending |
| Adapters.StubScreenExactly | crates/thbc-logic/src/adapters.rs:86-100 | the stub passes up to and including its ceiling and fails above it |
| Repositories.SuccessorExactly | crates/thbc-persistence/src/memory.rs:151-159 | numbers start at one and grow by one; after the greatest comes zero |
| Repositories.RedemptionsSelected | crates/thbc-persistence/src/memory.rs:161-190 | which redemptions are counted as confirmed, pending or reclaimable, by state and age |
| Repositories.DepositsSelected | crates/thbc-persistence/src/memory.rs:79-102 | which deposits are counted as encumbered, issued or held, by state |
| Exchange.TradesGainFees | crates/thbc-core/src/exchange.rs:90-182 | over any chained sequence of buys and sells at one rate the inventory's value gains at least the fees and at most fees and dust |
| Exchange.NoTradingProfit | crates/thbc-core/src/exchange.rs:90-182 | no sequence of trades profits the user |
| Exchange.BuyGain | crates/thbc-core/src/exchange.rs:90-130 | a buy gains between 10^9 fee and 10^9 fee + 10^9, exclusive |
| Exchange.SellGain | crates/thbc-core/src/exchange.rs:137-182 | a sell gains between rate fee and rate fee + rate, exclusive |
| Exchange.BuyAcceptedExactly | crates/thbc-core/src/exchange.rs:90-130 | a buy is accepted exactly when the exchange is not paused, the rate is positive, the fee is at most 10 000 and the gross price fits 64 bits, the net price is positive and within the inventory, and the GRX side does not overflow; it pays the net price |
| Exchange.SellAcceptedExactly | crates/thbc-core/src/exchange.rs:137-182 | the same for a sell, its gross worth divided by the rate and its price within the GRX vault |
| Exchange.NetPriceMonotone | crates/thbc-core/src/exchange.rs:100-110 | the net price is monotone in the input |
| Exchange.SplitPurchase | crates/thbc-core/src/exchange.rs:100-110 | k accepted purchases chained through the inventory pay within k - 1 units of one purchase of the whole, either way |
| Exchange.SplittingBoundTight | crates/thbc-core/src/money.rs:88-96 | the bound is reached |
| Exchange.MulDivExactly | crates/thbc-core/src/money.rs:88-96 | the 128-bit intermediate never overflows; only the 64-bit result can |
| Exchange.BuyAnswers | crates/thbc-core/src/exchange.rs:90-130 | what an open exchange answers to a buy, in unbounded integers: price, fee and both sides of the inventory, or which refusal, in order |
| Exchange.SellAnswers | crates/thbc-core/src/exchange.rs:137-182 | the same for a sell |
| Exchange.QuoteInFigures | crates/thbc-core/src/exchange.rs:90-182 | one quote in each direction, written out as literals |
| Exchange.ClosedQuotesNothing | crates/thbc-core/src/exchange.rs:43-60 | a paused treasury, a zero rate and a fee above 10 000 are refused in both directions, in that order |
| Exchange.PausedTradesNothing | crates/thbc-core/src/exchange.rs:43-60 | whatever is tried while paused, the inventory stays where it is |
| BankRefVariants.VariantsExactly | crates/thbc-core/src/bank_ref.rs:36-42 | two raw texts give the same reference, or the same refusal, exactly when they differ in surrounding whitespace and in the case of ASCII letters alone |
| BankRefVariants.ReferenceText | crates/thbc-core/src/bank_ref.rs:36-42 | the text of a reference is what stands between the whitespace, letter by letter and in order, with no character of a..z in it |
| BankRefVariants.RefusedExactly | crates/thbc-core/src/bank_ref.rs:36-42 | a text is refused exactly when it is all whitespace |
| BankRefVariants.RetryVariants | crates/thbc-core/src/bank_ref.rs:25-30 | the variants of one reference written out as literals |
| BankRefs.NormaliseIdempotent | crates/thbc-core/src/bank_ref.rs:36-42 | normalising twice is normalising once |
| BankRefs.NewBankRefRoundTrip | crates/thbc-core/src/bank_ref.rs:36-42 | a stored reference reads back as itself |
| BankRefs.ToHexInjective | crates/thbc-core/src/bank_ref.rs:72-78 | the printed digest determines the bytes |
| BankRefs.ToHexReads | crates/thbc-core/src/bank_ref.rs:72-78 | the printed digest reads back as the bytes: two digits each, high one first, in 0-9 and a-f |
| ChainBridge.IssueKeyInjective | crates/thbc-ledger/src/chain_bridge.rs:503 | `issue:{hex}` determines the nullifier |
| ChainBridge.ConfirmKeyInjective | crates/thbc-ledger/src/chain_bridge.rs:550 | `confirmredeem:{user}:{seq}` determines (user, seq), colons in the user included |
| ChainBridge.KeysSpelled | crates/thbc-ledger/src/chain_bridge.rs:503-550 | the words and separators of both keys, in order |
| ChainBridge.DecimalReads | crates/thbc-ledger/src/chain_bridge.rs:550 | a sequence number is written in base ten and reads back as itself |
| ChainBridge.KeyFamiliesDisjoint | crates/thbc-ledger/src/chain_bridge.rs:503-550 | no issuance key is a confirmation key |
| ChainBridge.BridgeIsAnAnswer | crates/thbc-ledger/src/chain_bridge.rs:156-205 | a bridge that only claims what happened, whether its reply arrives, says pending, replays the outcome recorded under the key, or is lost, is one of the ledger answers of the interleaved model |
| ChainBridge.AnswerIsABridge | crates/thbc-ledger/src/chain_bridge.rs:156-205 | each of those answers is what such a bridge could give, except exactly the ledger's own refusal of a prompt request |
| PostgresRuns.PostgresRefinesMemory | crates/thbc-persistence/src/postgres.rs:106-375 | on every interleaved run whose figures stay in range, the services taking their answers from the tables get the answers of the maps, make the same calls and move ledger and queue alike, and the tables hold the same rows under every CHECK and the same reports |
| PostgresRuns.PgStep | crates/thbc-persistence/src/postgres.rs:106-375 | one event over the tables: the same answer as from the maps, and the two systems still mirror each other |
| PostgresRuns.CallsInRange | crates/thbc-persistence/src/postgres.rs:154-172 | every row copy a service writes back differs from the stored row only in the columns the UPDATE sets |
| PostgresAnswers.PostgresAnswersAsMemory | crates/thbc-persistence/src/postgres.rs:106-375 | one statement, any of thirteen: same answer (lists as sets), same rows afterwards, CHECKs kept |
| PostgresAnswers.UpdateDepositAgrees | crates/thbc-persistence/src/postgres.rs:154-172 | setting amount and state alone is replacing the row |
| PostgresAnswers.UpdateRedemptionAgrees | crates/thbc-persistence/src/postgres.rs:297-315 | setting state and stamp alone is replacing the row, and the `escrowed_at` CHECK admits it |
| PostgresAnswers.HeldAgrees | crates/thbc-persistence/src/postgres.rs:187-213 | the held query returns the screened rows, each decoded as stored |
| PostgresAnswers.DueAgrees | crates/thbc-persistence/src/postgres.rs:333-348 | in range, the sweep's WHERE clause lists what saturating ages list |
| PostgresAnswers.NextSeqAgrees | crates/thbc-persistence/src/postgres.rs:317-331 | `MAX(seq) + 1` is the in-memory next number |
| PostgresAnswers.DepositStoredExactly | crates/thbc-persistence/src/postgres.rs:107-152 | a new deposit is stored and reads back as itself exactly when 0 < amount < 2^63, its reference is normalised and its text has no U+0000 |
| PostgresAnswers.RedemptionStoredExactly | crates/thbc-persistence/src/postgres.rs:261-295 | the same for a redemption: amount, sequence number and delta positive and in range, proper text, and stamped when past the escrow |
| Postgres.ReportStoredExactly | crates/thbc-persistence/src/postgres.rs:474-501 | a report is recorded exactly when its drift and its amounts are in BIGINT range, and then reads back as itself; refused, it leaves the table alone |
| Postgres.UnhealthyAgrees | crates/thbc-persistence/src/postgres.rs:513-523 | the count of runs that are not `ok` is the in-memory one |
| Postgres.DepositRoundTrip | crates/thbc-persistence/src/postgres.rs:129-152 | a stored deposit row decodes to the deposit written, re-normalisation included |
| Postgres.RedemptionRoundTrip | crates/thbc-persistence/src/postgres.rs:242-257 | the same for redemptions |
| Postgres.RepresentedRowsCheck | migrations/20260729000001_init_thbc.sql:83-85 | rows that represent the in-memory maps satisfy the CHECK constraints |
| Postgres.SumRekey | crates/thbc-persistence/src/postgres.rs:174-185 | a sum does not depend on the keys or on the order |

## Left out

- HTTP routing, status mapping, the admin gate, configuration, start-up wiring, tracing, metrics and the timer loop around the reconciler: plumbing.
- NATS transport, envelope signing, account queries and URL credentials of the chain bridge; only its keys and reply mapping are modelled. Its `Unsupported` answers (escrow, reclaim, parts of the snapshot) appear as calls that stop, or not at all.
- The on-chain program, KYC and the bank rail: not part of this model.
- SHA-256 itself: an uninterpreted function.
- Error texts: `PortError` carries its kind and the domain cause, not the message. Text returned on a held deposit is dropped likewise.
- Mutex poisoning, serde formats, `Display` strings, `Thb::from_baht`, `TreasuryKeys`, `TreasuryService`, the invariant status table, `SystemClock` and `UnavailablePayoutQueue`: single branches or wrappers.
- sqlx execution, pooling and transaction isolation: each statement is one atomic table operation. `ORDER BY` is dropped: lists are compared as sets, and the history's newest-first listing, by `checked_at` in the table and by insertion in memory, is not compared. A CHECK violation, an aggregate or an age outside BIGINT, and a text parameter with U+0000 are all `Transient`.
- Postgres outside BIGINT range: `PostgresRefinesMemory` needs amounts, sums and sequence numbers to stay below 2^63, a positive delta, normalised references, text without U+0000 and reports whose figures fit; `DepositStoredExactly`, `RedemptionStoredExactly` and `ReportStoredExactly` say exactly which rows and reports fit. The sweep's `now - escrowed_at` fails as a query where the in-memory one saturates; `DueAgrees` covers the range where neither does.
- `MAX(seq) + 1` in memory wraps at 2^64 as release arithmetic does; with overflow checks on, the source panics there instead.
- `retry_all_held` under interleaving is its listing step followed by single retries, each its own call; the order in which one sweep makes them is not kept. Attestation by the service under interleaving is covered by arbitrary ledger-side attestations.
- `set_encumbered` occurs in ledger runs and in interleaved runs but not in sequential runs, where no service performs it.
- Disputes: no service opens one, so they appear in the deposit machine and in the encumbrance filters but not in service runs.
- InterleavingFutures.WirePossibleExactly: leaves open rows whose escrow is still being asked for and would be refused now, because whether a later answer grants it depends on balances that other deposits may raise; `GrantableCanBeWired` covers the rest.
- InterleavingFutures.RecordPossibleExactly: leaves open mints with a copy still waiting at the ceiling, because whether it passes depends on later attestations and burns.
- SequentialTheorems.ReportExactly: states F2 for runs where the reconciler returns a report, because the cumulative totals may leave 64 bits after many issue and burn cycles; the exact condition is part of its statement.
