# Payment-channel engine: a verified model

A Dafny model of the settlement engine of the storage client: the signed two-party
channel, multipath payments over it, hub forwarding with a durable vault of secrets,
the event-driven chain cache, the byte formats, and the stateful components around
them. Every file is one module; `dafny verify dfyconfig.toml` checks the project.

## How it is built

* **Values and hashes.** Digests are terms (`Symbols.Term`), so equal digests come from
  equal inputs; `Derivation` proves on bytes that the length-prefixed message in front of
  the real hash loses nothing. Authenticated encryption and signatures are ideal. The
  curve is any cyclic group given by its generator (`PointLocks.Group`). JSON is any
  lossless encoding, passed as a parameter. Money is unbounded except in `Splitting` and
  `SplitPlan`, where the 64-bit wrap-around is written out, in `HubLedger`, where a bound
  keeps it away (`HubLedger.BooksFit`), and in `Calldata`, where numbers are cut to 256 bits.
* **The channel.** `ChannelState` is the pure rule, `Protocol` the messages and the
  coordinator's single payment with every way its exchange can be cut short, `Agreement`
  what every reachable pair of records has in common. `MultipathPayment`, `-Safety`,
  `-Outcome`, `-Progress` and `-Executor` stand on it, and so do `Sweeps` and `Forwarder`.
* **Time and power.** A clock is a number given to each step. `Disk.File` keeps, next to
  what a restarted process reads, everything a power loss may leave instead. `Vault`,
  `Forwarding`, `NativeStore` and `Reconcile` use it, `StoreFaults` for the channel store
  and `MultipathExecutor` for a journal that is never flushed.
* **Concurrency.** `EventReaderRuns` and `Router` are machines whose steps are the critical
  sections of the source, taken by any threads in any order.

## Where the code does less than it says

Each point is a lemma of the project. The theorem beside it says when the code does meet
the property; "exactly" marks those that are if-and-only-if.

* The refund sweep's intent names the lock id alone, and ids are free again once their lock
  is gone (`Sweeps.RefundSweepMissesReusedId`, routing.go:313). The claim sweep's intent names
  the instance, and has the same fault when the identical lock is offered again
  (`Sweeps.ClaimSweepMissesReofferedLock`, `Forwarding.ReofferedLockLoses`; the comment at
  routing.go:236-256 describes the theft for ids only). Both sweeps resolve exactly the locks
  whose intent is unspent (`Sweeps.RefundExpired`, `Sweeps.SweepClaimable`). An own expired
  lock whose secret is in the vault is never swept back, though routing.go:272-277 says the
  value comes back; only the payee's settlement or the chain ends it (`Sweeps.RefundExpired`).
* Nothing in Forward stops two outgoing locks against one incoming one
  (`Forwarding.TwoForwardsLose`), and the incoming lock's terms are the caller's word
  (`Forwarder.MirrorsWhatWasDescribed`), even whose lock it is: a hub told that its own lock was
  offered to it forwards it, which the comment at routing.go:145-146 calls paying twice for
  nothing (`Forwarder.OwnLockCanBeForwarded`; exactly: `Forwarder.OwnLockExactly`). A sweep in
  time makes a hub whole exactly when it gave the value away once and the instance was not
  claimed before (`Forwarding.SweepMakesWhole`).
* The vault learns secrets only from proposals, so a downstream lock claimed on chain leaves
  the hub without the secret (`Forwarding.ChainClaimIsNotLearned`; exactly:
  `Forwarding.SweepAfterChainClaim`). A vault write that fails after its rename is taken for
  stored by the next process (`Forwarding.HalfStoredSecretIsLost`; exactly:
  `Forwarding.CrashExact`).
* A counter-signature whose write fails after the rename is answered as a refusal. If it is
  read back, the payer no longer waits for it and the channel moves on only by the same payment
  (`StoreFaults.OnlyTheSamePaymentHeals`; exactly: `StoreFaults.FollowsExactly`). If it is read
  back and then lost, the channel is out of step and a payment that never happened is recorded
  as done (`StoreFaults.UnflushedAcceptanceIsLost`; exactly: `StoreFaults.CrashExact`).
* The journal of a multipath payment is renamed into place and never flushed, and an executor
  without a directory writes none (multipath_exec.go:275-296). Legs can be locked with nothing
  recording them (`MultipathExecutor.LockedAndForgotten`); resuming finds the payment exactly
  when the journal is what the crash left (`MultipathExecutor.CrashThenResume`).
* A node that asked for a refund too early can no longer settle that lock at that nonce
  (`MultipathProgress.PrematureRefundBlocksSettlement`; exactly: `MultipathProgress.SettleExact`).
  A settlement outstanding, or signed and refused as late, keeps the refund from being signed
  (`MultipathProgress.LateSettlementBlocksRefund`; exactly: `MultipathProgress.UnwindExact`); the
  comment at multipath_exec.go:513-514 says that without the secret the locked legs are unwound.
* Two proposals that cross, one signed by each party at the same nonce, block the channel for
  good: no payment, recovery or late message co-signs anything any more
  (`MultipathProgress.CrossedForGood`; exactly: `MultipathProgress.ProposalsCross`). The comment
  at coordinator.go:432-436 says that recovery resolves a channel left mid-payment.
* A recipient that settles a fragment under an intent of its own is paid, and the payer's
  report never counts the fragment (`MultipathOutcome.SettledElsewhere`), so Complete can stay
  false with everything received. What counts is the intent (exactly:
  `MultipathOutcome.CountedByIntent`, `MultipathOutcome.CompleteExactly`), and the payer's own
  record shows what never will (`MultipathOutcome.CompleteUnlessOverlooked`).
* The follower saves its position block by block, so the cache forgets what a failed advance
  had already passed (exactly: `EventReaderRuns.FailedAdvanceForgets`); overlapping advances
  applied out of order serve old values (`EventReaderRuns.OverlappingAdvancesServeOld`;
  exactly: `EventReaderRuns.OutOfOrderExact`), and those applied in the order they walked do
  not (`EventReaderRuns.AnswersAreCurrent`).
* Two overlapping forwards of one guard are both accepted
  (`Router.OverlappingCallsBothAccepted`); calls that do not overlap never are
  (`Router.AcceptedOnce`). An expiry near 2^63 wraps inside the time it is turned into
  (`Router.WrappedExpiryIsAccepted`; exactly: `Router.ExpiryFalls`). MaxHTLCValue never changes
  an outcome: its test is implied by the one after it (`Router.MaxValueNeverMatters`).
* A channel file that cannot be read is skipped, and its id is handed out again
  (`NativeStore.SkippedFileIsReused`); a new id that was used before repeats nonces
  (`NativeStore.ReusedIdRepeatsNonces`), and others never do (`NativeStore.NoncesIncrease`). A
  temporary file left by a failed open is loaded as a channel
  (`NativeStore.FailedOpenComesBack`). A torn nullifier record hides the ones after it
  (`NativeStore.TornRecordForgets`; exactly: `NativeStore.SpentIsFoundAgain`). A close that could
  not be written is forgotten by a restart (exactly: `NativeStore.UnwrittenCloseIsForgotten`).
* Letting a channel out of quarantine without writing trusts a record that may still be lost
  (`Reconcile.UnflushedReleaseCanBeLost`; exactly: `Reconcile.AskExact`). The own-signature check
  that reconcile.go calls load-bearing is implied by the check of both parties exactly when this
  node is one of them (`Reconcile.UsableForParties`). Quarantine covers the channels of the backup
  and no others (`Reconcile.TrackedAfterwardsIsFree`).
* Point locks of hops that are not neighbours can coincide
  (`PointLocks.EntryAndExitCanCoincide`; exactly: `PointLocks.SameLock`); the comments say no two
  ever do.
* The bootstrap message is unambiguous for entries without newlines and not for others
  (`Bootstrap.MessageFixesDocument`, `Bootstrap.NewlineMovesAnEntry`).
* unevenSplit's product overflows for totals above 2^63/1000 (`Splitting.SplitCanBeWrong`,
  `Splitting.SplitIsRight`); Split's own Verify then refuses the plan exactly when a fragment
  is below the floor, and every plan it accepts sums exactly to its total (`SplitPlan.Split`,
  `SplitPlan.ReachFloorExact`). Verify itself adds modulo 2^64, so a plan made elsewhere can
  exceed its total (`SplitPlan.VerifyMissesAWholeTurn`; exactly: `SplitPlan.PaymentFromPlan`).
* Greedy selection is complete without the fault-domain rule, and with it as long as no two
  operators share a domain (`RouteSelection.SelectRoute`); otherwise it can miss a route
  (`RouteSelection.GreedyCanMissARoute`; exactly: `RouteSelection.EveryRankingFinds`).
* Hub balances are int64 and nothing checks a deposit against what is there
  (`HubLedger.DepositsWrap`); within the bound of `HubLedger.BooksFit` they are exact.

## Model

| member | source | states |
|---|---|---|
| ChannelState.ApplyKeepsWellFormed | internal/channel/transition.go:108-199 | every transition the rule allows leads from a state Accept takes to one Accept takes: balances stay non-negative, locks stay positive and dated, the deposits are conserved, and the nonce rises by one |
| ChannelState.ApplyTouchesOwnLock | internal/channel/transition.go:108-199 | a transition flips the presence of the lock it names and leaves every other pending lock exactly as it was |
| ChannelState.ProposerPays | internal/channel/transition.go:141-151 | a payment is allowed exactly when it is positive and covered by the proposer, and then moves the amount from the proposer to the other party and touches no lock |
| ChannelState.ProposerLocks | internal/channel/transition.go:154-174 | a lock goes on exactly under a free id, with a positive amount its proposer covers and a date, and only the proposer pays for it |
| ChannelState.ResolvedToItsParty | internal/channel/transition.go:175-199 | settling needs the preimage and pays whoever did not put the lock up, refunding pays whoever did, whoever proposes it |
| Agreement.HandleEffect | internal/channel/session.go:329-438 | a node handed a proposal either records it whole (state, intent, pruned ledger) or not at all, and only when it is its next nonce, under a new intent, and contradicts nothing it signed |
| Agreement.RejectsItsOwn | internal/channel/session.go:300-326 | a refusal drops the proposal it is about and no other |
| Agreement.PayInv | internal/channel/coordinator.go:225-323 | with store writes that succeed, one attempt to pay, with the request or the reply lost or both delivered, keeps the shared invariant: both records are states of one co-signed history and at most one is a state behind |
| Agreement.StepInv | internal/channel/coordinator.go:437-453 | recovery and a late proposal keep the same invariant |
| Agreement.HonestNodesAgree | internal/channel/session.go:151-240 | over every run of two honest nodes with losses, crashes, retries and late messages, and store writes that succeed: no conflict, deposits conserved on both sides, and the records are equal or one is ahead by exactly what the other has signed and not heard back about |
| Agreement.NobodyPaysUnasked | internal/channel/transition.go:141-199 | over every run no co-signed state leaves a party that did not propose it with less than it had |
| Agreement.SpendsOnlyItsOwn | internal/channel/transition.go:141-199 | at every point of the co-signed history a party still has its deposit less what it paid or locked under its own proposals |
| Agreement.StopsExactly | internal/channel/session.go:613-645 | a node told of its peer's state stops exactly when it differs from its own at the same nonce, and then drops what it waited for and nothing else |
| Agreement.StoppedRefuses | internal/channel/session.go:151-157 | a stopped node proposes nothing and refuses every proposal as conflicted, and the other party hears so |
| Agreement.StoppedForGood | internal/channel/session.go:151-157 | whatever either party does afterwards, the record of a stopped node never changes |
| Agreement.ForkEndsTheChannel | internal/channel/session.go:632-645 | recovering from a peer that holds another state at the same nonce ends the channel for this node through every later run |
| StoreFaults.FaultlessRun | internal/channel/store.go:317-334 | a run in which every store write succeeds is exactly a run of the protocol above |
| StoreFaults.FaultyNodesAgree | internal/channel/store.go:317-376 | over every run in which any store write of either node may fail before or after its rename and old proposals may be delivered again, with crashes whose restarts are steady: no conflict, deposits conserved, and the records are equal or one co-signed state apart, signed by the node that is behind |
| StoreFaults.CrashExact | internal/channel/store.go:89-132 | after any crash everything that run relies on holds again exactly when nothing a power loss may still leave is behind, or has forgotten a signature of, the record that was read back |
| StoreFaults.FollowsExactly | internal/channel/session.go:415-434 | after one exchange and a crash of the peer the payer still waits to hear of what the peer has, exactly unless the peer refused because its write failed after the rename and it came back with the new record |
| StoreFaults.OnlyTheSamePaymentHeals | internal/channel/session.go:212-217 | from there the same payment tried again brings both to the new state, and every payment to another state is refused by the payer itself |
| StoreFaults.UnflushedAcceptanceIsLost | internal/channel/session.go:600-618 | an acceptance read back before it was flushed is answered from the record and then lost with the power: the peer is behind a state it no longer knows it signed, and the next payment it tries is recorded as done without ever happening |
| MultipathPayment.BuildPayment | internal/channel/multipath_exec.go:154-200 | a payment is built exactly when every fragment is positive, expires in time, has its own channel and the fragments sum to the total; each leg carries its position, channel, amount and expiry and the intent, lock id and hash derived of them |
| MultipathPayment.FragmentHashIdentifies | internal/channel/multipath_exec.go:128-148 | a fragment's lock is opened by the preimage of one secret, payment, position, channel and amount only |
| MultipathPayment.LegIntentsDistinct | internal/channel/multipath_exec.go:333-338 | locking, settling and refunding one fragment never share an intent |
| MultipathSafety.RunLeg | internal/channel/multipath_exec.go:343-362 | over any run in which a fragment's locking and refunding are the payer's and anyone may settle its lock, the payer's record holds the locking and refunding intents exactly when its part of the history co-signed them, and the settling intent only when the lock was settled: always when every settlement is proposed under it, never when none is; the lock goes on at most once |
| MultipathSafety.LockLedger | internal/channel/multipath_exec.go:405-503 | additions minus settlements minus refunds is one exactly while the lock is pending with the fragment's terms, and what the recipient gained is the amount per settlement, whoever made it |
| MultipathSafety.OwnProposalsKept | internal/channel/multipath_exec.go:410-503 | what Lock, Settle and Refund propose respects the fragment they drive |
| MultipathSafety.OtherFragmentKept | internal/channel/multipath_exec.go:128-139 | what they propose for one fragment respects every fragment that differs in payment, position, channel or amount |
| MultipathOutcome.Summarise | internal/channel/multipath_exec.go:382-399 | the report lists the derived status of every leg, counts each leg in the one place it is in, and its amount is that of the legs the records confirm settled |
| MultipathOutcome.LegSafety | internal/channel/multipath_exec.go:343-362 | over every run of a channel, the recipient settling included: added at most once, settled or refunded at most once and never both, the recipient gains the amount exactly when settled, and the derived status claims only what was co-signed; a record that is up to date knows whether the lock was placed, refunded or is pending |
| MultipathOutcome.CountedByIntent | internal/channel/multipath_exec.go:343-362 | a lock settled under the fragment's settling intent, by whichever party, counts once the payer's record is up to date; in a run where it is only ever settled under others it counts at no point |
| MultipathOutcome.OverlookedForGood | internal/channel/multipath_exec.go:343-362 | once the payer's own record shows the lock gone, neither refunded nor counted, the recipient has been paid and the fragment never counts, whatever either party does later |
| MultipathOutcome.SettledElsewhere | internal/channel/multipath_exec.go:343-362 | when the recipient settles the lock under another intent it has the amount and the payer's record is up to date; settling the fragment under its own intent is refused, and it never counts as settled in any continuation |
| MultipathOutcome.PaymentSafety | internal/channel/multipath_exec.go:370-399 | over every run of every channel: confirmed amount <= received <= total, and Complete holds exactly when the recipient has all of the total and no settlement is missing from the payer's records |
| MultipathOutcome.OwnSettlementsHeard | internal/channel/multipath_exec.go:447-477 | settlements under the fragments' own intents, by whichever party, are all confirmed once the payer's records are up to date |
| MultipathOutcome.CompleteExactly | internal/channel/multipath_exec.go:370-399 | with records that are up to date, Complete holds exactly when the recipient has all of the total and every fragment was settled under its own intent |
| MultipathOutcome.CompleteUnlessOverlooked | internal/channel/multipath_exec.go:370-399 | whatever was tried under which intents, it holds exactly when the recipient has all of the total and no record shows a lock gone without being counted |
| MultipathProgress.ExchangeMoves | internal/channel/coordinator.go:225-323 | a repeated attempt completes the transition on both sides exactly when it is answered and the clocks still asked allow it; otherwise, whatever was lost or refused, the same attempt can be made again |
| MultipathProgress.AnyCrashPoint | internal/channel/multipath_exec.go:405-477 | after any number of interrupted lock and settle attempts, recoveries and late arrivals of what is outstanding, in any order and at any time, a fragment can still be driven |
| MultipathProgress.OpenDrivable | internal/channel/multipath_exec.go:410-440 | a newly opened channel with enough capacity is such a point |
| MultipathProgress.RestDrivable | internal/channel/multipath_exec.go:405-477 | a channel at rest, whatever traffic went over it, is such a point exactly when the lock is pending on it or there is room for it |
| MultipathProgress.ResumeSettles | internal/channel/multipath_exec.go:515-544 | from any such point one resume settles the fragment exactly when the peer answers and the clocks of whoever still has to sign allow it, the minimum window counting only while the lock is still to be placed; once settled, another resume over any network changes nothing |
| MultipathProgress.UnwindExact | internal/channel/multipath_exec.go:484-503 | without the secret, after expiry and with an answering peer, a locked fragment is refunded exactly when neither party has signed anything else for the next nonce, for every pair of records in step |
| MultipathProgress.UnwindHolding | internal/channel/multipath_exec.go:484-503 | of a fragment that only its own attempts touched: refunded exactly when no settlement is outstanding and none was signed and refused; otherwise refused locally with nothing moved |
| MultipathProgress.LateSettlementBlocksRefund | internal/channel/session.go:212-217 | a settlement lost, retried too late and refused leaves nothing outstanding, and the refund is refused as already signed |
| MultipathProgress.SettleExact | internal/channel/multipath_exec.go:447-477 | a locked fragment is settled exactly when neither party has signed anything else for the next nonce and the expiry is far enough ahead of whoever still has to sign |
| MultipathProgress.PrematureRefundBlocksSettlement | internal/channel/session.go:200-217 | a refund the peer refuses as early was still signed, and from then on every settlement of that lock at that nonce is refused by this node itself |
| MultipathProgress.ProposalsCross | internal/channel/session.go:200-240 | two requests lost on a channel at rest, one from each party, leave their states signed on both sides: crossed exactly when the states differ |
| MultipathProgress.CrossedForGood | internal/channel/coordinator.go:437-453 | from there no run of payments, recoveries and late arrivals ever moves either record on |
| MultipathExecutor.Executor.Lock | internal/channel/multipath_exec.go:410-440 | with a directory nothing moves unless the journal naming all the legs is written first, and without one no journal is ever written; then exactly the first legs are locked, each over its own channel |
| MultipathExecutor.JournalCanBeLost | internal/channel/multipath_exec.go:292-296 | the journal is never flushed, so a power loss may always leave a file nobody can resume from |
| MultipathExecutor.Executor.Settle | internal/channel/multipath_exec.go:447-477 | drives the settlement of every leg over its own channel and no other channel changes |
| MultipathExecutor.Executor.Refund | internal/channel/multipath_exec.go:484-503 | the same for refunds |
| MultipathExecutor.Executor.Resume | internal/channel/multipath_exec.go:515-544 | no readable journal, no effect; with the secret every leg is locked and settled, without it every leg is refunded, and the report is that of the records afterwards |
| MultipathExecutor.ResumeConfirms | internal/channel/multipath_exec.go:505-544 | resuming settles every leg exactly when each is settled already or its peer answers in time, and then confirms the whole amount |
| MultipathExecutor.UnwindConfirms | internal/channel/multipath_exec.go:505-544 | resuming without the secret, after every expiry and with answering peers, refunds exactly the locked legs of which no settlement was signed and leaves every other leg alone |
| MultipathExecutor.ResumeTwice | internal/channel/multipath_exec.go:505-544 | resuming again leaves every channel of the store as it is |
| MultipathExecutor.BuiltPaymentIsGood | internal/channel/multipath_exec.go:150-200 | a payment BuildPayment accepts meets what the safety and resume results ask of its legs |
| MultipathExecutor.CrashThenResume | internal/channel/multipath_exec.go:275-329 | a process locks any number of legs over any losses and is gone; resuming finds the payment exactly when its journal is what the crash left, and then completes it exactly when every leg is ready; otherwise nothing moves |
| MultipathExecutor.LockedAndForgotten | internal/channel/multipath_exec.go:275-296 | every leg locked, the power lost before the journal reached the disk: resuming finds nothing, and every lock stays in place |
| Vault.PreimageVault.Learn | internal/channel/preimages.go:106-126 | true only once the secret is on disk; otherwise memory is unchanged; nothing durable is ever given up |
| Vault.OpenPreimageVault | internal/channel/preimages.go:66-100 | a vault opens exactly when every entry opens its own key, and then holds exactly what was stored; it may be trusted exactly when no power loss can take an entry away |
| Disk.ReplaceDurable | internal/channel/preimages.go:150-186 | a replacement reported done is what every later crash leaves; a failed one leaves the new contents or a survivor of the old |
| Forwarder.ForwardPlacesOneLock | internal/channel/routing.go:138-177 | a forward reported done under a fresh intent put exactly one lock on the outgoing channel, with the incoming id, hash and amount, expiring the margin earlier and after now; a refusal before the exchange changes nothing |
| Forwarder.ForwardsExactly | internal/channel/routing.go:138-177 | an attempt is made exactly when both channels are adopted, the lock is said to be the other party's, its id is pending and now is before its expiry less the margin; each refusal has its own cause and moves nothing |
| Forwarder.ForwardEndsDone | internal/channel/routing.go:138-177 | over a channel at rest it ends done exactly when, besides, the peer answers and there is room and time for the lock |
| Forwarder.OwnLockExactly | internal/channel/routing.go:145-152 | the lock attempted against is the hub's own exactly when the caller misdescribed who put it up |
| Forwarder.OwnLockCanBeForwarded | internal/channel/routing.go:145-152 | a concrete own lock: refused when described truthfully, forwarded and done when not |
| Forwarder.MirrorsWhatWasDescribed | internal/channel/routing.go:138-177 | the outgoing lock mirrors the lock really pending upstream exactly when the caller described that lock: only its id is compared |
| Forwarder.ClaimCollects | internal/channel/routing.go:187-199 | a claim reported done took the lock off the incoming channel, with a secret that opens it, and paid the payee its amount |
| Forwarder.ClaimsExactly | internal/channel/routing.go:187-199 | a claim is attempted exactly with a secret for the hash and over an adopted channel, on that lock id with that secret |
| Forwarder.ClaimEndsDone | internal/channel/routing.go:187-199 | over a channel at rest it ends done exactly when, besides, the peer answers, the lock is pending, the secret opens it, and both clocks are before its expiry by the skew |
| Forwarding.NeverPaidForNothing | internal/channel/preimages.go:23-34 | in every reachable state, after crashes that read back only secrets safe on disk, a settled downstream lock has its secret on disk and its upstream lock was, when it was settled, collected or good for more than the margin |
| Forwarding.DownMovesExactly | internal/channel/session.go:442-494 | an outgoing lock is settled exactly with the secret and the skew to spare, claimed on chain before its expiry there, and returned once it is past by the skew |
| Forwarding.UpMovesExactly | internal/channel/session.go:442-494 | an incoming lock is forwarded while more than the margin is left, collected exactly with a known secret under an unspent instance with the skew to spare by both clocks, and lapses once expired |
| Forwarding.OffersExactly | internal/channel/transition.go:154-174 | a lock is offered exactly with a positive amount and under an id free on its channel |
| Forwarding.CrashExact | internal/channel/preimages.go:66-100 | after any crash the vault may be trusted exactly when every secret read back is safe on disk |
| Forwarding.SweepMakesWhole | internal/channel/routing.go:187-270 | a sweep before the margin has run down, even right after a crash and after other outgoing locks came back, collects the incoming lock exactly when that instance was not claimed before, and leaves the hub whole exactly when, besides, it gave the value away once |
| Forwarding.TwoForwardsLose | internal/channel/routing.go:138-177 | two forwards of one incoming lock, both paid, cost the hub the amount |
| Forwarding.ReofferedLockLoses | internal/channel/routing.go:207-270 | a lock collected once and offered again identically is forwarded and paid again, and never collected |
| Forwarding.SweepAfterChainClaim | internal/channel/routing.go:219-270 | of a downstream lock claimed on chain, a sweep in time collects upstream exactly when the secret was learned some other way and the instance was not claimed before |
| Forwarding.ChainClaimIsNotLearned | internal/channel/session.go:394-405 | the vault learns secrets from proposals only: a lock claimed on chain is paid and never collected |
| Forwarding.HalfStoredSecretIsLost | internal/channel/preimages.go:106-186 | a store that fails between rename and directory flush, a restart, and a power loss after paying lose the secret |
| Sweeps.DoneResolves | internal/channel/coordinator.go:239-323 | an attempt reported done under an unspent intent removed exactly its lock and paid exactly its amount; under a spent one it did nothing |
| Sweeps.AloneCollects | internal/channel/routing.go:219-329 | of one channel's tasks exactly those that end done under an unspent intent are carried out, whatever became of the tasks before them, and the others resolve nothing |
| Sweeps.RestExactly | internal/channel/routing.go:187-199 | over a channel at rest a resolution under an unused intent ends done exactly when the peer answers, the preimage opens the lock, and the clocks allow it |
| Sweeps.RestResolvesAll | internal/channel/routing.go:219-329 | then all tasks of the channel end done, one after the other, and it is at rest again |
| Sweeps.DriveAll | internal/channel/routing.go:219-329 | every channel ends as its own tasks leave it whatever happens on the others, with exactly one problem, in order, for each task not done; each channel lost exactly the locks of its tasks that ended done and gained exactly their value |
| Sweeps.ListTasks | internal/channel/routing.go:110-126 | walks every pending lock of every channel and lists each one the sweep takes up exactly once |
| Sweeps.SweepClaimable | internal/channel/routing.go:219-270 | each channel lost only offered locks with a known secret whose instance was never claimed, the hub holds exactly their value more, and every such lock left is noted as a problem; all of them went when no problem is reported, and on every channel at rest whose peer answers in time, whatever was reported about others |
| Sweeps.RefundExpired | internal/channel/routing.go:278-329 | the same of the long-expired own locks without a known secret whose id was never refunded before |
| Sweeps.ClaimIntentIsOneInstance | internal/channel/routing.go:207-211 | two offered locks share a claim intent exactly when channel, id, hash, amount and expiry are all equal |
| Sweeps.RefundSweepMissesReusedId | internal/channel/routing.go:306-326 | a second lock under an id swept back before stays pending while the sweep reports it done |
| Sweeps.ClaimSweepMissesReofferedLock | internal/channel/routing.go:207-270 | the identical lock offered again after a claim stays pending while the sweep reports it done |
| Derivation.Derive | internal/channel/note.go:111-125 | the loop feeds the keyed hash every part behind its 8-byte length |
| Derivation.MessageInjective | internal/channel/note.go:111-125 | no two lists of parts feed it the same bytes |
| Derivation.DeriveSeparates | internal/channel/note.go:109-125 | equal derivations mean equal domain and parts, or a collision of the keyed hash itself |
| Derivation.ClaimMessageIdentifies | internal/channel/routing.go:207-211 | the bytes hashed for a claim intent are equal exactly for equal channel, id, hash, expiry and size of amount |
| Derivation.ClaimMessageLayout | internal/channel/routing.go:207-211 | the bytes field by field: channel, id, hash, size of the amount and the 64-bit expiry, each behind its length |
| Derivation.ClaimIntentsDiffer | internal/channel/routing.go:207-211 | lock instances that differ in any field get different intents, unless the keyed hash collides |
| EventReader.ChainFollower.Advance | internal/ethproof/chainfollower.go:174-264 | processes blocks oldest first, hands over the channels they name in order, and saves its position after each, so a failure leaves it past the blocks handed over |
| EventReader.EventChainReader.Apply | internal/channel/eventreader.go:266-301 | drops exactly the touched channels, moves the head forward only, and stamps everything left with it; a failed outcome only closes the reader |
| EventReader.EventChainReader.Store | internal/channel/eventreader.go:225-237 | a finished read is kept exactly when no advance landed since it was issued |
| EventReader.EventChainReader.ReadChannel | internal/channel/eventreader.go:204-238 | alone, a read advances when due, answers from the cache, from the inner reader or not at all exactly as the source does; what it answers the contract held at some block not before the head, nothing is answered after a failed advance until one succeeds, and the cache stays coherent unless a failed advance passed a block naming a cached channel |
| EventReader.AdvanceKeepsCoherent | internal/channel/eventreader.go:241-309 | restamping untouched entries is sound, because a block that changes a channel names it |
| EventReaderRuns.ReadIsRemembered | internal/channel/eventreader.go:219-239 | a finished read is kept exactly when no advance overtook it, and the next read of the channel is then answered from memory |
| EventReaderRuns.EntryOutlives | internal/channel/eventreader.go:256-309 | an entry outlives an advance, and is served as of the new head, exactly when no block of it names the channel |
| EventReaderRuns.AnswersAreCurrent | internal/channel/eventreader.go:204-309 | over every interleaving of critical sections in which overlapping advances are applied in the order they walked and failures are harmless, every cached entry is stamped with the head and current, and every answer is the contract's at some block not before the head its call saw |
| EventReaderRuns.ClosedAfterFailure | internal/channel/eventreader.go:274-282 | after a failed advance no further call gets past ensureCurrent until one succeeds |
| EventReaderRuns.FailedAdvanceForgets | internal/ethproof/chainfollower.go:230-264 | after an advance that failed past some blocks, the next success serves the old cached value exactly when no later block names the channel |
| EventReaderRuns.OverlappingAdvancesServeOld | internal/channel/eventreader.go:256-301 | two overlapping advances applied out of order serve a value that the contract had changed for good, which is not current |
| EventReaderRuns.OutOfOrderExact | internal/channel/eventreader.go:256-301 | of two overlapping advances applied out of order, a cached channel is answered from the cache exactly when the later one did not name it, and the answer is the contract's at the head exactly when the blocks of the earlier one left the channel as it was |
| Abi.DecodeEncode | internal/channel/chainwriter.go:77-143 | a decoder that follows offsets recovers every argument of any list in order, lock numbers reduced modulo 2^256 |
| Abi.OffsetsAligned | internal/channel/chainwriter.go:101-111 | every offset is a multiple of 32, past the heads and in bounds, and the region it points at ends before the next begins |
| Abi.ReducedIsSame | internal/channel/chainwriter.go:128-143 | exactly the lock lists whose numbers fit in 256 bits come back unchanged |
| Calldata.AbiEncoder.Patch | internal/channel/chainwriter.go:108-111 | overwrites one reserved head word with the place of its value and leaves every other word alone |
| Calldata.AbiEncoder.EncodeBytes | internal/channel/chainwriter.go:116-123 | appends length, bytes and padding to the tail and returns where |
| Calldata.AbiEncoder.EncodeLocks | internal/channel/chainwriter.go:128-143 | appends the count and every lock in order to the tail and returns where |
| Calldata.CheckpointCalldata | internal/channel/chainwriter.go:149-179 | the call is the selector and the specified encoding of its nine arguments, or the error the source gives |
| Calldata.CloseCooperativeCalldata | internal/channel/chainwriter.go:182-204 | the same for the agreed close, which refuses unresolved locks |
| Calldata.DisputeCalldata | internal/channel/chainwriter.go:217-260 | the same for closeUnilateral and challenge, which refuse a state with a withdrawal |
| Calldata.ClaimLockCalldata | internal/channel/chainwriter.go:302-311 | the same for a claim, whose one dynamic argument stands between static ones |
| Calldata.ExpireLockCalldata | internal/channel/chainwriter.go:314-322 | the same for an expiry |
| Calldata.CheckpointRoundTrip | internal/channel/chainwriter.go:149-179 | the contract reads back the very state, locks and signatures exactly when every number is a 256-bit natural |
| Calldata.DisputeRoundTrip | internal/channel/chainwriter.go:217-243 | the same for disputes |
| Calldata.CooperativeRoundTrip | internal/channel/chainwriter.go:182-204 | the same for the agreed close, apart from withdrawals, which the call does not carry |
| Calldata.ClaimRoundTrip | internal/channel/chainwriter.go:302-311 | channel, secret, index and locks come back; the numbers exactly when they fit |
| Calldata.ExpireRoundTrip | internal/channel/chainwriter.go:314-322 | channel, index and locks come back; the numbers exactly when they fit |
| Onion.Permute | internal/channel/onion.go:122-137 | the in-place shuffle computes the permutation function of key and length |
| Onion.PermutationBijective | internal/channel/onion.go:122-137 | for every key and every length the shuffle maps hops one-to-one onto slots |
| Onion.PermutationIsDrawn | internal/channel/onion.go:122-137 | the running stream comes to one block of the iterated hash for every group of eight slots, and four bytes of its own for each slot |
| Onion.DrawsAreUnique | internal/channel/onion.go:122-137 | different draws give different orders, so the exchanging favours none |
| Onion.EveryOrderIsDrawn | internal/channel/onion.go:122-137 | every assignment of up to eight hops to slots is drawn by some stream |
| Onion.UnpadPadded | internal/channel/onion.go:173-192 | padding accepts exactly what fits, gives every slot the same length, and loses nothing |
| Onion.Build | internal/channel/onion.go:199-254 | refuses exactly in the source's cases with its errors; otherwise every hop's slot holds its own sealed instruction and the rest are filler of the same length |
| Onion.BuildsExactly | internal/channel/onion.go:199-228 | built exactly for one to three hops with a secret each, expiries falling strictly along the whole route and instructions of at most 1020 bytes; each refusal has its own cause |
| Onion.Peel | internal/channel/onion.go:262-289 | the scanning loop computes the result of the first slot that opens |
| Onion.EveryHopPeelsItsOwn | internal/channel/onion.go:199-289 | every hop of a built packet gets back exactly its own instruction and guard if and only if the hops' secrets are pairwise distinct |
| Onion.StrangersAreRefused | internal/channel/onion.go:262-289 | a secret of no hop on the route opens nothing |
| Onion.PeelYieldsAHolder | internal/channel/onion.go:262-289 | with secrets repeated, peeling still yields the instruction of some hop that holds the secret |
| Onion.ReplayUnderNewKeyRefused | internal/channel/onion.go:279-285 | slots replayed under another ephemeral key are refused by every hop that accepts them under their own |
| Onion.SizeSaysNothing | internal/channel/onion.go:292-302 | every built packet has the same size and equal slots, whatever the length of the route |
| PointLocks.BuildLocks | internal/channel/atomic.go:108-136 | each lock is the recipient's point plus the blindings from its hop to the exit, every blinding between 1 and the order |
| PointLocks.SettleRoute | internal/channel/atomic.go:179-190 | each hop's scalar is z plus the blindings from its hop to the exit, modulo the order |
| PointLocks.UnwindOpensEachLock | internal/channel/atomic.go:156-190 | the scalars open every lock exactly when z is the recipient's secret, and each lock has one scalar that opens it |
| PointLocks.SameLock | internal/channel/atomic.go:103-136 | two hops hold the same lock point exactly when the blindings between them sum to a multiple of the order |
| PointLocks.NeighboursDiffer | internal/channel/atomic.go:103-136 | neighbouring hops never hold the same lock point |
| PointLocks.EntryAndExitCanCoincide | internal/channel/atomic.go:103-136 | on a three-hop route entry and exit hold the same point exactly when the first two blindings sum to the order |
| NativeStore.Native.Pay | internal/channel/native.go:226-265 | moves value, signs and persists, and changes memory and hands out a proof only when the write is durable |
| NativeStore.PaysExactly | internal/channel/native.go:227-265 | a payment is proven exactly on a known open channel for a positive amount it covers that was written; the amount moves over, the nonce rises by one, and every refusal has its own cause |
| NativeStore.Native.Open | internal/channel/native.go:205-219 | a channel numbered by the count of channels, rolled back in memory when the write fails |
| NativeStore.Native.Close | internal/channel/native.go:278-287 | closing takes hold in memory even when the write fails |
| NativeStore.ClosedForGood | internal/channel/native.go:278-287 | once a close was reported, through crashes and restarts that read its file, no payment on the channel is ever proven again |
| NativeStore.UnwrittenCloseIsForgotten | internal/channel/native.go:278-287 | a close that could not be written holds until the restart, and after it exactly when what the disk kept is closed |
| NativeStore.Native.Spend | internal/channel/native.go:172-192 | reports a nullifier spent only once its record is flushed, and refuses a known one without writing |
| NativeStore.SpendsExactly | internal/channel/native.go:167-192 | a nullifier is refused exactly when it was reported spent, and reported spent exactly when it was new and its record was flushed whole |
| NativeStore.NoncesIncrease | internal/channel/native.go:226-265 | over every run of payments, failures at any step, crashes and restarts, a later proof for a channel has a higher nonce, provided no new channel gets the id of one with proofs handed out |
| NativeStore.DurableCoversProofs | internal/channel/native.go:132-165 | at every moment whatever a crash would leave of a channel carries a nonce no lower than any proof handed out, and balances that add up to its deposit |
| NativeStore.ReusedIdRepeatsNonces | internal/channel/native.go:205-219 | the condition is exact: opening over such an id makes the next proof repeat or undercut an old nonce |
| NativeStore.SkippedFileIsReused | internal/channel/native.go:93-110 | one channel file skipped while loading makes its id the next to be given out |
| NativeStore.FailedOpenComesBack | internal/channel/native.go:93-110 | an open that failed before its rename was reported as failed, and its temporary file brings the channel back on the next start, ready to pay |
| NativeStore.TidyRunsArePossible | internal/channel/native.go:205-219 | when no file is skipped and no write that opens a channel fails, ids are never reused |
| NativeStore.SpentStaysSpent | internal/channel/native.go:167-192 | as long as records are written whole, a nullifier once reported spent is refused in every later step across restarts |
| NativeStore.SpentIsFoundAgain | internal/channel/native.go:115-124 | after a restart an appended nullifier is found exactly when it was known, the file ended on a record boundary, or the left-over bytes complete it |
| NativeStore.TornRecordForgets | internal/channel/native.go:115-192 | after a write that stopped inside one record, the next nullifier is reported spent and unknown after a restart |
| Reconcile.BestIsHighest | internal/channel/reconcile.go:165-182 | the answer adopted is no lower than any usable candidate, and is what was held or the first such candidate of its nonce |
| Reconcile.UsableForParties | internal/channel/reconcile.go:203-224 | a candidate is usable exactly when it conserves the deposits, both parties signed it, and this node is one of them |
| Reconcile.LockedMore | internal/channel/state.go:405-414 | the value locked in a state is the sum of its pending amounts |
| Reconcile.AcceptsExactly | internal/channel/state.go:691-757 | a state may become the latest exactly when the channel is open, it is this channel's, shares out exactly the deposits with nothing negative and distinct live locks, both parties signed it as it stands, and it is newer or the first |
| Reconcile.LatestIsAlwaysSound | internal/channel/state.go:691-757 | over every run, with anything offered and any write lost, the latest state of every channel in memory and on disk is such a state or not signed by both |
| Reconcile.Store.Open | internal/channel/store.go:89-132 | with the marker every stored channel is held, and an empty store drops the marker |
| Reconcile.Store.Reconcile | internal/channel/reconcile.go:151-194 | asks every source, adopts the best through the acceptance rule, and lets the channel go only when that was written |
| Reconcile.Store.ClearReconcile | internal/channel/reconcile.go:119-133 | the marker goes with the last held channel only |
| Reconcile.LeavesOnlyReconciled | internal/channel/reconcile.go:151-194 | a channel leaves quarantine only by being asked about, with a nonce no lower than any usable candidate offered and a state it held or was offered |
| Reconcile.ReleasedExactly | internal/channel/reconcile.go:151-194 | a held channel asked about is let go exactly when nothing usable offered is newer, or the best of it may become the latest and is written; what it holds then is the best |
| Reconcile.ReconciledForGood | internal/channel/reconcile.go:151-194 | from then on, through every failed write, crash and restart, what is stored for it stays at least that high, when every release either wrote what it adopted or found nothing lower on disk |
| Reconcile.AskExact | internal/channel/reconcile.go:151-194 | asking keeps what every crash can leave at the level reached exactly when it writes, or finds nothing on disk lower than what was loaded |
| Reconcile.MarkerOutlivesQuarantine | internal/channel/reconcile.go:114-133 | while any channel is held a restart holds every stored channel again, whatever was written or lost |
| Reconcile.UnflushedReleaseCanBeLost | internal/channel/reconcile.go:182-194 | a run: the adopting write fails after its rename, the restarted node finds nothing newer and lets go, and a power loss leaves less than was offered with the marker gone |
| Router.Forwarder.Forward | internal/channel/router.go:116-188 | one call alone accepts exactly when the guard is new, a place is free, the hop has not expired, the margin fits and there is liquidity; it then records guard and lock, and otherwise changes only a counter |
| Router.HopsExactly | internal/channel/router.go:139-169 | between ordinary expiries a hop passes exactly when it has not expired, the packet outlives it by the margin or more, and there is liquidity; each refusal has its own cause |
| Router.GuardsExactly | internal/channel/router.go:121-136 | a guard passes exactly when it is new and fewer than MaxInFlight are in flight |
| Router.Forwarder.Resolve | internal/channel/router.go:195-199 | the lock goes and the guard stays |
| Router.Forwarder.ExpireStale | internal/channel/router.go:216-227 | keeps exactly the locks whose deadline is still ahead and counts the others |
| Router.InFlightBound | internal/channel/router.go:126-169 | over every interleaving with at most k overlapping calls, in-flight locks never exceed MaxInFlight + k - 1 and guards in flight have been seen |
| Router.AcceptedOnce | internal/channel/router.go:126-169 | when no two calls for one guard overlap, no guard is accepted twice ever, whatever was resolved or expired |
| Router.OverlappingCallsBothAccepted | internal/channel/router.go:126-169 | two overlapping calls with one guard are both accepted |
| Router.ExpiryFalls | internal/channel/router.go:142-187 | along any number of routers accepting after 1970 the expiry falls by at least the sum of their margins, exactly when the first did not read one that wrapped |
| Router.WrappedExpiryIsAccepted | internal/channel/router.go:139-151 | a packet expiry within 62135596800 seconds of 2^63 wraps to the distant past and still passes the margin check |
| HubLedger.Hub.Reserve | internal/channel/hub.go:126-159 | takes from reader and recipient together, or refuses with the source's error and changes nothing but a counter |
| HubLedger.ReservesExactly | internal/channel/hub.go:126-159 | taken exactly when positive, covered by the reader's balance and the recipient's capacity, and under a free condition; both go down by the amount and no one else's changes |
| HubLedger.RefusalsOfReserve | internal/channel/hub.go:126-152 | each refusal has its own cause, in the order they are looked at |
| HubLedger.Hub.Deliver | internal/channel/hub.go:167-179 | completes a reservation only with its secret |
| HubLedger.DeliversExactly | internal/channel/hub.go:167-179 | a held reservation is handed over exactly with the one secret its condition was made of; anything else is refused and changes nothing |
| HubLedger.NeverDelivered | internal/channel/hub.go:161-179 | over every run in which no operation brought its secret, nothing reserved under a condition is ever delivered |
| HubLedger.HeldUntilOpened | internal/channel/hub.go:161-200 | and it stays held, for the same parties and amount, unless it is cancelled |
| HubLedger.Hub.Cancel | internal/channel/hub.go:186-200 | returns a reservation to both sides |
| HubLedger.CancelUndoesReserve | internal/channel/hub.go:181-200 | cancelling right after reserving restores the books |
| HubLedger.Hub.InFlight | internal/channel/hub.go:220-228 | the loop sums every reservation once |
| HubLedger.FundsExactly | internal/channel/hub.go:99-119 | a deposit is taken exactly when positive and raises that reader only; a commitment is always taken |
| HubLedger.BooksBalance | internal/channel/hub.go:99-235 | after any operations every deposit is spendable, reserved or delivered, every commitment outbound, reserved or delivered, and no reader is overdrawn: nothing is the hub's |
| HubLedger.BooksFit | internal/channel/hub.go:99-235 | the books kept in 64 bits are the exact ones for every run in which what each reader deposited and each recipient was funded with fits in an int64 and no funding takes away more capacity than is there |
| HubLedger.DepositsWrap | internal/channel/hub.go:99-108 | one deposit past 2^63 turns a reader's balance negative |
| HubLedger.StaysSolvent | internal/channel/hub.go:111-119 | outbound capacity stays non-negative exactly when no funding call takes away more than is there |
| HubLedger.ResolvedOnce | internal/channel/hub.go:126-200 | over every run each reservation is delivered or cancelled at most once, and one that was not is still held |
| Splitting.UnevenSplit | internal/channel/multipath.go:178-221 | the loops compute the split that the drawn weights determine, in 64-bit arithmetic, and refuse exactly below the floors |
| Splitting.RemainderSmall | internal/channel/multipath.go:203-219 | the rounding remainder is at least zero and less than the number of fragments |
| Splitting.QuotientTruncates | internal/channel/multipath.go:203-209 | shares are divided toward zero: what is left has the sign of what was divided and is smaller than the divisor |
| Splitting.SplitIsRight | internal/channel/multipath.go:178-221 | when the part above the floors times 1000 fits in an int64, for every draw each fragment is at least the floor and they sum exactly to the total |
| Splitting.SplitCanBeWrong | internal/channel/multipath.go:203-209 | as soon as it does not fit, some draw leaves a fragment below the floor |
| SplitPlan.Verify | internal/channel/multipath.go:228-250 | accepts exactly the plans with two fragments or more, none below the floor, no operator twice anywhere, and a 64-bit sum equal to the total |
| SplitPlan.IndependentRoutes | internal/channel/multipath.go:147-170 | the loop keeps the greedy selection |
| SplitPlan.KeptAreIndependent | internal/channel/multipath.go:147-170 | kept routes are labelled throughout and no two share an operator |
| SplitPlan.KeptIsMaximal | internal/channel/multipath.go:142-170 | no route that was skipped could be added |
| SplitPlan.Split | internal/channel/multipath.go:92-140 | accepts exactly when there are two independent routes, the floors fit, no used route is empty, too long or repeats an operator, and every drawn fragment reaches the floor; an accepted plan is verified, carries the first usable routes in order, and sums exactly to its total |
| SplitPlan.ReachFloorExact | internal/channel/multipath.go:178-250 | a plan with the amounts of a split passes Verify exactly when its operators are distinct and every fragment reaches the floor, and its exact sum is then its total |
| SplitPlan.FloorsAreRight | internal/channel/multipath.go:178-221 | whatever wrapped on the way, a split whose fragments all reach the floor sums exactly to its total |
| SplitPlan.PaymentFromPlan | internal/channel/multipath_exec.go:581-618 | a payment is made exactly from verified plans whose legs BuildPayment accepts; every leg carries its fragment's amount over its channel and expires a window per hop and one more after now, by the deadline; the total is the plan's exactly when the sum fits in an int64, and always for a plan with the amounts of Split |
| SplitPlan.ExpiryExact | internal/channel/multipath_exec.go:596-606 | a leg expires one window for every hop of its route and one more after now, whatever wrapped on the way, as long as that fits in an int64 |
| SplitPlan.VerifyMissesAWholeTurn | internal/channel/multipath.go:228-250 | a plan whose exact sum is 2^64 above its total passes Verify |
| Scpp.DecodeState | internal/channel/scpp.go:233-301 | accepts exactly the wire states whose fields parse, with a known operation, no negative withdrawal and strictly sorted locks; otherwise the error is that of the first field or lock at fault |
| Scpp.StateRoundTrip | internal/channel/scpp.go:197-301 | an encoded state is accepted exactly when sorted with a known operation, then stands for its canonical form and nothing else, and is itself exactly when the operation is set and no withdrawal is negative |
| Scpp.SortedUnique | internal/channel/scpp.go:228-232 | two accepted states with the same locks list them identically |
| Scpp.LessIsNumeric | internal/channel/scpp.go:228-232 | the order of ids is that of the numbers their bytes denote |
| Scpp.TransitionRoundTrip | internal/channel/scpp.go:303-345 | every transition survives the wire, absent fields included |
| Scpp.Stream.WriteFrame | internal/channel/scpp.go:358-376 | appends one frame, or nothing when the message is too large |
| Scpp.Stream.ReadFrame | internal/channel/scpp.go:382-403 | takes one frame off the front, or fails as the source does |
| Scpp.FramesReadBack | internal/channel/scpp.go:355-403 | any sequence of written messages is read back in order, consuming exactly the bytes written |
| Scpp.TruncatedFrameIsRefused | internal/channel/scpp.go:382-403 | a frame cut short anywhere is never taken for a message |
| Text.ParseDecimalInt | internal/channel/store.go:473-490 | decimal amounts are read back |
| Text.ParsesExactly | internal/channel/store.go:473-490 | exactly the empty string and digits behind at most one sign are read as amounts |
| Text.ParseBytes32Hex | internal/channel/store.go:503-511 | 32 hex bytes are read back |
| Text.ParsesBytes32Exactly | internal/channel/store.go:503-511 | exactly 64 digits of either case are read as 32 bytes |
| Bootstrap.MessageFixesDocument | internal/bootstrap/bootstrap.go:200-221 | two newline-free documents have the same message exactly when expiry, key, both lists in order and length, and origin (absent being "-") agree |
| Bootstrap.NewlineMovesAnEntry | internal/bootstrap/bootstrap.go:206-221 | with a newline inside an entry two different documents share a message |
| RouteSelection.SelectRoute | internal/channel/route.go:90-179 | for every ranking a returned route has exactly the hops asked for, all usable, distinct operators and, if asked, distinct labelled domains, and is the greedy one; it refuses exactly when the greedy selection falls short, which without the domain rule, or when no two operators share a domain, means too few operators |
| RouteSelection.KeepsExactly | internal/channel/route.go:100-125 | filtering keeps exactly the named candidates of a named operator that are not avoided, have the capacity and success rate asked for, and speak the version asked for, if any |
| RouteSelection.TooFewMeansNone | internal/channel/route.go:127-139 | a refusal for too few operators means no valid route exists |
| RouteSelection.GreedyCanMissARoute | internal/channel/route.go:150-179 | with the domain rule the greedy pick can refuse although a valid route exists |
| RouteSelection.EveryRankingFinds | internal/channel/route.go:150-179 | every ranking finds a route exactly when every diverse selection that cannot be extended has the hops asked for |

## Left out

- ChannelState.ApplyKeepsWellFormed: covers pay and the three lock transitions, because a checkpoint changes the collateral on chain that conservation is measured against, and a cooperative close ends the channel there.
- ChannelState.ApplyTouchesOwnLock: covers the same four kinds; a close is refused while any lock is pending, and a checkpoint touches none.
- Operation domains and status changes in the two-party protocol.
- Agreement.PayInv: supposes that store writes succeed; `StoreFaults.FaultyNodesAgree` is what remains when they fail.
- Agreement.HonestNodesAgree: supposes the same, and that only a proposal still outstanding arrives late, because one that was refused and is delivered again leaves its sender waiting for nothing; `StoreFaults.FaultyNodesAgree` covers those as well.
- The multipath, sweep and forwarding results are about channels whose store writes succeed and whose network does not repeat refused proposals.
- Wrap-around of the 64-bit nonce, and of int64 amounts outside `Splitting`, `SplitPlan` and `HubLedger`.
- Channel adoption and chain reads inside Pay appear as "no peer"; the quarantine's refusal to sign is in `Reconcile` only.
- Signed-conflict messages between the parties; a node in conflict simply stops.
- HTTP, RPC, sockets, JSON text, file permissions, metrics, logging and history trimming.
- The recipient's signing side of a multipath payment: the recipient is any honest peer.
- Header and receipt authentication behind the follower: its blocks are taken as authenticated, and finalised blocks as never changing.
- Decoding of event data beyond the channel a log names: cached values always come from a chain read.
- The contract itself: that a block changing a channel names it is the hypothesis `EventReader.Emits`.
- The route score: any reordering of the candidates stands for it.
- Hiding, unlinkability and constant-time behaviour of packets and locks.
- The router's two counters are in `Router.Forwarder.Forward` and not in the concurrent machine.
- HubLedger.BooksBalance: the books are exact integers; `HubLedger.BooksFit` bounds the runs in which the int64 ones agree, and `HubLedger.DepositsWrap` goes past it. The event counters wrap at 2^64 in the source and not here.
- MultipathOutcome.CompleteExactly: is about runs in which each fragment's lock is settled under its own intent throughout or never under it; `MultipathOutcome.CompleteUnlessOverlooked` covers runs that mix them.
- MultipathProgress.AnyCrashPoint: between the attempts only recovery and late arrivals run; other traffic that brings the channel back to rest is `MultipathProgress.RestDrivable`, and traffic in flight is in `MultipathProgress.SettleExact`, `MultipathProgress.UnwindExact` and `MultipathProgress.CrossedForGood`.
- Calldata for settle, openChannel, deposit and approve: static words only.
- NativeStore.NoncesIncrease: holds under the condition that no new channel gets the id of one with proofs handed out, because the count-based id can repeat; `NativeStore.ReusedIdRepeatsNonces` shows the condition is needed.
- NativeStore.ClosedForGood: holds while restarts read the channel's file and its number is not given out again, for the reasons above.
- Forwarder.ForwardEndsDone: is about an outgoing channel at rest and an intent neither party has used.
- Onion.EveryOrderIsDrawn: is about up to eight hops, drawn from one block; a packet has three slots.
- Reconcile.LatestIsAlwaysSound: supposes that what the store holds at first and what is tracked from the chain is such a state, or not signed by both.
- NativeStore.SpentStaysSpent: holds for records written whole, because a torn record shifts the ones after it; `NativeStore.SpentIsFoundAgain` gives the exact condition.
- Forwarding.NeverPaidForNothing: holds for restarts that read back only secrets safe on disk, because of `Forwarding.HalfStoredSecretIsLost`; `Forwarding.CrashExact` shows the condition is needed, and a flushed directory entry is enough (`Forwarding.FlushedIsSafe`). Of locks claimed on chain it promises the margin and not the secret.
- StoreFaults.FaultyNodesAgree: holds for steady restarts, because of `StoreFaults.UnflushedAcceptanceIsLost`; `StoreFaults.CrashExact` shows the condition is needed, and a flushed directory entry is enough (`StoreFaults.FlushedIsSteady`).
- Reconcile.ReconciledForGood: holds for releases that are safe, because of `Reconcile.UnflushedReleaseCanBeLost`; `Reconcile.AskExact` shows the condition is needed, and a flushed directory entry is enough (`Reconcile.FlushedIsSafe`). A write that fails while a channel is first tracked is not a case.
- EventReaderRuns.AnswersAreCurrent: holds when overlapping advances are applied in the order they walked and a failed one passed no block naming a channel in the cache or being read, because of `EventReaderRuns.OverlappingAdvancesServeOld` and `EventReaderRuns.FailedAdvanceForgets`.
- MultipathExecutor.CrashThenResume: supposes that no other payment was journalled under the same id.
- NativeStore.TidyRunsArePossible: supposes that opening a channel never fails to write, because of `NativeStore.FailedOpenComesBack`.
- A failing write of the vault inside a proposal ends the exchange without a reply, which is the lost request of the two-party protocol.
- Sweeps.SweepClaimable: supposes that a proposal left outstanding under a claim intent settles that lock, which is all this node ever signs under it.
- Bootstrap.MessageFixesDocument: holds for newline-free fields, because the format has no escaping.
