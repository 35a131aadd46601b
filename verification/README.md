# Lifecycle and state core: a verified model

This project models the Go lifecycle and state core of the embedded Tailscale
runtime and proves what its concurrent protocols keep over whole runs. Every
critical section of a lock is one atomic step. Network, disk, `Server.Start`
and Keybay work happens between steps and may end either way.

## What is modelled

| part | files | main results |
|---|---|---|
| Publication manager | `ServeConfig`, `Mutation`, `Publication`, `Sweep`, `PublicationRuns`, `PublicationTheorems`, `PublicationManager` | ownership of handlers and Funnel bits over every interleaving with other ServeConfig writers; outcomes of the three-attempt compare-and-set transaction; an order-independent closing sweep; delivery receipts |
| Runtime controller | `Lifecycle`, `LifecycleInvariant`, `LifecycleTheorems`, `RuntimeController`, `Calls`, `StartCalls`, `LifecycleCalls`, `ResetCalls`, `StateLeases` | slot exclusion, unique generations, lease linearity, when a poisoned root is recorded, abandonment, final cleanup failure; whole calls (start, preparation, abandonment, down, logout, custody, quarantine, stop, reset) against every other thread |
| Preparation and reset | `Custody`, `CrashCoherence`, `ResetTree` | abandonment against a racing envelope write; crash coherence of key, envelope and marker; bounded removal of the package subtree |
| Encrypted store | `Base64`, `Envelopes`, `StoreRuns`, `StateStores`, `CipherWitness` | exact canonical decoding, limits that agree on both sides, exactly which states a crash followed by inspection and open can bring back |
| Bootstrap, watcher, registry | `Bootstrap`, `Watcher`, `Registry` | Running hidden until Ready, when the last status is the latest one, the join barrier, no orphaned fd resources |

Each protocol is a state value, its events, and a fold of events into runs;
theorems quantify over all event sequences, and an event that is not enabled
does nothing. The source's mutable objects are classes with the same fields.
Each class method is proved to be one event, or a stretch of a run, of the
corresponding state machine, so the theorems about runs apply to it. A whole call
of the controller is a method that performs its critical sections one by one and
lets arbitrary other threads run in between; it says what the caller may rely on
when the call returns.

The upstream config is a register behind an ETag (If-Match, section 13.1.1 of
RFC 9110) that anyone may write and whose response may be lost. The supervisor
protocol is taken as documented: a token is dispatched once and for one kind of
start, a tombstone is retired only after its dispatch is dead, a custody write
is marked only under the provision action, and a Keybay entry is deleted only as
compensation or inside a reset. The filesystem has a visible state and a set of
states that a crash may leave; fsync narrows that set.

## Where the code does not keep a promise as worded

For each, the model keeps the code, gives a run that fails, and proves the
condition under which the promise holds.

- Closing leaves externally replaced handlers alone: not one that equals a
  recorded variant (`EqualReplacementExample`). A handler survives the sweep
  exactly when it is not among the recorded variants (`CloseKeepsExactlyUnrecorded`).
- Pending receipts name live mappings: a lost forward over a mapping whose
  receipt is outstanding breaks it (`PendingWithoutMapping`), and nothing else does
  (`LostForwardBreaksPendingIffOutstanding`, `PendingIsLiveOverRuns`).
- A manager answers for every handler it installed: not for a write that was lost,
  cleared and then landed (`LateHandlerSurvives`). A late landing is harmless
  exactly when its handler is recorded at its key by then (`LateLandingIff`).
- Nothing becomes current after a cleanup failure: one custody settled as failed
  and as succeeded at once records the failure beside a live candidate
  (`CustodyRaceExample`). It is final exactly when no candidate holds the lease or
  is about to acquire a free one (`FailureFinalIff`), and that is always so when no
  custody is settled both ways (`FailureIsFinal`).
- A poisoned root is mirrored as a cleanup failure, so that every later lifecycle
  call sees it: not when a reset's acquisition met the doubt (`ResetPoisonExample`),
  and not when the acquisition of a preparation met it and somebody other than the
  opening call claimed the finish (`AbandonedPoisonExample`). Those are the only
  cases, and where nothing else failed it is recorded exactly outside them
  (`PoisonRecordedIff`).
- The last status is the latest observed state: overlapping StartWatch calls leave
  a displaced watcher that may observe last (`DisplacedObserverExample`). Nothing
  displaced can make it stale exactly when no displaced loop is alive
  (`StaysUpToDateIff`); with StartWatch calls one after the other it holds as soon
  as the owner has observed anything (`SerializedIsUpToDate`).
- stopWatch joins the loop and every callback: one that finds the slot empty
  returns at once (`PassingStopExample`). The one that took the slot is a barrier
  (`StopIsABarrier`), and nothing is published after either.
- A crash during a write yields the old or the new map: a directory sync that
  failed earlier was only reported, so an older map can return (`VanishingWrite`).
  `AtomicIff` gives the exact condition over every run, and after a sync that
  succeeded it is met at every step of the next write (`SyncedWriteIsAtomic`).

## Model

| member | source | states |
|---|---|---|
| `ServeConfigs.SetWebHandler` | go/localapi.go:716-796 | upstream's install: the handler is at its coordinate and only a sibling mount differing in one trailing slash goes with it |
| `ServeConfigs.SetFunnel` | go/localapi.go:716-796 | one host:port's bit changes and nothing else |
| `ServeConfigs.RemoveWebHandler` | go/localapi.go:833-848 | exactly one coordinate loses its handler; Funnel changes only on request |
| `ServeConfigs.RemoveGuarded` | go/localapi.go:833-848 | the guarded removal clears its coordinate and touches no other handler |
| `ServeConfigs.PlanForward` | go/localapi.go:716-796 | an accepted forward has a valid port, a host, and Funnel only with HTTPS and permission |
| `ServeConfigs.InstallPublication` | go/localapi.go:716-796 | after an install the handler and the Funnel bit of its own port are exactly the requested ones |
| `ServeConfigs.ClearMount` | go/localapi.go:798-826 | a clear empties its coordinate, keeps every other handler, and keeps Funnel unless asked |
| `Mutation.ServeRegister.Set` | go/publication_manager.go:506-563 | a conditional set lands only against its tag, a typed refusal means it did not land, a lost response says nothing |
| `Mutation.Attempt` | go/publication_manager.go:506-563 | one get/apply/set is explained by foreign writes around one deciding instant |
| `Mutation.MutateLocked` | go/publication_manager.go:506-563 | success commits apply of the config at the commit instant, refusal and conflict change nothing, only a lost response may be either; at most three sets, exactly three on conflict |
| `Publications.MergeDedup` | go/publication_manager.go:637-655 | the merge holds exactly the elements of both inputs, each once |
| `Publications.Heir` | go/publication_manager.go:714-757 | a cleared owner's visibility goes to the newest survivor on the port or is dropped, another owner keeps it |
| `Publications.Newest` | go/publication_manager.go:714-757 | the survivor with the greatest token on the port |
| `Publications.OwnedMounts` | go/publication_manager.go:616-632 | a mount is owned exactly when a recorded variant is live there |
| `Sweep.SweepAnyOrder` | go/publication_manager.go:460-488 | both loops of close, in any map order, have one result |
| `Sweep.WithdrawAnyOrder` | go/publication_manager.go:685-707 | Funnel withdrawal does not depend on the order of ports |
| `Sweep.RemoveAnyOrder` | go/publication_manager.go:616-632 | handler removal with upstream's cascades does not depend on the order of mappings |
| `Sweep.SweepRemovesExactlyRecorded` | go/publication_manager.go:460-488 | a handler goes exactly when it is a recorded variant, a Funnel bit exactly when live enabled evidence remains |
| `PublicationRuns.StepKeepsInv` | go/publication_manager.go:155-242 | every operation and every foreign write keep ownership, visibility and receipts |
| `PublicationRuns.RunKeepsInv` | go/publication_manager.go:155-488 | the same over every run |
| `PublicationRuns.SweepEndsOwnership` | go/publication_manager.go:446-488 | a confirmed sweep leaves no handler this manager installed |
| `PublicationTheorems.OwnershipOverRuns` | go/publication_manager.go:200-241 | over every run a handler last installed here is among the recorded variants at its coordinate |
| `PublicationTheorems.ClosedForGood` | go/publication_manager.go:446-488 | nothing is recorded, armed or settled once the manager is closed |
| `PublicationTheorems.ConfirmedCloseIsFinal` | go/publication_manager.go:446-488 | after a confirmed close no handler of this manager is live, whatever others write |
| `PublicationTheorems.CloseKeepsExactlyUnrecorded` | go/publication_manager.go:446-488 | closing keeps a handler if and only if it is not a recorded variant, and a Funnel bit if and only if no live evidence owns it |
| `PublicationTheorems.EqualReplacementExample` | go/publication_manager.go:616-632 | a run in which closing removes another writer's equal handler |
| `PublicationTheorems.EqualReplacementIsRemoved` | go/publication_manager.go:616-632 | an external handler equal to a recorded variant is always removed |
| `PublicationTheorems.VisibilityOverRuns` | go/publication_manager.go:202-238 | over every run each visibility record names a live mapping on its port |
| `PublicationTheorems.CoordinateClearHandsOver` | go/publication_manager.go:714-757 | a coordinate clear hands visibility to the greatest surviving token or drops it |
| `PublicationTheorems.ExactCloseOfNonOwnerKeepsFunnel` | go/publication_manager.go:378-393 | an exact close of a non-owner changes no Funnel bit |
| `PublicationTheorems.ReplacementOutlivesItsHandle` | go/publication_manager.go:410-435 | after any run, a published handler that someone replaced by another one stays through the close of its handle and through the sweep |
| `PublicationTheorems.PendingIsLiveOverRuns` | go/publication_manager.go:204-220 | without a lost forward, pending receipts name live mappings over every run |
| `PublicationTheorems.LostForwardBreaksPendingIffOutstanding` | go/publication_manager.go:206-241 | a lost forward breaks that if and only if the replaced mapping's receipt was outstanding |
| `PublicationTheorems.PendingWithoutMapping` | go/publication_manager.go:221-241 | a run in which a forward awaits its receipt and a second one at the same key is lost: the receipt names no mapping |
| `PublicationTheorems.LateLandingIff` | go/publication_manager.go:540-563 | a lost write that lands later leaves the manager answering for it if and only if its handler is recorded at its key by then |
| `PublicationTheorems.LateHandlerSurvives` | go/publication_manager.go:221-241 | a forward that is lost, cleared and lands late leaves a handler that survives a confirmed close |
| `PublicationTheorems.PublicationExamples` | go/publication_manager.go:155-242 | both failures are reached from an empty config |
| `PublicationTheorems.SettlementIsPermanent` | go/publication_manager.go:244-302 | a settled receipt keeps its one settlement forever |
| `PublicationTheorems.DeliveryCustodyOverRuns` | go/publication_manager.go:244-337 | each receipt is outstanding or settled in exactly one way; the loss callback fires once at most and only on expiry |
| `PublicationManagers.ModeOf` | go/localapi.go:701-709 | a clear without numbers is a coordinate clear; an exact one needs both, positive |
| `PublicationManagers.TellForward` | go/publication_manager.go:155-242 | a forward is a stretch of a run with one own step, whatever its transaction met |
| `PublicationManagers.TellClear` | go/publication_manager.go:339-439 | the same for a clear |
| `PublicationManagers.TellSweep` | go/publication_manager.go:446-488 | the same for the closing sweep |
| `PublicationManagers.PublicationManager.constructor` | go/publication_manager.go:138-153 | a fresh manager owns nothing |
| `PublicationManagers.PublicationManager.Forward` | go/publication_manager.go:155-242 | the call is a stretch of a run and its result names the step it took; at most three sets |
| `PublicationManagers.PublicationManager.Clear` | go/publication_manager.go:339-439 | the same; a stale handle takes no step and sends nothing |
| `PublicationManagers.PublicationManager.Close` | go/publication_manager.go:446-488 | the first call sweeps and empties the maps, every later one does nothing |
| `PublicationManagers.PublicationManager.Acknowledge` | go/publication_manager.go:308-337 | an obsolete token is accepted silently, a live one without a receipt is ambiguous, refusals change nothing |
| `PublicationManagers.PublicationManager.ExpirePending` | go/publication_manager.go:262-285 | the loss callback runs exactly for an outstanding receipt |
| `PublicationManagers.PublicationManager.CancelAllPending` | go/publication_manager.go:298-302 | every outstanding receipt is settled as swept |
| `PublicationManagers.PublicationManager.TransferVisibility` | go/publication_manager.go:714-757 | the scan over mappings in any order finds the one heir |
| `PublicationManagers.PublicationManager.RecordForward` | go/publication_manager.go:203-213 | the confirmed forward's bookkeeping, releasing the superseded receipt |
| `PublicationManagers.PublicationManager.RecordLostForward` | go/publication_manager.go:221-238 | after a lost response both variants and both evidences are kept |
| `PublicationManagers.PublicationManager.RecordClear` | go/publication_manager.go:423-435 | the confirmed clear's bookkeeping |
| `LifecycleInvariant.StepKeepsInv` | go/node_runtime.go:581-1199 | every critical section, and every acquisition and release between them, keeps slots, epoch, lease, tokens, failure and poison in order |
| `LifecycleInvariant.RunKeepsInv` | go/node_runtime.go:581-1199 | the same over every run |
| `LifecycleTheorems.SlotsExclusive` | go/node_runtime.go:581-614 | at most one of preparation, candidate, current, draining and reset is occupied; a logout coexists only with its own runtime |
| `LifecycleTheorems.GenerationsUnique` | go/node_gate.go:12-52 | current carries the epoch; runtimes that were ever current differ in generation and token |
| `LifecycleTheorems.StepPublishes` | go/node_runtime.go:720-733 | only a commit publishes, and only a token whose dispatch was still open |
| `LifecycleTheorems.LeaseLinear` | go/lib.go:563-578 | a held lease, of an ephemeral start as of a persistent one, has exactly one owner through adoption and reset until it is released, once |
| `LifecycleTheorems.PoisonedForever` | go/state_lease.go:184-196 | after an uncertain release the root is never leased again |
| `LifecycleTheorems.CurrentOwnsTheLease` | go/lib.go:563-578 | over every run the published runtime, ephemeral or persistent, owns the one lease that is held |
| `LifecycleTheorems.PoisonRecordedIff` | go/state_preparation.go:503-513 | once no slot is occupied a poisoned root is a recorded failure unless a reset's acquisition met the doubt, or a preparation's did and not its opening call claimed the finish; if nothing else failed, recorded if and only if neither |
| `LifecycleTheorems.QuietRun` | go/state_preparation.go:503-513 | in runs where nothing but a lease is in doubt every recorded or pending error is that doubt |
| `LifecycleTheorems.ResetPoisonExample` | go/local_state_reset.go:141-170 | a run in which a reset's acquisition poisons the root and the next preparation is still admitted |
| `LifecycleTheorems.AbandonedPoisonExample` | go/node_runtime.go:930-957 | the same when an abandonment claims the finish of a preparation whose acquisition met the doubt |
| `LifecycleTheorems.OpenerRecordsExample` | go/state_preparation.go:228-240 | had the opening call claimed it, the doubt would be recorded |
| `LifecycleTheorems.AbandonBlocks` | go/node_runtime.go:916-1003 | wherever a dispatch stands, abandonment puts a refusal ahead of it |
| `LifecycleTheorems.AbandonedNeverPublished` | go/node_runtime.go:916-1003 | an abandoned token is never published afterwards, whatever runs |
| `LifecycleTheorems.BlockedForever` | go/node_runtime.go:916-1003 | a token that something refuses ahead of its dispatch is never published again, and stays out if it is not current |
| `LifecycleTheorems.OthersNeverDetach` | go/node_runtime.go:1094-1158 | abandoning, closing or quarantining one runtime never detaches another |
| `LifecycleTheorems.LogoutDetachesItsOwn` | go/local_state_reset.go:47-69 | logout detaches only the runtime it logs out; a reset takes over any published runtime with its lease unless a failure or a logout stands against it |
| `LifecycleTheorems.NothingAdmittedAfterFailure` | go/node_runtime.go:701-774 | after a recorded failure no preparation, candidate or reset is ever admitted |
| `LifecycleTheorems.FailureFinalIff` | go/node_runtime.go:720-733 | no runtime becomes current after the failure if and only if no live candidate holds its lease or is about to acquire a free one |
| `LifecycleTheorems.FailureIsFinal` | go/state_preparation.go:451-481 | it is final whenever no custody was settled both ways |
| `LifecycleTheorems.CustodyRaceExample` | go/state_preparation.go:451-481 | a run in which a runtime becomes current after the failure |
| `RuntimeControllers.RuntimeController.constructor` | go/node_runtime.go:294-320 | an empty controller at epoch one |
| `RuntimeControllers.RuntimeController.CheckAdmission` | go/node_runtime.go:701-712 | a failure refuses first; a tombstone is consumed by the check that finds it |
| `RuntimeControllers.RuntimeController.RetireAbandonedRuntimeToken` | go/node_runtime.go:356-365 | a tombstone goes only when no call is active |
| `RuntimeControllers.RuntimeController.ActiveRuntimeForConfig` | go/node_runtime.go:663-699 | the probe lets a call through exactly when nothing competes with it |
| `RuntimeControllers.RuntimeController.AdoptPersistentPreparation` | go/prepared_persistent_state.go:267-327 | store and lease move to the candidate in one critical section |
| `RuntimeControllers.RuntimeController.Commit` | go/node_runtime.go:720-733 | it publishes exactly the unabandoned reservation still in the slot |
| `RuntimeControllers.RuntimeController.BeginLogout` | go/node_runtime.go:818-830 | only the exact current runtime can begin a logout, once |
| `RuntimeControllers.RuntimeController.ClaimFinish` | go/state_preparation.go:483-501 | one finisher at most, and it is on record who |
| `StartCalls.StartRuntime` | go/lib.go:325-549 | against every interleaving the call, ephemeral or persistent, ends with its dispatch spent and no candidate left, and its token published exactly if it reports success |
| `StartCalls.Unwind` | go/lib.go:414-433 | the deferred cleanup closes and releases the candidate with others running in between, and a doubtful acquisition is recorded |
| `StartCalls.PrepareEphemeral` | go/lib.go:563-596 | an ephemeral start acquires its own lease for the candidate it already holds, or fails before, in or after the acquisition |
| `ControllerCalls.OthersKeep` | go/node_runtime.go:294-320 | no step of another thread takes away what a call holds between its critical sections |
| `ControllerCalls.OthersKeepPhase` | go/lib.go:364-549 | no other thread moves the dispatch of a running start call |
| `LifecycleCalls.OpenPreparation` | go/state_preparation.go:192-251 | against every interleaving: on success the preparation is live and holds the lease; otherwise its token is out for good, and a doubt is recorded unless somebody else claimed the finish |
| `LifecycleCalls.FinishOrJoin` | go/state_preparation.go:483-501 | whoever claims first finishes and everyone else waits until the slot is free; then the token is out for good |
| `LifecycleCalls.FinishClaimed` | go/state_preparation.go:503-528 | the lease goes, then the failure is recorded, then the slot is free, with others in between |
| `LifecycleCalls.FinishCustody` | go/state_preparation.go:451-481 | refused exactly without abandoned idle custody; an unconfirmed compensation is always recorded, a confirmed one puts the token out for good |
| `LifecycleCalls.DrainOwn` | go/node_runtime.go:884-910 | the runtime a call detached is closed and drained with others in between, and its token is out for good |
| `LifecycleCalls.AbandonRuntime` | go/node_runtime.go:916-1003 | whatever it finds and whatever others do, once it returns the token can never be published and is not current unless a receipt already reported its end; what it finished has no slot left |
| `LifecycleCalls.AbandonPreparation` | go/node_runtime.go:930-957 | an abandoned preparation keeps its token out whether it is pending, held by custody, finished here or finished elsewhere |
| `LifecycleCalls.CloseRuntime` | go/node_runtime.go:1094-1158 | once it returns the runtime of its token is not current; one it closed or joined is drained and out for good |
| `LifecycleCalls.LogoutRuntime` | go/lib.go:228-260 | only the exact current runtime; once it returns the token is receipted, drained and out for good, whoever detached it, and a failed close is recorded |
| `LifecycleCalls.QuarantineRuntime` | go/publication_bootstrap.go:350-389 | exactly the given runtime is detached, drained and out, or nothing happens |
| `LifecycleCalls.StopRuntime` | go/node_runtime.go:1167-1199 | it drains what it detached, or returns without doing so only when there is nothing to stop or it joined an end under way |
| `ResetCalls.BeginLocalReset` | go/local_state_reset.go:35-104 | on success the reset owns the lease; if it took over a runtime that is the runtime's own lease and nobody touched the admission in between; a close that failed keeps slot and lease and is recorded |
| `ResetCalls.FinishLocalReset` | go/local_state_reset.go:109-135 | it claims exactly the ready reset of its token, and once it returns the slot is free and a failed release is recorded |
| `ResetCalls.FinishOperation` | go/local_state_reset.go:141-170 | the lease goes, then the failure is recorded, then the slot is free, with others in between |
| `StateLeases.Finish` | go/state_lease.go:184-196 | only the entry of this very lease is freed or poisoned |
| `StateLeases.Admissions.OnePerRoot` | go/state_lease.go:169-182 | no two live leases share a root |
| `StateLeases.Admissions.Acquire` | go/state_lease_unix.go:90-168 | it gets the lease exactly without a fault, and poisons exactly when cleanup of what was done fails |
| `StateLeases.Admissions.Release` | go/state_lease.go:122-151 | released on the first call whatever happens, poisoned on any doubt, later calls repeat the result |
| `Custody.ReportsAreFinal` | go/node_runtime.go:930-957 | preserve is reported exactly when the rename committed, compensate exactly when a key write was attempted without one, and no rename follows a report |
| `Custody.RunKeepsFrozen` | go/state_preparation.go:83-134 | abandoned with no operation in flight, key and envelope are final |
| `Custody.PreserveReachable` | go/state_preparation.go:336-397 | a provisional compensate can end as preserve, hence the wait |
| `Custody.CompensateReachable` | go/state_preparation.go:336-397 | and can end as compensate |
| `Custody.PersistentPreparation.RequireLive` | go/state_preparation.go:83-91 | abandoned wins over terminating |
| `Custody.PersistentPreparation.MarkCustodyActive` | go/state_preparation.go:264-282 | accepted exactly when its event is enabled |
| `Custody.PersistentPreparation.MarkCustodyWriteAttempted` | go/state_preparation.go:286-301 | accepted exactly when its event is enabled, and never cleared |
| `Custody.PersistentPreparation.SupplyPreparedDEK` | go/state_preparation.go:306-331 | one key, before the write starts |
| `Custody.PersistentPreparation.Begin` | go/state_preparation.go:93-134 | one operation at a time, none after abandonment |
| `Custody.PersistentPreparation.BeginInitialWrite` | go/state_preparation.go:336-364 | the write is claimed once, with a marked and supplied key |
| `Custody.PersistentPreparation.SettleInitialWrite` | go/state_preparation.go:378-391 | its verdict is the disk's |
| `Custody.PersistentPreparation.CustodyDisposition` | go/state_preparation.go:431-445 | once frozen the disposition is the truth about key and rename |
| `Custody.PersistentPreparation.AbandonDisposition` | go/state_preparation.go:415-429 | it waits for the operation in flight, if there is one |
| `Custody.PersistentPreparation.CompletePersistentCustody` | go/prepared_persistent_state.go:210-237 | a fresh key write completes only with a committed envelope |
| `CrashCoherence.EnvelopeImpliesKey` | go/state_reset_fs_unix.go:141-242 | without a marker an envelope implies its own key is in custody, now and in every state a crash could leave |
| `CrashCoherence.ProvisionOnlyWhenClean` | go/prepared_persistent_state.go:66-108 | fresh provisioning is chosen only with marker, subtree and key absent |
| `CrashCoherence.InspectedEnvelopeOpens` | go/secure_state_layout.go:59-140 | every envelope that inspection lets through opens under the key in custody |
| `CrashCoherence.CalmRunsStayPaired` | go/state_preparation.go:336-481 | without crashes and with confirmed compensations, key and envelope are there together or not at all whenever nothing is under way |
| `CrashCoherence.ResetEndsClean` | go/state_reset_fs_unix.go:187-242 | a reset that completes leaves a durably clean root |
| `CrashCoherence.OrphanedKeyIsRefused` | go/prepared_persistent_state.go:89-104 | a crash can leave an orphaned key, and then nothing but a reset proceeds |
| `CrashCoherence.VisibleMarkerIsNotEnough` | go/state_reset_fs_unix.go:141-180 | a run in which deleting the key under a merely visible marker lets a crash leave an envelope with neither marker nor key |
| `CrashCoherence.DurableMarkerIsEnough` | go/state_reset_fs_unix.go:141-180 | once the marker of any run is synced no crash after the deletion does |
| `ResetTree.RemoveContents` | go/state_reset_fs_unix.go:503-569 | success empties the listing and implies depth and device bounds; without faults they are also sufficient; any failure leaves a remnant |
| `ResetTree.RemoveEntry` | go/state_reset_fs_unix.go:512-562 | leaves and links are unlinked, own-device directories emptied first, others never entered |
| `ResetTree.ForeignSurvives` | go/state_reset_fs_unix.go:539-542 | however removal ends, a directory on another device is still there, whole |
| `ResetTree.RemnantStaysRemovable` | go/state_reset_fs_unix.go:187-242 | whatever a failed reset left, a retry without faults completes |
| `ResetTree.StateResetFilesystem.VerifyMarker` | go/state_reset_fs_unix.go:282-341 | valid means exactly the marker payload in a regular file |
| `ResetTree.StateResetFilesystem.ReplaceMarker` | go/state_reset_fs_unix.go:343-423 | success leaves the exact marker, failure the previous entry; directories fail closed |
| `ResetTree.StateResetFilesystem.EnsureDurableMarker` | go/state_reset_fs_unix.go:141-180 | durable implies visible; nothing else in the root changes; without faults it succeeds exactly if the marker is there or neither of its names is a directory |
| `ResetTree.StateResetFilesystem.RemoveSubtree` | go/state_reset_fs_unix.go:459-501 | only the subtree entry changes; without faults it succeeds exactly for a removable subtree |
| `ResetTree.StateResetFilesystem.RestoreMarker` | go/state_reset_fs_unix.go:244-251 | restoring never brings the subtree back |
| `ResetTree.StateResetFilesystem.CompleteAfterCustodyDeletion` | go/state_reset_fs_unix.go:187-242 | success leaves neither subtree nor marker, failure leaves the marker or no subtree, other root entries never change |
| `Base64.GroupsAreBigEndian` | go/encrypted_state_store.go:658-668 | the encoder is the 24-bit grouping of section 4 of RFC 4648 with zero fill |
| `Base64.StrictIsEncoded` | go/encrypted_state_store.go:658-668 | without line breaks the strict decoder accepts only canonical text |
| `Base64.CanonicalExactlyInverts` | go/encrypted_state_store.go:658-703 | the canonical decoder accepts exactly the encoder's image and inverts it |
| `Base64.ReencodingMattersForBreaksOnly` | go/encrypted_state_store.go:658-668 | the re-encoding check rejects precisely decodable text with a line break |
| `Envelopes.Parse` | go/encrypted_state_store.go:482-562 | the field loop computes the order-free meaning of the envelope |
| `Envelopes.OrderIsIrrelevant` | go/encrypted_state_store.go:498-542 | any reordering of the fields has the same result, errors included |
| `Envelopes.DecodeValues` | go/encrypted_state_store.go:543-562 | an accepted envelope is canonical, with a full nonce and a ciphertext within limits |
| `Envelopes.EnvelopeRoundTrip` | go/encrypted_state_store.go:705-713 | a marshalled envelope parses back to itself |
| `Envelopes.LimitsAgree` | go/encrypted_state_store.go:779-806 | every plaintext within 16 MiB fits the 24 MiB envelope and passes every limit on reopen |
| `Envelopes.ParseMap` | go/encrypted_state_store.go:564-613 | accepted exactly for distinct keys with canonical values, and then the result lists them |
| `Envelopes.ListedMapsAgree` | go/encrypted_state_store.go:564-613 | a member list determines its map, so parsing inverts every way of writing one |
| `StoreRuns.SealedReadsBack` | go/encrypted_state_store.go:260-292 | what a commit seals, an open reads back, within every limit |
| `StoreRuns.RunKeepsInv` | go/encrypted_state_store.go:814-921 | over every run whatever a crash leaves of the envelope can be read, and the cache is what the file says |
| `StoreRuns.RunTracks` | go/encrypted_state_store.go:896-921 | over every run the files a crash may leave hold exactly the states committed since the directory was last synced |
| `StoreRuns.ReopensAsRead` | go/secure_state_layout.go:59-140 | a crash, then inspection with removal of the temporary, then open, gives what the file holds |
| `StoreRuns.AtomicIff` | go/encrypted_state_store.go:814-921 | at every moment of every run a crash brings back one of two states if and only if nothing else was committed since the directory was last synced |
| `StoreRuns.SyncedWriteIsAtomic` | go/encrypted_state_store.go:814-921 | after a directory sync that succeeded every step of the next write yields the old or the new map |
| `StoreRuns.VanishingWrite` | go/encrypted_state_store.go:914-921 | a run in which a write that reported success is undone by a crash during the next one |
| `StoreRuns.CreateRun` | go/encrypted_state_store.go:182-231 | creation reaches an open store with a synced directory |
| `CipherWitness.LawfulCipherExists` | go/encrypted_state_store.go:779-806 | the laws asked of secretbox and of the JSON map can be met for every state map |
| `StateStores.InspectLayout` | go/secure_state_layout.go:59-140 | past the name checks exactly for the envelope alone or with its clean sidecar, and then encrypted exactly for a sound envelope; each other refusal by its cause |
| `StateStores.EncryptedStateStore.Inspect` | go/secure_state_layout.go:151-177 | a leftover temporary is removed and the removal synced before the keyless check, as one step of a run |
| `StateStores.EncryptedStateStore.Create` | go/encrypted_state_store.go:182-231 | creation commits the empty map or leaves no envelope, as a stretch of a run |
| `StateStores.EncryptedStateStore.Open` | go/encrypted_state_store.go:260-292 | an envelope of a run that inspection let through always opens, and the cache is its authenticated map |
| `StateStores.EncryptedStateStore.Persist` | go/encrypted_state_store.go:814-921 | whatever step fails, it is a stretch of a run; cache and file change together at the rename or not at all |
| `StateStores.EncryptedStateStore.WriteState` | go/encrypted_state_store.go:731-777 | an error leaves cache and file old, success both new, and all of it is a stretch of a run, so AtomicIff covers a crash at any moment of it |
| `StateStores.EncryptedStateStore.Close` | go/encrypted_state_store.go:1008-1024 | a closed store refuses writes and keeps the file |
| `Bootstrap.ResetOnce` | go/publication_bootstrap.go:103-133 | the Up worker starts at most once, Ready is permanent, the result closes exactly in a terminal phase |
| `Bootstrap.RunningHiddenUntilReady` | go/publication_bootstrap.go:245-285 | Running is never posted before Ready's own critical section |
| `Bootstrap.StaysUpToDateIff` | go/push.go:201-221 | once the last status is the latest one, nothing displaced watchers still do makes it stale if and only if no displaced loop is alive |
| `Bootstrap.SerializedIsUpToDate` | go/push.go:78-84 | with StartWatch calls one after the other, once the owner has observed anything the last status is the latest one whenever none of its posts is pending, and stays so |
| `Bootstrap.DisplacedObserverExample` | go/push.go:78-130 | a run of overlapping StartWatch calls in which a displaced watcher makes the last status stale |
| `Bootstrap.PublicationBootstrap.constructor` | go/publication_bootstrap.go:59-74 | a fresh bootstrap is before Running |
| `Bootstrap.PublicationBootstrap.ObserveState` | go/publication_bootstrap.go:103-133 | it starts the worker exactly once and suppresses Running exactly before Ready |
| `Bootstrap.PublicationBootstrap.BeginBootstrapFailure` | go/publication_bootstrap.go:222-239 | only a bootstrap without a verdict can fail |
| `Bootstrap.PublicationBootstrap.PublishBootstrapSuccess` | go/publication_bootstrap.go:245-285 | it publishes exactly for the slot's owner during the reset |
| `Bootstrap.PublicationBootstrap.FinishBootstrapFailure` | go/publication_bootstrap.go:287-300 | the failure becomes the result once |
| `Bootstrap.PublicationBootstrap.ShutdownBootstrap` | go/publication_bootstrap.go:305-324 | waiters are released as stale unless Ready or preserved |
| `Bootstrap.PublicationBootstrap.AwaitDataPlaneReady` | go/publication_bootstrap.go:149-196 | a wait succeeds only in Ready and blocks only without a result; every other phase has its own error |
| `Watcher.WaitGroupCounts` | go/push.go:239-259 | the count is the pending timer plus the running callbacks and never negative |
| `Watcher.SilentWithoutSlot` | go/push.go:57-63 | without the slot nothing is posted and no identity index replaced |
| `Watcher.StopIsABarrier` | go/push.go:353-373 | once the stopWatch that took the slot returned, loop and callbacks are gone and nothing is published again |
| `Watcher.PassingStopIsSilent` | go/push.go:353-368 | after a stopWatch that found the slot empty nothing is published either |
| `Watcher.PassingStopExample` | go/push.go:353-368 | but loop and callback may still run when it returns |
| `Watcher.WatcherRun.StopWatcherTimer` | go/push.go:251-259 | the count is given back only for a callback that never started |
| `Watcher.WatcherRun.SchedulePeerPublish` | go/push.go:225-246 | rescheduling keeps the count exact |
| `Watcher.WatcherRun.PostWatcherMessage` | go/push.go:284-299 | a post happens exactly while the run owns its slot |
| `Watcher.WatcherRun.BeginStop` | go/push.go:353-366 | the slot is lost and the pending timer settled together; a caller that finds the slot empty joins nothing |
| `Watcher.WatcherRun.BeginFinish` | go/push.go:314-323 | a run that still owns its slot settles its own timer |
| `Registry.NothingOrphaned` | go/fd_registry.go:30-97 | with fresh ids every accepted resource is held or was handed to a closer, all of them after a drain |
| `Registry.DrainedForever` | go/fd_registry.go:84-97 | after a drain the registry is empty for good and accepts nothing |
| `Registry.RunConserves` | go/fd_registry.go:30-97 | over every run accepted resources are in exactly one place |
| `Registry.FdRegistry.CommitEntry` | go/fd_registry.go:30-41 | accepted exactly while open and of the live epoch |
| `Registry.FdRegistry.TakeEntry` | go/fd_registry.go:55-67 | the entry leaves with its value |
| `Registry.FdRegistry.RemoveMatchingEntry` | go/fd_registry.go:71-80 | only the very entry is removed |
| `Registry.FdRegistry.DrainEntries` | go/fd_registry.go:84-97 | every entry is returned once and the registry closes |

## Left out

- FFI exports, cgo, the Dart supervisor, Flutter, Swift and Kotlin shells and the site: glue and user interface.
- tsnet, LocalAPI, secretbox and encoding/json internals: they enter as lawful abstract operations; envelopes and state maps are token streams, and the envelope text only where its length matters.
- Socketpairs, TCP and HTTP piping, pollers, UDP framing and host network snapshots: one-branch plumbing.
- Permission, ownership, symlink and path-identity checks: steps that may fail; nobody outside the process edits the files.
- Normalization of serve paths and local addresses: a request carries the normalized text or none.
- A nil and an empty ServeConfig map are the same value, and a manager has one host name.
- PublicationTheorems.LateLandingIff: a late landing is one step beside a run and not an event of the runs, because with it as an event ownership fails as LateHandlerSurvives shows.
- AwaitRuntimeQuiescence and the disposition values that waiting calls return: forgetting a tombstone is an event, the values are not tracked. That a wait ends is not claimed.
- closeOwnedResources: of everything it closes only the state lease is state here; the order of the other closers is not modelled.
- refreshActiveRuntime's process-wide host network write and the bounded waits for it.
- Receipts carry their token only, without the disposition fields.
- Epoch, token and serial counters do not wrap; only the mapping token's 64-bit limit is modelled.
- The bootstrap deadline and markInitiatingUpSettled: real clocks.
