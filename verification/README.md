# KM VMS release activation and database restore, verified in Dafny

This project models the parts of KM VMS that must stay right when a machine dies at the worst
moment: the activation of a release, the restore of the database, the admission of a retry, the
resolution of archive paths on the host, and the inventory of a source tree. `dafny verify
dfyconfig.toml` checks all of it.

## How the machinery is modelled

**An installation and its environment.** `Installation.Host` and `RestoreInstallation.Host` hold
the durable files, the containers, the restart policies and the database. Every effect of a
program first draws an event from an oracle. The event says what the environment did in the
meantime (the Docker daemon starts any container whose policy is `always`, containers die, a
bootstrap reconciles policies, a migration left running takes its lock, tears, undoes, commits or
finishes its work, with or without recording its evidence, a restore container left running goes
on, and an unsettled activation is resumed beside a restore) and how the effect ends: it succeeds, raises with or without having taken effect, or is the last
thing before a crash, with or without having taken effect. A crash propagates through every
caller as `Crashed`, so each point between two effects is the end of some call, and the
invariants of the runs speak about all of them. Contracts hold for every oracle; the
contracts about progress also name what they ask of it (`Healthy`, `Favourable`, `Calm`, `Smooth`).

**Activation.** `Contracts` and `ActivationJournal` are the phases, the transition table and the
validator. `SlotStore` is the slot state store, `Runtime` the bridge's effects, `Bridge` blocking
and rollback, `Convergence` the six forward phases and the loop, `Activation` the command,
`Bootstrap` the recovery that decides which slot has authority. `JournalWrites` has one small
lemma per kind of journal write. `ActivationRuns` states what holds in every state of
every schedule of commands, bootstrap calls and crashes, and `ActivationLimits` what the protocol
rests on and where its window is open. The invariant (`Installation.Inv`) is
stronger than the document validator: it ties the journal to the real pointer, the database, the
migration evidence, the fence and the proofs of the rollback call that settled it. A migration
container holds the schema lock only some time after its start, and the rollback's probe sees only
one that holds it: the history records that a live container `slipped` through a passed probe, and
that an activation `inherited` a database that still moved.

**Restore.** `RestoreControl` is the documents, the restore half of the isolation predicate, the
public status and its reader. `RestoreEffects`, `RestoreFinish` and `RestoreHandler` are the effects,
the terminal write and the forward and rollback passes; `RestoreRuns` is the control plane's
admission and the helper's loop over unbounded runs. The executor is modelled by what its source
promises: the destructive marker is durable before the database changes, it refuses a request that
is not admitted or claimed, and only success promises the exact contents; a failed or killed run
may leave torn contents. A call that times out or dies may also leave its container running: a
`Survivor` that has passed the check of the request and goes on by itself, between any two later
effects, to write the marker and to tear or replace the database. The history records that a
container was ever `left`, and that one has acted (`disturbed`) since the admission or since the
last restore that succeeded with no survivor alive. A world also knows whether an activation is
unsettled (`pending`); the environment may open one, and resume an unsettled one, at any time.
`RestoreLimits` states what survivors can make of a terminal word, and what a resumed activation
makes of isolation.

**The smaller cores.** `UpdateClaim` (at most one start for each update request), `RetryAdmission`
(the two-file admission), `PathText` and `HostResolver` (the bounded symlink resolver against a
relation without limits, and against pathname resolution of POSIX.1-2017, Base Definitions,
section 4.13), `ArchiveApproval` (the approval loop), `NameOrder`, `SourceInventory`,
`InventoryInvariance` and `InventoryContents` (the walk, copy, freeze, cache cleanup and finalize, and
what an inventory tells apart).

## What came out differently from what one might expect

- A blocked activation whose migration was never declared leaves the writer window open: from every
  sound quiescing state the journal may block after the stop, and the next policy reconcile lets a
  writer start although no slot runtime was started since (`ActivationLimits.WritersMayReturn`, and from
  a first installation on in `WritersMayReturnInSample`). `ActivationRuns.QuietWindowExactly` says for
  every state of every run where the window is closed.
- The store alone would replace a blocked journal of another request as readily as a settled one
  (`ActivationLimits.StoreAloneLosesBlocked`); only the command's own check prevents it
  (`ActivationRuns.OnlySettledIsSuperseded`).
- Under a reused request identity, a bridge that dies between the declaration and the start of its
  migration finds the old evidence on resume and records a completed migration although none was
  started and the schema is still the source's (`ActivationLimits.ReusedIdentityCompletesNothing`). Opening
  an activation is sound exactly when its identity is new (`JournalWrites.OpeningKeepsInv`).
- A migration may commit its last phase and die before its evidence file. The activation is then
  rolled back over a schema that already is the target's (`Convergence.DecideInterrupted`).
- A rollback can settle over a migration that has not begun: the bridge dies after it started the
  container and before the container holds the schema lock; the next one finds no evidence, its probe
  passes, the previous writers come back, and then the container migrates beside them
  (`ActivationLimits.InterruptedStartMayOutliveRollback`). That is the only way: whatever a rollback leads
  to is sound exactly if no migration container was alive when its probe passed (`ProbeDecidesExactly`),
  which a look at the running containers before the rollback decides.
- A restore is admitted beside an unsettled activation. If that is resumed once everything is prepared,
  it starts the writers and releases their fence, and the restore replaces the database under them
  (`RestoreLimits.ResumedActivationExposes`). Isolation lasts exactly if no activation is unsettled
  (`IsolationLastsExactly`), and none is resumed in a restore if all were settled at its admission and
  none was opened since (`RestoreRuns.RestoresAreIsolated`).
- A step that raises is not the end: what it left is rolled back if nothing fails afterwards, and
  `Convergence.ConvergeActivation` says for each step under which trigger, and when the pointer and the
  previous runtime are back.
- A migration that dies half way leaves a torn schema, and then no recovery ever settles:
  `ConvergeActivation` ends in `blocked`, and in a healthy environment that document is really written.
  Everything that is at rest at one of its two versions is recoverable.
- A restore container that outlives its call can make a terminal word false: the restarted helper
  blocks over a journal without a marker, or rolls back and says so, and then the container replaces
  the database under running writers (`RestoreLimits.BlockedMayTurnFalse`, `RolledBackMayTurnFalse`). A
  true word stays true for good exactly when no restore container is alive (`TruthLastsExactly`,
  `RestoreRuns.TruthLasts`).
- `finish_restore_request` can raise after the word `completed` is durable, and the handler then
  calls the rollback. The word stays true only because the executor refuses a terminal request.
- The status file may contradict an ended update request: the request write takes effect but is
  reported as failed, and the failure is then announced over it (`UpdateClaim.WordsMayDisagree` is one turn
  of the loop that runs into it). The words agree after a publication exactly when the request was claimed or had ended with the
  same word before it (`PublishTerminal`), and always if no effect is reported as failed that took place.
- The helper's own checks are weaker than the reader's: a published document is readable exactly when the
  submission identity is lower-case, the artifact time well formed and the backup identity, if any, too
  (`ProgressReachesOwner`, `EndingReachesOwner`). The control plane and the executor never let such a request
  or backup in, so in every run the owner is shown whatever is published (`RestoreRuns.OwnerIsShown`).
- The resolver accepts a path that leaves a file by `..`, which POSIX rejects, and refuses `..` at the root,
  which POSIX resolves to the root. Each deviation is characterised exactly.
- An app directory at `/` never recognises its own default archive (`DefaultIsBelowApp`).
- A freeze keeps the inventory exactly when every recorded folder already lets its owner read
  and search it (`FreezeKeepsInventoryExactly`); otherwise finalize refuses the candidate.

## Model

| member | source | states |
|---|---|---|
| Contracts.WalkReaches | scripts/km_vms_slot_core/contracts.py:202-223 | every walk of the transition table, of any length, stays within one closed-form order on phases |
| Contracts.StepExactly | scripts/km_vms_slot_core/contracts.py:202-223 | the table is one rule: one phase forward at a time, the migration phases may be skipped, every open phase may fail, and failure is left only as rolled back |
| Contracts.ReachesHasWalk | scripts/km_vms_slot_core/contracts.py:202-223 | the order is tight: every pair it admits is joined by a walk of the table, which the lemma builds |
| Contracts.OnlyCycle | scripts/km_vms_slot_core/contracts.py:202-223 | the only non-trivial cycle of the journal graph joins `rolling_back` and `blocked` |
| Contracts.FailureIsClosed | scripts/km_vms_slot_core/contracts.py:202-223 | no walk leaves the three failure phases, and `failed_rolled_back` is final |
| Contracts.CompletionIsFinal | scripts/km_vms_slot_core/contracts.py:202-223 | `completed` is final along every walk |
| ActivationJournal.Transition | scripts/km_vms_slot_core/state.py:283-407 | an accepted transition yields a valid document with the observed pointer, in which evidence only grew and failure history was written once |
| SlotStore.ReadActiveSlot | scripts/km_vms_slot_core/state.py:106-135 | reading the pointer changes nothing durable and returns the real pointer, which must resolve to a slot on disk |
| SlotStore.AtomicSwitchPointer | scripts/km_vms_slot_core/state.py:137-162 | the pointer moves to the named slot or stays, never to a slot that is not on disk; a normal return means it moved |
| SlotStore.TransitionActivationJournal | scripts/km_vms_slot_core/state.py:283-407 | the journal is replaced by exactly one legal transition recording the pointer observed at the write, or nothing changes; an admissible transition succeeds in a healthy environment |
| SlotStore.InitializeActivationJournal | scripts/km_vms_slot_core/state.py:178-281 | the first document of an activation is written only over what the store lets go, or the identical one of this request is returned; everything else writes nothing |
| Runtime.SetWriterPolicyFence | scripts/km-vms-update-helper-bridge.py:716-733 | a normal return leaves exactly the policies asked for, and a failure leaves the old or the new ones |
| Runtime.WriterPolicyFenceActive | scripts/km-vms-update-helper-bridge.py:736-744 | the answer is yes whenever the activation journal demands isolation |
| Runtime.StopSlotSchemaWriters | scripts/km-vms-update-helper-bridge.py:2658-2710 | with an adversarial Docker daemon, a normal return leaves no writer running and none that may be started; a failure undoes no isolation that was there |
| Runtime.ReconcileSlotRuntime | scripts/km-vms-update-helper-bridge.py:2549-2655 | ends the quiet window; a normal return means every service was materialized from the slot and the writers are fenced again if the journal demands it |
| Runtime.VerifySlotRuntime | scripts/km-vms-update-helper-bridge.py:2312-2352 | a normal return means every core service runs the image of the bound slot at that moment |
| Runtime.RunTargetSchemaMigration | scripts/km-vms-update-helper-bridge.py:2875-2916 | a migration that is ready keeps the invariant wherever it or its caller dies; in a healthy environment it leaves the target schema and its completion evidence, and nothing alive |
| Runtime.SchemaMutationCompleted | scripts/km-vms-update-helper-bridge.py:2918-2938 | a yes means the evidence names this request and this commit, and in a healthy environment the answer is exact |
| Runtime.VerifyRollbackDatabase | scripts/km-vms-update-helper-bridge.py:3037-3138 | success means no migration holds the schema lock and the schema is whole, at the source or the target version; a container that has not taken the lock is not seen |
| Runtime.PublishInstalledSlotProjection | scripts/km-vms-release-slots.py:1437-1500 | the projection is written only for the slot the pointer selects |
| Runtime.AttemptTerminalReleaseCleanup | scripts/km-vms-update-helper-bridge.py:3377-3440 | only slots that neither pointer nor journal protects are removed, and no failure is raised |
| Installation.InterferenceKeepsInv | scripts/km-vms-bootstrap.py:1045-1072 | no daemon restart, container death, policy reconcile or background migration step breaks the invariant |
| Installation.StartingKeepsInv | scripts/km-vms-update-helper-bridge.py:3545-3552 | the one migration starts only with every writer stopped and fenced, and its start keeps the invariant |
| JournalWrites.BlockKeepsInv | scripts/km-vms-update-helper-bridge.py:3006-3028 | blocking keeps the invariant and is possible only from an unsettled journal with the pointer on one of its slots |
| JournalWrites.RollBackKeepsInv | scripts/km-vms-update-helper-bridge.py:3172-3181 | a rollback begins only over a database that passed the probe: at rest, or with the container that slipped through on record |
| JournalWrites.SettleRolledBackKeepsInv | scripts/km-vms-update-helper-bridge.py:3201-3212 | `failed_rolled_back` is written only with the database and runtime proofs of the same call in hand |
| JournalWrites.InvokeKeepsInv | scripts/km-vms-update-helper-bridge.py:3523-3536 | the migration is declared invoked only while the writers are quiet |
| JournalWrites.CompleteMigrationKeepsInv | scripts/km-vms-update-helper-bridge.py:3565-3584 | completion is recorded only over the database's own evidence |
| JournalWrites.CommitKeepsInv | scripts/km-vms-update-helper-bridge.py:3720-3755 | a commit begins only after a slot runtime was started again |
| JournalWrites.SettleCompletedKeepsInv | scripts/km-vms-update-helper-bridge.py:3785-3791 | `completed` keeps the invariant when it is written from `committing_target` |
| JournalWrites.OpeningKeepsInv | scripts/km_vms_slot_core/state.py:178-281 | opening a new activation over nothing or a settled journal, under a fresh identity, archives the settled one as it stood, and keeps the invariant exactly when the identity was never used before; a database that is not at rest is inherited |
| Bridge.TransitionJournal | scripts/km-vms-update-helper-bridge.py:2951-2975 | a transition records the pointer the bridge observes, and changes the journal or nothing |
| Bridge.BlockActivation | scripts/km-vms-update-helper-bridge.py:3006-3028 | returns a blocked journal, or raises; the causes first on record stay, and otherwise it records those it was given; over a settled journal or a foreign pointer nothing is written; in a healthy environment the blocked document of an unsettled journal is written |
| Bridge.SwitchBack | scripts/km-vms-update-helper-bridge.py:3188-3200 | the pointer is put back on the previous slot and the rolling-back document records it |
| Bridge.RestoreOrBlock | scripts/km-vms-update-helper-bridge.py:3204-3248 | a failure after `rolling_back` blocks if nothing fails afterwards; one after the terminal document was written leaves it standing and raises |
| Bridge.RollbackActivation | scripts/km-vms-update-helper-bridge.py:3152-3248 | works from a stale snapshot; every normal return is a concluded `failed_rolled_back` or `blocked` under the trigger first on record, otherwise the one given; it blocks only after a stage raised, under the category of that stage, and does block if nothing fails afterwards and the journal is still open; in a healthy environment it always returns, and over a proven database it settles with the previous runtime up |
| Bridge.ReleaseAndPublish | scripts/km-vms-update-helper-bridge.py:3465-3480 | after a settled journal the projection names the winner, and unless a restore demands isolation the writers may be restarted |
| Convergence.ConvergeTargetPrepared | scripts/km-vms-update-helper-bridge.py:3492-3513 | one step on a raised rank, towards quiescing or activating; over a pointer no run has it can only block; keeps the invariant |
| Convergence.ConvergeQuiescing | scripts/km-vms-update-helper-bridge.py:3515-3585 | stops the writers, declares the migration, runs it and records it; only a stop or a migration that raised turns it back, under the trigger of that step, and rolls back if nothing fails afterwards over a proven database |
| Convergence.QuiesceAndInvoke | scripts/km-vms-update-helper-bridge.py:3523-3544 | a normal return leaves the installation ready for its one migration |
| Convergence.ConvergeSchemaPreparing | scripts/km-vms-update-helper-bridge.py:3587-3625 | a migration found in progress is accepted over its evidence or rolled back, and none is started |
| Convergence.DecideInterrupted | scripts/km-vms-update-helper-bridge.py:3587-3625 | an interrupted migration goes on to the target if its evidence is there and is rolled back otherwise, also when the schema was already migrated; the trigger is `schema_migration_interrupted` if the migration was declared invoked and `schema_journal_conflict` if not |
| Convergence.ConvergeActivating | scripts/km-vms-update-helper-bridge.py:3627-3704 | a switch that raised is looked at again: forward if it took effect, and otherwise, if nothing fails afterwards over a proven database, rolled back under `active_pointer_switch_failed`; nothing else turns it back in a run |
| Convergence.ConvergeVerifyingTarget | scripts/km-vms-update-helper-bridge.py:3706-3755 | moves to the commit only over a started and verified target; a start or a check that raised turns it back, under the identity trigger exactly for the identity and evidence codes, and if nothing fails afterwards over a proven database it is rolled back with the previous runtime up |
| Convergence.ConvergeCommittingTarget | scripts/km-vms-update-helper-bridge.py:3757-3860 | verifies the target once more before `completed`; a check that raised turns it back in the same way, and everything after that document only follows from it |
| Convergence.ConvergeFailed | scripts/km-vms-update-helper-bridge.py:3482-3486 | `rolling_back` and `blocked` are rolled back under the trigger first recorded, or else the category of the block |
| Convergence.ConvergeSettled | scripts/km-vms-update-helper-bridge.py:3465-3480 | a settled journal is returned as it stands, with pointer and projection on its winner |
| Convergence.ConvergeOnce | scripts/km-vms-update-helper-bridge.py:3451-3464 | one iteration strictly raises the phase rank or returns a terminal phase, and refuses a journal of another request untouched |
| Convergence.ConvergeActivation | scripts/km-vms-update-helper-bridge.py:3443-3887 | at most six iterations; every normal return is a concluded terminal phase; no migration is started from the migration phase on; in a healthy environment whatever is recoverable settles with the winner's runtime up, is completed if nothing stands between it and its commit, and rolled back if its migration left no evidence; if a step raised and nothing fails afterwards over a proven database (from the verification on, any sound one into which no container slipped), it ends `failed_rolled_back` with the pointer on the previous slot and its runtime up; without such a fault only an interrupted migration keeps a run from `completed`; a healthy call always returns, and over a torn database what it returns is blocked, unless a container slipped through an earlier probe |
| Convergence.SoundIsRecoverable | scripts/km-vms-update-helper-bridge.py:3152-3181 | from quiescing to the commit, the migration itself aside, the database of a sound installation is at rest at a known version unless a container slipped through an earlier probe, so a fault there can be rolled back |
| Activation.OpenActivation | scripts/km-vms-update-helper-bridge.py:3934-4058 | a new activation is opened only for a release named in full, over captures that stood during the preflight, with the previous slot active; its journal is made of them, and the invariant is kept when its identity is fresh |
| Activation.ActivateOrResume | scripts/km-vms-update-helper-bridge.py:3890-4104 | never touches an unsettled journal of another request, blocked included, nor one its arguments contradict; in a healthy environment a resume returns and settles what is recoverable, and a new activation that was opened is completed |
| Bootstrap.RepairPointer | scripts/km-vms-bootstrap.py:720-736 | moves the pointer to the winner or leaves it, and changes nothing else but the projection |
| Bootstrap.ResolveSettled | scripts/km-vms-bootstrap.py:706-736 | answers the winner of the settled journal with the pointer on it; without repair nothing durable changes |
| Bootstrap.Recover | scripts/km-vms-bootstrap.py:744-776 | a normal return means the activation settled; in a healthy environment every recoverable one does |
| Bootstrap.ResolveAuthority | scripts/km-vms-bootstrap.py:671-777 | with a journal on disk the answer is the settled winner and the pointer equals it; repair establishes that from any pointer; without repair an unsettled journal is refused as blocked or in progress; the recursion terminates |
| ActivationRuns.EveryRunIsSafe | scripts/km-vms-update-helper-bridge.py:3443-3887 | in every state of every schedule the invariant holds, and any two states are related by archived settlements and one evolving journal |
| ActivationRuns.Run | scripts/km-vms-update-helper-bridge.py:4101-4104 | executing any schedule of the modelled programs yields such a run |
| ActivationRuns.NoWriterDuringMigration | scripts/km-vms-update-helper-bridge.py:2658-2710 | while a migration container is alive or has left a torn schema, no writer runs, none may be started, and the bootstrap predicate demands isolation, unless a live container slipped through the probe of a rollback |
| ActivationRuns.InvokedDemandsIsolation | scripts/km-vms-bootstrap.py:932-946 | a declared migration demands isolation in every state until the activation settles |
| ActivationRuns.QuietWindowExactly | scripts/km-vms-update-helper-bridge.py:2658-2710 | from a writer stop to the next runtime start: no writer runs or may be started if the migration was invoked or the journal is quiescing, and an isolation there outlasts every environment exactly if the migration was invoked or the journal is not blocked or rolled back |
| ActivationLimits.WritersMayReturn | scripts/km-vms-bootstrap.py:938-946 | from every sound quiescing state a chain of steps through a writer stop and a blocked rollback to a writer running in the quiet window |
| ActivationLimits.WritersMayReturnInSample | scripts/km-vms-bootstrap.py:938-946 | one such chain that starts with a first installation |
| ActivationRuns.MigrationStartsOnce | scripts/km-vms-update-helper-bridge.py:3515-3625 | at most one migration is started for each activation over all crashes and resumes, and only after it was declared |
| ActivationRuns.CommitIsSound | scripts/km-vms-update-helper-bridge.py:3706-3860 | from verification on the pointer is the target, and the database is at rest with a required migration complete, unless the activation inherited one that still moved; from the commit on the target was verified |
| ActivationRuns.RollbackIsSound | scripts/km-vms-update-helper-bridge.py:3152-3212 | `failed_rolled_back` means the pointer is back and both proofs come from the call that settled it, and unless a live container slipped through the probe the database is at rest at a known version |
| ActivationLimits.ProbeDecidesExactly | scripts/km-vms-update-helper-bridge.py:3037-3217 | in every state of every run in which a rollback's probe passes: every rollback from there leaves a whole database that no migration moves beside a writer, in every world it leads to, if and only if no migration container is alive |
| ActivationLimits.RollbackIsSoundExactly | apps/api/app/services/schema_update_control.py:3712-3717 | the same equivalence for each of the two results alone, from any sound world |
| ActivationLimits.MigrationMayOutliveRollback | scripts/km-vms-update-helper-bridge.py:3152-3217 | from any sound world with a live container that holds no lock, a settled rollback after which the container tears the schema beside a running writer |
| ActivationLimits.InterruptedStartMayOutliveRollback | scripts/km-vms-update-helper-bridge.py:2875-2916 | how a program gets there: a chain from every sound quiescing state through a start the bridge does not survive |
| ActivationRuns.PointerLag | scripts/km_vms_slot_core/state.py:398-407 | the journal differs from the real pointer only while activating or rolling back, each in one direction |
| ActivationRuns.SettledIsPermanent | scripts/km_vms_slot_core/state.py:312-392 | a settled activation still stands or is archived as it stood, over every run |
| ActivationRuns.FailureIsPermanent | scripts/km_vms_slot_core/state.py:340-392 | the first failure category and trigger never change and the activation never leaves the failure phases |
| ActivationRuns.OnlySettledIsSuperseded | scripts/km-vms-update-helper-bridge.py:3930-3933 | whatever a run replaces by a new activation was settled |
| ActivationLimits.StoreAloneLosesBlocked | scripts/km_vms_slot_core/state.py:196-222 | over a blocked journal of another request the store opens a new activation, and the invariant is lost |
| ActivationLimits.ReusedIdentityCompletesNothing | scripts/km-vms-update-helper-bridge.py:2918-2938 | under the identity of recorded evidence, a chain from the opening to a journal that records a completed migration, with none started and the database at the source version |
| RestoreControl.ProgressReachesOwner | apps/update-control-plane/control_plane.py:1569-1747 | a published progress document is shown to its owner if and only if submission identity, artifact time and backup identity are well formed |
| RestoreControl.EndingReachesOwner | scripts/km-vms-update-helper.py:2198-2272 | the same for a published terminal document |
| RestoreControl.OnlyTheOwnerIsShown | apps/update-control-plane/control_plane.py:1622-1640 | a status is shown only to the user and subject of the request it describes |
| RestoreControl.AnswersExactly | apps/update-control-plane/control_plane.py:1569-1747 | what is not shown, exactly: nothing published, not of this user and subject, or unreadable |
| RestoreControl.ShownActionIsCalledFor | apps/update-control-plane/control_plane.py:1569-1747 | what an owner is shown asks for the next action of its word, each word for its own |
| RestoreControl.ReconcileConverges | scripts/km-vms-update-helper.py:2447-2536 | one reconcile makes receipt, journal and public status agree with the terminal request, and a second changes nothing |
| RestoreControl.ReconciledSayTheEnding | scripts/km-vms-update-helper.py:2447-2536 | after one reconcile receipt, journal and public status carry the word, the reason and the time of the ending, field by field |
| RestoreControl.LostWritesAreRestored | scripts/km-vms-update-helper.py:2335-2433 | whichever derived writes of a finish are lost, what one reconcile leaves: a lost journal is rebuilt from the backup it named before and the marker |
| RestoreControl.RestoredAsFinishedExactly | scripts/km-vms-update-helper.py:2335-2536 | these are the documents the finish would have left exactly when the journal was not lost, or already named the backup and the marker is as the handler believed |
| RestoreInstallation.IsolationLasts | scripts/km-vms-bootstrap.py:947-1042 | while the predicate does not release the fence and no activation is resumed, isolation lasts, and the database stands still unless a surviving container acts |
| RestoreEffects.StopRestoreWriters | scripts/km-vms-update-helper.py:3083-3099 | while the published journal demands isolation, a normal return leaves no writer running and none that may be started, unless an activation was resumed meanwhile |
| RestoreEffects.PublishRestorePhase | scripts/km-vms-update-helper.py:2312-2332 | the journal names the phase and the backup before the public status does, and a fenced isolation survives the publication |
| RestoreEffects.RestartWritersBestEffort | scripts/km-vms-update-helper.py:3224-3263 | swallows every failure, and a yes in a calm environment means both writers run |
| RestoreEffects.TakePreRestoreBackup | apps/api/app/services/current_db_restore_executor.py:298-354 | a verified backup holds exactly the database of its moment, under a new well-formed identity, and isolation outlasts it |
| RestoreEffects.RestoreKeepsInv | apps/api/app/services/current_db_restore_executor.py:431-488 | a restore under isolation, with its backup on record, keeps the invariant however it ends, also when its container outlives the call |
| RestoreFinish.WriteTerminalRequest | scripts/km-vms-update-helper.py:2335-2400 | only the claimed request may end, in exactly the terminal form; a write reported as failed is confirmed by reading back |
| RestoreFinish.FinishRestoreRequest | scripts/km-vms-update-helper.py:2335-2444 | the terminal word is durable first, with its reason and failed phase; on a favourable return all derived documents agree with it, and isolation is demanded exactly if recovery is required |
| RestoreFinish.FollowEnd | scripts/km-vms-update-helper.py:2401-2444 | after a durable `failed_recovery_required` the fence is not released: an isolation there lasts through all derived writes |
| RestoreHandler.PrepareRestore | scripts/km_vms_helper_handlers/restore.py:88-133 | up to `restore_running` the database is untouched, and a normal return leaves it isolated with the verified backup named by the journal |
| RestoreHandler.ApplyRestore | scripts/km_vms_helper_handlers/restore.py:134-173 | wherever the destructive half raises, a rollback to the recorded backup may begin or the request is over |
| RestoreHandler.HandleFailure | scripts/km_vms_helper_handlers/restore.py:174-238 | a failed pass rolls back if anything destructive may have begun and blocks otherwise, and if nothing fails in it ends well, for the reason and in the phase of the failure |
| RestoreHandler.RunFreshRestore | scripts/km_vms_helper_handlers/restore.py:88-238 | a pass that raises and after which nothing fails is rolled back if anything destructive may have begun and blocked otherwise; without a fault it ends `completed` |
| RestoreHandler.RecoverServices | scripts/km_vms_helper_handlers/rollback.py:77-112 | a normal return without a problem saw the API start, the check pass and the recorder start; a problem names the reason and the phase of the step that raised, with just the earlier ones seen |
| RestoreHandler.RollbackCurrentRestore | scripts/km_vms_helper_handlers/rollback.py:21-130 | every outcome it writes is true, and `failed_rolled_back` is written only if no step raised; if the stop, the restore or a service raises and nothing fails afterwards, the request ends `failed_recovery_required` for the reason and in the phase of that step, every document says so and isolation is still demanded; in a favourable environment the database is back on the backup and the writers are in service |
| RestoreHandler.RunCurrentRestore | scripts/km_vms_helper_handlers/restore.py:29-238 | a marker means rollback, a journal without a marker means blocked, neither means a fresh restore; the two interrupted endings carry their own reasons and the recorded phase; the invariant is kept wherever the pass ends |
| RestoreHandler.ConvergeUnhandledRestoreFailure | scripts/km_vms_helper_handlers/restore.py:240-286 | the marker alone decides between rollback and blocked, and the invariant is kept |
| RestoreRuns.ClaimRestoreRequest | scripts/km-vms-update-helper.py:2539-2562 | a waiting request is claimed, a claimed one taken up again, and a terminal one left alone |
| RestoreRuns.AdmitRestore | apps/api/app/services/current_db_restore.py:717-842 | only a finished request is replaced; if nothing fails the receipt holds the new one and its owner is told that it is queued |
| RestoreRuns.ServiceRestore | scripts/km-vms-update-helper.py:3313-3345 | a turn in which nothing fails ends every pending request with the word its evidence calls for, with all documents agreeing and the writers back |
| RestoreRuns.ReconcileTerminalProjection | scripts/km-vms-update-helper.py:2447-2536 | without a failing write the reconcile computes the specified projections, and the request and its truth stand |
| RestoreRuns.TerminalWordIsTrue | scripts/km_vms_helper_handlers/restore.py:29-238 | in every state of every run in which no surviving container has acted, `completed` means the chosen artifact, `failed_rolled_back` the verified backup, and `blocked` a database no restore touched; without a container that outlives its call this is every state |
| RestoreRuns.TerminalWordIsServed | scripts/km_vms_helper_handlers/rollback.py:77-130 | over every run, `completed` and `failed_rolled_back` were written by a call that saw the API start, the database pass its check and the recorder start; a recovery required for a service, by one that saw just the services before it |
| RestoreRuns.TruthLasts | scripts/km_vms_helper_handlers/restore_executor.py:18-105 | such a word over which no container is alive stays true until the next admission, whatever happens |
| RestoreLimits.TruthLastsExactly | apps/api/app/services/current_db_restore_executor.py:431-488 | a true word survives every schedule of the surviving containers if and only if there is none |
| RestoreLimits.SurvivorsKeepInv | apps/api/app/services/current_db_restore_executor.py:431-488 | no schedule of surviving containers breaks the invariant or changes the request |
| RestoreLimits.BlockedMayTurnFalse | scripts/km-vms-update-helper.py:2580-2623 | from every prepared restore: the helper dies after the executor's check, the restarted one blocks rightly, and then the container writes the marker and replaces the database under running writers |
| RestoreLimits.RolledBackMayTurnFalse | scripts/km_vms_helper_handlers/restore_executor.py:51-66 | the same for a call that times out and a rollback that succeeded: the word turns false unless the artifact descends from the backup |
| RestoreRuns.OwnerIsShown | apps/api/app/services/current_db_restore.py:717-842 | in every state of every run, whatever is published about the current request is shown to its owner |
| RestoreRuns.RestoresAreIsolated | scripts/km_vms_helper_handlers/rollback.py:58-82 | over every run, no restore of the current request changed the database while a writer ran or could be started, unless a container outlived its call or an activation was resumed in it, and that only if one was unsettled at the admission or opened since |
| RestoreLimits.IsolationLastsExactly | apps/api/app/services/maintenance_admission.py:198-218 | while a restore demands isolation, it lasts through every schedule of the environment without a new activation if and only if no activation is unsettled |
| RestoreLimits.ResumedActivationExposes | scripts/km-vms-update-helper-bridge.py:3188-3217 | from every prepared restore beside an unsettled activation: it is resumed, and whatever succeeds of the restore then happens under running writers, with the invariant kept |
| RestoreLimits.AdmittedBesideActivation | apps/api/app/services/maintenance_admission.py:198-218 | a restore is admitted while an activation is unsettled |
| RestoreLimits.ConcludedIsFinished | scripts/km-vms-update-helper.py:2335-2444 | the endings of the two chains are what the finish promises in a favourable environment: terminal form, agreeing documents, writers in service |
| RestoreRuns.MarkerImpliesBackup | scripts/km_vms_helper_handlers/restore.py:101-140 | the marker of the claimed operation implies that its journal already names the backup, which holds the database of before |
| RestoreRuns.IsolationIsDemanded | scripts/km-vms-bootstrap.py:947-1042 | while the marker is set or recovery is required the bootstrap predicate is true and does not raise, whatever the activation journal says |
| RestoreRuns.EvidenceIsConsistent | scripts/km-vms-bootstrap.py:1005-1042 | the predicate raises in a run only between a claim and its first published phase |
| RestoreRuns.TerminalIsPermanent | scripts/km-vms-update-helper.py:2373-2418 | a terminal request is never changed again, except by a new admission |
| UpdateClaim.Helper.PublishTerminal | scripts/km-vms-update-helper.py:1165-1214 | the status file is written before the request ends; an ended request keeps its word, and the two words agree exactly when the request was claimed or had ended with this word |
| UpdateClaim.Helper.PublishActivationOutcome | scripts/km-vms-update-helper.py:1720-1820 | a normal return announces `committed` exactly for a completed activation, `failed_rolled_back` exactly for one rolled back, `blocked` exactly for a blocked one; an unsettled one is never published |
| UpdateClaim.Helper.ClaimCurrentRequest | scripts/km-vms-update-helper.py:1217-1273 | a new request is handed out to be started, a claimed one only to be resumed, an ended one never |
| UpdateClaim.Helper.RunUpdate | scripts/km_vms_helper_handlers/update.py:29-113 | counts one start and keeps the invariant when the request was never started before; if nothing fails, the word is that of the activation found, and `committed` where there is none and the child succeeded |
| UpdateClaim.Helper.ResumeActivation | scripts/km-vms-update-helper.py:1831-1863 | publishes what became of a claimed request and starts nothing; if nothing fails, the word is that of the activation found |
| UpdateClaim.Helper.ServiceUpdate | scripts/km-vms-update-helper.py:3346-3405 | a turn in which nothing fails ends a waiting request with the word its activation calls for, and starts it only if it was new; if no effect is reported as failed that took place, the two words agree |
| UpdateClaim.StartsAtMostOnce | scripts/km-vms-update-helper.py:3351-3400 | over every run with any number of restarts each request is started at most once |
| UpdateClaim.EndedNeverReverts | scripts/km-vms-update-helper.py:1217-1273 | an ended request keeps its word until a new one is admitted |
| UpdateClaim.WordsAreWarranted | scripts/km-vms-update-helper.py:1720-1820 | over every run, a request that ended `committed` was seen with its activation completed, or with none of its own and the new commit verified; one that ended rolled back or blocked was seen with the activation that says so |
| UpdateClaim.AnnouncedBeforeEnded | scripts/km-vms-update-helper.py:1165-1214 | a request that was not cancelled ends only after its status file announced a terminal word, and the two words agree if and only if the status file does not announce a failure over another word, which it does only if the ending write took effect and was reported as failed |
| UpdateClaim.WordsMayDisagree | scripts/km-vms-update-helper.py:3346-3405 | one turn of the loop that ends with a committed request and a status file announcing failure |
| RetryAdmission.Controller.CreateRetry | apps/update-control-plane/control_plane.py:1162-1500 | a fresh admission takes a confirmed body for its target, a contract that is failed, retryable and helper-terminal, and its own well-formed request on disk, and any other call leaves both files, or finishes an admission already on record; it replaces at most the contract's own request, answers with the retry that is now on disk, repeats an earlier answer word for word, and if nothing fails answers exactly the calls so entitled |
| RetryAdmission.Controller.AdmitNew | apps/update-control-plane/control_plane.py:1354-1500 | refuses as not available exactly a contract that is not failed, retryable and helper-terminal; a refused call leaves both files as they are, and if nothing fails exactly the available ones are answered |
| RetryAdmission.Controller.Reconcile | apps/update-control-plane/control_plane.py:1289-1352 | an admission whose request write was lost is finished, exactly when the original or the retry is on disk, and a foreign request is never overwritten |
| RetryAdmission.InstallKeepsInv | apps/update-control-plane/control_plane.py:1454-1500 | installing the admitted retry is the first retry of that original |
| RetryAdmission.AnswersAgree | apps/update-control-plane/control_plane.py:1318-1352 | every answer to one contract names the same retry and attempt |
| RetryAdmission.RetriedAtMostOnce | apps/update-control-plane/control_plane.py:1162-1500 | over every run with crashes between the two writes each original is retried at most once |
| RetryAdmission.EveryRetryWasEntitled | apps/update-control-plane/control_plane.py:1354-1500 | every retry installed in a run was admitted by a call of it that confirmed the target of a failed, retryable contract with the helper done; it carries the source and the requester of its original, which name that target |
| RetryAdmission.AnswersNeverChange | apps/update-control-plane/control_plane.py:1318-1352 | all accepted answers to one contract, at any two points of a run, are the same and name an installed retry |
| RetryAdmission.OnlyTheOriginalIsReplaced | apps/update-control-plane/control_plane.py:1357-1368 | one step of the program overwrites only the request its contract names |
| RetryAdmission.RetriesFormChains | apps/update-control-plane/control_plane.py:1162-1500 | over every run the request file never held a name twice, and each retry in it follows its original, directly |
| PathText.ComponentsOfRender | scripts/km-vms-archive-policy.py:147-147 | reading back the text of a canonical path gives its components |
| PathText.OverlapsIsRelated | scripts/km-vms-archive-policy.py:149-150 | on canonical texts the string test holds exactly when one component list is a prefix of the other, the root included |
| HostResolver.Canonical | scripts/km-vms-archive-policy.py:118-147 | the loop with its counters computes the specified walk, and the step counter bounds it |
| HostResolver.CanonicalExactly | scripts/km-vms-archive-policy.py:118-147 | the result is exactly the directory that the relation without limits gives, in at most 512 steps through at most 40 links |
| HostResolver.MissingPaths | scripts/km-vms-archive-policy.py:118-147 | a path of plain names fails as missing at the first name its directory does not have, and as no directory behind a file |
| HostResolver.DerivesOnce | scripts/km-vms-archive-policy.py:118-147 | a path denotes at most one place, in one way; a link is read from the directory that holds it or, if it begins with a slash, from the root |
| HostResolver.ResultIsLinkFree | scripts/km-vms-archive-policy.py:118-147 | every prefix of a result exists and is no link, so it never leaves the host root |
| HostResolver.CanonicalIsIdempotent | scripts/km-vms-archive-policy.py:118-147 | resolving the text of a result gives the result |
| HostResolver.AgreesWithPosix | scripts/km-vms-archive-policy.py:118-147 | where both readings give a path a meaning they give the same one |
| HostResolver.PosixAcceptsExactly | scripts/km-vms-archive-policy.py:128-132 | a resolved path is rejected by POSIX exactly when it leaves a file by dot-dot |
| HostResolver.RefusesExactly | scripts/km-vms-archive-policy.py:128-132 | a POSIX path is refused, the limits aside, exactly when it takes dot-dot at the root |
| HostResolver.PosixDeviations | scripts/km-vms-archive-policy.py:128-132 | both deviations happen, on concrete trees |
| ArchiveApproval.ApproveItems | scripts/km-vms-archive-policy.py:152-229 | the probe succeeds exactly when its places can be located and each item is granted or awaited, and then returns the folders of the granted items under their own targets, in the order of the request |
| ArchiveApproval.JudgedExactly | scripts/km-vms-archive-policy.py:191-228 | an existing folder is approved, under the item's own target, if and only if it is not the root, no mount, unrelated to the Docker root, and either asks for the default or is unrelated to the app directory, below no blocked directory, and trusted or new: directly on a volume, unrelated to every trusted archive, and holding nothing but the product's own entries |
| ArchiveApproval.VerdictExactly | scripts/km-vms-archive-policy.py:181-190 | an item is approved if its folder exists and may be, passed over if it is missing, inactive, not the default and its parent is a volume, and refused otherwise |
| ArchiveApproval.CollectedExactly | scripts/km-vms-archive-policy.py:180-229 | the answer holds exactly the granted items, in the order of the request |
| ArchiveApproval.ContentsExactly | scripts/km-vms-archive-policy.py:202-227 | the bounded look into a new folder accepts exactly the folders in which every path of the first two levels is one the product itself puts there |
| ArchiveApproval.BlockedExactly | scripts/km-vms-archive-policy.py:161-161 | the text test for blocked directories holds exactly for paths whose first name is one of them |
| ArchiveApproval.DefaultIsBelowApp | scripts/km-vms-archive-policy.py:153-153 | the textual test for the default archive is the component test, except below an app directory at the root, where it never succeeds |
| ArchiveApproval.ApprovedAreRightful | scripts/km-vms-archive-policy.py:180-201 | every approved folder is a link-free directory unrelated to the Docker root and, unless default, to the app directory; a new one lies directly on a volume and apart from every trusted archive |
| SourceInventory.WalkDirectory | scripts/km_vms_slot_core/inventory.py:110-245 | the pruned walk of a directory gives the same entries or the same failure whatever order each directory is listed in |
| SourceInventory.ProductInventory | scripts/km_vms_slot_core/inventory.py:110-245 | the inventory of a source root does not depend on enumeration order |
| SourceInventory.AgreeingWalk | scripts/km_vms_slot_core/inventory.py:11-72 | trees that agree on what is not excluded have the same walk, entries and failures alike |
| SourceInventory.SecretsAreExcluded | scripts/km_vms_slot_core/inventory.py:11-72 | a name that is, ends, contains or begins with what only secrets do is excluded in every folder, whatever its case; the one example at the root is not |
| SourceInventory.BlockedFoldersHideAll | scripts/km_vms_slot_core/inventory.py:11-72 | nothing at any depth below a blocked folder is ever seen |
| NameOrder.SortedForgetsOrder | scripts/km_vms_slot_core/inventory.py:187-200 | sorting forgets the order in which names were listed |
| InventoryInvariance.AgreeingInventory | scripts/km_vms_slot_core/inventory.py:110-245 | source roots that agree on what is seen have the same inventory |
| InventoryContents.InventoryHolds | scripts/km_vms_slot_core/inventory.py:110-245 | an inventory holds an entry exactly if a visible file or folder of the source has it |
| InventoryContents.InventoryExactly | scripts/km_vms_slot_core/inventory.py:110-245 | two readable sources have the same inventory if and only if they agree on everything visible, the contents of files included |
| InventoryContents.IncompleteExactly | scripts/km_vms_slot_core/inventory.py:110-245 | a source is refused as incomplete exactly if it lacks a required path or has a link there |
| InventoryInvariance.ExcludedEntriesDoNotCount | scripts/km_vms_slot_core/inventory.py:11-72 | adding, replacing or removing any excluded entry at any depth changes nothing |
| InventoryInvariance.CopyProductSource | scripts/km_vms_slot_core/inventory.py:248-298 | the copy succeeds exactly when every product path is a file or a folder, and yields the pruned tree |
| InventoryInvariance.CopyKeepsInventory | scripts/km_vms_slot_core/inventory.py:248-298 | the copy has the inventory of its source, or fails alike |
| InventoryContents.CopyHoldsExactly | scripts/km_vms_slot_core/inventory.py:248-298 | the copy holds a path exactly if the source does and no prefix of it is excluded, and files are copied whole |
| InventoryInvariance.CleanupKeepsInventory | scripts/km-vms-release-slots.py:1084-1142 | the cleanup succeeds exactly when every cache has a safe plan, and then leaves no cache and the inventory as it was |
| InventoryInvariance.FailedCleanupKeepsInventory | scripts/km-vms-release-slots.py:1084-1142 | a cleanup that removed only part of the caches keeps the inventory too |
| InventoryInvariance.FrozenIsReadOnly | scripts/km-vms-release-slots.py:921-979 | a frozen tree passes the read-only validation at every depth |
| InventoryInvariance.ReadOnlyExactly | scripts/km-vms-release-slots.py:961-978 | the read-only validation accepts exactly the trees without a link or a writable file or folder at any depth |
| InventoryInvariance.FreezeMapsInventory | scripts/km-vms-release-slots.py:921-958 | for every tree the walk can read, the inventory after a freeze is the inventory before it, entry by entry, with the frozen modes |
| InventoryInvariance.FreezeKeepsInventoryExactly | scripts/km-vms-release-slots.py:921-958 | a freeze keeps the inventory if and only if every recorded folder is readable and searchable by its owner |
| InventoryInvariance.FinalizeAgreesExactly | scripts/km-vms-release-slots.py:1228-1345 | a candidate is published and its slot agrees with its manifest exactly when it matches its inventory, is freezable and its folders are owner-searchable |
| InventoryInvariance.SlotKeepsInventory | scripts/km-vms-release-slots.py:1177-1225 | copied, finalized, used with caches left behind and cleaned, a source keeps its inventory throughout |

## Left out

- Docker and Compose commands, container inspection, image evidence, HTTP probes and plan digests are effects that succeed, fail or crash; digests are compared values, and no clock value matters except as a stamp.
- Locks, `fsync`, permissions of control files and signatures: a write is durable or did not happen, and a lock is mutual exclusion that a crash releases.
- Runtime.VerifyRollbackDatabase: the probe is a truthful oracle of schema and lock that may be unavailable; its SQL is not modelled.
- Runtime.RunTargetSchemaMigration: a Compose client that outlives the bridge before it created its container counts as a live container without its lock. There is one container at a time: a migration started by an activation that inherited a moving database takes the place of the earlier one.
- Runtime.SetWriterPolicyFence: one policy reconcile is one atomic step over all services.
- Runtime.AttemptTerminalReleaseCleanup: which protected rollback slots are retained beyond pointer and journal, and the bookkeeping of deferred cleanup, are not modelled.
- Activation.OpenActivation: captures and the schema preflight are reports compared with each other; how a binding is computed from a slot is not modelled.
- Convergence.ConvergeCommittingTarget: the helper handoff after the commit is one retryable effect whose failure is only reported.
- Identifier case folding, legacy journal shapes without schema lineage, and the binding of an adopted legacy slot are not modelled.
- ActivationRuns.EveryRunIsSafe: request identities are assumed not to be reused; `ReusedIdentityCompletesNothing` shows why.
- RestoreRuns.TerminalWordIsTrue: `failed_recovery_required` claims nothing about the database. Only a `restore` container can outlive its call; one of another executor action ends with it. A survivor that meddles in a restore the helper waits for tears it at worst.
- RestoreRuns.RestoresAreIsolated: a resumed activation starts the writers and releases their fence in one step; a migration it runs itself counts as the writers' edits.
- A new restore is admitted, with its receipt and queued status, only between two passes of the helper; the admission checks of the API are reduced to a well-formed request with a fresh identity over a finished one.
- UpdateClaim.Helper.RunUpdate: authorization of the source, the child process and the commit check are single checks that may fail; the schema-retry request kind is left out.
- RetryAdmission.Controller.CreateRetry: the admission signature and the request fingerprint are comparisons of whole documents; the maintenance-idle check is left out.
- ArchiveApproval.ApproveItems: whether a marker file parses as the product's own is one boolean, and mount points are given, not parsed from the mount table.
- HostResolver.Canonical: the tree is static during one resolution, and a component is looked up by its exact name.
- Runtime.ReconcileSlotRuntime: all seven services are started, where the program starts those the slot's manifest names.
- SourceInventory.ProductInventory: file read errors, size races, and folders that the walk skips silently because its user cannot read them are left out; the payload digest is the sorted list of entries.
- InventoryInvariance.AgreeingInventory: required paths are taken to be visible ones, as every required path of the program is.
- InventoryInvariance.FreezeMapsInventory: folders the walking user cannot read, which the walk skips silently, are taken not to occur.
- InventoryInvariance.CleanupKeepsInventory: the limits on the number of entries, and the `chmod` before each removal, are left out.
- InventoryInvariance.FinalizeAgreesExactly: the manifest evidence is compared as a whole; freeze, cache cleanup and finalize compute new tree values; the order of `chmod`, `unlink` and `rename` and their partial failures are not modelled.
- The recorder, the web application, HTTP handlers, tokens, the publisher lookup, diagnostics and browser tests are left out: they are I/O or single checks.
