/** Each kind of journal write the convergence makes, and why it keeps the invariant. */
module JournalWrites {
  import opened Wrappers
  import opened Contracts
  import opened ActivationJournal
  import opened Installation
  import opened Runtime
  import opened SlotStore

  function BlockUpdate(category: Code, trigger: Option<Code>): Update {
    NO_UPDATE.(failureCategory := Some(category), rollbackTrigger := trigger)
  }

  function RollbackUpdate(trigger: Code, proven: bool): Update {
    NO_UPDATE.(rollbackTrigger := Some(trigger), databaseVerified := proven)
  }

  function RolledBackUpdate(category: Code, trigger: Code): Update {
    NO_UPDATE.(previousVerified := Some(true), rollbackTrigger := Some(trigger), failureCategory := Some(category))
  }

  const MIGRATION_INVOKED := NO_UPDATE.(migrationInvoked := Some(true))

  const MIGRATION_COMPLETED := NO_UPDATE.(migrationInvoked := Some(true), migrationCompleted := Some(true))

  const TARGET_VERIFIED := NO_UPDATE.(targetVerified := Some(true))

  /** An accepted write, a refused one and the environment around them all go on with the
      same activation. */
  lemma WriteContinues(u: World, w: World, v: World, r: RequestId, phase: Phase, update: Update)
    requires u.files.journal.Some? && Interfered(u, w)
    requires v == w || Written(w, v, r, phase, update)
    ensures Continues(u, v)
    ensures v.past == u.past && v.files == u.files.(journal := v.files.journal)
    ensures v.files.journal.Some? && (v != w ==> v.files.journal.value.phase == phase)
    ensures update.migrationInvoked.None? && update.migrationCompleted.None? ==>
      v.files.journal.value.schema == u.files.journal.value.schema
  {
    EvolvesIsReflexive(u.files.journal.value);
  }

  /** The written document carries the causes its update names, and keeps the others. */
  lemma WriteRecords(w: World, v: World, r: RequestId, phase: Phase, u: Update)
    requires Written(w, v, r, phase, u) && phase != Completed
    ensures var j, k := w.files.journal.value, v.files.journal.value;
      && !Replaces(j.rollbackTrigger, u.rollbackTrigger)
      && k.rollbackTrigger == (if u.rollbackTrigger.Some? then u.rollbackTrigger else j.rollbackTrigger)
      && k.failureCategory == (if u.failureCategory.Some? then u.failureCategory else j.failureCategory)
  {
  }

  ghost predicate RollingBackWith(w: World, trigger: Code) {
    && Inv(w) && w.files.journal.Some?
    && w.files.journal.value.phase == RollingBack
    && w.files.journal.value.rollbackTrigger == Some(trigger)
  }

  /** Blocking is always safe: it claims nothing about the database or the runtime. */
  lemma BlockKeepsInv(w: World, v: World, r: RequestId, category: Code, trigger: Option<Code>)
    requires Written(w, v, r, Blocked, BlockUpdate(category, trigger))
    ensures Inv(w) ==> Inv(v)
    ensures !Settled(w.files.journal.value.phase)
    ensures var j := w.files.journal.value; w.files.pointer in {None, Some(j.previous.slotId), Some(j.target.slotId)}
  {
  }

  /** The database is at rest, or the probe that said so missed a container. */
  predicate Cleared(w: World) {
    w.past.slipped || AtRest(w.data)
  }

  /** Rolling back starts only over a database that passed the probe. */
  lemma RollBackKeepsInv(w: World, v: World, r: RequestId, trigger: Code, proven: bool)
    requires Inv(w) && Written(w, v, r, RollingBack, RollbackUpdate(trigger, proven))
    requires Cleared(w)
    ensures RollingBackWith(v, trigger)
  {
  }

  lemma RollBackAgainKeepsInv(u: World, w: World, v: World, r: RequestId, trigger: Code)
    requires RollingBackWith(u, trigger) && Interfered(u, w)
    requires v == w || Written(w, v, r, RollingBack, RollbackUpdate(trigger, false))
    ensures RollingBackWith(v, trigger)
  {
    InterferenceKeepsInv(u, w);
    if v != w {
      RollBackKeepsInv(w, v, r, trigger, false);
    }
  }

  /** A rollback settles with both proofs of its own call in hand. */
  lemma SettleRolledBackKeepsInv(w: World, v: World, r: RequestId, category: Code, trigger: Code)
    requires Inv(w) && Written(w, v, r, FailedRolledBack, RolledBackUpdate(category, trigger))
    requires w.past.databaseProof == w.past.call && w.past.runtimeProof == w.past.call
    requires w.past.quiet ==> !w.files.journal.value.schema.migrationInvoked
    ensures Inv(v)
  {
  }

  lemma QuiesceKeepsInv(w: World, v: World, r: RequestId)
    requires Inv(w) && Written(w, v, r, Quiescing, NO_UPDATE)
    requires w.files.journal.value.phase == TargetPrepared && w.files.journal.value.schema.migrationRequired
    ensures Inv(v)
  {
  }

  /** The migration is declared invoked only while the writers are quiet. */
  lemma InvokeKeepsInv(w: World, v: World, r: RequestId)
    requires Inv(w) && Written(w, v, r, SchemaPreparing, MIGRATION_INVOKED)
    requires w.files.journal.value.phase == Quiescing && w.past.quiet
    ensures Inv(v)
  {
  }

  /** Completion is recorded only over the database's own evidence. */
  lemma CompleteMigrationKeepsInv(w: World, v: World, r: RequestId)
    requires Inv(w) && Written(w, v, r, SchemaPreparing, MIGRATION_COMPLETED)
    requires w.files.journal.value.phase == SchemaPreparing
    requires w.files.journal.value.schema.migrationCompleted || w.past.inherited
             || (w.data.evidence.Some? && w.data.evidence.value.requestId == r)
    ensures Inv(v)
  {
  }

  lemma ActivateKeepsInv(w: World, v: World, r: RequestId)
    requires Inv(w) && Written(w, v, r, Activating, NO_UPDATE)
    requires w.files.journal.value.phase in {TargetPrepared, SchemaPreparing}
    requires w.files.journal.value.schema.migrationRequired ==> w.files.journal.value.schema.migrationCompleted
    ensures Inv(v)
  {
  }

  lemma VerifyKeepsInv(w: World, v: World, r: RequestId)
    requires Inv(w) && Written(w, v, r, VerifyingTarget, NO_UPDATE)
    requires w.files.pointer == Some(w.files.journal.value.target.slotId)
    ensures Inv(v)
  {
  }

  /** A commit begins only after a slot runtime was started again. */
  lemma CommitKeepsInv(w: World, v: World, r: RequestId)
    requires Inv(w) && Written(w, v, r, CommittingTarget, TARGET_VERIFIED)
    requires !w.past.quiet
    ensures Inv(v)
  {
  }

  /** Settling as completed clears the failure fields, and there is nothing to clear. */
  lemma SettleCompletedKeepsInv(w: World, v: World, r: RequestId)
    requires Inv(w) && Written(w, v, r, Completed, TARGET_VERIFIED)
    requires w.files.journal.value.phase == CommittingTarget
    ensures Inv(v)
    ensures w.files.journal.value.failureCategory.None? && w.files.journal.value.rollbackTrigger.None?
  {
  }

  /** No archived activation used this request identity. */
  ghost predicate Fresh(p: Past, request: RequestId) {
    forall a :: a in p.archive ==> a.requestId != request
  }

  predicate NoneOrSettled(journal: Option<Journal>) {
    journal.Some? ==> Settled(journal.value.phase)
  }

  /** Opening a new activation over nothing or over a settled one, with a truthful preflight,
      keeps the invariant exactly when no earlier activation had the request identity. */
  lemma OpeningKeepsInv(w: World, request: RequestId, previous: SlotBinding, target: SlotBinding, schema: SchemaRecord)
    requires Inv(w) && Openable(w.files, request, previous, target, schema)
    requires NoneOrSettled(w.files.journal)
    requires w.files.pointer == Some(previous.slotId) && target.slotId in w.files.slots
    requires !w.past.slipped ==> schema.sourceVersion == w.data.db.version
    ensures Inv(Opening(w, request, previous, target, schema)) <==> Fresh(w.past, request)
    ensures Progressed(w, Opening(w, request, previous, target, schema))
  {
    hide ValidateIdentity;
    if w.files.journal.Some? {
      EvolvesIsReflexive(w.files.journal.value);
    }
    if a :| a in w.past.archive && a.requestId == request {
      assert a in Opening(w, request, previous, target, schema).past.archive;
    }
  }

  // ---------------------------------------------------------------------------
  // Changes that are not journal writes
  // ---------------------------------------------------------------------------

  function PointerMoved(w: World, slot: SlotId): World {
    w.(files := w.files.(pointer := Some(slot)))
  }

  lemma SwitchToTargetKeepsInv(w: World)
    requires Inv(w) && w.files.journal.Some? && w.files.journal.value.phase == Activating
    ensures Inv(PointerMoved(w, w.files.journal.value.target.slotId))
  {
  }

  lemma SwitchToPreviousKeepsInv(w: World)
    requires Inv(w) && w.files.journal.Some? && w.files.journal.value.phase == RollingBack
    ensures Inv(PointerMoved(w, w.files.journal.value.previous.slotId))
  {
  }

  /** Starting a slot runtime is safe whenever the database is whole and the phase no
      longer promises a quiet window. */
  lemma RuntimeStartKeepsInv(w: World, v: World)
    requires Inv(w) && w.files.journal.Some? && w.files.journal.value.phase in {VerifyingTarget, RollingBack}
    requires RuntimeMoved(w, v) && v.past == w.past.(quiet := false)
    ensures Inv(v)
  {
  }

  /** Stopping the writers keeps the invariant while the journal is quiescing. */
  lemma StopKeepsInv(w: World, v: World)
    requires Inv(w) && w.files.journal.Some? && w.files.journal.value.phase == Quiescing
    requires RuntimeMoved(w, v) && (v.past.quiet ==> Isolated(v))
    ensures Inv(v)
  {
  }

  /** The fence may be released once the activation is settled. */
  lemma ReleaseKeepsInv(w: World)
    requires Inv(w) && w.files.journal.Some? && Settled(w.files.journal.value.phase)
    ensures Inv(w.(docker := w.docker.(always := Policies(false))))
  {
  }

  lemma PublishKeepsInv(w: World, binding: SlotBinding)
    requires Inv(w)
    ensures Inv(w.(files := w.files.(projection := Some(binding))))
  {
  }

  /** Cleanup never removes the previous slot, the target slot or the active one. */
  lemma CleanupKeepsInv(w: World)
    requires Inv(w)
    ensures Inv(w.(files := w.files.(slots := w.files.slots * ProtectedSlotIds(w.files))))
  {
  }

  /** Noting a proof or a new rollback call keeps the invariant until the phase settles. */
  lemma NotesKeepInv(w: World, call: nat, databaseProof: nat, runtimeProof: nat, slipped: bool)
    requires Inv(w) && w.files.journal.Some? && w.files.journal.value.phase != FailedRolledBack
    requires w.past.slipped ==> slipped
    ensures Inv(w.(past := w.past.(
      call := call, databaseProof := databaseProof, runtimeProof := runtimeProof, slipped := slipped)))
  {
  }

  /** The trigger a rollback may carry: a machine code that replaces no earlier one. */
  predicate MayRollBack(f: Files, trigger: Code) {
    && f.journal.Some? && !Settled(f.journal.value.phase)
    && IsMachineCode(trigger)
    && f.journal.value.rollbackTrigger in {None, Some(trigger)}
  }

  // ---------------------------------------------------------------------------
  // Writes a healthy store accepts
  // ---------------------------------------------------------------------------

  /** What is left to check of an admitted step into a failure phase. */
  lemma FailureIsValid(j: Journal, phase: Phase, u: Update, pointer: SlotId)
    requires ValidateJournal(j) && !Settled(j.phase) && phase in {RollingBack, Blocked, FailedRolledBack}
    requires UpdateAdmitted(j, phase, u) && u.migrationInvoked.None? && u.migrationCompleted.None? && u.targetVerified.None?
    requires u.previousVerified == if phase == FailedRolledBack then Some(true) else None
    requires pointer in {j.previous.slotId, j.target.slotId}
    requires phase == Blocked ==> u.failureCategory.Some?
    requires phase == FailedRolledBack ==>
      pointer == j.previous.slotId && u.failureCategory.Some? && u.rollbackTrigger.Some?
    ensures Transition(j, phase, u, Some(pointer)).Success?
  {
    hide ValidateIdentity, IsMachineCode;
    EditKeepsIdentity(j, phase, u, Some(pointer));
  }

  lemma RollingBackAgainAdmitted(w: World, trigger: Code)
    requires RollingBackWith(w, trigger)
    ensures Admits(w.files, w.files.journal.value.requestId, RollingBack, RollbackUpdate(trigger, false))
  {
    hide ValidateIdentity;
    EditKeepsIdentity(w.files.journal.value, RollingBack, RollbackUpdate(trigger, false), w.files.pointer);
  }

  lemma SettleRolledBackAdmitted(w: World, trigger: Code)
    requires RollingBackWith(w, trigger) && w.files.pointer == Some(w.files.journal.value.previous.slotId)
    ensures var j := w.files.journal.value;
      Admits(w.files, j.requestId, FailedRolledBack, RolledBackUpdate(if j.failureCategory.Some? then j.failureCategory.value else trigger, trigger))
  {
    hide ValidateIdentity, IsMachineCode, DatabaseInv, QuietInv, HistoryInv, Transition;
    var j := w.files.journal.value;
    FailureIsValid(
      j, FailedRolledBack, RolledBackUpdate(if j.failureCategory.Some? then j.failureCategory.value else trigger, trigger),
      w.files.pointer.value);
  }

  /** A rollback may begin from every unsettled phase with the trigger that phase implies. */
  lemma RollBackAdmitted(w: World, trigger: Code)
    requires Inv(w) && MayRollBack(w.files, trigger)
    ensures Admits(w.files, w.files.journal.value.requestId, RollingBack, RollbackUpdate(trigger, true))
  {
    hide ValidateIdentity, IsMachineCode, DatabaseInv, QuietInv, HistoryInv, Transition;
    FailureIsValid(w.files.journal.value, RollingBack, RollbackUpdate(trigger, true), w.files.pointer.value);
  }

  /** A first cause may always be recorded over an unsettled journal. */
  lemma BlockAdmitted(w: World, category: Code, trigger: Option<Code>)
    requires Inv(w) && w.files.journal.Some? && !Settled(w.files.journal.value.phase)
    requires IsMachineCode(category) && w.files.journal.value.failureCategory in {None, Some(category)}
    requires trigger.Some? ==> IsMachineCode(trigger.value)
    requires w.files.journal.value.rollbackTrigger.Some? ==> trigger == w.files.journal.value.rollbackTrigger
    requires trigger.Some? || w.files.journal.value.rollbackTrigger.None?
    ensures Admits(w.files, w.files.journal.value.requestId, Blocked, BlockUpdate(category, trigger))
  {
    hide ValidateIdentity, IsMachineCode, DatabaseInv, QuietInv, HistoryInv, Transition;
    FailureIsValid(w.files.journal.value, Blocked, BlockUpdate(category, trigger), w.files.pointer.value);
  }

  lemma QuiesceAdmitted(w: World)
    requires Inv(w) && w.files.journal.Some? && w.files.journal.value.phase == TargetPrepared
    ensures Admits(w.files, w.files.journal.value.requestId, Quiescing, NO_UPDATE)
  {
    hide ValidateIdentity;
    EditKeepsIdentity(w.files.journal.value, Quiescing, NO_UPDATE, w.files.pointer);
  }

  lemma InvokeAdmitted(w: World)
    requires Inv(w) && w.files.journal.Some? && w.files.journal.value.phase == Quiescing
    ensures Admits(w.files, w.files.journal.value.requestId, SchemaPreparing, MIGRATION_INVOKED)
  {
    hide ValidateIdentity;
    EditKeepsIdentity(w.files.journal.value, SchemaPreparing, MIGRATION_INVOKED, w.files.pointer);
  }

  lemma CompleteMigrationAdmitted(w: World)
    requires Inv(w) && w.files.journal.Some? && w.files.journal.value.phase == SchemaPreparing
    ensures Admits(w.files, w.files.journal.value.requestId, SchemaPreparing, MIGRATION_COMPLETED)
  {
    hide ValidateIdentity;
    EditKeepsIdentity(w.files.journal.value, SchemaPreparing, MIGRATION_COMPLETED, w.files.pointer);
  }

  lemma ActivateAdmitted(w: World)
    requires Inv(w) && w.files.journal.Some? && w.files.journal.value.phase in {TargetPrepared, SchemaPreparing}
    ensures Admits(w.files, w.files.journal.value.requestId, Activating, NO_UPDATE)
  {
    hide ValidateIdentity;
    EditKeepsIdentity(w.files.journal.value, Activating, NO_UPDATE, w.files.pointer);
  }

  lemma VerifyAdmitted(w: World)
    requires Inv(w) && w.files.journal.Some? && w.files.journal.value.phase == Activating
    ensures Admits(w.files, w.files.journal.value.requestId, VerifyingTarget, NO_UPDATE)
  {
    hide ValidateIdentity;
    EditKeepsIdentity(w.files.journal.value, VerifyingTarget, NO_UPDATE, w.files.pointer);
  }

  lemma CommitAdmitted(w: World)
    requires Inv(w) && w.files.journal.Some? && w.files.journal.value.phase == VerifyingTarget
    ensures Admits(w.files, w.files.journal.value.requestId, CommittingTarget, TARGET_VERIFIED)
  {
    hide ValidateIdentity;
    EditKeepsIdentity(w.files.journal.value, CommittingTarget, TARGET_VERIFIED, w.files.pointer);
  }

  lemma SettleCompletedAdmitted(w: World)
    requires Inv(w) && w.files.journal.Some? && w.files.journal.value.phase == CommittingTarget
    ensures Admits(w.files, w.files.journal.value.requestId, Completed, TARGET_VERIFIED)
  {
    hide ValidateIdentity;
    EditKeepsIdentity(w.files.journal.value, Completed, TARGET_VERIFIED, w.files.pointer);
  }

  // ---------------------------------------------------------------------------
  // Reading the invariant
  // ---------------------------------------------------------------------------

  /** The installation can be recovered without an operator: the database is at rest, at one
      of the two versions. */
  predicate Recoverable(w: World) {
    w.files.journal.Some? && DatabaseProven(w.data, w.files.journal.value.schema)
  }

  /** For a database of the activation's own, being at rest is enough. */
  lemma RestIsRecoverable(w: World)
    requires Inv(w) && w.files.journal.Some? && AtRest(w.data) && !w.past.inherited
    ensures Recoverable(w)
  {
  }

  lemma RecoverableIsProven(w: World, journal: Journal)
    requires Recoverable(w) && SameActivation(journal, w.files.journal.value)
    ensures DatabaseProven(w.data, journal.schema)
  {
  }

  /** Before the first failure no trigger is recorded. */
  lemma NoTriggerYet(w: World, trigger: Code)
    requires Inv(w) && w.files.journal.Some? && Rank(w.files.journal.value.phase) < 6 && IsMachineCode(trigger)
    ensures MayRollBack(w.files, trigger)
  {
  }

  /** The trigger recovery takes from a failed journal is one the store accepts. */
  lemma FailedTriggerAdmitted(w: World, trigger: Code)
    requires Inv(w) && w.files.journal.Some?
    requires var j := w.files.journal.value;
      || (j.phase == Blocked && trigger == (if j.rollbackTrigger.Some? then j.rollbackTrigger else j.failureCategory).value)
      || (j.phase == RollingBack && j.rollbackTrigger == Some(trigger))
    ensures MayRollBack(w.files, trigger)
  {
  }

  /** Evidence of this activation means a whole database at the target version. */
  lemma EvidenceMeansWhole(w: World)
    requires Inv(w) && w.files.journal.Some? && !w.past.inherited
    requires w.data.evidence.Some? && w.data.evidence.value.requestId == w.files.journal.value.requestId
    ensures w.data.migration.None? && w.data.db == Database(w.files.journal.value.schema.targetVersion, true)
  {
  }

  lemma QuiescingFacts(w: World)
    requires Inv(w) && w.files.journal.Some? && w.files.journal.value.phase == Quiescing
    ensures ActivationIsolation(w.files.journal)
    ensures !w.files.journal.value.schema.migrationInvoked
    ensures w.files.journal.value.failureCategory.None? && w.files.journal.value.rollbackTrigger.None?
    ensures w.past.starts == 0 && (!w.past.inherited ==> AtRest(w.data))
  {
  }

  lemma MigrationPhaseFacts(w: World)
    requires Inv(w) && w.files.journal.Some?
    ensures var j := w.files.journal.value;
      && (j.phase == SchemaPreparing ==> j.schema.migrationRequired && j.schema.migrationInvoked)
      && (j.phase == Activating && j.schema.migrationRequired ==> j.schema.migrationCompleted)
  {
  }

  lemma FailedFacts(w: World)
    requires Inv(w) && w.files.journal.Some? && w.files.journal.value.phase == RollingBack
    ensures w.files.journal.value.rollbackTrigger.Some?
  {
  }

  /** Right after the migration is declared invoked it may start, and never again. */
  lemma InvokedIsReady(w: World, v: World, r: RequestId)
    requires Inv(w) && Written(w, v, r, SchemaPreparing, MIGRATION_INVOKED)
    requires w.files.journal.value.phase == Quiescing
    ensures ReadyToMigrate(v)
  {
  }
}
