/** The activation journal: its validator, the rules of one transition, and what every
    accepted transition keeps. */
module ActivationJournal {
  import opened Wrappers
  import opened Contracts

  type SlotId = string
  type RequestId = string

  /** Failure causes.  `Reported` carries a cause named by another program. */
  datatype Code =
    | EvidenceMissing
    | EvidenceWriteFailed
    | RequestIdInvalid
    | SlotIdInvalid
    | ActivationRequestConflict
    | ActivationInProgress
    | ActivationTransitionInvalid
    | ActivationRollbackProofRequired
    | ActivationJournalInvalid
    | ActivationJournalConflict
    | ActivationPointerConflict
    | ActivationPointerMissing
    | ActivationSchemaCompatibilityInvalid
    | ActivationSlotBindingInvalid
    | ActivationSlotsMissing
    | ActivationTargetIdentityMismatch
    | ActivationPreviousBindingMismatch
    | ActivationSlotBindingChanged
    | ActivationBlocked
    | ActivationRecoveryFailed
    | ActivationBindingInvalid
    | ActivePointerInvalid
    | ActivePointerMissing
    | ActivePointerSwitchFailed
    | ActivePointerConflict
    | TargetPointerMismatch
    | SchemaJournalConflict
    | SchemaEvidenceMissing
    | SchemaMigrationInterrupted
    | SchemaUpdateFailed
    | SchemaPreflightFailed
    | SlotQuiesceFailed
    | SlotRuntimeStartFailed
    | SlotRuntimeUnhealthy
    | SlotRuntimeEvidenceMismatch
    | TargetIdentityMismatch
    | TargetHealthFailed
    | RollbackPointerConflict
    | RollbackDatabaseUnverified
    | RollbackConfigurationUnverified
    | RollbackVerificationFailed
    | WriterFenceFailed
    | MaintenanceWriterIsolationActive
    | InstalledProjectionUnavailable
    | Reported(text: string)

  /** `^[a-z][a-z0-9_]{0,79}$` */
  predicate IsMachineText(text: string) {
    && 1 <= |text| <= 80
    && 'a' <= text[0] <= 'z'
    && forall i :: 0 <= i < |text| ==> 'a' <= text[i] <= 'z' || '0' <= text[i] <= '9' || text[i] == '_'
  }

  predicate IsMachineCode(code: Code) {
    code.Reported? ==> IsMachineText(code.text)
  }

  predicate IsLowerHex(text: string, length: nat) {
    |text| == length && forall i :: 0 <= i < |text| ==> '0' <= text[i] <= '9' || 'a' <= text[i] <= 'f'
  }

  predicate IsHexName(text: string, prefix: string, length: nat) {
    prefix <= text && IsLowerHex(text[|prefix|..], length)
  }

  predicate IsRequestId(text: string) {
    IsHexName(text, "update-", 32) || IsHexName(text, "stage609-", 32) || IsHexName(text, "terminal-", 32)
  }

  datatype SlotKind = TrustedRelease | AdoptedPreUpdateSnapshot | InitialInstallSnapshot

  predicate IsSlotIdOf(text: string, kind: SlotKind) {
    match kind
    case TrustedRelease => IsHexName(text, "release-", 40)
    case AdoptedPreUpdateSnapshot => IsHexName(text, "adopted-", 64)
    case InitialInstallSnapshot => IsHexName(text, "initial-", 64)
  }

  predicate IsSlotId(text: string) {
    exists kind: SlotKind :: IsSlotIdOf(text, kind)
  }

  /** The six digests of a binding are compared as one value. */
  datatype SlotBinding = SlotBinding(
    slotId: SlotId,
    kind: SlotKind,
    officialSourceMatch: bool,
    version: string,
    commit: Option<string>,
    digests: seq<string>)

  predicate ValidateSlotBinding(b: SlotBinding) {
    && IsSlotIdOf(b.slotId, b.kind)
    && (b.commit.Some? ==> IsLowerHex(b.commit.value, 40))
    && (b.officialSourceMatch <==> b.kind == TrustedRelease)
    && (b.kind == InitialInstallSnapshot ==> b.commit.None?)
  }

  datatype SchemaRecord = SchemaRecord(
    compatibility: string,
    sourceVersion: nat,
    targetVersion: nat,
    migrationRequired: bool,
    migrationInvoked: bool,
    migrationCompleted: bool,
    attemptId: Option<string>)

  /** Clock values are left out: only the presence of the terminal stamp matters. */
  datatype Journal = Journal(
    requestId: RequestId,
    generation: nat,
    phase: Phase,
    previous: SlotBinding,
    target: SlotBinding,
    schema: SchemaRecord,
    pointer: Option<SlotId>,
    targetVerified: bool,
    previousVerified: bool,
    rollbackTrigger: Option<Code>,
    failureCategory: Option<Code>,
    terminalStamped: bool)

  predicate ValidateIdentity(j: Journal) {
    && IsRequestId(j.requestId)
    && j.generation >= 1
    && IsLowerHex(j.schema.compatibility, 64)
    && j.schema.sourceVersion <= j.schema.targetVersion
    && (j.schema.attemptId.Some? ==> IsHexName(j.schema.attemptId.value, "migration-attempt-", 32))
    && ValidateSlotBinding(j.previous)
    && ValidateSlotBinding(j.target)
    && j.previous.slotId != j.target.slotId
    && j.target.kind == TrustedRelease
  }

  /** The phase evidence checks of the validator. */
  predicate ValidateEvidence(j: Journal) {
    && (j.pointer.Some? ==> j.pointer.value == j.previous.slotId || j.pointer.value == j.target.slotId)
    && (j.failureCategory.Some? ==> IsMachineCode(j.failureCategory.value))
    && (j.rollbackTrigger.Some? ==> IsMachineCode(j.rollbackTrigger.value))
    && (j.rollbackTrigger.Some? ==> j.phase in {RollingBack, FailedRolledBack, Blocked})
    && (j.phase in TERMINAL_ACTIVATION_PHASES <==> j.terminalStamped)
    && (j.schema.migrationCompleted ==> j.schema.migrationRequired && j.schema.migrationInvoked)
    && (!j.schema.migrationRequired ==> !j.schema.migrationInvoked && !j.schema.migrationCompleted)
    && (j.targetVerified ==> j.phase !in {TargetPrepared, Quiescing, SchemaPreparing, Activating})
    && (j.previousVerified <==> j.phase == FailedRolledBack)
    && (j.phase == Completed ==>
          && j.targetVerified && j.pointer == Some(j.target.slotId)
          && j.failureCategory.None? && j.rollbackTrigger.None?)
    && (j.phase == FailedRolledBack ==>
          j.pointer == Some(j.previous.slotId) && j.failureCategory.Some? && j.rollbackTrigger.Some?)
    && (j.phase == Blocked ==> j.failureCategory.Some?)
  }

  predicate ValidateJournal(j: Journal) {
    ValidateIdentity(j) && ValidateEvidence(j)
  }

  /** The optional evidence one transition may carry; `None` leaves a field alone. */
  datatype Update = Update(
    migrationInvoked: Option<bool> := None,
    migrationCompleted: Option<bool> := None,
    targetVerified: Option<bool> := None,
    previousVerified: Option<bool> := None,
    rollbackTrigger: Option<Code> := None,
    failureCategory: Option<Code> := None,
    databaseVerified: bool := false)

  const NO_UPDATE := Update()

  /** Boolean evidence may be raised but never withdrawn. */
  predicate Withdraws(current: bool, next: Option<bool>) {
    current && next == Some(false)
  }

  predicate Replaces(current: Option<Code>, next: Option<Code>) {
    current.Some? && next.Some? && next != current
  }

  function Overlay<T>(current: T, next: Option<T>): T {
    if next.Some? then next.value else current
  }

  function OverlayCode(current: Option<Code>, next: Option<Code>): Option<Code> {
    if next.Some? then next else current
  }

  predicate ProofMissing(current: Phase, phase: Phase, u: Update) {
    phase == RollingBack && current in {TargetPrepared, Quiescing, SchemaPreparing, Blocked} && !u.databaseVerified
  }

  /** The checks a transition makes before it edits anything. */
  predicate UpdateAdmitted(j: Journal, phase: Phase, u: Update) {
    && !ProofMissing(j.phase, phase, u)
    && Step(j.phase, phase)
    && !Withdraws(j.schema.migrationInvoked, u.migrationInvoked)
    && !Withdraws(j.schema.migrationCompleted, u.migrationCompleted)
    && !Withdraws(j.targetVerified, u.targetVerified)
    && !Withdraws(j.previousVerified, u.previousVerified)
    && (u.failureCategory.Some? ==> IsMachineCode(u.failureCategory.value))
    && !Replaces(j.failureCategory, u.failureCategory)
    && (u.rollbackTrigger.Some? ==> IsMachineCode(u.rollbackTrigger.value))
    && !Replaces(j.rollbackTrigger, u.rollbackTrigger)
  }

  /** The edited document, before validation. */
  function Edited(j: Journal, phase: Phase, u: Update, pointer: Option<SlotId>): Journal {
    j.(phase := phase,
       pointer := pointer,
       schema := j.schema.(
         migrationInvoked := Overlay(j.schema.migrationInvoked, u.migrationInvoked),
         migrationCompleted := Overlay(j.schema.migrationCompleted, u.migrationCompleted)),
       targetVerified := Overlay(j.targetVerified, u.targetVerified),
       previousVerified := Overlay(j.previousVerified, u.previousVerified),
       failureCategory := if phase == Completed then None else OverlayCode(j.failureCategory, u.failureCategory),
       rollbackTrigger := if phase == Completed then None else OverlayCode(j.rollbackTrigger, u.rollbackTrigger),
       terminalStamped := phase in TERMINAL_ACTIVATION_PHASES)
  }

  lemma EditKeepsIdentity(j: Journal, phase: Phase, u: Update, pointer: Option<SlotId>)
    ensures ValidateIdentity(Edited(j, phase, u, pointer)) <==> ValidateIdentity(j)
  {
  }

  /** One transition of the store, with the observed pointer recorded.  A refusal leaves
      the journal as it was. */
  function Transition(j: Journal, phase: Phase, u: Update, pointer: Option<SlotId>): (r: Result<Journal, Code>)
    ensures r.Success? ==> ValidateJournal(r.value) && Evolves(j, r.value)
    ensures r.Success? ==> r.value.phase == phase && r.value.pointer == pointer
  {
    if ProofMissing(j.phase, phase, u) then Failure(ActivationRollbackProofRequired)
    else if !UpdateAdmitted(j, phase, u) then Failure(ActivationTransitionInvalid)
    else if !ValidateJournal(Edited(j, phase, u, pointer)) then Failure(ActivationJournalInvalid)
    else Success(Edited(j, phase, u, pointer))
  }

  /** The first document of an activation. */
  function Opened(requestId: RequestId, generation: nat, previous: SlotBinding, target: SlotBinding, schema: SchemaRecord,
                  pointer: Option<SlotId>): Journal
  {
    Journal(requestId, generation, TargetPrepared, previous, target,
            schema.(migrationInvoked := false, migrationCompleted := false),
            pointer, false, false, None, None, false)
  }

  /** Two journals of one activation: the facts fixed when it was opened. */
  predicate SameActivation(a: Journal, b: Journal) {
    && a.requestId == b.requestId
    && a.generation == b.generation
    && a.previous == b.previous
    && a.target == b.target
    && a.schema.(migrationInvoked := false, migrationCompleted := false)
       == b.schema.(migrationInvoked := false, migrationCompleted := false)
  }

  /** What any number of transitions keeps.  Evidence is monotone, failure history is
      written once, and a settled phase is permanent. */
  predicate Evolves(a: Journal, b: Journal) {
    && SameActivation(a, b)
    && Reaches(a.phase, b.phase)
    && (a.schema.migrationInvoked ==> b.schema.migrationInvoked)
    && (a.schema.migrationCompleted ==> b.schema.migrationCompleted)
    && (a.targetVerified ==> b.targetVerified)
    && (a.failureCategory.Some? && b.phase != Completed ==> b.failureCategory == a.failureCategory)
    && (a.rollbackTrigger.Some? && b.phase != Completed ==> b.rollbackTrigger == a.rollbackTrigger)
  }

  lemma EvolvesIsTransitive(a: Journal, b: Journal, c: Journal)
    requires Evolves(a, b) && Evolves(b, c)
    ensures Evolves(a, c)
  {
    ReachesIsTransitive(a.phase, b.phase, c.phase);
  }

  lemma EvolvesIsReflexive(a: Journal)
    ensures Evolves(a, a)
  {
  }
}
