/** The control documents of a database restore: the request, the journal, the derived
    projections, and what their readers decide from them. */
module RestoreControl {
  import opened Wrappers
  import opened ActivationJournal

  type OperationId = string
  type ArtifactId = string
  type Time = nat

  datatype RestorePhase = Preflight | PreRestoreBackup | WritersPaused | RestoreRunning | ServicesStarting | PostRestoreCheck

  datatype RestoreResult = Completed | Blocked | FailedRolledBack | FailedRecoveryRequired

  datatype ReportPhase = Operational(phase: RestorePhase) | Finished(result: RestoreResult)

  const FENCED_RESTORE_PHASES: set<RestorePhase> := {WritersPaused, RestoreRunning, ServicesStarting, PostRestoreCheck}

  /** Failure causes.  `Cause` carries the category of another component. */
  datatype Reason =
    | InterruptedAfterMutation
    | InterruptedBeforeMutation
    | WriterIsolationFailed
    | HelperException
    | RequestChanged
    | ControlWriteFailed
    | ExecutorFailed
    | RestoreRefused
    | ApiStartFailed
    | RecorderStartFailed
    | PreRestoreBackupMissing
    | PreRestoreBackupVerificationFailed
    | RollbackIsolationFailed
    | RollbackDatabaseFailed
    | RollbackApiRecoveryFailed
    | RollbackValidationFailed
    | RollbackRecorderRecoveryFailed
    | Cause(text: string)

  predicate IsMachineReason(reason: Reason) {
    reason.Cause? ==> IsMachineText(reason.text)
  }

  /** The categories a helper error can carry: literals, and executor codes that passed the
      machine-code filter. */
  type MachineReason = r: Reason | IsMachineReason(r) witness HelperException

  predicate IsDigits(text: string) {
    forall i :: 0 <= i < |text| ==> '0' <= text[i] <= '9'
  }

  /** `^kmvms-db-\\d{8}T\\d{6}Z-[0-9a-f]{12}$` */
  predicate IsArtifactId(text: string) {
    && |text| == 38
    && text[..9] == "kmvms-db-" && IsDigits(text[9..17])
    && text[17] == 'T' && IsDigits(text[18..24])
    && text[24..26] == "Z-" && IsLowerHex(text[26..], 12)
  }

  predicate IsOperationId(text: string) {
    IsHexName(text, "restore-", 32)
  }

  predicate IsHexDigit(c: char, upper: bool) {
    '0' <= c <= '9' || 'a' <= c <= 'f' || (upper && 'A' <= c <= 'F')
  }

  /** A submission identity.  The helper matches it ignoring case, the control plane does not. */
  predicate IsSubmissionId(text: string, upper: bool) {
    && |text| == 36
    && forall i :: 0 <= i < 36 ==>
      if i in {8, 13, 18, 23} then text[i] == '-'
      else if i == 14 then '1' <= text[i] <= '5'
      else if i == 19 then text[i] in {'8', '9', 'a', 'b'} || (upper && text[i] in {'A', 'B'})
      else IsHexDigit(text[i], upper)
  }

  /** `createdAt` is absent when the recorded time is not a well-formed UTC timestamp: the
      helper does not look at it. */
  datatype Artifact = Artifact(artifactId: ArtifactId, createdAt: Option<Time>, fileSize: nat, fingerprint: string)

  datatype RequestState = Admitted | Claimed | Terminal

  datatype Ending = Ending(status: RestoreResult, finishedAt: Time, reason: Option<Reason>, failedPhase: Option<RestorePhase>)

  datatype RestoreRequest = RestoreRequest(
    operationId: OperationId,
    submissionId: string,
    userId: nat,
    subject: string,
    artifact: Artifact,
    requestedAt: Time,
    updatedAt: Time,
    state: RequestState,
    claimedAt: Option<Time>,
    terminal: Option<Ending>)

  predicate ValidateEnding(t: Ending) {
    && (t.reason.Some? ==> IsMachineReason(t.reason.value))
    && (t.status == Completed <==> t.reason.None?)
    && (t.status == Completed ==> t.failedPhase.None?)
  }

  predicate ValidateRestoreRequest(r: RestoreRequest) {
    && IsOperationId(r.operationId) && IsSubmissionId(r.submissionId, true)
    && r.userId >= 1 && IsArtifactId(r.artifact.artifactId)
    && r.artifact.fileSize >= 1 && IsLowerHex(r.artifact.fingerprint, 64)
    && match r.state
       case Admitted => r.claimedAt.None? && r.terminal.None?
       case Claimed => r.claimedAt.Some? && r.terminal.None?
       case Terminal => r.claimedAt.Some? && r.terminal.Some? && ValidateEnding(r.terminal.value)
  }

  datatype RestoreJournal = RestoreJournal(
    operationId: OperationId,
    submissionId: string,
    phase: ReportPhase,
    sourceArtifactId: ArtifactId,
    preRestoreBackupId: Option<ArtifactId>,
    destructiveStarted: bool,
    terminalResult: Option<RestoreResult>,
    reason: Option<Reason>)

  function JournalEvent(r: RestoreRequest, phase: ReportPhase, backup: Option<ArtifactId>, destructive: bool,
                        terminalResult: Option<RestoreResult>, reason: Option<Reason>): RestoreJournal
  {
    RestoreJournal(r.operationId, r.submissionId, phase, r.artifact.artifactId, backup, destructive, terminalResult, reason)
  }

  // ---------------------------------------------------------------------------
  // The restore half of the bootstrap's writer-isolation decision
  // ---------------------------------------------------------------------------

  predicate JournalBelongs(j: RestoreJournal, r: RestoreRequest) {
    && j.operationId == r.operationId && j.submissionId == r.submissionId
    && j.phase.Operational? && j.terminalResult.None?
  }

  /** A failure means the evidence is contradictory: the caller changes no policy. */
  function RestoreIsolation(request: Option<RestoreRequest>, journal: Option<RestoreJournal>): Result<bool, Code> {
    if request.None? then Success(false)
    else if !IsOperationId(request.value.operationId) then Failure(Reported("restore_isolation_evidence_invalid"))
    else
      match request.value.state
      case Admitted => Success(false)
      case Terminal =>
        if request.value.terminal.None? then Failure(Reported("restore_isolation_evidence_invalid"))
        else Success(request.value.terminal.value.status == FailedRecoveryRequired)
      case Claimed =>
        if journal.None? then Success(false)
        else if !JournalBelongs(journal.value, request.value) then Failure(Reported("restore_isolation_evidence_invalid"))
        else Success(journal.value.phase.phase in FENCED_RESTORE_PHASES)
  }

  // ---------------------------------------------------------------------------
  // The public status and its reader
  // ---------------------------------------------------------------------------

  datatype StatusWord = Queued | Running | Ended(result: RestoreResult)

  datatype NextAction = Wait | SignInAgain | CurrentDatabaseRestored | ContactSupport | ReviewRestoreStatus

  datatype PublicStatus = PublicStatus(
    operationId: OperationId,
    submissionId: string,
    subject: string,
    status: StatusWord,
    phase: ReportPhase,
    artifactId: ArtifactId,
    artifactCreatedAt: Option<Time>,
    preRestoreBackupId: Option<ArtifactId>,
    acceptedAt: Time,
    startedAt: Option<Time>,
    updatedAt: Time,
    finishedAt: Option<Time>,
    terminalResult: Option<RestoreResult>,
    reason: Option<Reason>,
    failedPhase: Option<RestorePhase>,
    nextAction: NextAction)

  function ActionAfter(result: RestoreResult): NextAction {
    match result
    case Completed => SignInAgain
    case FailedRolledBack => CurrentDatabaseRestored
    case FailedRecoveryRequired => ContactSupport
    case Blocked => ReviewRestoreStatus
  }

  function RestorePublicPayload(r: RestoreRequest, phase: ReportPhase, backup: Option<ArtifactId>,
                                terminalResult: Option<RestoreResult>, reason: Option<Reason>,
                                failedPhase: Option<RestorePhase>, now: Time): PublicStatus
  {
    var finishedAt :=
      if terminalResult.None? then None
      else if r.terminal.Some? then Some(r.terminal.value.finishedAt)
      else Some(now);
    var recorded := if r.terminal.Some? then r.terminal.value.failedPhase else None;
    PublicStatus(
      r.operationId, r.submissionId, r.subject,
      if terminalResult.Some? then Ended(terminalResult.value) else Running,
      phase, r.artifact.artifactId, r.artifact.createdAt, backup, r.requestedAt, r.claimedAt,
      if finishedAt.Some? then finishedAt.value else now,
      finishedAt, terminalResult, reason,
      if terminalResult == Some(Completed) then None else if failedPhase.Some? then failedPhase else recorded,
      if terminalResult.Some? then ActionAfter(terminalResult.value) else Wait)
  }

  /** What the control plane itself publishes when it admits a request. */
  function AdmittedPayload(r: RestoreRequest, now: Time): PublicStatus {
    PublicStatus(
      r.operationId, r.submissionId, r.subject, Queued, Operational(Preflight), r.artifact.artifactId, r.artifact.createdAt,
      None, r.requestedAt, r.claimedAt, now, None, None, None, None, Wait)
  }

  datatype StatusAnswer = Idle | Shown(status: PublicStatus) | ForeignActor | ContractInvalid

  predicate FieldsAccepted(p: PublicStatus) {
    && IsOperationId(p.operationId) && IsSubmissionId(p.submissionId, false)
    && IsArtifactId(p.artifactId) && p.artifactCreatedAt.Some?
    && (p.preRestoreBackupId.Some? ==> IsArtifactId(p.preRestoreBackupId.value))
    && (p.reason.Some? ==> IsMachineReason(p.reason.value))
  }

  predicate ProgressAccepted(p: PublicStatus) {
    && p.status in {Queued, Running} && p.phase.Operational? && p.finishedAt.None? && p.nextAction == Wait
    && (p.status == Queued ==> p.startedAt.None?)
    && (p.status == Running ==> p.startedAt.Some?)
  }

  predicate EndingAccepted(p: PublicStatus, result: RestoreResult) {
    && p.status == Ended(result) && p.phase == Finished(result)
    && p.finishedAt.Some? && p.startedAt.Some?
    && (result == Completed <==> p.reason.None?)
    && (result == Completed ==> p.failedPhase.None?)
    && p.nextAction == ActionAfter(result)
  }

  /** What the control plane answers to a signed-in user. */
  function RestorePublicStatus(published: Option<PublicStatus>, request: Option<RestoreRequest>, subject: string, userId: nat): StatusAnswer {
    if published.None? then Idle
    else if published.value.subject != subject then ForeignActor
    else if request.None? || request.value.operationId != published.value.operationId
            || request.value.submissionId != published.value.submissionId
            || request.value.userId != userId then ForeignActor
    else if !FieldsAccepted(published.value) then ContractInvalid
    else if (if published.value.terminalResult.None? then ProgressAccepted(published.value)
             else EndingAccepted(published.value, published.value.terminalResult.value))
    then Shown(published.value)
    else ContractInvalid
  }

  predicate WellNamed(backup: Option<ArtifactId>) {
    backup.Some? ==> IsArtifactId(backup.value)
  }

  /** What the reader asks beyond the helper's own checks: a lower-case submission identity,
      a well-formed artifact time, and a well-formed backup identity if there is one. */
  predicate Readable(r: RestoreRequest, backup: Option<ArtifactId>) {
    IsSubmissionId(r.submissionId, false) && r.artifact.createdAt.Some? && WellNamed(backup)
  }

  lemma AdmissionReachesOwner(r: RestoreRequest, now: Time)
    requires ValidateRestoreRequest(r) && r.state == Admitted
    ensures RestorePublicStatus(Some(AdmittedPayload(r, now)), Some(r), r.subject, r.userId) == Shown(AdmittedPayload(r, now))
      <==> Readable(r, None)
  {
  }

  /** A progress document reaches its owner exactly when it is readable. */
  lemma ProgressReachesOwner(r: RestoreRequest, phase: RestorePhase, backup: Option<ArtifactId>, now: Time)
    requires ValidateRestoreRequest(r) && r.state == Claimed
    ensures var p := RestorePublicPayload(r, Operational(phase), backup, None, None, None, now);
      RestorePublicStatus(Some(p), Some(r), r.subject, r.userId) == Shown(p) <==> Readable(r, backup)
  {
  }

  /** A terminal document reaches its owner exactly when it is readable. */
  lemma EndingReachesOwner(r: RestoreRequest, backup: Option<ArtifactId>, now: Time)
    requires ValidateRestoreRequest(r) && r.state == Terminal
    ensures var t := r.terminal.value;
      var p := RestorePublicPayload(r, Finished(t.status), backup, Some(t.status), t.reason, t.failedPhase, now);
      RestorePublicStatus(Some(p), Some(r), r.subject, r.userId) == Shown(p) <==> Readable(r, backup)
  {
  }

  /** What is not shown, exactly: nothing was published, or not for this user and subject, or
      it cannot be read. */
  lemma AnswersExactly(published: Option<PublicStatus>, request: Option<RestoreRequest>, subject: string, userId: nat)
    ensures var answer := RestorePublicStatus(published, request, subject, userId);
      var own := published.Some? && request.Some? && published.value.subject == subject && request.value.userId == userId
                 && request.value.operationId == published.value.operationId
                 && request.value.submissionId == published.value.submissionId;
      && (answer == Idle <==> published.None?)
      && (answer == ForeignActor <==> published.Some? && !own)
      && (own <==> answer in {ContractInvalid, if published.Some? then Shown(published.value) else ContractInvalid})
  {
  }

  /** A shown ending tells its owner what to do next: each word asks for an action of its own. */
  lemma ShownActionIsCalledFor(published: Option<PublicStatus>, request: Option<RestoreRequest>, subject: string, userId: nat)
    requires RestorePublicStatus(published, request, subject, userId).Shown?
    ensures var result, action := published.value.terminalResult, published.value.nextAction;
      && (result == None <==> action == Wait)
      && (result == Some(Completed) <==> action == SignInAgain)
      && (result == Some(FailedRolledBack) <==> action == CurrentDatabaseRestored)
      && (result == Some(FailedRecoveryRequired) <==> action == ContactSupport)
      && (result == Some(Blocked) <==> action == ReviewRestoreStatus)
  {
  }

  /** Nobody else is shown anything. */
  lemma OnlyTheOwnerIsShown(published: Option<PublicStatus>, request: Option<RestoreRequest>, subject: string, userId: nat)
    requires RestorePublicStatus(published, request, subject, userId).Shown?
    ensures request.Some? && published.Some? && request.value.userId == userId && published.value.subject == subject
    ensures published.value.operationId == request.value.operationId
  {
  }

  // ---------------------------------------------------------------------------
  // The derived projections of a terminal request
  // ---------------------------------------------------------------------------

  datatype Projections = Projections(
    receipt: Option<RestoreRequest>,
    journal: Option<RestoreJournal>,
    published: Option<PublicStatus>)

  /** The derived writes of a finish that failed. */
  datatype Lost = Lost(receipt: bool, journal: bool, status: bool)

  const NOTHING_LOST := Lost(false, false, false)

  function EndingEvent(r: RestoreRequest, backup: Option<ArtifactId>, destructive: bool): RestoreJournal
    requires r.terminal.Some?
  {
    var t := r.terminal.value;
    JournalEvent(r, Finished(t.status), backup, destructive, Some(t.status), t.reason)
  }

  function EndingPayload(r: RestoreRequest, backup: Option<ArtifactId>, now: Time): PublicStatus
    requires r.terminal.Some?
  {
    var t := r.terminal.value;
    RestorePublicPayload(r, Finished(t.status), backup, Some(t.status), t.reason, t.failedPhase, now)
  }

  /** What finishing a request leaves of its derived documents when some writes are lost. */
  function FinishedProjections(r: RestoreRequest, p: Projections, backup: Option<ArtifactId>, destructive: bool, now: Time,
                               lost: Lost): Projections
    requires r.terminal.Some?
  {
    Projections(
      if lost.receipt then p.receipt else Some(r),
      if lost.journal then p.journal else Some(EndingEvent(r, backup, destructive)),
      if lost.status then p.published else Some(EndingPayload(r, backup, now)))
  }

  predicate ReceiptAgrees(r: RestoreRequest, p: Projections) {
    p.receipt.Some? && p.receipt.value.operationId == r.operationId && p.receipt.value.terminal == r.terminal
  }

  predicate JournalAgrees(r: RestoreRequest, p: Projections)
    requires r.terminal.Some?
  {
    && p.journal.Some? && p.journal.value.operationId == r.operationId
    && p.journal.value.terminalResult == Some(r.terminal.value.status) && p.journal.value.reason == r.terminal.value.reason
  }

  predicate StatusAgrees(r: RestoreRequest, p: Projections)
    requires r.terminal.Some?
  {
    && p.published.Some? && p.published.value.operationId == r.operationId
    && p.published.value.terminalResult == Some(r.terminal.value.status)
    && p.published.value.finishedAt == Some(r.terminal.value.finishedAt)
  }

  /** The backup a journal names, if the journal is about this request. */
  function BackupNamed(journal: Option<RestoreJournal>, r: RestoreRequest): Option<ArtifactId> {
    if journal.Some? && journal.value.operationId == r.operationId then journal.value.preRestoreBackupId else None
  }

  function BackupOnRecord(r: RestoreRequest, p: Projections): Option<ArtifactId> {
    BackupNamed(p.journal, r)
  }

  /** One reconcile in which no write fails: each projection is rewritten unless it already
      agrees.  `destructive` is the marker of this operation. */
  function ReconciledProjections(r: RestoreRequest, p: Projections, destructive: bool, now: Time): Projections
    requires r.terminal.Some?
  {
    var backup := BackupOnRecord(r, p);
    Projections(
      if ReceiptAgrees(r, p) then p.receipt else Some(r),
      if JournalAgrees(r, p) then p.journal else Some(EndingEvent(r, backup, destructive)),
      if StatusAgrees(r, p) then p.published else Some(EndingPayload(r, backup, now)))
  }

  /** One reconcile makes all three projections agree, and a second changes nothing. */
  lemma ReconcileConverges(r: RestoreRequest, p: Projections, destructive: bool, now: Time, later: Time)
    requires r.terminal.Some?
    ensures var q := ReconciledProjections(r, p, destructive, now);
      && ReceiptAgrees(r, q) && JournalAgrees(r, q) && StatusAgrees(r, q)
      && ReconciledProjections(r, q, destructive, later) == q
      && BackupOnRecord(r, q) == BackupOnRecord(r, p)
  {
  }

  /** What the reconciled documents say is how the request ended, field by field. */
  lemma ReconciledSayTheEnding(r: RestoreRequest, p: Projections, destructive: bool, now: Time)
    requires r.terminal.Some?
    ensures var q, t := ReconciledProjections(r, p, destructive, now), r.terminal.value;
      && q.receipt.Some? && q.receipt.value.operationId == r.operationId && q.receipt.value.terminal == Some(t)
      && q.journal.Some? && q.journal.value.operationId == r.operationId
      && q.journal.value.terminalResult == Some(t.status) && q.journal.value.reason == t.reason
      && q.published.Some? && q.published.value.operationId == r.operationId
      && q.published.value.terminalResult == Some(t.status) && q.published.value.finishedAt == Some(t.finishedAt)
  {
  }

  /** Whichever derived writes of a finish are lost, one reconcile restores all documents,
      whatever the clock says by then.  A lost journal is rewritten from what is on disk: the
      backup the journal named before, and the marker instead of the handler's own flag. */
  lemma LostWritesAreRestored(r: RestoreRequest, p: Projections, backup: Option<ArtifactId>, destructive: bool,
                              marked: bool, lost: Lost, first: Time, now: Time)
    requires r.state == Terminal && r.terminal.Some?
    requires !ReceiptAgrees(r, p) && !JournalAgrees(r, p) && !StatusAgrees(r, p)
    ensures var kept := if lost.journal then BackupOnRecord(r, p) else backup;
      ReconciledProjections(r, FinishedProjections(r, p, backup, destructive, first, lost), marked, now)
      == Projections(
        Some(r),
        Some(EndingEvent(r, kept, if lost.journal then marked else destructive)),
        Some(EndingPayload(r, if lost.status then kept else backup, first)))
  {
  }

  /** The restored documents are the ones the finish would have left exactly when the journal
      was not lost, or already named the backup with the marker as the handler believed. */
  lemma RestoredAsFinishedExactly(r: RestoreRequest, p: Projections, backup: Option<ArtifactId>, destructive: bool,
                                  marked: bool, lost: Lost, first: Time, now: Time)
    requires r.state == Terminal && r.terminal.Some?
    requires !ReceiptAgrees(r, p) && !JournalAgrees(r, p) && !StatusAgrees(r, p)
    ensures var left := FinishedProjections(r, p, backup, destructive, first, lost);
      ReconciledProjections(r, left, marked, now) == FinishedProjections(r, p, backup, destructive, first, NOTHING_LOST)
      <==> (lost.journal ==> BackupOnRecord(r, p) == backup && marked == destructive)
  {
    LostWritesAreRestored(r, p, backup, destructive, marked, lost, first, now);
  }
}
