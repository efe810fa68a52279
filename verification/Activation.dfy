/** The activation command: it opens a new activation or resumes the one on disk. */
module Activation {
  import opened Wrappers
  import opened Contracts
  import opened ActivationJournal
  import opened Installation
  import opened SlotStore
  import opened JournalWrites
  import opened Bridge
  import opened Convergence

  /** What the caller asks for.  A resume may leave the slots out. */
  datatype Arguments = Arguments(
    requestId: RequestId,
    previousSlot: Option<SlotId>,
    targetSlot: Option<SlotId>,
    targetCommit: string,
    targetVersion: string)

  /** What the captures and the schema preflight of one call report. */
  datatype Reports = Reports(
    target: SlotBinding,
    previous: SlotBinding,
    schema: SchemaRecord,
    targetAfter: SlotBinding,
    previousAfter: SlotBinding)

  predicate ValidSlots(a: Arguments) {
    && (a.previousSlot.Some? ==> IsSlotId(a.previousSlot.value))
    && (a.targetSlot.Some? ==> IsSlotIdOf(a.targetSlot.value, TrustedRelease))
  }

  /** A resume that names slots must name those of the journal. */
  predicate ResumeMatches(a: Arguments, j: Journal) {
    && a.previousSlot == Some(j.previous.slotId)
    && a.targetSlot == Some(j.target.slotId)
    && j.target.commit == Some(a.targetCommit)
    && j.target.version == a.targetVersion
  }

  /** The admitted release is named in full, and the captures did not change while the schema
      preflight ran. */
  predicate CapturesStood(a: Arguments, r: Reports) {
    && IsLowerHex(a.targetCommit, 40) && a.targetVersion != ""
    && r.targetAfter == r.target && r.previousAfter == r.previous
  }

  predicate StartsNew(journal: Option<Journal>, requestId: RequestId) {
    journal.None? || (Settled(journal.value.phase) && journal.value.requestId != requestId)
  }

  /** Only looking around: nothing durable changed, and a database without a running
      migration stayed as it was. */
  ghost predicate Rested(w: World, v: World) {
    && v.files == w.files && v.past == w.past
    && (Inv(w) ==> Inv(v))
    && (w.data.migration.None? ==> v.data == w.data)
  }

  method Observe(h: Host, code: Code) returns (o: Outcome<(), Code>)
    modifies h
    ensures Rested(old(h.Now()), h.Now())
    ensures old(h.Healthy()) ==> h.Healthy() && o.Returned?
  {
    hide Inv;
    ghost var before := h.Now();
    var e := h.Draw();
    InterferenceKeepsInv(before, h.Now());
    o := e.fate.Conclude((), code);
  }

  method CaptureDeployment(h: Host, slot: SlotId, report: SlotBinding) returns (o: Outcome<SlotBinding, Code>)
    modifies h
    ensures Rested(old(h.Now()), h.Now())
    ensures o.Returned? ==> o.value == report && report.slotId == slot && slot in h.files.slots
    ensures old(h.Healthy()) ==> h.Healthy()
  {
    hide Inv;
    var _ :- Observe(h, ActivationSlotBindingInvalid);
    if report.slotId != slot || slot !in h.files.slots {
      return Raised(ActivationSlotBindingInvalid);
    }
    o := Returned(report);
  }

  /** The preflight reads the database the migration would start from. */
  method RunTargetSchemaPreflight(h: Host, report: SchemaRecord) returns (o: Outcome<SchemaRecord, Code>)
    modifies h
    ensures Rested(old(h.Now()), h.Now())
    ensures o.Returned? ==> o.value == report && report.sourceVersion == h.data.db.version
    ensures old(h.Healthy()) ==> h.Healthy()
  {
    hide Inv;
    var _ :- Observe(h, SchemaPreflightFailed);
    if report.sourceVersion != h.data.db.version {
      return Raised(SchemaPreflightFailed);
    }
    o := Returned(report);
  }

  /** The pointer and both slots, as one look at them finds them. */
  method Look(h: Host, previousSlot: SlotId, targetSlot: SlotId, target: SlotBinding, previous: SlotBinding, mismatch: Code)
    returns (o: Outcome<(), Code>)
    modifies h
    ensures Rested(old(h.Now()), h.Now())
    ensures o.Returned? ==> target.slotId == targetSlot && previous.slotId == previousSlot
    ensures o.Returned? ==> h.files.pointer == Some(previousSlot) && targetSlot in h.files.slots && previousSlot in h.files.slots
    ensures old(h.Healthy()) ==> h.Healthy()
  {
    hide Inv;
    var active :- ObservePointer(h);
    if active != Some(previousSlot) {
      return Raised(mismatch);
    }
    var _ :- CaptureDeployment(h, targetSlot, target);
    var _ :- CaptureDeployment(h, previousSlot, previous);
    o := Returned(());
  }

  /** Everything a new activation checks before its journal is created: the target is the
      admitted release, the previous slot is the active one, and neither changed during the
      schema preflight. */
  method CheckNewActivation(h: Host, a: Arguments, r: Reports) returns (o: Outcome<(), Code>)
    modifies h
    ensures Rested(old(h.Now()), h.Now())
    ensures o.Returned? ==>
      && a.previousSlot == Some(r.previous.slotId) && a.targetSlot == Some(r.target.slotId)
      && r.target.commit == Some(a.targetCommit) && r.target.version == a.targetVersion
      && h.files.pointer == Some(r.previous.slotId) && r.target.slotId in h.files.slots && r.previous.slotId in h.files.slots
      && CapturesStood(a, r)
    ensures o.Returned? && old(h.data.migration).None? ==> r.schema.sourceVersion == h.data.db.version
    ensures a.previousSlot.None? || a.targetSlot.None? ==> o == Raised(ActivationSlotsMissing)
    ensures a.previousSlot.Some? && a.targetSlot.Some? && (!IsLowerHex(a.targetCommit, 40) || a.targetVersion == "") ==>
      o == Raised(ActivationTargetIdentityMismatch)
    ensures old(h.Healthy()) ==> h.Healthy()
  {
    hide Inv;
    if a.previousSlot.None? || a.targetSlot.None? {
      return Raised(ActivationSlotsMissing);
    }
    if !IsLowerHex(a.targetCommit, 40) || a.targetVersion == "" {
      return Raised(ActivationTargetIdentityMismatch);
    }
    var _ :- Look(h, a.previousSlot.value, a.targetSlot.value, r.target, r.previous, ActivationPreviousBindingMismatch);
    if r.target.commit != Some(a.targetCommit) || r.target.version != a.targetVersion {
      return Raised(ActivationTargetIdentityMismatch);
    }
    var _ :- RunTargetSchemaPreflight(h, r.schema);
    var _ :- Look(h, a.previousSlot.value, a.targetSlot.value, r.targetAfter, r.previousAfter, ActivationSlotBindingChanged);
    if r.targetAfter != r.target || r.previousAfter != r.previous {
      return Raised(ActivationSlotBindingChanged);
    }
    o := Returned(());
  }

  /** Before any journal or after a settled one, no migration is running, unless one slipped
      through a probe. */
  lemma RestingDatabase(w: World)
    requires Inv(w) && NoneOrSettled(w.files.journal)
    ensures !w.past.slipped ==> AtRest(w.data)
    ensures w.files.journal.None? ==> w.past.archive == []
  {
  }

  lemma RestingProgresses(w: World, v: World)
    requires v.files.journal == w.files.journal && v.past == w.past
    ensures Progressed(w, v)
  {
    if w.files.journal.Some? {
      EvolvesIsReflexive(w.files.journal.value);
    }
  }

  lemma ContinuingProgresses(w: World, v: World)
    requires Continues(w, v)
    ensures Progressed(w, v)
  {
  }

  /** Opens a new activation over nothing or over a settled one. */
  method OpenActivation(h: Host, a: Arguments, r: Reports) returns (o: Outcome<(), Code>)
    requires StartsNew(h.files.journal, a.requestId)
    modifies h
    ensures Inv(old(h.Now())) && Fresh(old(h.past), a.requestId) ==> Inv(h.Now()) && Progressed(old(h.Now()), h.Now())
    ensures o.Returned? ==> h.files.journal.Some? && h.files.journal.value.requestId == a.requestId
    ensures o.Returned? ==> h.files.journal.value.phase == TargetPrepared && ResumeMatches(a, h.files.journal.value)
    ensures o.Returned? ==>
      && CapturesStood(a, r) && h.files.pointer == a.previousSlot
      && h.files.journal.value.previous == r.previous && h.files.journal.value.target == r.target
      && h.files.journal.value.schema == r.schema.(migrationInvoked := false, migrationCompleted := false)
    ensures o.Returned? && AtRest(old(h.data)) && h.files.journal != old(h.files.journal) ==> !h.past.inherited
    ensures h.files.journal == old(h.files.journal)
         || (h.files.journal.Some? && h.files.journal.value.requestId == a.requestId && h.files.journal.value.phase == TargetPrepared)
    ensures old(h.Healthy()) ==> h.Healthy() && (h.files.journal != old(h.files.journal) ==> o.Returned?)
  {
    hide Inv, Interfered, Progressed, Fresh;
    ghost var before := h.Now();
    var checked := CheckNewActivation(h, a, r);
    ghost var middle := h.Now();
    if Inv(before) {
      RestingDatabase(before);
    }
    RestingProgresses(before, middle);
    var _ :- checked;
    var created := InitializeActivationJournal(h, a.requestId, r.previous, r.target, r.schema);
    InterferenceKeepsInv(middle, h.eve);
    InterferenceMovesRuntime(middle, h.eve);
    RestingProgresses(before, h.eve);
    if Inv(before) && Fresh(before.past, a.requestId) && h.Now() != h.eve {
      OpeningKeepsInv(h.eve, a.requestId, r.previous, r.target, r.schema);
      ProgressedIsTransitive(before, h.eve, h.Now());
    }
    var _ :- created;
    o := Returned(());
  }

  /** Nothing stands between a newly opened activation and its commit. */
  lemma OpenedIsForwardable(w: World, a: Arguments)
    requires Inv(w) && w.files.journal.Some? && w.files.journal.value.phase == TargetPrepared && !w.past.inherited
    requires ResumeMatches(a, w.files.journal.value)
    ensures Recoverable(w) && Forwardable(w)
  {
  }

  /** A resume is of this very request, and contradicts nothing its journal says. */
  predicate MayResume(a: Arguments, j: Journal) {
    j.requestId == a.requestId && ((a.previousSlot.None? && a.targetSlot.None?) || ResumeMatches(a, j))
  }

  /** Opens a new activation, or finds the one this request may resume. */
  method Admit(h: Host, a: Arguments, r: Reports, journal: Option<Journal>) returns (o: Outcome<(), Code>)
    requires journal == h.files.journal
    modifies h
    ensures Inv(old(h.Now())) && Fresh(old(h.past), a.requestId) ==> Inv(h.Now()) && Progressed(old(h.Now()), h.Now())
    ensures o.Returned? ==> h.files.journal.Some? && h.files.journal.value.requestId == a.requestId
    ensures !StartsNew(journal, a.requestId) ==> h.Now() == old(h.Now()) && h.clock == old(h.clock)
    ensures !StartsNew(journal, a.requestId) && !MayResume(a, journal.value) ==>
      o == Raised(if journal.value.requestId != a.requestId then ActivationRequestConflict else ActivationJournalConflict)
    ensures !StartsNew(journal, a.requestId) && MayResume(a, journal.value) ==> o.Returned?
    ensures StartsNew(journal, a.requestId) && Inv(old(h.Now())) && Fresh(old(h.past), a.requestId) && AtRest(old(h.data))
      && o.Returned?
      ==> Recoverable(h.Now()) && Forwardable(h.Now()) && !Settled(h.files.journal.value.phase)
    ensures old(h.Healthy()) ==> h.Healthy() && (h.files.journal != journal ==> o.Returned?)
  {
    hide Inv, Progressed, Fresh, Recoverable, Forwardable;
    RestingProgresses(h.Now(), h.Now());
    if StartsNew(journal, a.requestId) {
      o := OpenActivation(h, a, r);
      if o.Returned? && Inv(h.Now()) && !h.past.inherited {
        OpenedIsForwardable(h.Now(), a);
      }
      return;
    }
    if journal.value.requestId != a.requestId {
      return Raised(ActivationRequestConflict);
    }
    if (a.previousSlot.Some? || a.targetSlot.Some?) && !ResumeMatches(a, journal.value) {
      return Raised(ActivationJournalConflict);
    }
    o := Returned(());
  }

  /** `j` settled the activation of `w` in `v`: completed if nothing stood in the way, and
      with the winner's runtime up if there was anything left to settle. */
  predicate SettledFrom(w: World, v: World, j: Journal)
    requires w.files.journal.Some?
  {
    && Settled(j.phase)
    && (Forwardable(w) ==> j.phase == Completed)
    && (!Settled(w.files.journal.value.phase) ==> Serves(v.docker, Winner(j).slotId))
  }

  /** One run of the command.  It never touches a journal of another request that is not
      settled, blocked included.  In a healthy environment a resume returns, blocked at worst,
      and settles whatever is recoverable, a new activation that was opened is completed, and
      the winner's runtime is up. */
  method ActivateOrResume(h: Host, a: Arguments, r: Reports) returns (o: Outcome<Journal, Code>)
    modifies h
    ensures Inv(old(h.Now())) && Fresh(old(h.past), a.requestId) ==> Inv(h.Now()) && Progressed(old(h.Now()), h.Now())
    ensures o.Returned? ==> Concluded(h.files, o.value) && o.value.phase in TERMINAL_ACTIVATION_PHASES
    ensures !IsRequestId(a.requestId) ==> o == Raised(RequestIdInvalid)
    ensures o.Returned? ==> o.value.requestId == a.requestId && IsRequestId(a.requestId) && ValidSlots(a)
    ensures !IsRequestId(a.requestId) || !ValidSlots(a)
      || (old(h.files.journal).Some? && !StartsNew(old(h.files.journal), a.requestId) && !MayResume(a, old(h.files.journal).value))
      ==> !o.Returned? && h.files == old(h.files) && h.past == old(h.past)
    ensures old(h.files.journal).Some? && !Settled(old(h.files.journal).value.phase)
      && old(h.files.journal).value.requestId != a.requestId
      ==> !o.Returned? && h.files == old(h.files) && h.past == old(h.past)
    ensures old(h.Healthy()) && Inv(old(h.Now())) && Fresh(old(h.past), a.requestId) && Recoverable(old(h.Now()))
      && IsRequestId(a.requestId) && a.previousSlot.None? && a.targetSlot.None?
      && old(h.files.journal).value.requestId == a.requestId
      ==> o.Returned? && SettledFrom(old(h.Now()), h.Now(), o.value)
    ensures old(h.Healthy()) && Inv(old(h.Now())) && Fresh(old(h.past), a.requestId) && IsRequestId(a.requestId)
      && a.previousSlot.None? && a.targetSlot.None?
      && old(h.files.journal).Some? && old(h.files.journal).value.requestId == a.requestId
      ==> o.Returned?
    ensures old(h.Healthy()) && Inv(old(h.Now())) && Fresh(old(h.past), a.requestId) && StartsNew(old(h.files.journal), a.requestId)
      && AtRest(old(h.data)) && h.files.journal.Some? && h.files.journal.value.requestId == a.requestId
      ==> o.Returned? && o.value.phase == Completed && Serves(h.docker, o.value.target.slotId)
    ensures old(h.Healthy()) ==> h.Healthy()
  {
    hide Inv, Progressed, Fresh, Continues, Forwardable;
    ghost var before := h.Now();
    ghost var healthy := h.Healthy();
    RestingProgresses(before, before);
    if !IsRequestId(a.requestId) {
      return Raised(RequestIdInvalid);
    }
    var read := ReadJournal(h);
    ghost var middle := h.Now();
    RestingProgresses(before, middle);
    if Recoverable(before) && healthy {
      RestingStaysForwardable(before, middle);
    }
    var journal :- read;
    if !ValidSlots(a) {
      return Raised(SlotIdInvalid);
    }
    var admitted := Admit(h, a, r, journal);
    if Inv(before) && Fresh(before.past, a.requestId) {
      ProgressedFrom(before, middle, h.Now());
    }
    var _ :- admitted;
    middle := h.Now();
    ghost var rounds;
    ghost var fault;
    o, rounds, fault := ConvergeActivation(h, a.requestId);
    ContinuesKeepsActivation(middle, h.Now());
    ContinuingProgresses(middle, h.Now());
    if Inv(before) && Fresh(before.past, a.requestId) {
      ProgressedFrom(before, middle, h.Now());
    }
  }

  lemma RestingStaysForwardable(w: World, v: World)
    requires Rested(w, v) && KeepsServing(w.docker, v.docker)
    requires Recoverable(w)
    ensures Recoverable(v) && (Forwardable(w) ==> Forwardable(v))
  {
    hide Inv;
  }

  method ReadJournal(h: Host) returns (o: Outcome<Option<Journal>, Code>)
    modifies h
    ensures Rested(old(h.Now()), h.Now())
    ensures o.Returned? ==> o.value == h.files.journal
    ensures old(h.Healthy()) ==> h.Healthy() && KeepsServing(old(h.docker), h.docker)
    ensures old(h.Healthy()) && Inv(old(h.Now())) ==> o.Returned?
    ensures old(h.Healthy()) && h.files.journal.Some? && ValidateJournal(h.files.journal.value) ==> o.Returned?
  {
    ghost var before := h.Now();
    o := ReadActivationJournal(h);
    InterferenceKeepsInv(before, h.Now());
  }

  lemma ProgressedFrom(u: World, v: World, w: World)
    requires Inv(u) && Progressed(u, v) && Progressed(v, w)
    ensures Progressed(u, w)
  {
    ProgressedIsTransitive(u, v, w);
  }
}
