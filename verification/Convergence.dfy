/** `converge_activation`: one method per phase, and the loop that drives them. */
module Convergence {
  import opened Wrappers
  import opened Contracts
  import opened ActivationJournal
  import opened Installation
  import opened SlotStore
  import opened Runtime
  import opened JournalWrites
  import opened Bridge

  /** A phase either asks for the next iteration (`None`) or ends the convergence. */
  type PhaseOutcome = Outcome<Option<Journal>, Code>

  /** The two ways a phase may return normally. */
  ghost predicate WellReturned(w: World, v: World, o: PhaseOutcome) {
    o.Returned? && w.files.journal.Some? && v.files.journal.Some? ==>
      match o.value
      case None =>
        Rank(w.files.journal.value.phase) < Rank(v.files.journal.value.phase) < 6
      case Some(j) =>
        Concluded(v.files, j) && j.phase in TERMINAL_ACTIVATION_PHASES
  }

  /** A phase that settled the activation left the winner's runtime up. */
  predicate WinnerServes(v: World, o: PhaseOutcome) {
    o.Returned? && o.value.Some? && Settled(o.value.value.phase) ==> Serves(v.docker, Winner(o.value.value).slotId)
  }

  /** In a healthy environment a recoverable installation stays on its way to a settled
      phase. */
  ghost predicate OnItsWay(v: World, o: PhaseOutcome) {
    && o.Returned?
    && (o.value.None? ==> Recoverable(v))
    && (o.value.Some? ==> Settled(o.value.value.phase))
  }

  /** Nothing stands between the activation and its commit: the migration it needs is still
      to be run or left its evidence, and a target that was verified still serves. */
  predicate Forwardable(w: World) {
    && w.files.journal.Some?
    && var j := w.files.journal.value;
    && match j.phase
       case TargetPrepared => j.schema.migrationRequired ==> j.target.commit.Some?
       case Quiescing => j.schema.migrationRequired ==> j.target.commit.Some?
       case SchemaPreparing => j.schema.migrationCompleted || EvidenceOf(w.data, j)
       case Activating => true
       case VerifyingTarget => true
       case CommittingTarget => Serves(w.docker, j.target.slotId)
       case _ => false
  }

  /** An interrupted migration without the evidence of its completion. */
  predicate Unfinished(w: World) {
    && w.files.journal.Some? && w.files.journal.value.phase == SchemaPreparing
    && !Forwardable(w)
  }

  predicate RolledBack(o: PhaseOutcome) {
    o.Returned? && o.value.Some? && o.value.value.phase == FailedRolledBack
  }

  /** The activation goes on towards its commit, or is committed. */
  predicate OnTarget(v: World, o: PhaseOutcome) {
    && o.Returned?
    && (o.value.None? ==> Forwardable(v))
    && (o.value.Some? ==> o.value.value.phase == Completed)
  }

  /** The steps that turn an activation back when they raise: stopping the writers, migrating,
      switching the pointer, and seeing the target run. */
  datatype FailedStep = Stopping | Migrating | Switching | Verifying

  /** A step raised `code`, and left the world behind at this point of the environment. */
  datatype Fault = Fault(step: FailedStep, code: Code, at: nat, world: World)

  /** The switch raised, but the pointer moved. */
  predicate SwitchedAnyway(f: Fault) {
    && f.step == Switching && f.world.files.journal.Some?
    && f.world.files.pointer == Some(f.world.files.journal.value.target.slotId)
  }

  /** After the fault nothing fails any more, and what it left behind can be recovered. */
  ghost predicate Overcome(oracle: nat -> Event, f: Fault) {
    BenignFrom(oracle, f.at) && Recoverable(f.world) && !SwitchedAnyway(f)
  }

  /** What is on record after a switch that raised and did not take effect, or could not be
      judged. */
  predicate SwitchCause(j: Journal) {
    || j.rollbackTrigger == Some(ActivePointerSwitchFailed)
    || (j.phase == Blocked && j.failureCategory == Some(ActivePointerSwitchFailed))
  }

  /** The cause a failed step puts on record. */
  predicate CalledFor(f: Fault, j: Journal) {
    match f.step
    case Stopping => j.rollbackTrigger == Some(SlotQuiesceFailed)
    case Migrating => j.rollbackTrigger == Some(f.code)
    case Switching => SwitchCause(j)
    case Verifying =>
      if f.code in {SlotRuntimeEvidenceMismatch, ActivationTargetIdentityMismatch}
      then j.rollbackTrigger == Some(TargetIdentityMismatch)
      else j.rollbackTrigger == Some(TargetHealthFailed)
  }

  /** All a phase may come to over evidence it cannot act on: a block under this category, or
      the first on record. */
  predicate BlockedFor(o: PhaseOutcome, j: Journal, category: Code) {
    o.Returned? ==>
      o.value.Some? && o.value.value.phase == Blocked && o.value.value.failureCategory == FirstOf(j.failureCategory, category)
  }

  /** Rolled back, with the previous runtime up. */
  predicate Restored(v: World, o: PhaseOutcome) {
    RolledBack(o) && Serves(v.docker, o.value.value.previous.slotId)
  }

  /** A phase turns back only after a step of it raised.  It records the cause that step calls
      for; and if nothing fails afterwards and the database is proven, it rolls back. */
  ghost predicate Turned(oracle: nat -> Event, w: World, v: World, o: PhaseOutcome, fault: Option<Fault>) {
    && (fault.Some? && Inv(w) && o.Returned? && o.value.Some? ==> CalledFor(fault.value, o.value.value))
    && (fault.Some? && Inv(w) ==> SoundFault(w, fault.value))
    && (fault.Some? && Inv(w) && Overcome(oracle, fault.value) ==> Restored(v, o))
    && (fault.None? && Inv(w) && o.Returned? && o.value.Some? ==> EndedUnfailed(w, o.value.value))
    && (o == Returned(None) ==> StillForward(w, v))
  }

  /** What a phase that goes on leaves for the next one. */
  predicate StillForward(w: World, v: World) {
    && v.past.slipped == w.past.slipped
    && (v.files.journal.Some? && v.files.journal.value.phase == SchemaPreparing ==>
          v.files.journal.value.schema.migrationCompleted)
  }

  /** The world a fault left is sound, and in the phase of the step that raised. */
  predicate SoundFault(w: World, f: Fault) {
    && Inv(f.world) && f.world.past.slipped == w.past.slipped && f.world.files.journal.Some?
    && (f.step == Switching ==> f.world.files.journal.value.phase == Activating)
    && (f.step == Verifying ==> f.world.files.journal.value.phase in {VerifyingTarget, CommittingTarget})
  }

  /** Where no step raised, only the commit ends an activation that did not fail before; but a
      migration found interrupted turns it back. */
  predicate EndedUnfailed(w: World, j: Journal) {
    && w.files.journal.Some?
    && (w.files.journal.value.phase in {TargetPrepared, Quiescing, Activating, VerifyingTarget, CommittingTarget} ==>
          j.phase == Completed)
    && (w.files.journal.value.phase == SchemaPreparing ==>
          || j.phase == Completed
          || (!w.files.journal.value.schema.migrationCompleted && j.rollbackTrigger == Some(SchemaMigrationInterrupted)))
  }

  /** A look that left the files alone, or steps that ended in the fault. */
  lemma TurnedAfterLook(oracle: nat -> Event, u: World, w: World, v: World, o: PhaseOutcome, fault: Option<Fault>)
    requires Turned(oracle, w, v, o, fault) && (Inv(u) ==> Inv(w)) && w.past.slipped == u.past.slipped
    requires fault.None? ==> w.files.journal == u.files.journal
    ensures Turned(oracle, u, v, o, fault)
  {
    hide Inv;
  }

  lemma UnfailedHasNoCause(w: World)
    requires Inv(w) && w.files.journal.Some? && Rank(w.files.journal.value.phase) < 6
    ensures w.files.journal.value.rollbackTrigger.None? && w.files.journal.value.failureCategory.None?
  {
  }

  lemma TurnedByFault(oracle: nat -> Event, w: World, v: World, o: PhaseOutcome, f: Fault)
    requires f.world == w && (Inv(w) ==> SoundFault(w, f))
    requires Inv(w) && o.Returned? && o.value.Some? ==> CalledFor(f, o.value.value)
    requires Inv(w) && Overcome(oracle, f) ==> Restored(v, o)
    requires o == Returned(None) ==> StillForward(w, v)
    ensures Turned(oracle, w, v, o, Some(f))
  {
    hide Inv;
  }

  /** A phase that raised without a fault of its own, or was entered with a journal no run has. */
  lemma TurnedVacuously(oracle: nat -> Event, w: World, v: World, o: PhaseOutcome)
    requires o.Returned? ==> o.value.Some? && !Inv(w)
    ensures Turned(oracle, w, v, o, None)
  {
    hide Inv;
  }

  /** From the switch on, the database of a sound installation is proven, unless a container
      slipped through an earlier probe. */
  lemma SoundIsRecoverable(w: World)
    requires Inv(w) && w.files.journal.Some? && !w.past.slipped
    requires w.files.journal.value.phase in {Quiescing, Activating, VerifyingTarget, CommittingTarget}
    ensures Recoverable(w)
  {
    RestIsRecoverable(w);
  }

  /** What a phase promises even when it turns back. */
  ghost predicate PhaseKept(w: World, v: World, o: PhaseOutcome, wasHealthy: bool, isHealthy: bool) {
    && Continues(w, v)
    && (Inv(w) ==> Inv(v))
    && WellReturned(w, v, o)
    && (wasHealthy ==> isHealthy)
    && (wasHealthy && Inv(w) ==> o.Returned?)
    && (wasHealthy && !Settled(w.files.journal.value.phase) ==> WinnerServes(v, o))
    && (wasHealthy && Inv(w) && Recoverable(w) ==> OnItsWay(v, o))
  }

  /** What every phase of the convergence promises. */
  ghost predicate PhaseDone(w: World, v: World, o: PhaseOutcome, wasHealthy: bool, isHealthy: bool) {
    && PhaseKept(w, v, o, wasHealthy, isHealthy)
    && (wasHealthy && Inv(w) && Recoverable(w) && Forwardable(w) ==> OnTarget(v, o))
  }

  method Block(h: Host, journal: Journal, category: Code) returns (o: PhaseOutcome)
    requires h.files.journal.Some?
    modifies h
    ensures Continues(old(h.Now()), h.Now()) && (Inv(old(h.Now())) ==> Inv(h.Now()))
    ensures o.Returned? ==> o.value.Some? && Concluded(h.files, o.value.value) && o.value.value.phase == Blocked
    ensures o.Returned? ==> o.value.value.failureCategory == FirstOf(old(h.files.journal).value.failureCategory, category)
    ensures old(h.Healthy()) ==> h.Healthy()
    ensures old(h.Healthy()) && Inv(old(h.Now())) && MayBlock(old(h.files), journal.requestId, category, None) ==>
      o.Returned?
  {
    hide Inv, Continues;
    var blocked :- BlockActivation(h, journal.requestId, category, None);
    o := Returned(Some(blocked));
  }

  method RollBack(h: Host, journal: Journal, trigger: Code) returns (o: PhaseOutcome)
    requires h.files.journal.Some? && SameActivation(journal, h.files.journal.value)
    requires !Settled(h.files.journal.value.phase)
    modifies h
    ensures Continues(old(h.Now()), h.Now()) && (Inv(old(h.Now())) ==> Inv(h.Now()))
    ensures o.Returned? ==>
      o.value.Some? && Concluded(h.files, o.value.value) && o.value.value.phase in {FailedRolledBack, Blocked}
    ensures o.Returned? ==> o.value.value.rollbackTrigger == FirstOf(old(h.files.journal).value.rollbackTrigger, trigger)
    ensures old(h.Healthy()) ==> WinnerServes(h.Now(), o)
    ensures old(h.Healthy()) ==> h.Healthy()
    ensures old(h.Healthy()) && Inv(old(h.Now())) && Recoverable(old(h.Now())) && MayRollBack(old(h.files), trigger) ==>
      OnItsWay(h.Now(), o)
    ensures old(h.Healthy()) && Inv(old(h.Now())) && MayRollBack(old(h.files), trigger) ==> o.Returned?
  {
    hide Inv, Continues, MayRollBack;
    if Inv(h.Now()) && Recoverable(h.Now()) {
      RecoverableIsProven(h.Now(), journal);
    }
    ghost var before := h.Now();
    ghost var stop;
    var result;
    result, stop := RollbackActivation(h, journal, trigger);
    ContinuesKeepsActivation(before, h.Now());
    var settled :- result;
    o := Returned(Some(settled));
  }

  /** The rollback of an activation that a failed step turns back. */
  method TurnBack(h: Host, journal: Journal, trigger: Code, ghost step: FailedStep, ghost code: Code)
    returns (o: PhaseOutcome, ghost fault: Option<Fault>)
    requires h.files.journal.Some? && SameActivation(journal, h.files.journal.value)
    requires Rank(h.files.journal.value.phase) < 6 && IsMachineCode(trigger)
    requires Inv(h.Now()) ==> SoundFault(h.Now(), Fault(step, code, h.clock, h.Now()))
    requires forall j: Journal :: j.rollbackTrigger == Some(trigger) ==> CalledFor(Fault(step, code, h.clock, h.Now()), j)
    modifies h
    ensures PhaseKept(old(h.Now()), h.Now(), o, old(h.Healthy()), h.Healthy())
    ensures fault == Some(Fault(step, code, old(h.clock), old(h.Now())))
    ensures Turned(h.oracle, old(h.Now()), h.Now(), o, fault)
    ensures o.Returned? ==> o.value.Some?
  {
    hide Inv, Continues, MayRollBack, CalledFor, SoundFault, Turned;
    ghost var before := h.Now();
    fault := Some(Fault(step, code, h.clock, before));
    if Inv(before) {
      NoTriggerYet(before, trigger);
      UnfailedHasNoCause(before);
    }
    o := RollBack(h, journal, trigger);
    TurnedByFault(h.oracle, before, h.Now(), o, fault.value);
  }

  /** One transition of a phase, with what does not depend on which phase it is. */
  method Advance(h: Host, requestId: RequestId, phase: Phase, u: Update) returns (o: Outcome<Journal, Code>)
    requires h.files.journal.Some?
    modifies h
    ensures Continues(old(h.Now()), h.Now())
    ensures h.past == old(h.past) && h.files == old(h.files).(journal := h.files.journal)
    ensures h.files.journal.Some? && (h.files.journal == old(h.files.journal) || h.files.journal.value.phase == phase)
    ensures h.eve.past == old(h.past) && h.eve.files == old(h.files)
    ensures old(h.data.migration).None? ==> h.eve.data == old(h.data)
    ensures Inv(old(h.Now())) ==> Inv(h.eve)
    ensures h.Now() == h.eve || Written(h.eve, h.Now(), requestId, phase, u)
    ensures o.Returned? ==>
      Written(h.eve, h.Now(), requestId, phase, u) && h.files.journal == Some(o.value) && o.value.phase == phase
    ensures Recoverable(old(h.Now())) ==> Recoverable(h.Now())
    ensures old(h.Healthy()) ==> KeepsServing(old(h.docker), h.docker)
    ensures old(h.Healthy()) ==> h.Healthy()
    ensures old(h.Healthy()) && Admits(old(h.files), requestId, phase, u) ==> o.Returned?
  {
    hide Inv, Continues, Admits;
    ghost var before := h.Now();
    o := TransitionJournal(h, requestId, phase, u);
    InterferenceKeepsInv(before, h.eve);
    WriteContinues(before, h.eve, h.Now(), requestId, phase, u);
  }

  method ConvergeTargetPrepared(h: Host, journal: Journal, observed: Option<SlotId>) returns (o: PhaseOutcome)
    requires h.files.journal == Some(journal) && journal.phase == TargetPrepared && observed == h.files.pointer
    modifies h
    ensures PhaseDone(old(h.Now()), h.Now(), o, old(h.Healthy()), h.Healthy())
    ensures observed !in {None, Some(journal.previous.slotId)} ==> BlockedFor(o, journal, ActivationPointerConflict)
    ensures Turned(h.oracle, old(h.Now()), h.Now(), o, None)
  {
    hide Inv, Continues, Written, Admits, Interfered;
    ghost var before := h.Now();
    if Inv(before) {
      PointerStaysInside(before);
    }
    if observed !in {None, Some(journal.previous.slotId)} {
      o := Block(h, journal, ActivationPointerConflict);
      return;
    }
    var next := if journal.schema.migrationRequired then Quiescing else Activating;
    if Inv(before) {
      QuiesceAdmitted(before);
      ActivateAdmitted(before);
    }
    var written := Advance(h, journal.requestId, next, NO_UPDATE);
    ContinuesKeepsActivation(before, h.Now());
    if Inv(before) && h.Now() != h.eve {
      if next == Quiescing {
        QuiesceKeepsInv(h.eve, h.Now(), journal.requestId);
      } else {
        ActivateKeepsInv(h.eve, h.Now(), journal.requestId);
      }
    }
    var _ :- written;
    o := Returned(None);
  }

  /** Stops the writers and declares the migration invoked. */
  method QuiesceAndInvoke(h: Host, journal: Journal) returns (o: Outcome<(), Code>)
    requires h.files.journal == Some(journal) && journal.phase == Quiescing
    modifies h
    ensures Continues(old(h.Now()), h.Now()) && (Inv(old(h.Now())) ==> Inv(h.Now()))
    ensures h.files.journal.Some? && !Settled(h.files.journal.value.phase) && SameActivation(journal, h.files.journal.value)
    ensures o.Returned? ==> h.files.journal.value.phase == SchemaPreparing
    ensures h.past.slipped == old(h.past.slipped) && Rank(h.files.journal.value.phase) < 6
    ensures Inv(old(h.Now())) && o.Returned? ==> ReadyToMigrate(h.Now())
    ensures Inv(old(h.Now())) && Recoverable(old(h.Now())) ==> Recoverable(h.Now())
    ensures old(h.Healthy()) ==> h.Healthy()
    ensures old(h.Healthy()) && Inv(old(h.Now())) ==> o.Returned?
  {
    hide Inv, Continues, Written, Admits, Interfered, ReadyToMigrate, Isolated;
    ghost var before := h.Now();
    EvolvesIsReflexive(journal);
    var stopped := StopAndNote(h, journal);
    ghost var middle := h.Now();
    ContinuesFromSameFiles(before, middle);
    ContinuesKeepsActivation(before, middle);
    var _ :- stopped;
    if Inv(middle) {
      InvokeAdmitted(middle);
    }
    var invoked := Advance(h, journal.requestId, SchemaPreparing, MIGRATION_INVOKED);
    ContinuesIsTransitive(before, middle, h.Now());
    ContinuesKeepsActivation(before, h.Now());
    if Inv(before) && (h.Now() != h.eve || invoked.Returned?) {
      InvokeKeepsInv(h.eve, h.Now(), journal.requestId);
      InvokedIsReady(h.eve, h.Now(), journal.requestId);
    }
    var _ :- invoked;
    o := Returned(());
  }

  method StopAndNote(h: Host, journal: Journal) returns (o: Outcome<(), Code>)
    requires h.files.journal == Some(journal) && journal.phase == Quiescing
    modifies h
    ensures h.files == old(h.files) && h.past == old(h.past).(quiet := h.past.quiet)
    ensures old(h.data.migration).None? ==> h.data == old(h.data)
    ensures Inv(old(h.Now())) ==> Inv(h.Now())
    ensures o.Returned? ==> h.past.quiet
    ensures old(h.Healthy()) ==> h.Healthy()
    ensures old(h.Healthy()) && Inv(old(h.Now())) ==> o.Returned?
  {
    ghost var before := h.Now();
    if Inv(before) {
      QuiescingFacts(before);
    }
    o := StopSlotSchemaWriters(h);
    if Inv(before) {
      StopKeepsInv(before, h.Now());
    }
  }

  /** The evidence that the migration of this very activation was completed. */
  predicate EvidenceOf(d: Store, j: Journal) {
    j.target.commit.Some? && d.evidence == Some(MutationEvidence(j.requestId, j.target.commit))
  }

  /** Whether the migration left its evidence, whatever the container's exit said. */
  method MigrationLeftEvidence(h: Host, journal: Journal) returns (o: Outcome<bool, Code>)
    requires h.files.journal.Some? && SameActivation(journal, h.files.journal.value)
    modifies h
    ensures old(h.data.migration).None? ==> h.data == old(h.data)
    ensures h.files == old(h.files) && h.past == old(h.past)
    ensures Inv(old(h.Now())) ==> Inv(h.Now())
    ensures Recoverable(old(h.Now())) ==> Recoverable(h.Now())
    ensures o.Returned? && o.value ==> EvidenceOf(h.data, journal)
    ensures old(h.Healthy()) ==> KeepsServing(old(h.docker), h.docker)
    ensures old(h.Healthy()) && old(h.data.migration).None? && EvidenceOf(old(h.data), journal) ==> o == Returned(true)
    ensures old(h.Healthy()) ==> h.Healthy() && o.Returned?
    ensures Inv(old(h.Now())) && !h.past.inherited && o.Returned? && o.value ==> AtRest(h.data)
  {
    hide Inv;
    ghost var before := h.Now();
    o := SchemaMutationCompleted(h, journal.requestId, journal.target.commit);
    InterferenceKeepsInv(before, h.Now());
    InterferenceMovesRuntime(before, h.Now());
    if o.Returned? && o.value && Inv(h.Now()) && !h.past.inherited {
      EvidenceMeansWhole(h.Now());
    }
  }

  /** Records the completed migration over its evidence. */
  method RecordMigration(h: Host, journal: Journal) returns (o: Outcome<(), Code>)
    requires h.files.journal.Some? && SameActivation(journal, h.files.journal.value)
    requires h.files.journal.value.phase == SchemaPreparing
    requires h.files.journal.value.schema.migrationCompleted
          || (h.data.evidence.Some? && h.data.evidence.value.requestId == journal.requestId)
    modifies h
    ensures Continues(old(h.Now()), h.Now()) && h.past == old(h.past)
    ensures Inv(old(h.Now())) ==> Inv(h.Now())
    ensures h.files.journal.Some? && h.files.journal.value.phase == SchemaPreparing
    ensures o.Returned? ==> h.files.journal.value.schema.migrationCompleted
    ensures Recoverable(old(h.Now())) ==> Recoverable(h.Now())
    ensures old(h.Healthy()) ==> h.Healthy()
    ensures old(h.Healthy()) && Inv(old(h.Now())) ==> o.Returned?
  {
    hide Inv, Continues, Admits;
    ghost var before := h.Now();
    if Inv(before) {
      CompleteMigrationAdmitted(before);
      if !h.files.journal.value.schema.migrationCompleted && !h.past.inherited {
        EvidenceMeansWhole(before);
      }
    }
    var written := Advance(h, journal.requestId, SchemaPreparing, MIGRATION_COMPLETED);
    if Inv(before) && h.Now() != h.eve {
      CompleteMigrationKeepsInv(h.eve, h.Now(), journal.requestId);
    }
    var _ :- written;
    o := Returned(());
  }

  /** Runs the migration; `None` means its evidence was seen, a code names the failure. */
  method MigrateForEvidence(h: Host, journal: Journal)
    returns (o: Outcome<Option<Code>, Code>, ghost run: Outcome<(), Code>, ghost first: Option<bool>)
    requires h.files.journal.Some? && SameActivation(journal, h.files.journal.value)
    modifies h
    ensures h.files == old(h.files) && h.past == old(h.past).(starts := h.past.starts)
    ensures Inv(old(h.Now())) && ReadyToMigrate(old(h.Now())) ==> Inv(h.Now())
    ensures o.Returned? && o.value.Some? ==> IsMachineCode(o.value.value)
    ensures run.Crashed? ==> o.Crashed?
    ensures o.Returned? && o.value.Some? ==>
      o.value.value == if run.Raised? && first != Some(true) then run.error else SchemaEvidenceMissing
    ensures o.Returned? && o.value.None? ==>
      h.data.evidence.Some? && h.data.evidence.value.requestId == journal.requestId
    ensures old(h.Healthy()) && Inv(old(h.Now())) && ReadyToMigrate(old(h.Now())) && journal.target.commit.Some? ==>
      o == Returned(None)
    ensures old(h.Healthy()) ==> h.Healthy() && o.Returned?
    ensures old(h.Healthy()) && Inv(old(h.Now())) && ReadyToMigrate(old(h.Now())) && Recoverable(old(h.Now())) ==>
      Recoverable(h.Now())
  {
    hide Inv, ReadyToMigrate;
    var ran := RunTargetSchemaMigration(h, journal);
    run, first := ran, None;
    if ran.Crashed? {
      return Crashed, run, first;
    }
    if ran.Raised? {
      var seen :- MigrationLeftEvidence(h, journal);
      first := Some(seen);
      if !seen {
        return Returned(Some(ran.error)), run, first;
      }
    }
    var seen :- MigrationLeftEvidence(h, journal);
    o := Returned(if seen then None else Some(SchemaEvidenceMissing));
  }

  /** Runs the migration once and records its completion, or rolls back. */
  method MigrateAndRecord(h: Host, journal: Journal) returns (o: PhaseOutcome, ghost fault: Option<Fault>)
    requires h.files.journal.Some? && SameActivation(journal, h.files.journal.value)
    requires h.files.journal.value.phase == SchemaPreparing
    modifies h
    ensures o.Returned? && o.value.None? ==> h.files.journal.Some? && h.files.journal.value.schema.migrationCompleted
    ensures WentOn(old(h.Now()), h.Now())
    ensures fault.None? && o.Returned? ==> o.value.None?
    ensures fault.Some? ==> fault.value.step == Migrating && fault.value.world.files.journal.Some?
    ensures fault.Some? && Inv(old(h.Now())) && ReadyToMigrate(old(h.Now())) ==>
      TurnedMigration(h.oracle, old(h.Now()), h.Now(), o, fault.value)
    ensures o == Returned(None) ==> h.past.slipped == old(h.past.slipped)
    ensures Inv(old(h.Now())) && ReadyToMigrate(old(h.Now())) ==> Inv(h.Now())
    ensures o.Returned? && o.value.None? ==> h.files.journal.value.phase == SchemaPreparing
    ensures o.Returned? && o.value.Some? ==>
      Concluded(h.files, o.value.value) && o.value.value.phase in TERMINAL_ACTIVATION_PHASES
    ensures old(h.Healthy()) ==> WinnerServes(h.Now(), o)
    ensures old(h.Healthy()) && Inv(old(h.Now())) && ReadyToMigrate(old(h.Now())) && journal.target.commit.Some? ==>
      o == Returned(None)
    ensures old(h.Healthy()) ==> h.Healthy()
    ensures old(h.Healthy()) && Inv(old(h.Now())) && ReadyToMigrate(old(h.Now())) && Recoverable(old(h.Now())) ==>
      OnItsWay(h.Now(), o)
    ensures old(h.Healthy()) && Inv(old(h.Now())) && ReadyToMigrate(old(h.Now())) ==> o.Returned?
  {
    hide Inv, Continues, MayRollBack, ReadyToMigrate;
    ghost var before := h.Now();
    fault := None;
    ghost var run, first;
    var migrated;
    migrated, run, first := MigrateForEvidence(h, journal);
    ghost var middle := h.Now();
    EvolvesIsReflexive(h.files.journal.value);
    var failure :- migrated;
    if failure.Some? {
      fault := Some(Fault(Migrating, failure.value, h.clock, middle));
      if Inv(middle) {
        NoTriggerYet(middle, failure.value);
      }
      o := RollBack(h, journal, failure.value);
      MigratedThenContinues(before, middle, h.Now());
      return;
    }
    var recorded := RecordMigration(h, journal);
    MigratedThenContinues(before, middle, h.Now());
    var _ :- recorded;
    o := Returned(None);
  }

  /** What the one run of the migration comes to, seen from before the writers were stopped. */
  lemma TurnedByMigration(oracle: nat -> Event, u: World, w: World, v: World, o: PhaseOutcome, fault: Option<Fault>)
    requires w.past.slipped == u.past.slipped && (Inv(u) ==> Inv(w) && ReadyToMigrate(w))
    requires fault.None? && o.Returned? ==> o.value.None?
    requires fault.Some? ==> fault.value.step == Migrating && fault.value.world.files.journal.Some?
    requires fault.Some? && Inv(w) && ReadyToMigrate(w) ==> TurnedMigration(oracle, w, v, o, fault.value)
    requires o == Returned(None) ==> StillForward(w, v)
    ensures Turned(oracle, u, v, o, fault)
  {
    hide Inv, ReadyToMigrate;
  }

  ghost predicate TurnedMigration(oracle: nat -> Event, w: World, v: World, o: PhaseOutcome, f: Fault) {
    && Inv(f.world) && f.world.past.slipped == w.past.slipped
    && (o.Returned? && o.value.Some? ==> o.value.value.rollbackTrigger == Some(f.code))
    && (BenignFrom(oracle, f.at) && Recoverable(f.world) ==> Restored(v, o))
  }

  method ConvergeQuiescing(h: Host, journal: Journal) returns (o: PhaseOutcome, ghost fault: Option<Fault>)
    requires h.files.journal == Some(journal) && journal.phase == Quiescing
    modifies h
    ensures PhaseDone(old(h.Now()), h.Now(), o, old(h.Healthy()), h.Healthy())
    ensures !journal.schema.migrationRequired ==> BlockedFor(o, journal, SchemaJournalConflict)
    ensures Turned(h.oracle, old(h.Now()), h.Now(), o, fault)
  {
    hide Inv, Turned, TurnedMigration, Continues, MayRollBack, ReadyToMigrate, SameActivation;
    ghost var before := h.Now();
    fault := None;
    if Inv(before) {
      QuiescingFacts(before);
    }
    if !journal.schema.migrationRequired {
      o := Block(h, journal, SchemaJournalConflict);
      TurnedVacuously(h.oracle, before, h.Now(), o);
      return;
    }
    var invoked := QuiesceAndInvoke(h, journal);
    ghost var middle := h.Now();
    if invoked.Crashed? {
      o := Crashed;
      TurnedVacuously(h.oracle, before, h.Now(), o);
      return;
    }
    if invoked.Raised? {
      o, fault := TurnBack(h, journal, SlotQuiesceFailed, Stopping, invoked.error);
      ContinuesIsTransitive(before, middle, h.Now());
      TurnedAfterLook(h.oracle, before, middle, h.Now(), o, fault);
    } else {
      o, fault := MigrateAndRecord(h, journal);
      ContinuesThroughMigration(before, middle, h.Now());
      TurnedByMigration(h.oracle, before, middle, h.Now(), o, fault);
    }
  }

  /** Records the completed migration, then moves on to the switch. */
  method AcceptMigration(h: Host, journal: Journal) returns (o: PhaseOutcome)
    requires h.files.journal.Some? && SameActivation(journal, h.files.journal.value)
    requires h.files.journal.value.phase == SchemaPreparing
    requires h.files.journal.value.schema.migrationCompleted
          || (h.data.evidence.Some? && h.data.evidence.value.requestId == journal.requestId)
    modifies h
    ensures PhaseDone(old(h.Now()), h.Now(), o, old(h.Healthy()), h.Healthy())
    ensures Turned(h.oracle, old(h.Now()), h.Now(), o, None)
  {
    hide Inv, Continues, Admits;
    ghost var before := h.Now();
    var recorded := RecordMigration(h, journal);
    ghost var middle := h.Now();
    ContinuesKeepsActivation(before, middle);
    var _ :- recorded;
    if Inv(middle) {
      ActivateAdmitted(middle);
    }
    var written := Advance(h, journal.requestId, Activating, NO_UPDATE);
    ContinuesIsTransitive(before, middle, h.Now());
    if Inv(before) && h.Now() != h.eve {
      ActivateKeepsInv(h.eve, h.Now(), journal.requestId);
    }
    var _ :- written;
    o := Returned(None);
  }

  /** An interrupted migration goes forward over its completion, and back without it. */
  method DecideInterrupted(h: Host, journal: Journal, completed: bool) returns (o: PhaseOutcome)
    requires h.files.journal == Some(journal) && journal.phase == SchemaPreparing
    requires journal.schema.migrationCompleted ==> completed
    requires completed ==> journal.schema.migrationCompleted || EvidenceOf(h.data, journal)
    modifies h
    ensures PhaseKept(old(h.Now()), h.Now(), o, old(h.Healthy()), h.Healthy())
    ensures Turned(h.oracle, old(h.Now()), h.Now(), o, None)
    ensures !completed && journal.rollbackTrigger.None? && o.Returned? ==>
      && o.value.Some?
      && o.value.value.rollbackTrigger == Some(if journal.schema.migrationInvoked then SchemaMigrationInterrupted else SchemaJournalConflict)
    ensures old(h.Healthy()) && Inv(old(h.Now())) && Recoverable(old(h.Now())) ==>
      if completed then OnTarget(h.Now(), o) else RolledBack(o)
  {
    hide Inv, Continues, MayRollBack;
    EvolvesIsReflexive(journal);
    if completed {
      o := AcceptMigration(h, journal);
    } else {
      var trigger := if journal.schema.migrationInvoked then SchemaMigrationInterrupted else SchemaJournalConflict;
      if Inv(h.Now()) {
        NoTriggerYet(h.Now(), trigger);
        UnfailedHasNoCause(h.Now());
        MigrationPhaseFacts(h.Now());
      }
      o := RollBack(h, journal, trigger);
    }
  }

  /** A migration found in progress is accepted over its evidence or rolled back; this
      phase never starts one. */
  method ConvergeSchemaPreparing(h: Host, journal: Journal) returns (o: PhaseOutcome)
    requires h.files.journal == Some(journal) && journal.phase == SchemaPreparing
    modifies h
    ensures PhaseDone(old(h.Now()), h.Now(), o, old(h.Healthy()), h.Healthy())
    ensures !journal.schema.migrationRequired ==> BlockedFor(o, journal, SchemaJournalConflict)
    ensures Turned(h.oracle, old(h.Now()), h.Now(), o, None)
    ensures old(h.Healthy()) && Inv(old(h.Now())) && Recoverable(old(h.Now())) && Unfinished(old(h.Now())) ==>
      RolledBack(o)
  {
    hide Inv, Continues, MayRollBack;
    ghost var before := h.Now();
    EvolvesIsReflexive(journal);
    if Inv(before) {
      MigrationPhaseFacts(before);
    }
    if !journal.schema.migrationRequired {
      o := Block(h, journal, SchemaJournalConflict);
      return;
    }
    var looked := Returned(true);
    if !journal.schema.migrationCompleted {
      looked := MigrationLeftEvidence(h, journal);
    }
    ghost var middle := h.Now();
    ContinuesFromSameFiles(before, middle);
    var completed :- looked;
    o := DecideInterrupted(h, journal, completed);
    ContinuesIsTransitive(before, middle, h.Now());
  }

  method SwitchToTarget(h: Host, journal: Journal) returns (o: Outcome<(), Code>)
    requires h.files.journal == Some(journal) && journal.phase == Activating
    modifies h
    ensures old(h.data.migration).None? ==> h.data == old(h.data)
    ensures h.files == old(h.files).(pointer := h.files.pointer) && h.past == old(h.past)
    ensures Inv(old(h.Now())) ==> Inv(h.Now())
    ensures Recoverable(old(h.Now())) ==> Recoverable(h.Now())
    ensures o.Returned? ==> h.files.pointer == Some(journal.target.slotId)
    ensures old(h.Healthy()) ==> KeepsServing(old(h.docker), h.docker)
    ensures old(h.Healthy()) ==> h.Healthy()
    ensures old(h.Healthy()) && Inv(old(h.Now())) ==> o.Returned?
  {
    hide Interfered, ValidateJournal;
    ghost var before := h.Now();
    o := AtomicSwitchPointer(h, journal.target.slotId);
    InterferenceKeepsInv(before, h.eve);
    InterferenceMovesRuntime(before, h.eve);
    if Inv(before) {
      SwitchToTargetKeepsInv(h.eve);
    }
  }

  /** Records that the pointer now stands on the target. */
  method RecordSwitched(h: Host, journal: Journal) returns (o: PhaseOutcome)
    requires h.files.journal == Some(journal) && journal.phase == Activating
    requires h.files.pointer == Some(journal.target.slotId)
    modifies h
    ensures PhaseDone(old(h.Now()), h.Now(), o, old(h.Healthy()), h.Healthy())
    ensures Turned(h.oracle, old(h.Now()), h.Now(), o, None)
    ensures (o.Returned? ==> o.value.None?) && h.past == old(h.past)
  {
    hide Inv, Continues, Admits;
    ghost var before := h.Now();
    if Inv(before) {
      VerifyAdmitted(before);
    }
    var written := Advance(h, journal.requestId, VerifyingTarget, NO_UPDATE);
    if Inv(before) && h.Now() != h.eve {
      VerifyKeepsInv(h.eve, h.Now(), journal.requestId);
    }
    var _ :- written;
    o := Returned(None);
  }

  /** A pointer switch that raised may still have taken effect: look again. */
  method AfterFailedSwitch(h: Host, journal: Journal) returns (o: PhaseOutcome)
    requires h.files.journal == Some(journal) && journal.phase == Activating
    modifies h
    ensures PhaseKept(old(h.Now()), h.Now(), o, old(h.Healthy()), h.Healthy())
    ensures Inv(old(h.Now())) && o.Returned? && o.value.Some? ==> SwitchCause(o.value.value)
    ensures old(h.Healthy()) && Inv(old(h.Now())) && Recoverable(old(h.Now())) && old(h.files.pointer) != Some(journal.target.slotId) ==>
      Restored(h.Now(), o)
    ensures o == Returned(None) ==> h.past == old(h.past)
  {
    hide Inv, Continues, MayRollBack, Turned, SwitchCause;
    ghost var before := h.Now();
    if Inv(before) {
      UnfailedHasNoCause(before);
    }
    var after := ObservePointer(h);
    ghost var middle := h.Now();
    ContinuesFromSameFiles(before, middle);
    if after.Raised? {
      o := Block(h, journal, ActivePointerSwitchFailed);
      if Inv(before) && o.Returned? {
        assert SwitchCause(o.value.value) by { BlockedForSwitch(o.value.value); }
      }
    } else {
      var seen :- after;
      o := JudgeSwitch(h, journal, seen);
    }
    ContinuesIsTransitive(before, middle, h.Now());
  }

  lemma BlockedForSwitch(j: Journal)
    requires j.phase == Blocked && j.failureCategory == Some(ActivePointerSwitchFailed)
    ensures SwitchCause(j)
  {
  }

  method JudgeSwitch(h: Host, journal: Journal, seen: Option<SlotId>) returns (o: PhaseOutcome)
    requires h.files.journal == Some(journal) && journal.phase == Activating && seen == h.files.pointer
    modifies h
    ensures PhaseKept(old(h.Now()), h.Now(), o, old(h.Healthy()), h.Healthy())
    ensures Inv(old(h.Now())) && o.Returned? && o.value.Some? ==> SwitchCause(o.value.value)
    ensures old(h.Healthy()) && Inv(old(h.Now())) && Recoverable(old(h.Now())) && old(h.files.pointer) != Some(journal.target.slotId) ==>
      Restored(h.Now(), o)
    ensures o == Returned(None) ==> h.past == old(h.past)
  {
    hide Inv, Continues, MayRollBack, Turned;
    EvolvesIsReflexive(journal);
    if Inv(h.Now()) {
      PointerStaysInside(h.Now());
      UnfailedHasNoCause(h.Now());
    }
    if seen == Some(journal.target.slotId) {
      o := RecordSwitched(h, journal);
    } else if seen in {None, Some(journal.previous.slotId)} {
      if Inv(h.Now()) {
        NoTriggerYet(h.Now(), ActivePointerSwitchFailed);
      }
      o := RollBack(h, journal, ActivePointerSwitchFailed);
    } else {
      o := Block(h, journal, ActivationPointerConflict);
    }
  }

  method ConvergeActivating(h: Host, journal: Journal, observed: Option<SlotId>) returns (o: PhaseOutcome, ghost fault: Option<Fault>)
    requires h.files.journal == Some(journal) && journal.phase == Activating && observed == h.files.pointer
    modifies h
    ensures PhaseDone(old(h.Now()), h.Now(), o, old(h.Healthy()), h.Healthy())
    ensures journal.schema.migrationRequired && !journal.schema.migrationCompleted ==> BlockedFor(o, journal, SchemaEvidenceMissing)
    ensures !(journal.schema.migrationRequired && !journal.schema.migrationCompleted)
      && observed !in {None, Some(journal.previous.slotId), Some(journal.target.slotId)}
      ==> BlockedFor(o, journal, ActivationPointerConflict)
    ensures Turned(h.oracle, old(h.Now()), h.Now(), o, fault)
  {
    hide Inv, Continues, Turned;
    ghost var before := h.Now();
    fault := None;
    if Inv(before) {
      PointerStaysInside(before);
      MigrationPhaseFacts(before);
    }
    if journal.schema.migrationRequired && !journal.schema.migrationCompleted {
      o := Block(h, journal, SchemaEvidenceMissing);
      TurnedVacuously(h.oracle, before, h.Now(), o);
      return;
    }
    if observed !in {None, Some(journal.previous.slotId), Some(journal.target.slotId)} {
      o := Block(h, journal, ActivationPointerConflict);
      TurnedVacuously(h.oracle, before, h.Now(), o);
      return;
    }
    if observed == Some(journal.target.slotId) {
      o := RecordSwitched(h, journal);
      return;
    }
    var switched := SwitchToTarget(h, journal);
    ghost var middle := h.Now();
    ContinuesFromSameFiles(before, middle);
    if switched.Crashed? {
      o := Crashed;
      TurnedVacuously(h.oracle, before, h.Now(), o);
      return;
    }
    if switched.Raised? {
      fault := Some(Fault(Switching, switched.error, h.clock, middle));
      o := AfterFailedSwitch(h, journal);
      TurnedByFault(h.oracle, middle, h.Now(), o, fault.value);
    } else {
      o := RecordSwitched(h, journal);
    }
    ContinuesIsTransitive(before, middle, h.Now());
    TurnedAfterLook(h.oracle, before, middle, h.Now(), o, fault);
  }

  /** Starts the target runtime and compares it with its binding. */
  method StartTarget(h: Host, journal: Journal) returns (o: Outcome<(), Code>)
    requires h.files.journal == Some(journal) && journal.phase == VerifyingTarget
    modifies h
    ensures old(h.data.migration).None? ==> h.data == old(h.data)
    ensures h.files == old(h.files) && h.past == old(h.past).(quiet := false)
    ensures Inv(old(h.Now())) ==> Inv(h.Now())
    ensures Recoverable(old(h.Now())) ==> Recoverable(h.Now())
    ensures o.Returned? ==> Serves(h.docker, journal.target.slotId)
    ensures old(h.Healthy()) ==> h.Healthy() && o.Returned?
  {
    hide Inv, Interfered;
    ghost var before := h.Now();
    var started := ReconcileSlotRuntime(h, journal.target.slotId, true);
    ghost var middle := h.Now();
    if Inv(before) {
      RuntimeStartKeepsInv(before, middle);
    }
    var _ :- started;
    o := VerifySlotRuntime(h, journal.target);
    InterferenceKeepsInv(middle, h.Now());
    InterferenceMovesRuntime(middle, h.Now());
  }

  /** The trigger recorded for a target that failed to start or to verify. */
  function TargetTrigger(code: Code): Code {
    if code in {SlotRuntimeEvidenceMismatch, ActivationTargetIdentityMismatch} then TargetIdentityMismatch
    else TargetHealthFailed
  }

  /** Records the verified target; from here on only the commit is left. */
  method BeginCommit(h: Host, journal: Journal) returns (o: PhaseOutcome)
    requires h.files.journal == Some(journal) && journal.phase == VerifyingTarget
    requires Serves(h.docker, journal.target.slotId) && !h.past.quiet
    modifies h
    ensures PhaseDone(old(h.Now()), h.Now(), o, old(h.Healthy()), h.Healthy())
    ensures Turned(h.oracle, old(h.Now()), h.Now(), o, None)
  {
    hide Inv, Continues, Admits;
    ghost var before := h.Now();
    if Inv(before) {
      CommitAdmitted(before);
    }
    var written := Advance(h, journal.requestId, CommittingTarget, TARGET_VERIFIED);
    ContinuesKeepsActivation(before, h.Now());
    if Inv(before) && h.Now() != h.eve {
      CommitKeepsInv(h.eve, h.Now(), journal.requestId);
    }
    var _ :- written;
    o := Returned(None);
  }

  method ConvergeVerifyingTarget(h: Host, journal: Journal, observed: Option<SlotId>) returns (o: PhaseOutcome, ghost fault: Option<Fault>)
    requires h.files.journal == Some(journal) && journal.phase == VerifyingTarget && observed == h.files.pointer
    modifies h
    ensures PhaseDone(old(h.Now()), h.Now(), o, old(h.Healthy()), h.Healthy())
    ensures observed != Some(journal.target.slotId) ==> BlockedFor(o, journal, TargetPointerMismatch)
    ensures Turned(h.oracle, old(h.Now()), h.Now(), o, fault)
  {
    hide Inv, Turned, Continues, Admits, MayRollBack;
    ghost var before := h.Now();
    fault := None;
    EvolvesIsReflexive(journal);
    if Inv(before) {
      PointerStaysInside(before);
    }
    if observed != Some(journal.target.slotId) {
      o := Block(h, journal, TargetPointerMismatch);
      TurnedVacuously(h.oracle, before, h.Now(), o);
      return;
    }
    var started := StartTarget(h, journal);
    ghost var middle := h.Now();
    ContinuesFromSameFiles(before, middle);
    if started.Crashed? {
      o := Crashed;
      TurnedVacuously(h.oracle, before, h.Now(), o);
      return;
    }
    if started.Raised? {
      o, fault := TurnBack(h, journal, TargetTrigger(started.error), Verifying, started.error);
      ContinuesIsTransitive(before, middle, h.Now());
      TurnedAfterLook(h.oracle, before, middle, h.Now(), o, fault);
      return;
    }
    o := BeginCommit(h, journal);
    ContinuesIsTransitive(before, middle, h.Now());
    TurnedAfterLook(h.oracle, before, middle, h.Now(), o, fault);
  }

  /** Settles the activation as completed, then does everything that only follows from it. */
  method Commit(h: Host, journal: Journal) returns (o: PhaseOutcome)
    requires h.files.journal == Some(journal) && journal.phase == CommittingTarget
    requires Serves(h.docker, journal.target.slotId)
    modifies h
    ensures PhaseDone(old(h.Now()), h.Now(), o, old(h.Healthy()), h.Healthy())
    ensures Turned(h.oracle, old(h.Now()), h.Now(), o, None)
  {
    hide Inv, Continues, Admits;
    ghost var before := h.Now();
    if Inv(before) {
      SettleCompletedAdmitted(before);
      PointerStaysInside(before);
    }
    var written := Advance(h, journal.requestId, Completed, TARGET_VERIFIED);
    ghost var middle := h.Now();
    ContinuesKeepsActivation(before, middle);
    if Inv(before) && h.Now() != h.eve {
      SettleCompletedKeepsInv(h.eve, h.Now(), journal.requestId);
    }
    var completed :- written;
    var concluded := Conclude(h, completed);
    ContinuesFromSameFiles(middle, h.Now());
    ContinuesIsTransitive(before, middle, h.Now());
    var _ :- concluded;
    o := Returned(Some(completed));
  }

  /** The helper handoff is retryable work: a failure there is reported, not raised. */
  method HandOffHelper(h: Host) returns (o: Outcome<(), Code>)
    modifies h
    ensures old(h.data.migration).None? ==> h.data == old(h.data)
    ensures h.files == old(h.files) && h.past == old(h.past)
    ensures Inv(old(h.Now())) ==> Inv(h.Now())
    ensures !o.Raised?
    ensures old(h.Healthy()) ==> KeepsServing(old(h.docker), h.docker)
    ensures old(h.Healthy()) ==> h.Healthy() && o.Returned?
  {
    hide Inv;
    ghost var before := h.Now();
    var e := h.Draw();
    InterferenceKeepsInv(before, h.Now());
    o := if e.fate in {CrashedBefore, CrashedAfter} then Crashed else Returned(());
  }

  method Conclude(h: Host, completed: Journal) returns (o: Outcome<(), Code>)
    requires h.files.journal == Some(completed) && completed.phase == Completed
    modifies h
    ensures old(h.data.migration).None? ==> h.data == old(h.data)
    ensures h.files == old(h.files).(projection := h.files.projection, slots := h.files.slots) && h.past == old(h.past)
    ensures Inv(old(h.Now())) ==> Inv(h.Now())
    ensures o.Returned? ==> Concluded(h.files, completed)
    ensures old(h.Healthy()) ==> KeepsServing(old(h.docker), h.docker)
    ensures old(h.Healthy()) ==> h.Healthy()
    ensures old(h.Healthy()) && old(h.files.pointer) == Some(completed.target.slotId) ==> o.Returned?
  {
    hide Inv;
    var _ :- ReleaseAndPublish(h, completed.target);
    var _ :- HandOffHelper(h);
    o := CleanUp(h);
  }

  method ConvergeCommittingTarget(h: Host, journal: Journal) returns (o: PhaseOutcome, ghost fault: Option<Fault>)
    requires h.files.journal == Some(journal) && journal.phase == CommittingTarget
    modifies h
    ensures PhaseDone(old(h.Now()), h.Now(), o, old(h.Healthy()), h.Healthy())
    ensures Turned(h.oracle, old(h.Now()), h.Now(), o, fault)
  {
    hide Inv, Turned, Continues, Admits, MayRollBack, Interfered;
    ghost var before := h.Now();
    fault := None;
    EvolvesIsReflexive(journal);
    var verified := VerifySlotRuntime(h, journal.target);
    ghost var middle := h.Now();
    InterferenceKeepsInv(before, middle);
    InterferenceMovesRuntime(before, middle);
    ContinuesFromSameFiles(before, middle);
    if verified.Crashed? {
      o := Crashed;
      TurnedVacuously(h.oracle, before, h.Now(), o);
      return;
    }
    if verified.Raised? {
      o, fault := TurnBack(h, journal, TargetTrigger(verified.error), Verifying, verified.error);
    } else {
      o := Commit(h, journal);
    }
    ContinuesIsTransitive(before, middle, h.Now());
    TurnedAfterLook(h.oracle, before, middle, h.Now(), o, fault);
  }

  /** A journal that already failed is rolled back under the trigger it first recorded. */
  method ConvergeFailed(h: Host, journal: Journal) returns (o: PhaseOutcome)
    requires h.files.journal == Some(journal) && journal.phase in {RollingBack, Blocked}
    requires journal.phase == Blocked ==> journal.failureCategory.Some?
    modifies h
    ensures PhaseDone(old(h.Now()), h.Now(), o, old(h.Healthy()), h.Healthy())
    ensures Turned(h.oracle, old(h.Now()), h.Now(), o, None)
    ensures o.Returned? ==>
      o.value.Some? && o.value.value.rollbackTrigger ==
        if journal.rollbackTrigger.Some? then journal.rollbackTrigger
        else if journal.phase == Blocked then journal.failureCategory else Some(TargetHealthFailed)
  {
    hide Inv, Continues, MayRollBack;
    EvolvesIsReflexive(journal);
    var trigger :=
      if journal.rollbackTrigger.Some? then journal.rollbackTrigger.value
      else if journal.phase == Blocked then journal.failureCategory.value
      else TargetHealthFailed;
    if Inv(h.Now()) {
      if journal.phase == RollingBack {
        FailedFacts(h.Now());
      }
      FailedTriggerAdmitted(h.Now(), trigger);
    }
    o := RollBack(h, journal, trigger);
  }

  /** Nothing is decided any more: the fence is released and the projection published. */
  method ConvergeSettled(h: Host, journal: Journal) returns (o: PhaseOutcome)
    requires h.files.journal == Some(journal) && Settled(journal.phase)
    modifies h
    ensures PhaseDone(old(h.Now()), h.Now(), o, old(h.Healthy()), h.Healthy())
    ensures Turned(h.oracle, old(h.Now()), h.Now(), o, None)
  {
    hide Inv, Continues;
    ghost var before := h.Now();
    if Inv(before) {
      PointerStaysInside(before);
    }
    var released := ReleaseAndPublish(h, Winner(journal));
    ContinuesFromSameFiles(before, h.Now());
    var _ :- released;
    o := Returned(Some(journal));
  }

  /** The phases that look at the pointer before they act. */
  method ConvergeForward(h: Host, journal: Journal) returns (o: PhaseOutcome, ghost fault: Option<Fault>)
    requires h.files.journal == Some(journal) && !Settled(journal.phase) && journal.phase != Blocked
    modifies h
    ensures PhaseDone(old(h.Now()), h.Now(), o, old(h.Healthy()), h.Healthy())
    ensures Turned(h.oracle, old(h.Now()), h.Now(), o, fault)
    ensures old(h.Healthy()) && Inv(old(h.Now())) && Recoverable(old(h.Now())) && Unfinished(old(h.Now())) ==>
      RolledBack(o)
  {
    hide Inv, Turned, Continues;
    ghost var before := h.Now();
    fault := None;
    if Inv(before) {
      PointerStaysInside(before);
    }
    var pointer := ObservePointer(h);
    ghost var middle := h.Now();
    ContinuesFromSameFiles(before, middle);
    if !pointer.Returned? {
      TurnedVacuously(h.oracle, before, h.Now(), pointer.PropagateFailure());
    }
    var observed :- pointer;
    match journal.phase {
      case TargetPrepared => o := ConvergeTargetPrepared(h, journal, observed);
      case Quiescing => o, fault := ConvergeQuiescing(h, journal);
      case SchemaPreparing => o := ConvergeSchemaPreparing(h, journal);
      case Activating => o, fault := ConvergeActivating(h, journal, observed);
      case VerifyingTarget => o, fault := ConvergeVerifyingTarget(h, journal, observed);
      case CommittingTarget => o, fault := ConvergeCommittingTarget(h, journal);
      case RollingBack => o := ConvergeFailed(h, journal);
    }
    ContinuesIsTransitive(before, middle, h.Now());
    TurnedAfterLook(h.oracle, before, middle, h.Now(), o, fault);
  }

  method ConvergePhase(h: Host, journal: Journal) returns (o: PhaseOutcome, ghost fault: Option<Fault>)
    requires h.files.journal == Some(journal) && ValidateJournal(journal)
    modifies h
    ensures PhaseDone(old(h.Now()), h.Now(), o, old(h.Healthy()), h.Healthy())
    ensures Turned(h.oracle, old(h.Now()), h.Now(), o, fault)
    ensures old(h.Healthy()) && Inv(old(h.Now())) && Recoverable(old(h.Now())) && Unfinished(old(h.Now())) ==>
      RolledBack(o)
  {
    hide Inv, Continues, PhaseDone, ValidateIdentity;
    fault := None;
    if Settled(journal.phase) {
      o := ConvergeSettled(h, journal);
    } else if journal.phase == Blocked {
      o := ConvergeFailed(h, journal);
    } else {
      o, fault := ConvergeForward(h, journal);
    }
  }

  /** No recovery settles over a torn database, whatever the environment does, if no
      container slipped through a probe. */
  lemma TornStaysTorn(w: World, v: World)
    requires Inv(w) && Inv(v) && Continues(w, v) && Torn(w.data) && !w.past.slipped
    ensures v.data == w.data && !Settled(v.files.journal.value.phase)
  {
  }

  /** One iteration: reads the journal, checks whose it is, and takes its phase. */
  method ConvergeOnce(h: Host, requestId: RequestId) returns (o: PhaseOutcome, ghost fault: Option<Fault>)
    requires h.files.journal.Some?
    modifies h
    ensures PhaseDone(old(h.Now()), h.Now(), o, old(h.Healthy()) && old(h.files.journal).value.requestId == requestId, h.Healthy())
    ensures Turned(h.oracle, old(h.Now()), h.Now(), o, fault)
    ensures old(h.files.journal).value.requestId != requestId ==>
      !o.Returned? && h.files == old(h.files) && (old(h.Healthy()) && Inv(old(h.Now())) ==> o == Raised(ActivationRequestConflict))
    ensures old(h.Healthy()) && old(h.files.journal).value.requestId == requestId && Inv(old(h.Now())) && Recoverable(old(h.Now()))
      && Unfinished(old(h.Now()))
      ==> RolledBack(o)
  {
    hide Inv, Turned, Continues, ValidateJournal;
    ghost var before := h.Now();
    fault := None;
    var read := ReadLive(h);
    ghost var middle := h.Now();
    ContinuesFromSameFiles(before, middle);
    if !read.Returned? {
      TurnedVacuously(h.oracle, before, h.Now(), read.PropagateFailure());
    }
    var journal :- read;
    if journal.requestId != requestId {
      o := Raised(ActivationRequestConflict);
      TurnedVacuously(h.oracle, before, h.Now(), o);
      return;
    }
    o, fault := ConvergePhase(h, journal);
    ContinuesIsTransitive(before, middle, h.Now());
    TurnedAfterLook(h.oracle, before, middle, h.Now(), o, fault);
  }

  /** Rolled back: every document and the pointer name the previous slot, whose runtime is up. */
  predicate BackOnPrevious(v: World, j: Journal) {
    && j.phase == FailedRolledBack && v.files.journal == Some(j)
    && v.files.pointer == Some(j.previous.slotId) && v.files.projection == Some(j.previous)
    && Serves(v.docker, j.previous.slotId)
  }

  /** What the last iteration shows holds of the whole convergence. */
  lemma TurnedThrough(oracle: nat -> Event, u: World, w: World, v: World, o: PhaseOutcome, fault: Option<Fault>, later: bool)
    requires Turned(oracle, w, v, o, fault) && WellReturned(w, v, o) && (Inv(u) ==> Inv(w))
    requires u.files.journal.Some? && w.files.journal.Some? && v.files.journal.Some?
    requires if later then StillForward(u, w) && 0 < Rank(w.files.journal.value.phase) < 6 else u == w
    ensures o == Returned(None) ==> StillForward(u, v)
    ensures fault.Some? && Inv(u) ==> SoundFault(u, fault.value)
    ensures fault.Some? && Inv(u) && o.Returned? && o.value.Some? ==> CalledFor(fault.value, o.value.value)
    ensures fault.Some? && Inv(u) && Overcome(oracle, fault.value) ==>
      o.Returned? && o.value.Some? && BackOnPrevious(v, o.value.value)
    ensures fault.Some? && Inv(u) && !u.past.slipped && fault.value.step == Verifying && BenignFrom(oracle, fault.value.at) ==>
      o.Returned? && o.value.Some? && BackOnPrevious(v, o.value.value)
    ensures fault.None? && Inv(u) && o.Returned? && o.value.Some? ==> EndedUnfailed(u, o.value.value)
  {
    hide Inv, Recoverable, CalledFor, BenignFrom;
    if fault.Some? && Inv(u) && !u.past.slipped && fault.value.step == Verifying {
      SoundIsRecoverable(fault.value.world);
    }
  }

  /** Drives the journal of one request until a phase returns.  Every `continue` raises the
      rank of the journal, so the bound of 16 iterations is never reached. */
  method ConvergeActivation(h: Host, requestId: RequestId) returns (o: Outcome<Journal, Code>, ghost rounds: nat, ghost fault: Option<Fault>)
    requires h.files.journal.Some?
    modifies h
    ensures 1 <= rounds <= 6
    ensures Continues(old(h.Now()), h.Now())
    ensures Inv(old(h.Now())) ==> Inv(h.Now())
    ensures fault.Some? && Inv(old(h.Now())) ==>
      SoundFault(old(h.Now()), fault.value) && (o.Returned? ==> CalledFor(fault.value, o.value))
    ensures fault.Some? && Inv(old(h.Now())) && Overcome(h.oracle, fault.value) ==> o.Returned? && BackOnPrevious(h.Now(), o.value)
    ensures fault.Some? && Inv(old(h.Now())) && !old(h.past.slipped) && fault.value.step == Verifying
      && BenignFrom(h.oracle, fault.value.at)
      ==> o.Returned? && BackOnPrevious(h.Now(), o.value)
    ensures fault.None? && Inv(old(h.Now())) && o.Returned? ==> EndedUnfailed(old(h.Now()), o.value)
    ensures o.Returned? ==> Concluded(h.files, o.value) && o.value.phase in TERMINAL_ACTIVATION_PHASES
    ensures old(h.files.journal).value.requestId != requestId ==> !o.Returned? && h.files == old(h.files)
    ensures Inv(old(h.Now())) && Torn(old(h.data)) && !old(h.past.slipped) ==>
      h.data == old(h.data) && (o.Returned? ==> o.value.phase == Blocked)
    ensures old(h.Healthy()) && old(h.files.journal).value.requestId == requestId ==> h.Healthy()
    ensures old(h.Healthy()) && Inv(old(h.Now())) && Recoverable(old(h.Now())) && old(h.files.journal).value.requestId == requestId
      ==> o.Returned? && Settled(o.value.phase)
    ensures old(h.Healthy()) && Inv(old(h.Now())) && Recoverable(old(h.Now())) && old(h.files.journal).value.requestId == requestId
      && Forwardable(old(h.Now()))
      ==> o.Returned? && o.value.phase == Completed
    ensures old(h.Healthy()) && Inv(old(h.Now())) && Recoverable(old(h.Now())) && old(h.files.journal).value.requestId == requestId
      && Unfinished(old(h.Now()))
      ==> o.Returned? && o.value.phase == FailedRolledBack
    ensures old(h.Healthy()) && Inv(old(h.Now())) && old(h.files.journal).value.requestId == requestId ==> o.Returned?
    ensures old(h.Healthy()) && old(h.files.journal).value.requestId == requestId && !Settled(old(h.files.journal).value.phase)
      && o.Returned? && Settled(o.value.phase)
      ==> Serves(h.docker, Winner(o.value).slotId)
  {
    hide Inv, Turned, SoundFault, CalledFor, Overcome, StillForward, EndedUnfailed, BackOnPrevious, Continues, Recoverable,
      Forwardable, Unfinished, Torn;
    ghost var before := h.Now();
    ghost var smooth := h.Healthy() && h.files.journal.value.requestId == requestId;
    EvolvesIsReflexive(h.files.journal.value);
    ContinuesFromSameFiles(before, before);
    var iteration := 0;
    rounds := 0;
    fault := None;
    while iteration < 16
      invariant 0 <= iteration <= 6 && rounds == iteration
      invariant h.files.journal.Some? && Continues(before, h.Now())
      invariant iteration > 0 ==> iteration <= Rank(h.files.journal.value.phase) < 6
      invariant iteration > 0 ==> before.files.journal.value.requestId == requestId
      invariant iteration == 0 ==> h.Now() == before
      invariant iteration > 0 && smooth && Inv(before) && Recoverable(before) ==> !Unfinished(before)
      invariant Inv(before) ==> Inv(h.Now())
      invariant iteration > 0 ==> StillForward(before, h.Now())
      invariant Inv(before) && Torn(before.data) && !before.past.slipped ==> h.data == before.data
      invariant smooth ==> h.Healthy()
      invariant smooth && Inv(before) && Recoverable(before) ==> Recoverable(h.Now())
      invariant smooth && Inv(before) && Recoverable(before) && Forwardable(before) ==> Forwardable(h.Now())
    {
      ghost var middle := h.Now();
      ContinuesKeepsActivation(before, middle);
      rounds := rounds + 1;
      var once;
      once, fault := ConvergeOnce(h, requestId);
      ContinuesKeepsActivation(middle, h.Now());
      ContinuesIsTransitive(before, middle, h.Now());
      TurnedThrough(h.oracle, before, middle, h.Now(), once, fault, iteration > 0);
      if Inv(before) && Torn(before.data) && !before.past.slipped {
        TornStaysTorn(before, h.Now());
      }
      var result :- once;
      if result.Some? {
        return Returned(result.value), rounds, fault;
      }
      iteration := iteration + 1;
    }
    assert false;
  }
}
