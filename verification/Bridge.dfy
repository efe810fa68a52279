/** The bridge: it drives one activation journal to a settled phase, or blocks. */
module Bridge {
  import opened Wrappers
  import opened Contracts
  import opened ActivationJournal
  import opened Installation
  import opened SlotStore
  import opened Runtime
  import opened JournalWrites

  /** A transition that records the pointer the bridge observes. */
  method TransitionJournal(h: Host, requestId: RequestId, phase: Phase, u: Update) returns (o: Outcome<Journal, Code>)
    modifies h
    ensures Interfered(old(h.Now()), h.eve) && h.eve.files == old(h.files) && h.eve.past == old(h.past)
    ensures h.Now() == h.eve || Written(h.eve, h.Now(), requestId, phase, u)
    ensures o.Returned? ==>
      Written(h.eve, h.Now(), requestId, phase, u) && h.files.journal == Some(o.value) && o.value.phase == phase
    ensures old(h.Healthy()) ==> KeepsServing(old(h.docker), h.docker)
    ensures old(h.Healthy()) ==> h.Healthy() && old(h.docker.running) <= h.docker.running
    ensures old(h.Healthy()) && Admits(old(h.files), requestId, phase, u) ==> o.Returned?
  {
    hide ValidateJournal, Interfered;
    ghost var before := h.Now();
    var pointer :- ReadActiveSlot(h);
    ghost var middle := h.Now();
    o := TransitionActivationJournal(h, requestId, phase, u, pointer);
    InterferedIsTransitive(before, middle, h.eve);
  }

  /** Reads the journal of a running activation. */
  method ReadLive(h: Host) returns (o: Outcome<Journal, Code>)
    modifies h
    ensures h.files == old(h.files) && h.past == old(h.past)
    ensures Inv(old(h.Now())) ==> Inv(h.Now())
    ensures o.Returned? ==> h.files.journal == Some(o.value) && ValidateJournal(o.value)
    ensures old(h.data.migration).None? ==> h.data == old(h.data)
    ensures old(h.Healthy()) ==> h.Healthy() && KeepsServing(old(h.docker), h.docker)
    ensures old(h.Healthy()) && Inv(old(h.Now())) && h.files.journal.Some? ==> o.Returned?
  {
    hide Interfered, ValidateJournal;
    ghost var before := h.Now();
    o := RequireActivationJournal(h);
    InterferenceKeepsInv(before, h.Now());
    InterferenceMovesRuntime(before, h.Now());
  }

  method ObservePointer(h: Host) returns (o: Outcome<Option<SlotId>, Code>)
    modifies h
    ensures h.files == old(h.files) && h.past == old(h.past)
    ensures Inv(old(h.Now())) ==> Inv(h.Now())
    ensures o.Returned? ==> o.value == h.files.pointer
    ensures old(h.data.migration).None? ==> h.data == old(h.data)
    ensures old(h.Healthy()) ==> h.Healthy() && KeepsServing(old(h.docker), h.docker)
    ensures old(h.Healthy()) && Inv(old(h.Now())) && h.files.journal.Some? ==> o.Returned?
  {
    ghost var before := h.Now();
    o := ReadActiveSlot(h);
    InterferenceKeepsInv(before, h.Now());
  }

  /** The first failure category and the first rollback trigger are kept. */
  function FirstCategory(j: Journal, category: Code): Code {
    if j.failureCategory.Some? then j.failureCategory.value else category
  }

  /** A cause on record stays. */
  function FirstOf(recorded: Option<Code>, cause: Code): Option<Code> {
    if recorded.Some? then recorded else Some(cause)
  }

  /** Where a rollback came to a stop. */
  datatype RollbackStage = Entering | Pointing | Probing | Inspecting | Restoring

  /** The stage that raised, and the world it left behind at this point of the environment. */
  datatype Stop = Stop(stage: RollbackStage, at: nat, world: World)

  /** A rollback blocks only after a stage of it raised, under the category of that stage unless
      one is on record; and if nothing fails afterwards and the journal is still open, it does
      block.  What raises before the rollback begins is left to the caller. */
  ghost predicate Stopped(oracle: nat -> Event, w: World, o: Outcome<Journal, Code>, trigger: Code, stop: Option<Stop>)
    requires w.files.journal.Some?
  {
    && (o.Raised? ==> stop.Some?)
    && (o.Returned? && o.value.phase == Blocked ==>
          && stop.Some? && stop.value.stage != Entering
          && o.value.failureCategory == FirstOf(w.files.journal.value.failureCategory, StageCategory(stop.value.stage)))
    && (stop.Some? && Inv(w) && !Settled(w.files.journal.value.phase) ==> Inv(stop.value.world) && stop.value.world.files.journal.Some?)
    && (stop.Some? && Inv(w) && !Settled(w.files.journal.value.phase) && BlocksAfter(oracle, stop.value) && IsMachineCode(trigger) ==>
          o.Returned? && o.value.phase == Blocked)
  }

  ghost predicate BlocksAfter(oracle: nat -> Event, s: Stop) {
    s.stage != Entering && BenignFrom(oracle, s.at) && s.world.files.journal.Some? && !Settled(s.world.files.journal.value.phase)
  }

  function StageCategory(stage: RollbackStage): Code
    requires stage != Entering
  {
    match stage
    case Pointing => RollbackPointerConflict
    case Probing => RollbackDatabaseUnverified
    case Inspecting => RollbackConfigurationUnverified
    case Restoring => RollbackVerificationFailed
  }

  function FirstTrigger(j: Journal, trigger: Option<Code>): Option<Code> {
    if j.rollbackTrigger.Some? then j.rollbackTrigger else trigger
  }

  /** The table lets an unsettled journal block, and the validator accepts the blocked
      document only if it can record the pointer. */
  predicate Blockable(f: Files) {
    && f.journal.Some?
    && !Settled(f.journal.value.phase)
    && f.pointer in {None, Some(f.journal.value.previous.slotId), Some(f.journal.value.target.slotId)}
  }

  /** The block of an unsettled activation under machine codes, by its own request. */
  predicate MayBlock(f: Files, requestId: RequestId, category: Code, trigger: Option<Code>) {
    && f.journal.Some? && !Settled(f.journal.value.phase) && f.journal.value.requestId == requestId
    && IsMachineCode(category) && (trigger.Some? ==> IsMachineCode(trigger.value))
  }

  /** The first causes a block would record are machine codes that replace nothing. */
  lemma FirstCausesAdmitted(w: World, requestId: RequestId, category: Code, trigger: Option<Code>)
    requires Inv(w) && MayBlock(w.files, requestId, category, trigger)
    ensures var j := w.files.journal.value;
      Admits(w.files, requestId, Blocked, BlockUpdate(FirstCategory(j, category), FirstTrigger(j, trigger)))
  {
    var j := w.files.journal.value;
    assert ValidateJournal(j);
    BlockAdmitted(w, FirstCategory(j, category), FirstTrigger(j, trigger));
  }

  /** The write of a blocked document. */
  method WriteBlocked(h: Host, requestId: RequestId, category: Code, trigger: Option<Code>) returns (o: Outcome<Journal, Code>)
    requires h.files.journal.Some?
    modifies h
    ensures Continues(old(h.Now()), h.Now())
    ensures Inv(old(h.Now())) ==> Inv(h.Now())
    ensures o.Returned? ==> h.files.journal == Some(o.value) && o.value.phase == Blocked
    ensures o.Returned? ==> o.value.failureCategory == Some(category) && (trigger.Some? ==> o.value.rollbackTrigger == trigger)
    ensures !Blockable(old(h.files)) ==> !o.Returned? && h.files == old(h.files)
    ensures old(h.Healthy()) ==> h.Healthy()
    ensures old(h.Healthy()) && Admits(old(h.files), requestId, Blocked, BlockUpdate(category, trigger)) ==> o.Returned?
  {
    hide Inv, Interfered, Continues, Written, Admits;
    ghost var before := h.Now();
    o := TransitionJournal(h, requestId, Blocked, BlockUpdate(category, trigger));
    InterferenceKeepsInv(before, h.eve);
    WriteContinues(before, h.eve, h.Now(), requestId, Blocked, BlockUpdate(category, trigger));
    if h.Now() != h.eve || o.Returned? {
      WriteRecords(h.eve, h.Now(), requestId, Blocked, BlockUpdate(category, trigger));
      BlockKeepsInv(h.eve, h.Now(), requestId, category, trigger);
    }
  }

  /** Blocks the activation under the first recorded cause.  A settled journal, or a pointer
      outside the two slots, refuses the document: nothing is written and the call raises. */
  method BlockActivation(h: Host, requestId: RequestId, category: Code, trigger: Option<Code>)
    returns (o: Outcome<Journal, Code>)
    requires h.files.journal.Some?
    modifies h
    ensures Continues(old(h.Now()), h.Now())
    ensures old(Inv(h.Now())) ==> Inv(h.Now())
    ensures o.Returned? ==> h.files.journal == Some(o.value) && o.value.phase == Blocked
    ensures o.Returned? ==>
      o.value.failureCategory == FirstOf(old(h.files.journal).value.failureCategory, category)
    ensures o.Returned? && trigger.Some? ==>
      o.value.rollbackTrigger == FirstOf(old(h.files.journal).value.rollbackTrigger, trigger.value)
    ensures !Blockable(old(h.files)) ==> !o.Returned? && h.files == old(h.files)
    ensures old(h.Healthy()) ==> h.Healthy()
    ensures old(h.Healthy()) && Inv(old(h.Now())) && MayBlock(old(h.files), requestId, category, trigger) ==>
      o.Returned?
  {
    hide Inv, Interfered, Continues, Written, Admits, MayBlock, ValidateJournal, Blockable, FirstOf;
    ghost var before := h.Now();
    var read := ReadLive(h);
    ContinuesFromSameFiles(before, h.Now());
    ghost var middle := h.Now();
    var existing :- read;
    o := BlockFirst(h, existing, requestId, category, trigger);
    ContinuesIsTransitive(before, middle, h.Now());
  }

  /** The block over the journal just read: its own causes come first. */
  method BlockFirst(h: Host, existing: Journal, requestId: RequestId, category: Code, trigger: Option<Code>)
    returns (o: Outcome<Journal, Code>)
    requires h.files.journal == Some(existing)
    modifies h
    ensures Continues(old(h.Now()), h.Now())
    ensures old(Inv(h.Now())) ==> Inv(h.Now())
    ensures o.Returned? ==> h.files.journal == Some(o.value) && o.value.phase == Blocked
    ensures o.Returned? ==> o.value.failureCategory == FirstOf(existing.failureCategory, category)
    ensures o.Returned? && trigger.Some? ==> o.value.rollbackTrigger == FirstOf(existing.rollbackTrigger, trigger.value)
    ensures !Blockable(old(h.files)) ==> !o.Returned? && h.files == old(h.files)
    ensures old(h.Healthy()) ==> h.Healthy()
    ensures old(h.Healthy()) && Inv(old(h.Now())) && MayBlock(old(h.files), requestId, category, trigger) ==>
      o.Returned?
  {
    hide Inv, Interfered, Continues, Written, Admits, MayBlock, Blockable;
    if Inv(h.Now()) && MayBlock(h.files, requestId, category, trigger) {
      FirstCausesAdmitted(h.Now(), requestId, category, trigger);
    }
    o := WriteBlocked(h, requestId, FirstCategory(existing, category), FirstTrigger(existing, trigger));
  }

  method SwitchToPrevious(h: Host, journal: Journal) returns (o: Outcome<(), Code>)
    requires h.files.journal.Some? && SameActivation(journal, h.files.journal.value)
    modifies h
    ensures old(h.data.migration).None? ==> h.data == old(h.data)
    ensures h.files == old(h.files).(pointer := h.files.pointer) && h.past == old(h.past)
    ensures Inv(old(h.Now())) && h.files.journal.value.phase == RollingBack ==> Inv(h.Now())
    ensures o.Returned? ==> h.files.pointer == Some(journal.previous.slotId)
    ensures old(h.Healthy()) ==> KeepsServing(old(h.docker), h.docker)
    ensures old(h.Healthy()) ==> h.Healthy()
    ensures old(h.Healthy()) && Inv(old(h.Now())) ==> o.Returned?
  {
    hide Interfered, ValidateJournal;
    ghost var before := h.Now();
    o := AtomicSwitchPointer(h, journal.previous.slotId);
    InterferenceKeepsInv(before, h.eve);
    InterferenceMovesRuntime(before, h.eve);
    if Inv(before) && h.files.journal.value.phase == RollingBack {
      SwitchToPreviousKeepsInv(h.eve);
    }
  }

  /** Rewrites the rolling-back document with the pointer now observed. */
  method RecordRollingBack(h: Host, requestId: RequestId, trigger: Code) returns (o: Outcome<(), Code>)
    requires h.files.journal.Some? && requestId == h.files.journal.value.requestId
    modifies h
    ensures Continues(old(h.Now()), h.Now()) && h.past == old(h.past) && h.files.pointer == old(h.files.pointer)
    ensures h.files.journal.value.schema == old(h.files.journal).value.schema
    ensures h.files.journal.value.failureCategory == old(h.files.journal).value.failureCategory
    ensures RollingBackWith(old(h.Now()), trigger) ==> RollingBackWith(h.Now(), trigger)
    ensures old(h.Healthy()) ==> KeepsServing(old(h.docker), h.docker)
    ensures old(h.Healthy()) ==> h.Healthy()
    ensures old(h.Healthy()) && RollingBackWith(old(h.Now()), trigger) ==> o.Returned?
  {
    hide RollingBackWith, Interfered, Admits, Written, Continues;
    ghost var before := h.Now();
    if RollingBackWith(before, trigger) {
      RollingBackAgainAdmitted(before, trigger);
    }
    var recorded := TransitionJournal(h, requestId, RollingBack, RollbackUpdate(trigger, false));
    WriteContinues(before, h.eve, h.Now(), requestId, RollingBack, RollbackUpdate(trigger, false));
    if h.Now() != h.eve {
      WriteRecords(h.eve, h.Now(), requestId, RollingBack, RollbackUpdate(trigger, false));
    }
    if RollingBackWith(before, trigger) {
      RollBackAgainKeepsInv(before, h.eve, h.Now(), requestId, trigger);
    }
    var _ :- recorded;
    o := Returned(());
  }

  /** Puts the pointer back on the previous slot and records it. */
  method SwitchBack(h: Host, journal: Journal, trigger: Code, observed: Option<SlotId>) returns (o: Outcome<(), Code>)
    requires h.files.journal.Some? && SameActivation(journal, h.files.journal.value)
    modifies h
    ensures Continues(old(h.Now()), h.Now()) && h.past == old(h.past)
    ensures SameActivation(journal, h.files.journal.value)
    ensures h.files.journal.value.schema == old(h.files.journal).value.schema
    ensures h.files.journal.value.failureCategory == old(h.files.journal).value.failureCategory
    ensures RollingBackWith(old(h.Now()), trigger) ==> RollingBackWith(h.Now(), trigger)
    ensures o.Returned? && observed == old(h.files.pointer) ==> h.files.pointer == Some(journal.previous.slotId)
    ensures old(h.Healthy()) ==> KeepsServing(old(h.docker), h.docker)
    ensures old(h.Healthy()) ==> h.Healthy()
    ensures old(h.Healthy()) && RollingBackWith(old(h.Now()), trigger) ==> o.Returned?
  {
    hide Inv, Interfered, Admits, Evolves, Continues;
    ghost var before := h.Now();
    ContinuesFromSameFiles(before, before);
    if observed != Some(journal.previous.slotId) {
      var switched := SwitchToPrevious(h, journal);
      ContinuesFromSameFiles(before, h.Now());
      var _ :- switched;
    }
    ghost var middle := h.Now();
    o := RecordRollingBack(h, journal.requestId, trigger);
    ContinuesIsTransitive(before, middle, h.Now());
    ContinuesKeepsActivation(before, h.Now());
  }

  /** Verifies the previous runtime; success is this call's runtime proof. */
  method SeePrevious(h: Host, previous: SlotBinding) returns (o: Outcome<(), Code>)
    modifies h
    ensures o.Returned? ==> Serves(h.docker, previous.slotId)
    ensures old(h.data.migration).None? ==> h.data == old(h.data)
    ensures h.files == old(h.files) && h.past == old(h.past).(runtimeProof := h.past.runtimeProof)
    ensures Inv(old(h.Now())) && h.files.journal.Some? && h.files.journal.value.phase == RollingBack ==> Inv(h.Now())
    ensures o.Returned? ==> h.past.runtimeProof == h.past.call
    ensures old(h.Healthy()) ==> h.Healthy()
    ensures old(h.Healthy()) && Serves(old(h.docker), previous.slotId) ==> o.Returned?
  {
    hide Inv, Interfered, RuntimeMoved, Serves;
    ghost var before := h.Now();
    var verified := VerifySlotRuntime(h, previous);
    InterferenceKeepsInv(before, h.Now());
    InterferenceMovesRuntime(before, h.Now());
    RuntimeMovedFacts(before, h.Now());
    var _ :- verified;
    if Inv(h.Now()) && h.files.journal.Some? && h.files.journal.value.phase == RollingBack {
      NotesKeepInv(h.Now(), h.past.call, h.past.databaseProof, h.past.call, h.past.slipped);
    }
    h.past := h.past.(runtimeProof := h.past.call);
    o := Returned(());
  }

  /** Starts and verifies the previous runtime. */
  method StartPrevious(h: Host, journal: Journal) returns (o: Outcome<(), Code>)
    requires h.files.journal.Some? && SameActivation(journal, h.files.journal.value)
    modifies h
    ensures o.Returned? ==> Serves(h.docker, journal.previous.slotId)
    ensures old(h.data.migration).None? ==> h.data == old(h.data)
    ensures h.files == old(h.files)
    ensures h.past == old(h.past).(quiet := false, runtimeProof := h.past.runtimeProof)
    ensures Inv(old(h.Now())) && h.files.journal.value.phase == RollingBack ==> Inv(h.Now())
    ensures o.Returned? ==> h.past.runtimeProof == h.past.call
    ensures old(h.Healthy()) ==> h.Healthy() && o.Returned?
  {
    hide Inv, RuntimeMoved, Serves;
    ghost var before := h.Now();
    var started := ReconcileSlotRuntime(h, journal.previous.slotId, true);
    RuntimeMovedFacts(before, h.Now());
    if Inv(before) && h.files.journal.value.phase == RollingBack {
      RuntimeStartKeepsInv(before, h.Now());
    }
    var _ :- started;
    o := SeePrevious(h, journal.previous);
  }

  /** Both proofs of the current rollback call are in hand. */
  ghost predicate ProofsInHand(w: World) {
    && w.past.databaseProof == w.past.call && w.past.runtimeProof == w.past.call
    && w.files.journal.Some?
    && (w.past.quiet ==> !w.files.journal.value.schema.migrationInvoked)
  }

  predicate PointerOnPrevious(f: Files) {
    f.journal.Some? && f.pointer == Some(f.journal.value.previous.slotId)
  }

  method WriteRolledBack(h: Host, current: Journal, trigger: Code) returns (o: Outcome<Journal, Code>)
    requires h.files.journal == Some(current)
    modifies h
    ensures Continues(old(h.Now()), h.Now()) && h.past == old(h.past) && h.files.pointer == old(h.files.pointer)
    ensures RollingBackWith(old(h.Now()), trigger) && ProofsInHand(old(h.Now())) ==> Inv(h.Now())
    ensures o.Returned? ==> h.files.journal == Some(o.value) && o.value.phase == FailedRolledBack
    ensures h.files.journal == old(h.files.journal) || h.files.journal.value.phase == FailedRolledBack
    ensures o.Returned? ==>
      o.value.rollbackTrigger == Some(trigger)
      && o.value.failureCategory == Some(if current.failureCategory.Some? then current.failureCategory.value else trigger)
    ensures old(h.Healthy()) ==> KeepsServing(old(h.docker), h.docker)
    ensures old(h.Healthy()) ==> h.Healthy()
    ensures old(h.Healthy()) && RollingBackWith(old(h.Now()), trigger) && PointerOnPrevious(old(h.files)) ==>
      o.Returned?
  {
    hide Inv, Interfered, Admits, Written, Continues;
    ghost var before := h.Now();
    var update := RolledBackUpdate(FirstCategory(current, trigger), trigger);
    if RollingBackWith(before, trigger) && PointerOnPrevious(h.files) {
      SettleRolledBackAdmitted(before, trigger);
    }
    o := TransitionJournal(h, current.requestId, FailedRolledBack, update);
    if o.Returned? {
      WriteRecords(h.eve, h.Now(), current.requestId, FailedRolledBack, update);
    }
    InterferenceKeepsInv(before, h.eve);
    WriteContinues(before, h.eve, h.Now(), current.requestId, FailedRolledBack, update);
    if h.Now() != h.eve && RollingBackWith(before, trigger) && ProofsInHand(before) {
      SettleRolledBackKeepsInv(h.eve, h.Now(), current.requestId, FirstCategory(current, trigger), trigger);
    }
  }

  /** Writes the rolled-back terminal document, under the failure category first seen. */
  method RecordRolledBack(h: Host, requestId: RequestId, trigger: Code) returns (o: Outcome<Journal, Code>)
    requires h.files.journal.Some? && requestId == h.files.journal.value.requestId
    modifies h
    ensures Continues(old(h.Now()), h.Now()) && h.past == old(h.past) && h.files.pointer == old(h.files.pointer)
    ensures h.files.journal == old(h.files.journal) || h.files.journal.value.phase == FailedRolledBack
    ensures RollingBackWith(old(h.Now()), trigger) && ProofsInHand(old(h.Now())) ==> Inv(h.Now())
    ensures o.Returned? ==>
      && h.files.journal == Some(o.value) && o.value.phase == FailedRolledBack && o.value.rollbackTrigger == Some(trigger)
      && (old(h.files.journal).value.failureCategory.None? ==> o.value.failureCategory == Some(trigger))
    ensures old(h.Healthy()) ==> KeepsServing(old(h.docker), h.docker)
    ensures old(h.Healthy()) ==> h.Healthy()
    ensures old(h.Healthy()) && RollingBackWith(old(h.Now()), trigger) && PointerOnPrevious(old(h.files)) ==>
      o.Returned?
  {
    hide Inv, Interfered, Admits, Written, Continues;
    ghost var before := h.Now();
    var read := ReadLive(h);
    ghost var middle := h.Now();
    ContinuesFromSameFiles(before, middle);
    var current :- read;
    o := WriteRolledBack(h, current, trigger);
    ContinuesIsTransitive(before, middle, h.Now());
  }

  /** The slot a settled journal names. */
  function Winner(j: Journal): SlotBinding {
    if j.phase == Completed then j.target else j.previous
  }

  /** A settled result is on disk, the pointer selects its winner and the projection
      describes it. */
  predicate Concluded(f: Files, j: Journal) {
    && f.journal == Some(j)
    && (Settled(j.phase) ==> f.pointer == Some(Winner(j).slotId) && f.projection == Some(Winner(j)))
  }

  /** What follows a settled journal: release the fence, publish what is installed. */
  method ReleaseAndPublish(h: Host, selected: SlotBinding) returns (o: Outcome<(), Code>)
    requires h.files.journal.Some?
    modifies h
    ensures old(h.data.migration).None? ==> h.data == old(h.data)
    ensures h.files == old(h.files).(projection := h.files.projection) && h.past == old(h.past)
    ensures Inv(old(h.Now())) && Settled(h.files.journal.value.phase) ==> Inv(h.Now())
    ensures o.Returned? ==> h.files.projection == Some(selected) && h.files.pointer == Some(selected.slotId)
    ensures o.Returned? && Settled(h.files.journal.value.phase) && old(h.NoRestore()) ==>
      WRITER_SERVICES <= h.docker.always
    ensures old(h.Healthy()) ==> KeepsServing(old(h.docker), h.docker)
    ensures old(h.Healthy()) ==> h.Healthy()
    ensures old(h.Healthy()) && old(h.files.pointer) == Some(selected.slotId) ==> o.Returned?
  {
    hide Inv, Interfered;
    ghost var before := h.Now();
    var released := SetWriterPolicyFence(h, false);
    InterferenceKeepsInv(before, h.eve);
    InterferenceMovesRuntime(before, h.eve);
    if Inv(before) && Settled(h.files.journal.value.phase) {
      ReleaseKeepsInv(h.eve);
    }
    ghost var middle := h.Now();
    var _ :- released;
    o := PublishInstalledSlotProjection(h, selected);
    InterferenceKeepsInv(middle, h.eve);
    InterferenceMovesRuntime(middle, h.eve);
    if Inv(middle) {
      PublishKeepsInv(h.eve, selected);
    }
  }

  method CleanUp(h: Host) returns (o: Outcome<(), Code>)
    modifies h
    ensures old(h.data.migration).None? ==> h.data == old(h.data)
    ensures h.files == old(h.files).(slots := h.files.slots) && h.past == old(h.past)
    ensures Inv(old(h.Now())) ==> Inv(h.Now())
    ensures !o.Raised?
    ensures old(h.Healthy()) ==> KeepsServing(old(h.docker), h.docker)
    ensures old(h.Healthy()) ==> h.Healthy() && o.Returned?
  {
    hide Inv, Interfered;
    ghost var before := h.Now();
    o := AttemptTerminalReleaseCleanup(h);
    InterferenceKeepsInv(before, h.eve);
    InterferenceMovesRuntime(before, h.eve);
    if Inv(before) {
      CleanupKeepsInv(h.eve);
    }
  }

  /** The journal is rolling back with the database proof in hand, `observed` is the real
      pointer, and `ready` is backed by a runtime proof. */
  ghost predicate Poised(w: World, trigger: Code, observed: Option<SlotId>, ready: bool) {
    && RollingBackWith(w, trigger)
    && observed == w.files.pointer
    && w.past.databaseProof == w.past.call
    && (ready ==> ProofsInHand(w))
  }

  lemma ProofsOutliveSwitch(w: World, v: World)
    requires ProofsInHand(w) && v.past == w.past && v.files.journal.Some?
    requires v.files.journal.value.schema == w.files.journal.value.schema
    ensures ProofsInHand(v)
  {
  }

  /** Starts the previous runtime unless this call already saw it ready. */
  method StartUnlessReady(h: Host, journal: Journal, trigger: Code, ready: bool) returns (o: Outcome<(), Code>)
    requires h.files.journal.Some? && SameActivation(journal, h.files.journal.value)
    modifies h
    ensures o.Returned? && (ready ==> Serves(old(h.docker), journal.previous.slotId)) ==>
      Serves(h.docker, journal.previous.slotId)
    ensures h.files == old(h.files) && Continues(old(h.Now()), h.Now())
    ensures RollingBackWith(old(h.Now()), trigger) ==> RollingBackWith(h.Now(), trigger)
    ensures o.Returned? && old(h.past.databaseProof) == old(h.past.call) && (ready ==> ProofsInHand(old(h.Now()))) ==>
      ProofsInHand(h.Now())
    ensures old(h.Healthy()) ==> h.Healthy() && o.Returned?
  {
    hide Inv, Continues;
    ghost var before := h.Now();
    o := Returned(());
    if !ready {
      o := StartPrevious(h, journal);
    }
    ContinuesFromSameFiles(before, h.Now());
  }

  /** Pointer and runtime go back to the previous slot. */
  method RestoreRuntime(h: Host, journal: Journal, trigger: Code, observed: Option<SlotId>, ready: bool)
    returns (o: Outcome<(), Code>)
    requires h.files.journal.Some? && SameActivation(journal, h.files.journal.value)
    modifies h
    ensures Continues(old(h.Now()), h.Now())
    ensures h.files.journal.Some? && SameActivation(journal, h.files.journal.value)
    ensures h.files.journal.value.failureCategory == old(h.files.journal).value.failureCategory
    ensures Poised(old(h.Now()), trigger, observed, ready) ==> RollingBackWith(h.Now(), trigger)
    ensures Poised(old(h.Now()), trigger, observed, ready) && o.Returned? ==>
      ProofsInHand(h.Now()) && h.files.pointer == Some(journal.previous.slotId)
    ensures old(h.Healthy()) && o.Returned? && (ready ==> Serves(old(h.docker), journal.previous.slotId)) ==>
      Serves(h.docker, journal.previous.slotId)
    ensures old(h.Healthy()) ==> h.Healthy()
    ensures old(h.Healthy()) && Poised(old(h.Now()), trigger, observed, ready) ==> o.Returned?
  {
    hide Inv, Evolves, Continues, RollingBackWith, ProofsInHand, Serves, KeepsServing;
    ghost var before := h.Now();
    var switched := SwitchBack(h, journal, trigger, observed);
    ghost var middle := h.Now();
    ContinuesKeepsActivation(before, middle);
    if Poised(before, trigger, observed, ready) && ready {
      ProofsOutliveSwitch(before, middle);
    }
    if Serves(before.docker, journal.previous.slotId) && KeepsServing(before.docker, middle.docker) {
      ServesStays(before.docker, middle.docker, journal.previous.slotId);
    }
    var _ :- switched;
    o := StartUnlessReady(h, journal, trigger, ready);
    ContinuesIsTransitive(before, middle, h.Now());
  }

  /** The terminal document, then everything that only follows from it. */
  method SettleRolledBack(h: Host, journal: Journal, trigger: Code) returns (o: Outcome<Journal, Code>)
    requires h.files.journal.Some? && SameActivation(journal, h.files.journal.value)
    modifies h
    ensures Continues(old(h.Now()), h.Now())
    ensures h.files.journal == old(h.files.journal) || h.files.journal.value.phase == FailedRolledBack
    ensures RollingBackWith(old(h.Now()), trigger) && ProofsInHand(old(h.Now())) ==> Inv(h.Now())
    ensures o.Returned? ==>
      h.files.journal == Some(o.value) && o.value.phase == FailedRolledBack && o.value.rollbackTrigger == Some(trigger)
    ensures o.Returned? ==> Concluded(h.files, o.value)
    ensures old(h.Healthy()) ==> KeepsServing(old(h.docker), h.docker)
    ensures old(h.Healthy()) ==> h.Healthy()
    ensures old(h.Healthy()) && RollingBackWith(old(h.Now()), trigger) && PointerOnPrevious(old(h.files)) ==>
      o.Returned?
  {
    hide Inv, Evolves;
    ghost var before := h.Now();
    var terminal :- RecordRolledBack(h, journal.requestId, trigger);
    ContinuesKeepsActivation(before, h.Now());
    var _ :- ReleaseAndPublish(h, journal.previous);
    var _ :- CleanUp(h);
    o := Returned(terminal);
  }

  /** From a started rollback to its settled phase. */
  method RestorePrevious(h: Host, journal: Journal, trigger: Code, observed: Option<SlotId>, ready: bool)
    returns (o: Outcome<Journal, Code>)
    requires h.files.journal.Some? && SameActivation(journal, h.files.journal.value)
    modifies h
    ensures Continues(old(h.Now()), h.Now())
    ensures Poised(old(h.Now()), trigger, observed, ready) ==> Inv(h.Now())
    ensures h.files.journal.value.failureCategory == old(h.files.journal).value.failureCategory
      || h.files.journal.value.phase == FailedRolledBack
    ensures o.Returned? ==>
      h.files.journal == Some(o.value) && o.value.phase == FailedRolledBack && o.value.rollbackTrigger == Some(trigger)
    ensures o.Returned? ==> Concluded(h.files, o.value)
    ensures old(h.Healthy()) && o.Returned? && (ready ==> Serves(old(h.docker), journal.previous.slotId)) ==>
      Serves(h.docker, journal.previous.slotId)
    ensures old(h.Healthy()) ==> h.Healthy()
    ensures old(h.Healthy()) && Poised(old(h.Now()), trigger, observed, ready) ==> o.Returned?
  {
    hide Inv, Continues, ProofsInHand, Poised;
    ghost var before := h.Now();
    var restored := RestoreRuntime(h, journal, trigger, observed, ready);
    ghost var middle := h.Now();
    var _ :- restored;
    o := SettleRolledBack(h, journal, trigger);
    ContinuesIsTransitive(before, middle, h.Now());
  }

  /** Probes the database; success is this call's database proof.  A container without its
      lock slips through. */
  method ProveDatabase(h: Host, journal: Journal) returns (o: Outcome<(), Code>)
    requires h.files.journal.Some? && SameActivation(journal, h.files.journal.value)
    modifies h
    ensures old(h.data.migration).None? ==> h.data == old(h.data) && h.past.slipped == old(h.past.slipped)
    ensures h.files == old(h.files)
    ensures h.past == old(h.past).(databaseProof := h.past.databaseProof, slipped := h.past.slipped)
    ensures h.past.slipped <==> old(h.past.slipped) || (o.Returned? && h.data.migration.Some?)
    ensures Inv(old(h.Now())) && !Settled(h.files.journal.value.phase) ==> Inv(h.Now())
    ensures o.Returned? ==>
      DatabaseProbed(h.data, journal.schema) && Cleared(h.Now()) && h.past.databaseProof == h.past.call
    ensures old(h.Healthy()) ==> KeepsServing(old(h.docker), h.docker)
    ensures old(h.Healthy()) ==> h.Healthy()
    ensures old(h.Healthy()) && DatabaseProven(old(h.data), journal.schema) ==> o.Returned?
    ensures old(h.Healthy()) ==> !o.Crashed?
  {
    hide Inv;
    ghost var before := h.Now();
    var proven := VerifyRollbackDatabase(h, journal);
    InterferenceKeepsInv(before, h.Now());
    var _ :- proven;
    ghost var slipped := h.past.slipped || h.data.migration.Some?;
    if Inv(h.Now()) && !Settled(h.files.journal.value.phase) {
      NotesKeepInv(h.Now(), h.past.call, h.past.call, h.past.runtimeProof, slipped);
    }
    h.past := h.past.(databaseProof := h.past.call, slipped := slipped);
    o := Returned(());
  }

  /** A writer that is seen running is not quiet, unless nothing was invoked. */
  lemma ServingIsNotIsolated(w: World, slot: SlotId)
    requires Inv(w) && w.files.journal.Some? && Serves(w.docker, slot)
    ensures w.past.quiet ==> !w.files.journal.value.schema.migrationInvoked
  {
  }

  /** Whether the previous runtime is already up; a yes is this call's runtime proof. */
  method ProvePrevious(h: Host, journal: Journal) returns (o: Outcome<bool, Code>)
    requires h.files.journal.Some? && SameActivation(journal, h.files.journal.value)
    modifies h
    ensures o.Returned? && o.value ==> Serves(h.docker, journal.previous.slotId)
    ensures h.files == old(h.files) && h.past == old(h.past).(runtimeProof := h.past.runtimeProof)
    ensures old(h.data.migration).None? ==> h.data == old(h.data)
    ensures Inv(old(h.Now())) && !Settled(h.files.journal.value.phase) ==> Inv(h.Now())
    ensures Inv(old(h.Now())) && o.Returned? && o.value && h.past.databaseProof == h.past.call ==> ProofsInHand(h.Now())
    ensures old(h.Healthy()) ==> KeepsServing(old(h.docker), h.docker)
    ensures old(h.Healthy()) ==> h.Healthy() && o.Returned?
  {
    hide Inv;
    ghost var before := h.Now();
    var ready := PreviousRuntimeReady(h, journal.previous);
    InterferenceKeepsInv(before, h.Now());
    if ready.Returned? && ready.value {
      if Inv(h.Now()) {
        ServingIsNotIsolated(h.Now(), journal.previous.slotId);
        if !Settled(h.files.journal.value.phase) {
          NotesKeepInv(h.Now(), h.past.call, h.past.databaseProof, h.past.call, h.past.slipped);
        }
      }
      h.past := h.past.(runtimeProof := h.past.call);
    }
    o := ready;
  }

  /** The previous runtime is looked at only if the pointer already selects it. */
  method InspectPrevious(h: Host, journal: Journal, observed: Option<SlotId>) returns (o: Outcome<bool, Code>)
    requires h.files.journal.Some? && SameActivation(journal, h.files.journal.value)
    modifies h
    ensures o.Returned? && o.value ==> Serves(h.docker, journal.previous.slotId)
    ensures h.files == old(h.files) && h.past == old(h.past).(runtimeProof := h.past.runtimeProof)
    ensures Cleared(old(h.Now())) ==> Cleared(h.Now())
    ensures Continues(old(h.Now()), h.Now())
    ensures Inv(old(h.Now())) && !Settled(h.files.journal.value.phase) ==> Inv(h.Now())
    ensures Inv(old(h.Now())) && o.Returned? && o.value && h.past.databaseProof == h.past.call ==> ProofsInHand(h.Now())
    ensures old(h.Healthy()) ==> h.Healthy() && o.Returned?
  {
    hide Inv, Continues, Serves, KeepsServing, ProofsInHand, SameActivation;
    ghost var before := h.Now();
    o := Returned(false);
    if observed == Some(journal.previous.slotId) {
      o := ProvePrevious(h, journal);
    }
    ContinuesFromSameFiles(before, h.Now());
  }

  lemma RollbackRecords(w: World, v: World, r: RequestId, trigger: Code)
    requires Written(w, v, r, RollingBack, RollbackUpdate(trigger, true))
    ensures var j, k := w.files.journal.value, v.files.journal.value;
      k.rollbackTrigger == Some(trigger) == FirstOf(j.rollbackTrigger, trigger) && k.failureCategory == j.failureCategory
  {
    WriteRecords(w, v, r, RollingBack, RollbackUpdate(trigger, true));
  }

  /** Records that the rollback begins, over the proof just obtained. */
  method BeginRollback(h: Host, journal: Journal, trigger: Code) returns (o: Outcome<(), Code>)
    requires h.files.journal.Some? && SameActivation(journal, h.files.journal.value)
    modifies h
    ensures Continues(old(h.Now()), h.Now()) && h.past == old(h.past) && h.files.pointer == old(h.files.pointer)
    ensures h.files.journal.Some? && SameActivation(journal, h.files.journal.value)
    ensures h.files.journal.value.schema == old(h.files.journal).value.schema
    ensures Inv(old(h.Now())) && Cleared(old(h.Now())) ==> Inv(h.Now())
    ensures Inv(old(h.Now())) && Cleared(old(h.Now())) && o.Returned? ==> RollingBackWith(h.Now(), trigger)
    ensures o.Returned? ==>
      h.files.journal.value.rollbackTrigger == Some(trigger) == FirstOf(old(h.files.journal).value.rollbackTrigger, trigger)
      && h.files.journal.value.failureCategory == old(h.files.journal).value.failureCategory
    ensures old(h.Healthy()) ==> KeepsServing(old(h.docker), h.docker)
    ensures old(h.Healthy()) ==> h.Healthy()
    ensures old(h.Healthy()) && Inv(old(h.Now())) && MayRollBack(old(h.files), trigger) ==> o.Returned?
  {
    hide Inv, FirstOf, Admits, Written, Continues;
    ghost var before := h.Now();
    var update := RollbackUpdate(trigger, true);
    if Inv(before) && MayRollBack(h.files, trigger) {
      RollBackAdmitted(before, trigger);
    }
    var begun := TransitionJournal(h, journal.requestId, RollingBack, update);
    if begun.Returned? {
      RollbackRecords(h.eve, h.Now(), journal.requestId, trigger);
    }
    InterferenceKeepsInv(before, h.eve);
    WriteContinues(before, h.eve, h.Now(), journal.requestId, RollingBack, update);
    if Inv(before) && Cleared(before) && (h.Now() != h.eve || begun.Returned?) {
      RollBackKeepsInv(h.eve, h.Now(), journal.requestId, trigger, true);
    }
    ContinuesKeepsActivation(before, h.Now());
    var _ :- begun;
    o := Returned(());
  }

  /** A failure after the journal says `rolling back` blocks, unless the terminal document
      was already written: the table then refuses the block and the call raises. */
  method RestoreOrBlock(h: Host, journal: Journal, trigger: Code, observed: Option<SlotId>, ready: bool)
    returns (o: Outcome<Journal, Code>, ghost stop: Option<Stop>)
    requires h.files.journal.Some? && SameActivation(journal, h.files.journal.value)
    modifies h
    ensures Continues(old(h.Now()), h.Now())
    ensures Poised(old(h.Now()), trigger, observed, ready) ==> Inv(h.Now())
    ensures o.Returned? ==> Concluded(h.files, o.value) && o.value.phase in {FailedRolledBack, Blocked}
    ensures o.Returned? && old(h.files.journal).value.rollbackTrigger == Some(trigger) ==>
      o.value.rollbackTrigger == Some(trigger)
    ensures (stop.Some? ==> stop.value.stage == Restoring) && (o.Raised? ==> stop.Some?)
    ensures o.Returned? && o.value.phase == Blocked ==>
      stop.Some? && o.value.failureCategory == FirstOf(old(h.files.journal).value.failureCategory, RollbackVerificationFailed)
    ensures stop.Some? && Poised(old(h.Now()), trigger, observed, ready) ==>
      && Inv(stop.value.world) && stop.value.world.files.journal.Some?
      && (BlocksAfter(h.oracle, stop.value) && IsMachineCode(trigger) ==> o.Returned? && o.value.phase == Blocked)
    ensures old(h.Healthy()) ==> h.Healthy()
    ensures old(h.Healthy()) && Poised(old(h.Now()), trigger, observed, ready) ==>
      o.Returned? && o.value.phase == FailedRolledBack
    ensures old(h.Healthy()) && o.Returned? && o.value.phase == FailedRolledBack && (ready ==> Serves(old(h.docker), journal.previous.slotId)) ==>
      Serves(h.docker, journal.previous.slotId)
  {
    hide Inv, Poised, Continues, Serves, Evolves;
    ghost var before := h.Now();
    stop := None;
    o := RestorePrevious(h, journal, trigger, observed, ready);
    if o.Raised? {
      ghost var middle := h.Now();
      ContinuesKeepsActivation(before, middle);
      if middle.files.journal.value.phase != Completed {
        ContinuesKeepsCauses(before, middle);
      }
      stop := Some(Stop(Restoring, h.clock, h.Now()));
      o := BlockActivation(h, journal.requestId, RollbackVerificationFailed, Some(trigger));
      ContinuesIsTransitive(before, middle, h.Now());
    }
  }

  /** The rollback once its database proof is in hand. */
  method RollbackProven(h: Host, journal: Journal, trigger: Code, observed: Option<SlotId>, ready: bool)
    returns (o: Outcome<Journal, Code>, ghost stop: Option<Stop>)
    requires h.files.journal.Some? && SameActivation(journal, h.files.journal.value)
    requires observed == h.files.pointer && h.past.databaseProof == h.past.call
    requires Cleared(h.Now())
    modifies h
    ensures Continues(old(h.Now()), h.Now())
    ensures Inv(old(h.Now())) && (ready ==> ProofsInHand(old(h.Now()))) ==> Inv(h.Now())
    ensures o.Returned? ==> Concluded(h.files, o.value) && o.value.phase in {FailedRolledBack, Blocked}
    ensures o.Returned? ==> o.value.rollbackTrigger == FirstOf(old(h.files.journal).value.rollbackTrigger, trigger)
    ensures (stop.Some? ==> stop.value.stage in {Entering, Restoring}) && (o.Raised? ==> stop.Some?)
    ensures o.Returned? && o.value.phase == Blocked ==>
      && stop.Some? && stop.value.stage == Restoring
      && o.value.failureCategory == FirstOf(old(h.files.journal).value.failureCategory, RollbackVerificationFailed)
    ensures stop.Some? && Inv(old(h.Now())) && (ready ==> ProofsInHand(old(h.Now()))) ==>
      && Inv(stop.value.world) && stop.value.world.files.journal.Some?
      && (BlocksAfter(h.oracle, stop.value) && IsMachineCode(trigger) ==> o.Returned? && o.value.phase == Blocked)
    ensures old(h.Healthy()) ==> h.Healthy()
    ensures old(h.Healthy()) && Inv(old(h.Now())) && MayRollBack(old(h.files), trigger) && (ready ==> ProofsInHand(old(h.Now())))
      ==> o.Returned? && o.value.phase == FailedRolledBack
    ensures old(h.Healthy()) && o.Returned? && o.value.phase == FailedRolledBack && (ready ==> Serves(old(h.docker), journal.previous.slotId)) ==>
      Serves(h.docker, journal.previous.slotId)
  {
    hide Inv, FirstOf, RollingBackWith, Continues, Evolves, MayRollBack;
    ghost var before := h.Now();
    stop := None;
    var begun := BeginRollback(h, journal, trigger);
    ghost var middle := h.Now();
    if begun.Raised? {
      stop := Some(Stop(Entering, h.clock, middle));
    }
    var _ :- begun;
    o, stop := RestoreOrBlock(h, journal, trigger, observed, ready);
    ContinuesIsTransitive(before, middle, h.Now());
  }

  /** The block of a rollback that cannot go on. */
  method StopRollback(h: Host, journal: Journal, category: Code, trigger: Code, ghost stage: RollbackStage)
    returns (o: Outcome<Journal, Code>, ghost stop: Option<Stop>)
    requires h.files.journal.Some? && SameActivation(journal, h.files.journal.value)
    requires stage != Entering && category == StageCategory(stage)
    modifies h
    ensures Continues(old(h.Now()), h.Now()) && (Inv(old(h.Now())) ==> Inv(h.Now()))
    ensures o.Returned? ==> Concluded(h.files, o.value) && o.value.phase == Blocked
    ensures o.Returned? ==> o.value.rollbackTrigger == FirstOf(old(h.files.journal).value.rollbackTrigger, trigger)
    ensures Stopped(h.oracle, old(h.Now()), o, trigger, stop) && stop == Some(Stop(stage, old(h.clock), old(h.Now())))
    ensures old(h.Healthy()) ==> h.Healthy()
    ensures old(h.Healthy()) && Inv(old(h.Now())) && MayRollBack(old(h.files), trigger) ==> o.Returned?
  {
    hide Inv, Continues, FirstOf;
    stop := Some(Stop(stage, h.clock, h.Now()));
    o := BlockActivation(h, journal.requestId, category, Some(trigger));
  }

  /** Steps that left the journal alone. */
  lemma StoppedAfterLook(oracle: nat -> Event, u: World, w: World, o: Outcome<Journal, Code>, trigger: Code, stop: Option<Stop>)
    requires u.files.journal.Some? && w.files.journal == u.files.journal
    requires Stopped(oracle, w, o, trigger, stop) && (Inv(u) && !Settled(u.files.journal.value.phase) ==> Inv(w))
    ensures Stopped(oracle, u, o, trigger, stop)
  {
    hide Inv;
  }

  lemma NotStopped(oracle: nat -> Event, w: World, o: Outcome<Journal, Code>, trigger: Code)
    requires w.files.journal.Some? && o.Crashed?
    ensures Stopped(oracle, w, o, trigger, None)
  {
    hide Inv;
  }

  lemma StoppedEntering(oracle: nat -> Event, w: World, o: Outcome<Journal, Code>, trigger: Code, s: Stop)
    requires w.files.journal.Some? && o.Raised? && s.stage == Entering
    requires Inv(w) && !Settled(w.files.journal.value.phase) ==> Inv(s.world) && s.world.files.journal.Some?
    ensures Stopped(oracle, w, o, trigger, Some(s))
  {
    hide Inv;
  }

  lemma StoppedRestoring(oracle: nat -> Event, w: World, o: Outcome<Journal, Code>, trigger: Code, stop: Option<Stop>)
    requires w.files.journal.Some? && (stop.Some? ==> stop.value.stage in {Entering, Restoring}) && (o.Raised? ==> stop.Some?)
    requires o.Returned? && o.value.phase == Blocked ==>
      && stop.Some? && stop.value.stage == Restoring
      && o.value.failureCategory == FirstOf(w.files.journal.value.failureCategory, RollbackVerificationFailed)
    requires stop.Some? && Inv(w) && !Settled(w.files.journal.value.phase) ==>
      && Inv(stop.value.world) && stop.value.world.files.journal.Some?
      && (BlocksAfter(oracle, stop.value) && IsMachineCode(trigger) ==> o.Returned? && o.value.phase == Blocked)
    ensures Stopped(oracle, w, o, trigger, stop)
  {
    hide Inv;
  }

  /** Looks whether the previous runtime is still up, then rolls back to it. */
  method RollbackReady(h: Host, journal: Journal, trigger: Code, observed: Option<SlotId>)
    returns (o: Outcome<Journal, Code>, ghost stop: Option<Stop>)
    requires h.files.journal.Some? && SameActivation(journal, h.files.journal.value)
    requires observed == h.files.pointer && h.past.databaseProof == h.past.call
    requires Cleared(h.Now())
    modifies h
    ensures Continues(old(h.Now()), h.Now())
    ensures Inv(old(h.Now())) && !Settled(old(h.files.journal).value.phase) ==> Inv(h.Now())
    ensures o.Returned? ==> Concluded(h.files, o.value) && o.value.phase in {FailedRolledBack, Blocked}
    ensures o.Returned? ==> o.value.rollbackTrigger == FirstOf(old(h.files.journal).value.rollbackTrigger, trigger)
    ensures Stopped(h.oracle, old(h.Now()), o, trigger, stop)
    ensures old(h.Healthy()) ==> h.Healthy()
    ensures old(h.Healthy()) && Inv(old(h.Now())) && MayRollBack(old(h.files), trigger)
      ==> o.Returned? && o.value.phase == FailedRolledBack
    ensures old(h.Healthy()) && o.Returned? && o.value.phase == FailedRolledBack ==>
      Serves(h.docker, journal.previous.slotId)
  {
    hide Inv, Stopped, Evolves, Continues, Serves, KeepsServing, FirstOf, ProofsInHand, SameActivation;
    ghost var before := h.Now();
    stop := None;
    var ready := InspectPrevious(h, journal, observed);
    ghost var middle := h.Now();
    if ready.Raised? {
      o, stop := StopRollback(h, journal, RollbackConfigurationUnverified, trigger, Inspecting);
      ContinuesIsTransitive(before, middle, h.Now());
      StoppedAfterLook(h.oracle, before, middle, o, trigger, stop);
      return;
    }
    if ready.Crashed? {
      NotStopped(h.oracle, before, Crashed, trigger);
    }
    var isReady :- ready;
    o, stop := RollbackProven(h, journal, trigger, observed, isReady);
    ContinuesIsTransitive(before, middle, h.Now());
    StoppedRestoring(h.oracle, before, o, trigger, stop);
  }

  /** The rollback of an activation whose pointer stands on one of its slots. */
  method RollbackFrom(h: Host, journal: Journal, trigger: Code, observed: Option<SlotId>)
    returns (o: Outcome<Journal, Code>, ghost stop: Option<Stop>)
    requires h.files.journal.Some? && SameActivation(journal, h.files.journal.value)
    requires observed == h.files.pointer
    modifies h
    ensures Continues(old(h.Now()), h.Now())
    ensures Inv(old(h.Now())) && !Settled(old(h.files.journal).value.phase) ==> Inv(h.Now())
    ensures o.Returned? ==> Concluded(h.files, o.value) && o.value.phase in {FailedRolledBack, Blocked}
    ensures o.Returned? ==> o.value.rollbackTrigger == FirstOf(old(h.files.journal).value.rollbackTrigger, trigger)
    ensures Stopped(h.oracle, old(h.Now()), o, trigger, stop)
    ensures old(h.Healthy()) ==> h.Healthy()
    ensures old(h.Healthy()) && Inv(old(h.Now())) && MayRollBack(old(h.files), trigger)
      && DatabaseProven(old(h.data), journal.schema)
      ==> o.Returned? && o.value.phase == FailedRolledBack
    ensures old(h.Healthy()) && o.Returned? && o.value.phase == FailedRolledBack ==>
      Serves(h.docker, journal.previous.slotId)
    ensures old(h.Healthy()) && Inv(old(h.Now())) && MayRollBack(old(h.files), trigger) ==> o.Returned?
  {
    hide Inv, Stopped, Evolves, Continues, FirstOf;
    ghost var before := h.Now();
    stop := None;
    var proven := ProveDatabase(h, journal);
    ContinuesFromSameFiles(before, h.Now());
    ghost var middle := h.Now();
    if proven.Raised? {
      o, stop := StopRollback(h, journal, RollbackDatabaseUnverified, trigger, Probing);
      ContinuesIsTransitive(before, middle, h.Now());
      StoppedAfterLook(h.oracle, before, middle, o, trigger, stop);
      return;
    }
    if proven.Crashed? {
      NotStopped(h.oracle, before, Crashed, trigger);
    }
    var _ :- proven;
    o, stop := RollbackReady(h, journal, trigger, observed);
    ContinuesIsTransitive(before, middle, h.Now());
    StoppedAfterLook(h.oracle, before, middle, o, trigger, stop);
  }

  /** Numbers the rollback calls, so that proofs can be tied to the call that obtained them. */
  ghost method NoteRollbackCall(h: Host)
    modifies h
    ensures h.files == old(h.files) && h.data == old(h.data) && h.docker == old(h.docker) && h.clock == old(h.clock)
    ensures h.past == old(h.past).(call := old(h.past.call) + 1)
    ensures Inv(old(h.Now())) && h.files.journal.Some? && !Settled(h.files.journal.value.phase) ==> Inv(h.Now())
  {
    hide Inv;
    if Inv(h.Now()) && h.files.journal.Some? && !Settled(h.files.journal.value.phase) {
      NotesKeepInv(h.Now(), h.past.call + 1, h.past.databaseProof, h.past.runtimeProof, h.past.slipped);
    }
    h.past := h.past.(call := h.past.call + 1);
  }

  /** One rollback of the whole activation.  `journal` may be stale: only the facts fixed
      when the activation was opened are read from it.  Every normal return is settled as
      rolled back or blocked; in a healthy environment with a proven database and the
      pointer on one of the two slots, it is settled. */
  method RollbackActivation(h: Host, journal: Journal, trigger: Code) returns (o: Outcome<Journal, Code>, ghost stop: Option<Stop>)
    requires h.files.journal.Some? && SameActivation(journal, h.files.journal.value)
    modifies h
    ensures Continues(old(h.Now()), h.Now())
    ensures Inv(old(h.Now())) && !Settled(old(h.files.journal).value.phase) ==> Inv(h.Now())
    ensures o.Returned? ==> Concluded(h.files, o.value) && o.value.phase in {FailedRolledBack, Blocked}
    ensures o.Returned? ==> o.value.rollbackTrigger == FirstOf(old(h.files.journal).value.rollbackTrigger, trigger)
    ensures Stopped(h.oracle, old(h.Now()), o, trigger, stop)
    ensures old(h.files.pointer) !in {Some(journal.target.slotId), Some(journal.previous.slotId)} && o.Returned? ==>
      o.value.phase == Blocked && stop.Some? && stop.value.stage == Pointing
    ensures old(h.Healthy()) ==> h.Healthy()
    ensures old(h.Healthy()) && Inv(old(h.Now())) && MayRollBack(old(h.files), trigger)
      && DatabaseProven(old(h.data), journal.schema)
      ==> o.Returned? && o.value.phase == FailedRolledBack
    ensures old(h.Healthy()) && o.Returned? && o.value.phase == FailedRolledBack ==>
      Serves(h.docker, journal.previous.slotId)
    ensures old(h.Healthy()) && Inv(old(h.Now())) && MayRollBack(old(h.files), trigger) ==> o.Returned?
  {
    hide Inv, Stopped, Evolves, Continues, FirstOf, MayBlock;
    ghost var before := h.Now();
    stop := None;
    NoteRollbackCall(h);
    if Inv(h.Now()) {
      PointerStaysInside(h.Now());
    }
    var looked := ObservePointer(h);
    ghost var middle := h.Now();
    ContinuesFromSameFiles(before, middle);
    if looked.Raised? {
      stop := Some(Stop(Entering, h.clock, middle));
      StoppedEntering(h.oracle, before, looked.PropagateFailure(), trigger, stop.value);
    } else if looked.Crashed? {
      NotStopped(h.oracle, before, Crashed, trigger);
    }
    var observed :- looked;
    if observed !in {Some(journal.target.slotId), Some(journal.previous.slotId)} {
      o, stop := StopRollback(h, journal, RollbackPointerConflict, trigger, Pointing);
      ContinuesIsTransitive(before, middle, h.Now());
      StoppedAfterLook(h.oracle, before, middle, o, trigger, stop);
      return;
    }
    o, stop := RollbackFrom(h, journal, trigger, observed);
    ContinuesIsTransitive(before, middle, h.Now());
    StoppedAfterLook(h.oracle, before, middle, o, trigger, stop);
  }
}
