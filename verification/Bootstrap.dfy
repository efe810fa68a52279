/** The stable bootstrap: it resolves which slot has authority, and recovers an unsettled
    activation through the bridge of the target slot. */
module Bootstrap {
  import opened Wrappers
  import opened Contracts
  import opened ActivationJournal
  import opened Installation
  import opened SlotStore
  import opened Runtime
  import opened JournalWrites
  import opened Bridge
  import opened Activation
  import RestoreControl

  /** Whether the writers must stay fenced: the activation journal decides first, then the
      restore documents.  A failure means contradictory evidence, and no policy changes. */
  function WriterIsolationActive(activation: Result<Option<Journal>, Code>, request: Option<RestoreControl.RestoreRequest>,
                                 journal: Option<RestoreControl.RestoreJournal>): Result<bool, Code>
  {
    if activation.Failure? then Failure(activation.error)
    else if ActivationIsolation(activation.value) then Success(true)
    else RestoreControl.RestoreIsolation(request, journal)
  }

  /** A look at evidence outside the model; it may come out negative. */
  method Check(h: Host, code: Code) returns (o: Outcome<(), Code>)
    modifies h
    ensures Rested(old(h.Now()), h.Now())
    ensures o.Returned? ==> h.oracle(old(h.clock)).answer
    ensures o.Raised? ==> o.error == code
    ensures h.oracle(old(h.clock)).Benign() ==> o.Returned?
    ensures old(h.Healthy()) ==> h.Healthy() && o.Returned?
  {
    hide Inv;
    ghost var before := h.Now();
    var e := h.Draw();
    InterferenceKeepsInv(before, h.Now());
    var matches :- e.fate.Conclude(e.answer, code);
    if !matches {
      return Raised(code);
    }
    o := Returned(());
  }

  /** The pointer as far as it can be read: an unreadable one counts as absent. */
  method ReadActiveLeniently(h: Host) returns (o: Outcome<Option<SlotId>, Code>)
    modifies h
    ensures Rested(old(h.Now()), h.Now())
    ensures !o.Raised?
    ensures o.Returned? && o.value.Some? ==> o.value == h.files.pointer && PointerResolves(h.files)
    ensures old(h.Healthy()) ==> h.Healthy() && o.Returned? && (PointerResolves(h.files) ==> o.value == h.files.pointer)
  {
    hide Inv, Interfered;
    ghost var before := h.Now();
    o := ReadActiveSlot(h);
    InterferenceKeepsInv(before, h.Now());
    InterferenceMovesRuntime(before, h.Now());
    if o.Raised? {
      o := Returned(None);
    }
  }

  /** Puts the pointer on the winner of a settled journal and publishes it. */
  method RepairPointer(h: Host, winner: SlotBinding) returns (o: Outcome<Option<SlotId>, Code>)
    modifies h
    ensures h.files == old(h.files).(pointer := h.files.pointer, projection := h.files.projection) && h.past == old(h.past)
    ensures Inv(old(h.Now())) && old(h.files.pointer) == Some(winner.slotId) ==> Inv(h.Now())
    ensures h.files.pointer in {old(h.files.pointer), Some(winner.slotId)}
    ensures o.Returned? ==> h.files.pointer == Some(winner.slotId) && o.value == h.files.pointer
    ensures old(h.Healthy()) ==> h.Healthy()
    ensures old(h.Healthy()) && winner.slotId in old(h.files.slots) ==> o.Returned?
  {
    hide Inv, Interfered;
    ghost var before := h.Now();
    var switched := AtomicSwitchPointer(h, winner.slotId);
    InterferenceKeepsInv(before, h.eve);
    ghost var middle := h.Now();
    assert before.files.pointer == Some(winner.slotId) ==> middle == h.eve;
    var _ :- switched;
    var published := PublishInstalledSlotProjection(h, winner);
    InterferenceKeepsInv(middle, h.eve);
    if Inv(h.eve) {
      PublishKeepsInv(h.eve, winner);
    }
    middle := h.Now();
    var _ :- published;
    o := ReadActiveSlot(h);
    InterferenceKeepsInv(middle, h.Now());
  }

  /** The answer for a settled journal: its winner, with the pointer on it. */
  method ResolveSettled(h: Host, journal: Journal, active: Option<SlotId>, repair: bool) returns (o: Outcome<SlotId, Code>)
    requires h.files.journal == Some(journal) && Settled(journal.phase)
    requires active.Some? ==> active == h.files.pointer
    modifies h
    ensures h.files == old(h.files).(pointer := h.files.pointer, projection := h.files.projection) && h.past == old(h.past)
    ensures !repair ==> h.files == old(h.files)
    ensures Inv(old(h.Now())) ==> Inv(h.Now())
    ensures o.Returned? ==> o.value == Winner(journal).slotId && h.files.pointer == Some(o.value)
    ensures o.Returned? ==> h.oracle(old(h.clock)).answer
    ensures !repair && active != Some(Winner(journal).slotId) ==>
      !o.Returned? && (o.Raised? && h.oracle(old(h.clock)).Benign() ==> o.error == ActivePointerConflict)
    ensures old(h.Healthy()) ==> h.Healthy()
    ensures old(h.Healthy()) && repair && Winner(journal).slotId in old(h.files.slots) ==> o.Returned?
  {
    hide Inv;
    var winner := Winner(journal);
    if Inv(h.Now()) {
      PointerStaysInside(h.Now());
    }
    var _ :- Check(h, ActivationBindingInvalid);
    if active != Some(winner.slotId) {
      if !repair {
        return Raised(ActivePointerConflict);
      }
      var _ :- RepairPointer(h, winner);
    }
    var _ :- Check(h, ActivePointerInvalid);
    o := Returned(winner.slotId);
  }

  /** Runs the bridge of the target slot in a child process.  The child may die where the
      bootstrap survives; both read as a failed recovery. */
  method ResumeInChild(h: Host, requestId: RequestId, r: Reports) returns (o: Outcome<(), Code>)
    modifies h
    ensures Inv(old(h.Now())) && Fresh(old(h.past), requestId) ==> Inv(h.Now()) && Progressed(old(h.Now()), h.Now())
    ensures o.Returned? ==> h.files.journal.Some? && h.files.journal.value.phase in TERMINAL_ACTIVATION_PHASES
    ensures old(h.Healthy()) ==> h.Healthy()
    ensures old(h.Healthy()) && Inv(old(h.Now())) && Fresh(old(h.past), requestId) && Recoverable(old(h.Now()))
      && IsRequestId(requestId) && old(h.files.journal).value.requestId == requestId
      ==> o.Returned? && h.files.journal.Some? && Settled(h.files.journal.value.phase)
  {
    hide Inv, Progressed, Fresh;
    ghost var before := h.Now();
    var child := ActivateOrResume(h, Arguments(requestId, None, None, "", ""), r);
    ghost var middle := h.Now();
    var e := h.Draw();
    InterferenceKeepsInv(middle, h.Now());
    RestingProgresses(middle, h.Now());
    if Inv(before) && Fresh(before.past, requestId) {
      ProgressedFrom(before, middle, h.Now());
    }
    var _ :- e.fate.Conclude((), ActivationRecoveryFailed);
    if !child.Returned? {
      return Raised(ActivationRecoveryFailed);
    }
    o := Returned(());
  }

  /** Recovers an unsettled activation; a normal return means it settled. */
  method Recover(h: Host, journal: Journal, r: Reports) returns (o: Outcome<(), Code>)
    requires h.files.journal == Some(journal)
    modifies h
    ensures Inv(old(h.Now())) ==> Inv(h.Now()) && Progressed(old(h.Now()), h.Now())
    ensures o.Returned? ==> h.files.journal.Some? && Settled(h.files.journal.value.phase)
    ensures o.Returned? ==> h.oracle(old(h.clock)).answer
    ensures old(h.Healthy()) ==> h.Healthy()
    ensures old(h.Healthy()) && Inv(old(h.Now())) && Recoverable(old(h.Now())) ==> o.Returned?
  {
    hide Inv, Progressed, Fresh;
    ghost var before := h.Now();
    if Inv(before) {
      CurrentRequestIsFresh(before);
    }
    var checked := Check(h, ActivationBindingInvalid);
    ghost var middle := h.Now();
    RestingProgresses(before, middle);
    var _ :- checked;
    var resumed := ResumeInChild(h, journal.requestId, r);
    if Inv(before) {
      ProgressedFrom(before, middle, h.Now());
    }
    middle := h.Now();
    var _ :- resumed;
    var read := ReadLive(h);
    RestingProgresses(middle, h.Now());
    if Inv(before) {
      ProgressedFrom(before, middle, h.Now());
    }
    var recovered :- read;
    if recovered.phase == Blocked {
      return Raised(ActivationBlocked);
    }
    o := Returned(());
  }

  lemma CurrentRequestIsFresh(w: World)
    requires Inv(w) && w.files.journal.Some?
    ensures Fresh(w.past, w.files.journal.value.requestId) && IsRequestId(w.files.journal.value.requestId)
  {
  }

  lemma WinnerIsOnDisk(w: World)
    requires Inv(w) && w.files.journal.Some?
    ensures Winner(w.files.journal.value).slotId in w.files.slots && PointerResolves(w.files)
  {
  }

  /** A settled journal whose winner is on disk, wherever the pointer stands. */
  predicate Repairable(w: World) {
    && w.files.journal.Some?
    && ValidateJournal(w.files.journal.value)
    && Settled(w.files.journal.value.phase)
    && Winner(w.files.journal.value).slotId in w.files.slots
  }

  lemma SettledIsRepairable(w: World)
    requires Inv(w) && w.files.journal.Some? && Settled(w.files.journal.value.phase)
    ensures Repairable(w)
  {
  }

  /** Which slot has authority.  With a journal on disk the answer is only ever the winner
      of a settled activation with the pointer on it; without `repair` nothing changes.
      After a recovery the journal is settled, so the one recursive call does not recur. */
  method ResolveAuthority(h: Host, repair: bool, r: Reports) returns (o: Outcome<SlotId, Code>)
    modifies h
    ensures Inv(old(h.Now())) ==> Inv(h.Now()) && Progressed(old(h.Now()), h.Now())
    ensures !repair ==> h.files == old(h.files) && h.past == old(h.past)
    ensures o.Returned? ==> h.files.pointer == Some(o.value)
    ensures o.Returned? && h.files.journal.Some? ==>
      Settled(h.files.journal.value.phase) && o.value == Winner(h.files.journal.value).slotId
    ensures old(h.Healthy()) ==> h.Healthy()
    ensures old(h.Healthy()) && Inv(old(h.Now())) && !repair && old(h.files.journal).Some? && !Settled(old(h.files.journal).value.phase) ==>
      o == Raised(if old(h.files.journal).value.phase == Blocked then ActivationBlocked else ActivationInProgress)
    ensures old(h.Healthy()) && Inv(old(h.Now())) && old(h.files.journal).None? && old(h.files.pointer).None? ==>
      o == Raised(ActivePointerMissing)
    ensures old(h.Healthy()) && repair && Repairable(old(h.Now())) ==> o.Returned?
    ensures old(h.Healthy()) && repair && Inv(old(h.Now())) && Recoverable(old(h.Now())) ==> o.Returned?
    decreases if NoneOrSettled(h.files.journal) then 0 else 1
  {
    hide Inv, Progressed, Fresh, ValidateJournal;
    ghost var before := h.Now();
    if Inv(before) && h.files.journal.Some? {
      WinnerIsOnDisk(before);
    }
    var pointer := ReadActiveLeniently(h);
    RestingProgresses(before, h.Now());
    var active :- pointer;
    var read := ReadJournal(h);
    RestingProgresses(before, h.Now());
    ghost var afterRead := h.Now();
    var journal :- read;
    if journal.None? {
      if active.None? {
        return Raised(ActivePointerMissing);
      }
      var valid := Check(h, ActivePointerInvalid);
      RestingProgresses(before, h.Now());
      var _ :- valid;
      return Returned(active.value);
    }
    if Settled(journal.value.phase) {
      o := ResolveSettled(h, journal.value, active, repair);
      RestingProgresses(before, h.Now());
      return;
    }
    if !repair {
      return Raised(if journal.value.phase == Blocked then ActivationBlocked else ActivationInProgress);
    }
    var recovered := Recover(h, journal.value, r);
    ghost var middle := h.Now();
    if Inv(before) {
      ProgressedFrom(before, afterRead, middle);
    }
    var _ :- recovered;
    if Inv(middle) {
      SettledIsRepairable(middle);
    }
    o := ResolveAuthority(h, true, r);
    if Inv(before) {
      ProgressedFrom(before, middle, h.Now());
    }
  }
}
