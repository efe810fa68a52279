/** The one owner of the active pointer and the activation journal. */
module SlotStore {
  import opened Wrappers
  import opened Contracts
  import opened ActivationJournal
  import opened Installation

  /** The slot the pointer selects, validated on every read. */
  method ReadActiveSlot(h: Host) returns (o: Outcome<Option<SlotId>, Code>)
    modifies h
    ensures Interfered(old(h.Now()), h.Now()) && h.eve == h.Now() && h.files == old(h.files) && h.past == old(h.past)
    ensures o.Returned? ==> o.value == h.files.pointer
    ensures o.Returned? ==> PointerResolves(h.files)
    ensures old(h.Healthy()) ==> h.Healthy() && !o.Crashed? && old(h.docker.running) <= h.docker.running
    ensures old(h.Healthy()) && PointerResolves(h.files) ==> o.Returned?
  {
    var e := h.Draw();
    if !PointerResolves(h.files) {
      return Raised(ActivePointerInvalid);
    }
    o := e.fate.Conclude(h.files.pointer, ActivePointerInvalid);
  }

  method ReadActivationJournal(h: Host) returns (o: Outcome<Option<Journal>, Code>)
    modifies h
    ensures Interfered(old(h.Now()), h.Now()) && h.eve == h.Now() && h.files == old(h.files) && h.past == old(h.past)
    ensures o.Returned? ==> o.value == h.files.journal && (o.value.Some? ==> ValidateJournal(o.value.value))
    ensures old(h.Healthy()) ==> h.Healthy() && old(h.docker.running) <= h.docker.running
    ensures old(h.Healthy()) && (h.files.journal.Some? ==> ValidateJournal(h.files.journal.value)) ==> o.Returned?
  {
    var e := h.Draw();
    if h.files.journal.Some? && !ValidateJournal(h.files.journal.value) {
      return Raised(ActivationJournalInvalid);
    }
    o := e.fate.Conclude(h.files.journal, ActivationJournalInvalid);
  }

  /** Reading a journal that must exist. */
  method RequireActivationJournal(h: Host) returns (o: Outcome<Journal, Code>)
    modifies h
    ensures Interfered(old(h.Now()), h.Now()) && h.eve == h.Now() && h.files == old(h.files) && h.past == old(h.past)
    ensures o.Returned? ==> h.files.journal == Some(o.value) && ValidateJournal(o.value)
    ensures old(h.Healthy()) ==> h.Healthy() && old(h.docker.running) <= h.docker.running
    ensures old(h.Healthy()) && h.files.journal.Some? && ValidateJournal(h.files.journal.value) ==> o.Returned?
  {
    var journal :- ReadActivationJournal(h);
    if journal.None? {
      return Raised(EvidenceMissing);
    }
    o := Returned(journal.value);
  }

  /** Selects an already validated slot.  The replacement may take effect and still be
      reported as failed, when a later check raises. */
  method AtomicSwitchPointer(h: Host, slot: SlotId) returns (o: Outcome<(), Code>)
    modifies h
    ensures Interfered(old(h.Now()), h.eve) && h.eve.files == old(h.files) && h.eve.past == old(h.past)
    ensures h.Now() == h.eve || h.Now() == h.eve.(files := h.eve.files.(pointer := Some(slot)))
    ensures slot !in old(h.files.slots) ==> h.Now() == h.eve
    ensures o.Returned? ==> h.files.pointer == Some(slot)
    ensures old(h.Healthy()) ==> h.Healthy() && old(h.docker.running) <= h.docker.running
    ensures old(h.Healthy()) && slot in old(h.files.slots) ==> o.Returned?
  {
    var e := h.Draw();
    if slot !in h.files.slots {
      return Raised(ActivePointerSwitchFailed);
    }
    if e.fate.Happened() {
      h.files := h.files.(pointer := Some(slot));
    }
    o := e.fate.Conclude((), ActivePointerSwitchFailed);
  }

  /** Writes an edited journal if the pointer it records is the one observed now. */
  method CommitJournal(h: Host, edited: Journal) returns (o: Outcome<Journal, Code>)
    modifies h
    ensures Interfered(old(h.Now()), h.eve) && h.eve.files == old(h.files) && h.eve.past == old(h.past)
    ensures h.Now() == h.eve || h.Now() == h.eve.(files := h.eve.files.(journal := Some(edited)))
    ensures h.Now() != h.eve || o.Returned? ==> edited.pointer == old(h.files.pointer)
    ensures o.Returned? ==> h.Now() == h.eve.(files := h.eve.files.(journal := Some(edited))) && o.value == edited
    ensures old(h.Healthy()) ==> h.Healthy() && old(h.docker.running) <= h.docker.running
    ensures old(h.Healthy()) && edited.pointer == old(h.files.pointer) && PointerResolves(old(h.files)) ==> o.Returned?
  {
    hide Interfered;
    ghost var before := h.Now();
    var observed := ReadActiveSlot(h);
    ghost var middle := h.Now();
    var active :- observed;
    if edited.pointer != active {
      return Raised(ActivationPointerConflict);
    }
    var e := h.Draw();
    InterferedIsTransitive(before, middle, h.Now());
    if e.fate.Happened() {
      h.files := h.files.(journal := Some(edited));
    }
    o := e.fate.Conclude(edited, EvidenceWriteFailed);
  }

  /** One validated transition.  The pointer recorded in the document must be the pointer
      observed at the write, and a refusal writes nothing. */
  method TransitionActivationJournal(h: Host, requestId: RequestId, phase: Phase, u: Update, pointer: Option<SlotId>)
    returns (o: Outcome<Journal, Code>)
    modifies h
    ensures Interfered(old(h.Now()), h.eve) && h.eve.files == old(h.files) && h.eve.past == old(h.past)
    ensures h.Now() == h.eve || Written(h.eve, h.Now(), requestId, phase, u)
    ensures o.Returned? ==> Written(h.eve, h.Now(), requestId, phase, u) && h.files.journal == Some(o.value)
    ensures old(h.Healthy()) ==> h.Healthy() && old(h.docker.running) <= h.docker.running
    ensures old(h.Healthy()) && pointer == old(h.files.pointer) && Admits(old(h.files), requestId, phase, u) ==>
      o.Returned?
  {
    hide ValidateJournal, Transition, Evolves, Interfered;
    ghost var before := h.Now();
    var current :- RequireActivationJournal(h);
    ghost var middle := h.Now();
    if current.requestId != requestId {
      return Raised(ActivationRequestConflict);
    }
    var edited := Transition(current, phase, u, pointer);
    if edited.Failure? {
      return Raised(edited.error);
    }
    o := CommitJournal(h, edited.value);
    InterferedIsTransitive(before, middle, h.eve);
  }

  /** The existing journal was opened by the same request with the same facts. */
  predicate AlreadyOpened(j: Journal, requestId: RequestId, previous: SlotBinding, target: SlotBinding, schema: SchemaRecord) {
    SameActivation(j, Opened(requestId, j.generation, previous, target, schema, None))
  }

  function NextGeneration(f: Files): nat {
    if f.journal.Some? then f.journal.value.generation + 1 else 1
  }

  function NextJournal(f: Files, requestId: RequestId, previous: SlotBinding, target: SlotBinding, schema: SchemaRecord): Journal {
    Opened(requestId, NextGeneration(f), previous, target, schema, f.pointer)
  }

  /** No journal, or a valid one of another request in a terminal phase, blocked included. */
  predicate MayBeReplaced(existing: Option<Journal>, requestId: RequestId) {
    existing.None?
    || (&& ValidateJournal(existing.value)
        && existing.value.requestId != requestId
        && existing.value.phase in TERMINAL_ACTIVATION_PHASES)
  }

  /** The store would open a new activation: no other one is running, the pointer is on the
      previous slot (or absent, for an adopted snapshot), and the document is valid. */
  predicate Openable(f: Files, requestId: RequestId, previous: SlotBinding, target: SlotBinding, schema: SchemaRecord) {
    && MayBeReplaced(f.journal, requestId)
    && PointerResolves(f)
    && (f.pointer == Some(previous.slotId) || (f.pointer.None? && previous.kind == AdoptedPreUpdateSnapshot))
    && ValidateJournal(NextJournal(f, requestId, previous, target, schema))
  }

  /** The database as the preflight of a new activation describes it. */
  predicate OpensAtRest(d: Store, schema: SchemaRecord) {
    d.migration.None? && d.db == Database(schema.sourceVersion, true)
  }

  /** The history once a new activation is on disk.  It inherits whatever still moves. */
  function PastOpened(w: World, schema: SchemaRecord): Past {
    w.past.(
      archive := w.past.archive + (if w.files.journal.Some? then [w.files.journal.value] else []),
      quiet := false, starts := 0,
      slipped := w.past.slipped && !OpensAtRest(w.data, schema), inherited := !OpensAtRest(w.data, schema))
  }

  /** The world once a new activation is on disk: the previous journal is history. */
  function Opening(w: World, requestId: RequestId, previous: SlotBinding, target: SlotBinding, schema: SchemaRecord): World {
    w.(files := w.files.(journal := Some(NextJournal(w.files, requestId, previous, target, schema))),
       past := PastOpened(w, schema))
  }

  method WriteOpened(h: Host, journal: Journal) returns (o: Outcome<Journal, Code>)
    modifies h
    ensures Interfered(old(h.Now()), h.eve) && h.eve.files == old(h.files) && h.eve.past == old(h.past)
    ensures h.Now() == h.eve || h.Now() == h.eve.(
      files := h.eve.files.(journal := Some(journal)), past := PastOpened(h.eve, journal.schema))
    ensures o.Returned? ==> h.files.journal == Some(journal) && o.value == journal
    ensures old(h.Healthy()) ==> h.Healthy() && o.Returned?
  {
    var e := h.Draw();
    if e.fate.Happened() {
      h.past := PastOpened(h.Now(), journal.schema);
      h.files := h.files.(journal := Some(journal));
    }
    o := e.fate.Conclude(journal, EvidenceWriteFailed);
  }

  /** Opens a new activation over a journal that does not stand in its way. */
  method OpenOver(h: Host, existing: Option<Journal>, requestId: RequestId, previous: SlotBinding, target: SlotBinding, schema: SchemaRecord)
    returns (o: Outcome<Journal, Code>)
    requires existing == h.files.journal
    requires MayBeReplaced(existing, requestId)
    modifies h
    ensures Interfered(old(h.Now()), h.eve) && h.eve.files == old(h.files) && h.eve.past == old(h.past)
    ensures h.Now() == h.eve || h.Now() == Opening(h.eve, requestId, previous, target, schema)
    ensures h.Now() != h.eve || o.Returned? ==> Openable(old(h.files), requestId, previous, target, schema)
    ensures o.Returned? ==>
      h.Now() == Opening(h.eve, requestId, previous, target, schema) && h.files.journal == Some(o.value)
    ensures old(h.Healthy()) ==> h.Healthy()
    ensures old(h.Healthy()) && Openable(old(h.files), requestId, previous, target, schema) ==> o.Returned?
  {
    hide Interfered, ValidateJournal;
    ghost var before := h.Now();
    var read := ReadActiveSlot(h);
    ghost var middle := h.Now();
    var active :- read;
    if active.Some? && active.value != previous.slotId {
      return Raised(ActivationPointerConflict);
    }
    if active.None? && previous.kind != AdoptedPreUpdateSnapshot {
      return Raised(ActivationPointerMissing);
    }
    var journal := Opened(requestId, if existing.Some? then existing.value.generation + 1 else 1, previous, target, schema, active);
    if !ValidateJournal(journal) {
      return Raised(ActivationJournalInvalid);
    }
    o := WriteOpened(h, journal);
    InterferedIsTransitive(before, middle, h.eve);
  }

  /** Creates the journal of a new activation, or returns the one this request already has.
      A blocked journal of another request does not stand in the way here. */
  method InitializeActivationJournal(h: Host, requestId: RequestId, previous: SlotBinding, target: SlotBinding, schema: SchemaRecord)
    returns (o: Outcome<Journal, Code>)
    modifies h
    ensures Interfered(old(h.Now()), h.eve) && h.eve.files == old(h.files) && h.eve.past == old(h.past)
    ensures h.Now() == h.eve || h.Now() == Opening(h.eve, requestId, previous, target, schema)
    ensures h.Now() != h.eve ==> Openable(old(h.files), requestId, previous, target, schema)
    ensures o.Returned? ==> h.files.journal == Some(o.value) && o.value.requestId == requestId
    ensures o.Returned? && h.Now() == h.eve ==> AlreadyOpened(o.value, requestId, previous, target, schema)
    ensures old(h.Healthy()) ==> h.Healthy() && (h.Now() != h.eve ==> o.Returned?)
    ensures old(h.Healthy()) && Openable(old(h.files), requestId, previous, target, schema) ==>
      o.Returned? && h.Now() != h.eve
  {
    hide Interfered, ValidateEvidence, ValidateSlotBinding, SameActivation, IsLowerHex, IsRequestId;
    ghost var before := h.Now();
    InterferedIsReflexive(before);
    h.NoteEve();
    if !IsRequestId(requestId) {
      return Raised(RequestIdInvalid);
    }
    if !ValidateSlotBinding(previous) || !ValidateSlotBinding(target) {
      return Raised(ActivationSlotBindingInvalid);
    }
    var existing :- ReadActivationJournal(h);
    if existing.Some? && existing.value.requestId == requestId {
      if !AlreadyOpened(existing.value, requestId, previous, target, schema) {
        return Raised(ActivationJournalConflict);
      }
      return Returned(existing.value);
    }
    if existing.Some? && existing.value.phase !in TERMINAL_ACTIVATION_PHASES {
      return Raised(ActivationInProgress);
    }
    if !IsLowerHex(schema.compatibility, 64) || schema.targetVersion < schema.sourceVersion {
      return Raised(ActivationSchemaCompatibilityInvalid);
    }
    ghost var middle := h.Now();
    o := OpenOver(h, existing, requestId, previous, target, schema);
    InterferedIsTransitive(before, middle, h.eve);
  }
}
