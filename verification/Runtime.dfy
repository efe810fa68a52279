/** The bridge's effects on containers, policies and the database. */
module Runtime {
  import opened Wrappers
  import opened Contracts
  import opened ActivationJournal
  import opened Installation

  /** One atomic reconcile of the writers' restart policies. */
  method SetWriterPolicyFence(h: Host, enabled: bool) returns (o: Outcome<(), Code>)
    modifies h
    ensures Interfered(old(h.Now()), h.eve) && h.eve.files == old(h.files) && h.eve.past == old(h.past)
    ensures h.Now() == h.eve || h.Now() == h.eve.(docker := h.eve.docker.(always := Policies(enabled)))
    ensures o.Returned? ==> h.docker.always == Policies(enabled)
    ensures old(h.NoRestore()) ==> h.NoRestore()
    ensures old(h.Healthy()) ==> h.Healthy() && o.Returned? && old(h.docker.running) <= h.docker.running
  {
    var e := h.Draw();
    if e.fate.Happened() {
      h.docker := h.docker.(always := Policies(enabled));
    }
    o := e.fate.Conclude((), WriterFenceFailed);
  }

  method WriterPolicyFenceActive(h: Host) returns (o: Outcome<bool, Code>)
    modifies h
    ensures Interfered(old(h.Now()), h.Now()) && h.eve == h.Now() && h.files == old(h.files) && h.past == old(h.past)
    ensures o.Returned? && ActivationIsolation(h.files.journal) ==> o.value
    ensures old(h.Healthy()) ==> h.Healthy() && o.Returned? && old(h.docker.running) <= h.docker.running
  {
    var e := h.Draw();
    o := e.fate.Conclude(ActivationIsolation(h.files.journal) || e.restoring, WriterFenceFailed);
  }

  /** `docker compose stop` of the writers, then a look at one service. */
  method StopWriters(h: Host) returns (o: Outcome<(), Code>)
    modifies h
    ensures Interfered(old(h.Now()), h.eve) && h.eve.files == old(h.files) && h.eve.past == old(h.past)
    ensures h.Now() == h.eve
         || h.Now() == h.eve.(docker := h.eve.docker.(running := h.eve.docker.running - WRITER_SERVICES))
    ensures o.Returned? ==> Api !in h.docker.running && Recorder !in h.docker.running
    ensures old(h.Healthy()) ==> h.Healthy() && o.Returned?
  {
    var e := h.Draw();
    if e.fate.Happened() {
      h.docker := h.docker.(running := h.docker.running - WRITER_SERVICES);
    }
    o := e.fate.Conclude((), SlotQuiesceFailed);
  }

  method RequireStopped(h: Host, service: Service) returns (o: Outcome<(), Code>)
    modifies h
    ensures Interfered(old(h.Now()), h.Now()) && h.eve == h.Now() && h.files == old(h.files) && h.past == old(h.past)
    ensures o.Returned? ==> service !in h.docker.running
    ensures old(h.Healthy()) ==> h.Healthy()
    ensures old(h.Healthy()) && service !in h.docker.running ==> o.Returned?
  {
    var e := h.Draw();
    if service in h.docker.running {
      return Raised(SlotQuiesceFailed);
    }
    o := e.fate.Conclude((), SlotQuiesceFailed);
  }

  method FenceAndStop(h: Host) returns (o: Outcome<(), Code>)
    modifies h
    ensures RuntimeMoved(old(h.Now()), h.Now()) && h.past == old(h.past)
    ensures ActivationIsolation(h.files.journal) && (o.Returned? || Isolated(old(h.Now()))) ==> Isolated(h.Now())
    ensures old(h.Healthy()) ==> h.Healthy() && o.Returned?
  {
    var _ :- SetWriterPolicyFence(h, true);
    o := StopWriters(h);
  }

  method RequireBothStopped(h: Host) returns (o: Outcome<(), Code>)
    modifies h
    ensures Interfered(old(h.Now()), h.Now()) && h.files == old(h.files) && h.past == old(h.past)
    ensures old(h.Healthy()) ==> h.Healthy()
    ensures ActivationIsolation(h.files.journal) && old(h.docker.always) !! WRITER_SERVICES && o.Returned? ==> Isolated(h.Now())
    ensures old(h.Healthy()) && ActivationIsolation(h.files.journal) && Isolated(old(h.Now())) ==> o.Returned?
  {
    hide RuntimeMoved;
    ghost var before := h.Now();
    var first := RequireStopped(h, Api);
    ghost var middle := h.Now();
    InterferenceMovesRuntime(before, middle);
    var _ :- first;
    o := RequireStopped(h, Recorder);
    InterferenceMovesRuntime(middle, h.Now());
    InterferedIsTransitive(before, middle, h.Now());
  }

  /** Fence first, then stop, then verify.  While the durable journal asks for isolation,
      a successful stop leaves no writer running and none that Docker may start; a failed
      one undoes no isolation that was there. */
  method StopSlotSchemaWriters(h: Host) returns (o: Outcome<(), Code>)
    modifies h
    ensures RuntimeMoved(old(h.Now()), h.Now())
    ensures h.past == old(h.past).(quiet := old(h.past.quiet) || o.Returned?)
    ensures ActivationIsolation(h.files.journal) && (o.Returned? || Isolated(old(h.Now()))) ==> Isolated(h.Now())
    ensures old(h.Healthy()) ==> h.Healthy()
    ensures old(h.Healthy()) && ActivationIsolation(h.files.journal) ==> o.Returned?
  {
    var _ :- FenceAndStop(h);
    ghost var middle := h.Now();
    var verified := RequireBothStopped(h);
    InterferenceMovesRuntime(middle, h.Now());
    var _ :- verified;
    h.past := h.past.(quiet := true);
    o := Returned(());
  }

  /** `docker compose up` of one service.  Compose materializes the image of the slot and
      the terminal restart policy. */
  method StartAttempt(h: Host, service: Service, slot: SlotId) returns (o: Outcome<(), Code>)
    modifies h
    ensures RuntimeMoved(old(h.Now()), h.Now()) && h.past == old(h.past)
    ensures h.docker.image == old(h.docker.image) || h.docker.image == old(h.docker.image)[service := slot]
    ensures o.Returned? ==> h.docker.image == old(h.docker.image)[service := slot]
    ensures old(h.Healthy()) ==> h.Healthy() && o.Returned? && old(h.docker.running) + {service} <= h.docker.running
  {
    var e := h.Draw();
    if e.fate.Happened() {
      h.docker := Containers(
        h.docker.running + {service},
        h.docker.always + {service},
        h.docker.image[service := slot]);
    }
    o := e.fate.Conclude((), SlotRuntimeStartFailed);
  }

  /** A second attempt, allowed only when a stopped duplicate was cleaned up. */
  method RetryStart(h: Host, service: Service, slot: SlotId) returns (o: Outcome<(), Code>)
    modifies h
    ensures RuntimeMoved(old(h.Now()), h.Now()) && h.past == old(h.past)
    ensures o.Returned? ==> h.docker.image == old(h.docker.image)[service := slot]
    ensures o.Returned? ==> h.oracle(old(h.clock)).answer
    ensures old(h.Healthy()) ==> h.Healthy() && o.Returned? && old(h.docker.running) + {service} <= h.docker.running
  {
    hide RuntimeMoved, Interfered;
    ghost var before := h.Now();
    var cleanup := h.Draw();
    InterferenceMovesRuntime(before, h.Now());
    ghost var middle := h.Now();
    var recovered :- cleanup.fate.Conclude(cleanup.answer, SlotRuntimeStartFailed);
    if !recovered {
      return Raised(SlotRuntimeStartFailed);
    }
    o := StartAttempt(h, service, slot);
    RuntimeMovedIsTransitive(before, middle, h.Now());
  }

  /** A failed start is retried once; a started service must then become ready. */
  method StartService(h: Host, service: Service, slot: SlotId) returns (o: Outcome<(), Code>)
    modifies h
    ensures RuntimeMoved(old(h.Now()), h.Now()) && h.past == old(h.past)
    ensures o.Returned? ==> service in h.docker.image && h.docker.image[service] == slot
    ensures o.Returned? ==> forall s :: s != service && s in old(h.docker.image) ==>
      s in h.docker.image && h.docker.image[s] == old(h.docker.image)[s]
    ensures old(h.Healthy()) ==> h.Healthy() && o.Returned? && old(h.docker.running) + {service} <= h.docker.running
  {
    hide RuntimeMoved, Interfered;
    ghost var before := h.Now();
    var started := StartAttempt(h, service, slot);
    ghost var middle := h.Now();
    if started.Raised? {
      started := RetryStart(h, service, slot);
      RuntimeMovedIsTransitive(before, middle, h.Now());
    }
    var _ :- started;
    middle := h.Now();
    var ready := h.Draw();
    InterferenceMovesRuntime(middle, h.Now());
    RuntimeMovedIsTransitive(before, middle, h.Now());
    o := ready.fate.Conclude((), SlotRuntimeUnhealthy);
  }

  /** Starts every service of a slot in order. */
  method StartServices(h: Host, slot: SlotId) returns (o: Outcome<(), Code>)
    modifies h
    ensures RuntimeMoved(old(h.Now()), h.Now()) && h.past == old(h.past)
    ensures o.Returned? ==> forall s: Service :: s in h.docker.image && h.docker.image[s] == slot
    ensures old(h.Healthy()) ==> h.Healthy() && o.Returned? && forall s: Service :: s in h.docker.running
  {
    hide RuntimeMoved;
    var i := 0;
    RuntimeMovedIsReflexive(h.Now());
    while i < |ACTIVATION_RUNTIME_SERVICES|
      invariant 0 <= i <= |ACTIVATION_RUNTIME_SERVICES|
      invariant RuntimeMoved(old(h.Now()), h.Now()) && h.past == old(h.past)
      invariant forall s :: s in ACTIVATION_RUNTIME_SERVICES[..i] ==> s in h.docker.image && h.docker.image[s] == slot
      invariant old(h.Healthy()) ==>
        h.Healthy() && forall s :: s in ACTIVATION_RUNTIME_SERVICES[..i] ==> s in h.docker.running
    {
      ghost var middle := h.Now();
      var started := StartService(h, ACTIVATION_RUNTIME_SERVICES[i], slot);
      RuntimeMovedIsTransitive(old(h.Now()), middle, h.Now());
      var _ :- started;
      i := i + 1;
    }
    forall s: Service {
      EveryServiceIsStarted(s);
    }
    o := Returned(());
  }

  lemma QuietEnds(w: World)
    ensures RuntimeMoved(w, w.(past := w.past.(quiet := false)))
  {
  }

  lemma FencingMovesRuntime(w: World, eve: World, v: World)
    requires Interfered(w, eve) && v == eve.(docker := v.docker)
    ensures RuntimeMoved(w, v) && v.files == w.files && v.past == w.past && eve.docker.image == w.docker.image
  {
  }

  /** Starts the runtime of a slot, and restores the writer fence if recovery still
      needs it.  This ends the quiet window. */
  method ReconcileSlotRuntime(h: Host, slot: SlotId, allowWriterIsolation: bool) returns (o: Outcome<(), Code>)
    modifies h
    ensures RuntimeMoved(old(h.Now()), h.Now()) && h.past == old(h.past).(quiet := false)
    ensures o.Returned? ==> forall s: Service :: s in h.docker.image && h.docker.image[s] == slot
    ensures o.Returned? && ActivationIsolation(h.files.journal) ==> h.docker.always !! WRITER_SERVICES
    ensures ActivationIsolation(h.files.journal) && !allowWriterIsolation ==> !o.Returned?
    ensures old(h.Healthy()) ==> h.Healthy()
    ensures old(h.Healthy()) && allowWriterIsolation ==> o.Returned? && Serves(h.docker, slot)
  {
    hide RuntimeMoved, Interfered, DatabaseMoved;
    ghost var before := h.Now();
    h.past := h.past.(quiet := false);
    QuietEnds(before);
    ghost var middle := h.Now();
    var asked := WriterPolicyFenceActive(h);
    InterferenceMovesRuntime(middle, h.Now());
    RuntimeMovedIsTransitive(before, middle, h.Now());
    var writerFenced :- asked;
    if writerFenced && !allowWriterIsolation {
      return Raised(MaintenanceWriterIsolationActive);
    }
    middle := h.Now();
    var started := StartServices(h, slot);
    RuntimeMovedIsTransitive(before, middle, h.Now());
    var _ :- started;
    if writerFenced {
      middle := h.Now();
      var fenced := SetWriterPolicyFence(h, true);
      FencingMovesRuntime(middle, h.eve, h.Now());
      RuntimeMovedIsTransitive(before, middle, h.Now());
      var _ :- fenced;
    }
    o := Returned(());
  }

  /** Compares what runs with a binding; success is a fact about that moment. */
  method VerifySlotRuntime(h: Host, binding: SlotBinding) returns (o: Outcome<(), Code>)
    modifies h
    ensures Interfered(old(h.Now()), h.Now()) && h.eve == h.Now() && h.files == old(h.files) && h.past == old(h.past)
    ensures o.Returned? ==> Serves(h.docker, binding.slotId)
    ensures o.Raised? ==> o.error in {SlotRuntimeUnhealthy, SlotRuntimeEvidenceMismatch}
    ensures old(h.Healthy()) ==> h.Healthy() && old(h.docker.running) <= h.docker.running
    ensures old(h.Healthy()) ==> !o.Crashed?
    ensures old(h.Healthy()) && Serves(old(h.docker), binding.slotId) ==> o.Returned?
  {
    var e := h.Draw();
    var failure := if e.report == "" then SlotRuntimeUnhealthy else SlotRuntimeEvidenceMismatch;
    if !Serves(h.docker, binding.slotId) {
      return Raised(failure);
    }
    o := e.fate.Conclude((), failure);
  }

  /** Whether the previous runtime is already up.  An unavailable capture is a plain no;
      a captured configuration that differs from the evidence raises. */
  method PreviousRuntimeReady(h: Host, previous: SlotBinding) returns (o: Outcome<bool, Code>)
    modifies h
    ensures Interfered(old(h.Now()), h.Now()) && h.eve == h.Now() && h.files == old(h.files) && h.past == old(h.past)
    ensures o.Returned? && o.value ==> Serves(h.docker, previous.slotId)
    ensures old(h.Healthy()) ==> h.Healthy() && o.Returned? && old(h.docker.running) <= h.docker.running
  {
    var e := h.Draw();
    if !Serves(h.docker, previous.slotId) {
      return e.fate.Conclude(false, SlotRuntimeEvidenceMismatch);
    }
    o := e.fate.Conclude(e.answer, SlotRuntimeEvidenceMismatch);
  }

  /** The rollback database probe: a truthful but possibly unavailable oracle.  It tries the
      schema lock and lets it go again, so it fails while a migration holds the lock, and
      passes over one that was started and has not taken it yet. */
  method VerifyRollbackDatabase(h: Host, journal: Journal) returns (o: Outcome<(), Code>)
    modifies h
    ensures Interfered(old(h.Now()), h.Now()) && h.eve == h.Now() && h.files == old(h.files) && h.past == old(h.past)
    ensures o.Returned? ==> DatabaseProbed(h.data, journal.schema)
    ensures old(h.Healthy()) ==> h.Healthy() && old(h.docker.running) <= h.docker.running
    ensures old(h.Healthy()) && DatabaseProbed(h.data, journal.schema) ==> o.Returned?
    ensures old(h.Healthy()) ==> !o.Crashed?
  {
    var e := h.Draw();
    if !DatabaseProbed(h.data, journal.schema) {
      return Raised(RollbackDatabaseUnverified);
    }
    o := e.fate.Conclude((), RollbackDatabaseUnverified);
  }

  /** `docker compose run schema-update` begins. */
  method StartMigration(h: Host, journal: Journal) returns (o: Outcome<(), Code>)
    modifies h
    ensures Interfered(old(h.Now()), h.eve) && h.eve.files == old(h.files) && h.eve.past == old(h.past)
    ensures h.Now() == h.eve || h.Now() == MigrationStarted(h.eve, RunOf(journal))
    ensures o.Returned? ==> h.Now() == MigrationStarted(h.eve, RunOf(journal))
    ensures o.Raised? ==> IsMachineCode(o.error)
    ensures old(h.Healthy()) ==> h.Healthy() && o.Returned?
  {
    var e := h.Draw();
    if e.fate.Happened() {
      h.data := h.data.(migration := Some(RunOf(journal)));
      h.past := h.past.(starts := h.past.starts + 1);
    }
    o := e.fate.Conclude((), SchemaUpdateFailed);
  }

  /** The caller waits.  A normal exit ends the container, complete or not; after a failure
      or a crash it may still be running. */
  method AwaitMigration(h: Host) returns (o: Outcome<(), Code>)
    modifies h
    ensures Interfered(old(h.Now()), h.Now()) && h.files == old(h.files) && h.past == old(h.past)
    ensures o.Returned? ==> h.data.migration.None?
    ensures o.Raised? ==> IsMachineCode(o.error)
    ensures old(h.Healthy()) ==> h.Healthy() && o.Returned?
    ensures old(h.Healthy()) && old(h.data.migration).Some? ==> h.data == FinishedStore(old(h.data.migration).value)
  {
    ghost var before := h.Now();
    var e := h.Draw();
    ghost var middle := h.Now();
    if e.fate.Done? {
      h.AdvanceMigration(if e.answer then Finished else Abandoned);
      InterferedIsTransitive(before, middle, h.Now());
    }
    var failure := if IsMachineText(e.report) then Reported(e.report) else SchemaUpdateFailed;
    o := e.fate.Conclude((), failure);
  }

  /** The migration as the bridge runs it. */
  method RunTargetSchemaMigration(h: Host, journal: Journal) returns (o: Outcome<(), Code>)
    requires h.files.journal.Some? && SameActivation(journal, h.files.journal.value)
    modifies h
    ensures h.files == old(h.files) && h.past == old(h.past).(starts := h.past.starts)
    ensures old(Inv(h.Now())) && ReadyToMigrate(old(h.Now())) ==> Inv(h.Now())
    ensures o.Raised? ==> IsMachineCode(o.error)
    ensures old(h.Healthy()) ==> h.Healthy() && o.Returned?
    ensures old(h.Healthy()) ==> h.data == FinishedStore(RunOf(journal))
  {
    hide Inv;
    ghost var before := h.Now();
    var started := StartMigration(h, journal);
    InterferenceKeepsInv(before, h.eve);
    if Inv(before) && ReadyToMigrate(before) {
      StartingKeepsInv(h.eve);
    }
    ghost var middle := h.Now();
    var _ :- started;
    o := AwaitMigration(h);
    InterferenceKeepsInv(middle, h.Now());
  }

  method SchemaMutationCompleted(h: Host, requestId: RequestId, commit: Option<string>) returns (o: Outcome<bool, Code>)
    modifies h
    ensures Interfered(old(h.Now()), h.Now()) && h.eve == h.Now() && h.files == old(h.files) && h.past == old(h.past)
    ensures o.Returned? && o.value ==> commit.Some? && h.data.evidence == Some(MutationEvidence(requestId, commit))
    ensures old(h.Healthy()) ==> h.Healthy() && o.Returned? && old(h.docker.running) <= h.docker.running
    ensures old(h.Healthy()) ==>
      (o.value <==> commit.Some? && h.data.evidence == Some(MutationEvidence(requestId, commit)))
  {
    var e := h.Draw();
    o := e.fate.Conclude(commit.Some? && h.data.evidence == Some(MutationEvidence(requestId, commit)), SchemaEvidenceMissing);
  }

  /** The derived description of what is installed; it names the active slot. */
  method PublishInstalledSlotProjection(h: Host, binding: SlotBinding) returns (o: Outcome<(), Code>)
    modifies h
    ensures Interfered(old(h.Now()), h.eve) && h.eve.files == old(h.files) && h.eve.past == old(h.past)
    ensures h.Now() == h.eve || h.Now() == h.eve.(files := h.eve.files.(projection := Some(binding)))
    ensures h.Now() != h.eve || o.Returned? ==> h.files.pointer == Some(binding.slotId)
    ensures o.Returned? ==> h.files.projection == Some(binding)
    ensures old(h.NoRestore()) ==>
      h.docker.always in {old(h.docker.always), Policies(ActivationIsolation(h.files.journal))}
    ensures old(h.Healthy()) ==> h.Healthy() && old(h.docker.running) <= h.docker.running
    ensures old(h.Healthy()) && old(h.files.pointer) == Some(binding.slotId) ==> o.Returned?
  {
    var e := h.Draw();
    if h.files.pointer != Some(binding.slotId) {
      return Raised(InstalledProjectionUnavailable);
    }
    if e.fate.Happened() {
      h.files := h.files.(projection := Some(binding));
    }
    o := e.fate.Conclude((), InstalledProjectionUnavailable);
  }

  /** The slots no cleanup may remove. */
  function ProtectedSlotIds(f: Files): set<SlotId> {
    (if f.pointer.Some? then {f.pointer.value} else {})
    + (if f.journal.Some? then {f.journal.value.previous.slotId, f.journal.value.target.slotId} else {})
  }

  /** Terminal cleanup removes unprotected slots; its failures are deferred, not raised. */
  method AttemptTerminalReleaseCleanup(h: Host) returns (o: Outcome<(), Code>)
    modifies h
    ensures Interfered(old(h.Now()), h.eve) && h.eve.files == old(h.files) && h.eve.past == old(h.past)
    ensures h.Now() == h.eve
         || h.Now() == h.eve.(files := h.eve.files.(slots := h.eve.files.slots * ProtectedSlotIds(h.eve.files)))
    ensures !o.Raised?
    ensures old(h.Healthy()) ==> h.Healthy() && o.Returned? && old(h.docker.running) <= h.docker.running
    ensures old(h.Healthy()) ==> h.files.slots == old(h.files.slots) * ProtectedSlotIds(h.files)
  {
    var e := h.Draw();
    if e.fate.Happened() {
      h.files := h.files.(slots := h.files.slots * ProtectedSlotIds(h.files));
    }
    o := e.fate.Conclude((), EvidenceMissing);
    if o.Raised? {
      o := Returned(());
    }
  }
}
