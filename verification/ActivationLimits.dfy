/** Where the activation protocol rests on its callers, and where its window is open. */
module ActivationLimits {
  import opened Wrappers
  import opened Contracts
  import opened ActivationJournal
  import opened Installation
  import opened SlotStore
  import opened JournalWrites
  import opened Convergence
  import opened Activation
  import opened ActivationRuns

  // ---------------------------------------------------------------------------
  // What the command must check before the store
  // ---------------------------------------------------------------------------

  /** Helper: the store lets go of another request's journal when it is settled or blocked. */
  lemma StoreWouldReplaceBlocked(f: Files, request: RequestId, previous: SlotBinding, target: SlotBinding, schema: SchemaRecord)
    requires f.journal.Some? && ValidateJournal(f.journal.value) && f.journal.value.requestId != request
    requires PointerResolves(f) && f.pointer == Some(previous.slotId)
    requires ValidateJournal(NextJournal(f, request, previous, target, schema))
    ensures Openable(f, request, previous, target, schema)
            <==> f.journal.value.phase == Blocked || Settled(f.journal.value.phase)
  {
  }

  /** Without the command's own check the store would open an activation over a blocked one
      that nobody settled, and the invariant would be lost. */
  lemma StoreAloneLosesBlocked(w: World, request: RequestId, previous: SlotBinding, target: SlotBinding, schema: SchemaRecord)
    requires Inv(w) && w.files.journal.Some? && w.files.journal.value.phase == Blocked
    requires w.files.journal.value.requestId != request && w.files.pointer == Some(previous.slotId)
    requires ValidateJournal(NextJournal(w.files, request, previous, target, schema))
    ensures Openable(w.files, request, previous, target, schema)
    ensures !Inv(Opening(w, request, previous, target, schema))
  {
    StoreWouldReplaceBlocked(w.files, request, previous, target, schema);
    assert w.files.journal.value in Opening(w, request, previous, target, schema).past.archive;
  }

  // ---------------------------------------------------------------------------
  // Request identities
  // ---------------------------------------------------------------------------

  /** A new activation that needs a migration, under the identity of recorded evidence. */
  ghost predicate Reused(w: World, request: RequestId, previous: SlotBinding, target: SlotBinding, schema: SchemaRecord) {
    && Inv(w) && NoneOrSettled(w.files.journal)
    && Openable(w.files, request, previous, target, schema)
    && w.files.pointer == Some(previous.slotId) && target.slotId in w.files.slots
    && schema.migrationRequired && AtRest(w.data) && schema.sourceVersion == w.data.db.version
    && target.commit.Some? && w.data.evidence == Some(MutationEvidence(request, target.commit))
  }

  /** The start of one activation: opened, quiescing, its writers stopped, its migration
      declared. */
  ghost predicate Declared(start: World, quiescing: World, stopped: World, preparing: World, request: RequestId) {
    && Written(start, quiescing, request, Quiescing, NO_UPDATE)
    && RuntimeMoved(quiescing, stopped) && stopped.past.quiet && Isolated(stopped)
    && Written(stopped, preparing, request, SchemaPreparing, MIGRATION_INVOKED)
  }

  /** Reusing an identity is unsound.  If the bridge dies after it declared the migration and
      before it started it, a resume finds the old evidence and records a completed migration
      over the source schema, although none was ever started. */
  lemma ReusedIdentityCompletesNothing(w: World, request: RequestId, previous: SlotBinding, target: SlotBinding, schema: SchemaRecord)
    returns (quiescing: World, stopped: World, preparing: World, completed: World)
    requires Reused(w, request, previous, target, schema)
    ensures Declared(Opening(w, request, previous, target, schema), quiescing, stopped, preparing, request)
    ensures preparing.files.journal.Some? && EvidenceOf(preparing.data, preparing.files.journal.value)
    ensures Written(preparing, completed, request, SchemaPreparing, MIGRATION_COMPLETED)
    ensures completed.files.journal.Some? && completed.files.journal.value.schema.migrationCompleted
    ensures completed.past.starts == 0 && completed.data.migration.None?
    ensures completed.data.db == Database(schema.sourceVersion, true)
  {
    hide ValidateIdentity, Inv;
    var started := Opening(w, request, previous, target, schema);
    var first := started.files.journal.value;
    EditKeepsIdentity(first, Quiescing, NO_UPDATE, w.files.pointer);
    var second := Edited(first, Quiescing, NO_UPDATE, w.files.pointer);
    quiescing := started.(files := started.files.(journal := Some(second)));
    stopped := Stopped(quiescing);
    EditKeepsIdentity(second, SchemaPreparing, MIGRATION_INVOKED, w.files.pointer);
    var third := Edited(second, SchemaPreparing, MIGRATION_INVOKED, w.files.pointer);
    preparing := stopped.(files := stopped.files.(journal := Some(third)));
    EditKeepsIdentity(third, SchemaPreparing, MIGRATION_COMPLETED, w.files.pointer);
    completed := preparing.(files := preparing.files.(journal := Some(Edited(third, SchemaPreparing, MIGRATION_COMPLETED, w.files.pointer))));
  }

  /** A successful writer stop, as a change of the world. */
  function Stopped(w: World): World {
    w.(docker := w.docker.(running := w.docker.running - WRITER_SERVICES, always := Policies(true)), past := w.past.(quiet := true))
  }

  // ---------------------------------------------------------------------------
  // The writer window
  // ---------------------------------------------------------------------------

  lemma StoppedIsSound(w: World)
    requires Inv(w) && w.files.journal.Some? && w.files.journal.value.phase == Quiescing
    ensures RuntimeMoved(w, Stopped(w)) && Isolated(Stopped(w)) && Inv(Stopped(w))
    ensures Stopped(w).files == w.files && Stopped(w).past.quiet
  {
    hide Inv;
    StopKeepsInv(w, Stopped(w));
  }

  /** A policy reconcile over a journal that demands no isolation, and a restart. */
  function Loosened(w: World): World {
    w.(docker := w.docker.(running := w.docker.running + {Api}, always := Policies(false)))
  }

  lemma LooseningInterferes(w: World)
    requires !ActivationIsolation(w.files.journal)
    ensures Interfered(w, Loosened(w)) && Api in Loosened(w).docker.running && Loosened(w).past == w.past
  {
  }

  lemma AdmittedIsWritten(w: World, request: RequestId, phase: Phase, u: Update) returns (v: World)
    requires Admits(w.files, request, phase, u)
    ensures Written(w, v, request, phase, u)
    ensures v == w.(files := w.files.(journal := Some(Edited(w.files.journal.value, phase, u, w.files.pointer))))
  {
    var written := Transition(w.files.journal.value, phase, u, w.files.pointer);
    v := w.(files := w.files.(journal := Some(written.value)));
  }

  /** The window is open for a journal that blocked before its migration.  From every sound
      quiescing state: the writers are stopped, the declaration cannot be written, the rollback
      blocks on an unavailable database probe, and the next policy reconcile lets a writer
      start although no slot runtime was started since the stop. */
  lemma WritersMayReturn(w: World) returns (stopped: World, blocked: World, loose: World)
    requires Inv(w) && w.files.journal.Some? && w.files.journal.value.phase == Quiescing
    ensures RuntimeMoved(w, stopped) && stopped.past.quiet && Isolated(stopped) && Inv(stopped)
    ensures Written(stopped, blocked, w.files.journal.value.requestId, Blocked,
                    BlockUpdate(RollbackDatabaseUnverified, Some(SlotQuiesceFailed)))
    ensures Interfered(blocked, loose) && Inv(loose) && loose.past.quiet && Api in loose.docker.running
  {
    hide Inv, Admits, Interfered, Written, RuntimeMoved, Isolated, Stopped;
    var request := w.files.journal.value.requestId;
    QuiescingFacts(w);
    stopped := Stopped(w);
    StoppedIsSound(w);
    BlockAdmitted(stopped, RollbackDatabaseUnverified, Some(SlotQuiesceFailed));
    blocked := AdmittedIsWritten(stopped, request, Blocked, BlockUpdate(RollbackDatabaseUnverified, Some(SlotQuiesceFailed)));
    BlockKeepsInv(stopped, blocked, request, RollbackDatabaseUnverified, Some(SlotQuiesceFailed));
    loose := Loosened(blocked);
    LooseningInterferes(blocked);
    InterferenceKeepsInv(blocked, loose);
  }

  // ---------------------------------------------------------------------------
  // Migrations that outlive a rollback
  // ---------------------------------------------------------------------------

  /** The worlds of one rollback over the previous slot, from the passed probe on, and one
      world after it. */
  datatype Rollback = Rollback(begun: World, back: World, noted: World, served: World, settled: World, after: World)

  /** The probe passed: it is this call's proof, and a live container slipped through. */
  function Probed(w: World): World {
    w.(past := w.past.(databaseProof := w.past.call, slipped := w.past.slipped || w.data.migration.Some?))
  }

  /** The environment acted, then the journal was replaced by one legal transition. */
  ghost predicate Rewritten(w: World, v: World, requestId: RequestId, phase: Phase, u: Update) {
    DatabaseMoved(w, v) && Written(w.(docker := v.docker, data := v.data), v, requestId, phase, u)
  }

  /** A transition of the bridge rewrites the journal. */
  lemma TransitionRewrites(w: World, eve: World, v: World, requestId: RequestId, phase: Phase, u: Update)
    requires Interfered(w, eve) && Written(eve, v, requestId, phase, u)
    ensures Rewritten(w, v, requestId, phase, u)
  {
  }

  /** One rollback: recorded as begun, the pointer put back and noted, the previous runtime
      started and seen, the terminal document written; then the environment goes on. */
  ghost predicate RollsBack(w: World, k: Rollback, trigger: Code, category: Code) {
    && w.files.journal.Some?
    && var j := w.files.journal.value;
    && Rewritten(Probed(w), k.begun, j.requestId, RollingBack, RollbackUpdate(trigger, true))
    && DatabaseMoved(k.begun, k.back)
    && k.back == PointerMoved(k.begun, j.previous.slotId).(docker := k.back.docker, data := k.back.data)
    && Rewritten(k.back, k.noted, j.requestId, RollingBack, RollbackUpdate(trigger, false))
    && DatabaseMoved(k.noted, k.served) && Serves(k.served.docker, j.previous.slotId)
    && k.served == k.noted.(docker := k.served.docker, data := k.served.data,
                            past := k.noted.past.(quiet := false, runtimeProof := k.noted.past.call))
    && Rewritten(k.served, k.settled, j.requestId, FailedRolledBack, RolledBackUpdate(category, trigger))
    && Interfered(k.settled, k.after)
  }

  lemma RestLasts(w: World, k: Rollback, trigger: Code, category: Code)
    requires RollsBack(w, k, trigger, category) && w.data.migration.None?
    ensures k.after.data == w.data
  {
  }

  /** The container takes its lock and changes part of the schema, under a running writer. */
  function Overrun(w: World, run: MigrationRun): World {
    w.(docker := w.docker.(running := w.docker.running + {Api}),
       data := w.data.(migration := Some(run.(locked := true)), db := w.data.db.(whole := false)))
  }

  function Served(w: World, slot: SlotId): World {
    w.(docker := Containers(PERSISTENT_SERVICES, Policies(false), map s | s in PERSISTENT_SERVICES :: slot),
       past := w.past.(quiet := false, runtimeProof := w.past.call))
  }

  lemma ServedServes(w: World, slot: SlotId)
    ensures Serves(Served(w, slot).docker, slot)
  {
    assert CORE_RUNTIME_SERVICES <= PERSISTENT_SERVICES;
  }

  lemma OverrunInterferes(w: World, run: MigrationRun)
    requires w.data.migration == Some(run) && w.docker.running + w.docker.always >= {Api}
    ensures Interfered(w, Overrun(w, run))
    ensures !Isolated(Overrun(w, run)) && !AtRest(Overrun(w, run).data)
  {
  }

  function CategoryOf(j: Journal, trigger: Code): Code {
    if j.failureCategory.Some? then j.failureCategory.value else trigger
  }

  /** The first half of a rollback, with nothing else happening. */
  lemma RollbackBegins(w: World, trigger: Code) returns (begun: World, back: World, noted: World)
    requires Inv(w) && MayRollBack(w.files, trigger) && (w.past.slipped || w.data.migration.Some?)
    ensures var j := w.files.journal.value;
      && Rewritten(Probed(w), begun, j.requestId, RollingBack, RollbackUpdate(trigger, true))
      && back == PointerMoved(begun, j.previous.slotId)
      && Rewritten(back, noted, j.requestId, RollingBack, RollbackUpdate(trigger, false))
    ensures RollingBackWith(noted, trigger) && noted.past == Probed(w).past && noted.data == w.data
    ensures noted.files.pointer == Some(w.files.journal.value.previous.slotId)
    ensures SameActivation(w.files.journal.value, noted.files.journal.value)
    ensures noted.files.journal.value.failureCategory == w.files.journal.value.failureCategory
  {
    hide Inv, Written, Admits, MayRollBack, DatabaseMoved, RollingBackWith;
    UnsettledFacts(w, trigger);
    var j, probed := w.files.journal.value, Probed(w);
    NotesKeepInv(w, w.past.call, w.past.call, w.past.runtimeProof, true);
    RollBackAdmitted(probed, trigger);
    begun := AdmittedIsWritten(probed, j.requestId, RollingBack, RollbackUpdate(trigger, true));
    RollBackKeepsInv(probed, begun, j.requestId, trigger, true);
    WrittenFacts(probed, begun, j.requestId, RollingBack, RollbackUpdate(trigger, true));
    StandingStill(probed, begun);
    back := PointerMoved(begun, j.previous.slotId);
    RollingBackFacts(begun, trigger);
    RollingBackAgainAdmitted(back, trigger);
    noted := AdmittedIsWritten(back, j.requestId, RollingBack, RollbackUpdate(trigger, false));
    RollBackKeepsInv(back, noted, j.requestId, trigger, false);
    WrittenFacts(back, noted, j.requestId, RollingBack, RollbackUpdate(trigger, false));
    StandingStill(back, noted);
  }

  lemma RollingBackFacts(w: World, trigger: Code)
    requires RollingBackWith(w, trigger)
    ensures Inv(w) && w.files.journal.Some? && w.files.journal.value.phase == RollingBack
    ensures RollingBackWith(PointerMoved(w, w.files.journal.value.previous.slotId), trigger)
    ensures Inv(PointerMoved(w, w.files.journal.value.previous.slotId))
    ensures RollingBackWith(Served(w, w.files.journal.value.previous.slotId), trigger)
  {
    SwitchToPreviousKeepsInv(w);
    ServingKeepsInv(w, w.files.journal.value.previous.slotId);
  }

  /** The second half. */
  lemma RollbackSettles(noted: World, trigger: Code) returns (settled: World)
    requires RollingBackWith(noted, trigger) && noted.past.databaseProof == noted.past.call
    requires noted.files.pointer == Some(noted.files.journal.value.previous.slotId)
    ensures var j := noted.files.journal.value;
      Rewritten(Served(noted, j.previous.slotId), settled, j.requestId, FailedRolledBack, RolledBackUpdate(CategoryOf(j, trigger), trigger))
    ensures Inv(settled) && settled.files.journal.Some? && settled.files.journal.value.phase == FailedRolledBack
    ensures settled.data == noted.data && settled.past.slipped == noted.past.slipped
    ensures Api in settled.docker.running
  {
    hide Inv, Written, Admits, DatabaseMoved, RollingBackWith;
    RollingBackFacts(noted, trigger);
    var j := noted.files.journal.value;
    var served, update := Served(noted, j.previous.slotId), RolledBackUpdate(CategoryOf(j, trigger), trigger);
    RollingBackFacts(served, trigger);
    SettleRolledBackAdmitted(served, trigger);
    settled := AdmittedIsWritten(served, j.requestId, FailedRolledBack, update);
    SettleRolledBackKeepsInv(served, settled, j.requestId, CategoryOf(j, trigger), trigger);
    WrittenFacts(served, settled, j.requestId, FailedRolledBack, update);
    StandingStill(served, settled);
  }

  /** A container that is alive and without its lock when the probe passes may migrate under
      running writers once the rollback has settled. */
  lemma MigrationMayOutliveRollback(w: World, trigger: Code) returns (k: Rollback)
    requires Inv(w) && MayRollBack(w.files, trigger) && w.data.migration.Some?
    requires DatabaseProbed(w.data, w.files.journal.value.schema)
    ensures RollsBack(w, k, trigger, CategoryOf(w.files.journal.value, trigger))
    ensures Inv(k.settled) && k.settled.past.slipped && Inv(k.after)
    ensures k.after.files.journal.Some? && k.after.files.journal.value.phase == FailedRolledBack
    ensures Api in k.after.docker.running && !k.after.data.db.whole && k.after.data.migration.Some?
  {
    hide Inv, Rewritten, MayRollBack, DatabaseMoved, RollingBackWith;
    UnsettledFacts(w, trigger);
    var slot := w.files.journal.value.previous.slotId;
    var begun, back, noted := RollbackBegins(w, trigger);
    var settled := RollbackSettles(noted, trigger);
    ServedServes(noted, slot);
    StandingStill(begun, back);
    StandingStill(noted, Served(noted, slot));
    OverrunInterferes(settled, w.data.migration.value);
    InterferenceKeepsInv(settled, Overrun(settled, w.data.migration.value));
    k := Rollback(begun, back, noted, Served(noted, slot), settled, Overrun(settled, w.data.migration.value));
  }

  /** How a program gets there.  From every sound quiescing state over a database at rest: the
      writers are stopped, the migration is declared and its container started; the bridge
      dies before the container takes its lock.  The next one finds no evidence, its probe
      passes, and it rolls back under the trigger of an interrupted migration. */
  lemma InterruptedStartMayOutliveRollback(w: World) returns (stopped: World, declared: World, started: World, k: Rollback)
    requires Inv(w) && w.files.journal.Some? && w.files.journal.value.phase == Quiescing && !w.past.inherited
    ensures RuntimeMoved(w, stopped) && stopped.past.quiet && Isolated(stopped)
    ensures Written(stopped, declared, w.files.journal.value.requestId, SchemaPreparing, MIGRATION_INVOKED)
    ensures declared.files.journal.Some? && started == MigrationStarted(declared, RunOf(declared.files.journal.value))
    ensures Inv(started) && Unfinished(started) && DatabaseProbed(started.data, w.files.journal.value.schema)
    ensures RollsBack(started, k, SchemaMigrationInterrupted, SchemaMigrationInterrupted)
    ensures Inv(k.after) && k.after.files.journal.Some? && k.after.files.journal.value.phase == FailedRolledBack
    ensures Api in k.after.docker.running && !k.after.data.db.whole && k.after.data.migration.Some?
  {
    hide Inv, Admits, RuntimeMoved, Isolated, Stopped, RollsBack, MayRollBack, Transition;
    var request := w.files.journal.value.requestId;
    stopped := Stopped(w);
    StoppedIsSound(w);
    InvokeAdmitted(stopped);
    declared := AdmittedIsWritten(stopped, request, SchemaPreparing, MIGRATION_INVOKED);
    InvokeKeepsInv(stopped, declared, request);
    InvokedIsReady(stopped, declared, request);
    StartingKeepsInv(declared);
    started := MigrationStarted(declared, RunOf(declared.files.journal.value));
    StoppedKeepsHistory(w);
    StartedFacts(declared);
    NoTriggerYet(started, SchemaMigrationInterrupted);
    k := MigrationMayOutliveRollback(started, SchemaMigrationInterrupted);
  }

  lemma StoppedKeepsHistory(w: World)
    ensures Stopped(w).past.inherited == w.past.inherited && Stopped(w).data == w.data
  {
  }

  lemma StartedFacts(w: World)
    requires Inv(w) && ReadyToMigrate(w) && !w.past.inherited
    ensures var j, v := w.files.journal.value, MigrationStarted(w, RunOf(w.files.journal.value));
      DatabaseProbed(v.data, j.schema) && Unfinished(v) && j.failureCategory.None?
  {
  }

  lemma StandingStill(w: World, v: World)
    requires v.data == w.data
    ensures DatabaseMoved(w, v)
  {
  }

  lemma UnsettledFacts(w: World, trigger: Code)
    requires Inv(w) && MayRollBack(w.files, trigger)
    ensures w.files.journal.Some? && !Settled(w.files.journal.value.phase)
    ensures forall p: Past :: MayRollBack(w.(past := p).files, trigger)
  {
  }

  lemma WrittenFacts(w: World, v: World, requestId: RequestId, phase: Phase, u: Update)
    requires Written(w, v, requestId, phase, u)
    ensures v.files.journal.Some? && v.files.journal.value.phase == phase && v.files.pointer == w.files.pointer
    ensures w.files.journal.Some? && SameActivation(w.files.journal.value, v.files.journal.value)
    ensures v.past == w.past && v.data == w.data && v.docker == w.docker
    ensures u.failureCategory.None? && phase != Completed ==>
      v.files.journal.value.failureCategory == w.files.journal.value.failureCategory
  {
  }

  lemma ServingKeepsInv(w: World, slot: SlotId)
    requires Inv(w) && w.files.journal.Some? && w.files.journal.value.phase == RollingBack
    ensures Inv(Served(w, slot))
  {
    var started := w.(docker := Served(w, slot).docker, past := w.past.(quiet := false));
    RuntimeStartKeepsInv(w, started);
    NotesKeepInv(started, w.past.call, w.past.databaseProof, w.past.call, w.past.slipped);
  }

  /** When a rollback is sound: in every world that any rollback from a passed probe leads to,
      the database is whole at a known version, and no writer runs beside a migration, exactly
      if no migration container was alive when the probe passed. */
  lemma RollbackIsSoundExactly(w: World, trigger: Code)
    requires Inv(w) && MayRollBack(w.files, trigger)
    requires DatabaseProbed(w.data, w.files.journal.value.schema)
    ensures w.data.migration.None? <==> forall k, category :: RollsBack(w, k, trigger, category) ==>
      DatabaseProven(k.after.data, w.files.journal.value.schema)
    ensures w.data.migration.None? <==> forall k, category :: RollsBack(w, k, trigger, category) ==>
      AtRest(k.after.data) || Isolated(k.after)
  {
    hide RollsBack, Inv;
    if w.data.migration.None? {
      forall k, category | RollsBack(w, k, trigger, category)
        ensures k.after.data == w.data
      {
        RestLasts(w, k, trigger, category);
      }
    } else {
      var k := MigrationMayOutliveRollback(w, trigger);
      assert RollsBack(w, k, trigger, CategoryOf(w.files.journal.value, trigger));
    }
  }

  /** After this rollback a migration tears the schema beside a running writer. */
  ghost predicate IsOverrun(w: World, k: Rollback, trigger: Code, category: Code) {
    RollsBack(w, k, trigger, category) && !k.after.data.db.whole && Api in k.after.docker.running
  }

  /** The same for every state of every run in which a rollback may begin: both results about
      it hold in whatever follows exactly if no migration container is alive when the probe
      passes.  A look at the running containers before the rollback decides it. */
  lemma ProbeDecidesExactly(trace: seq<World>, script: seq<Action>, i: nat, trigger: Code)
    requires Legal(trace, script) && i <= |script|
    requires MayRollBack(trace[i].files, trigger) && DatabaseProbed(trace[i].data, trace[i].files.journal.value.schema)
    ensures trace[i].data.migration.None? <==> forall k, category :: RollsBack(trace[i], k, trigger, category) ==>
      DatabaseProven(k.after.data, trace[i].files.journal.value.schema) && (AtRest(k.after.data) || Isolated(k.after))
    ensures trace[i].data.migration.Some? ==> exists k, category :: IsOverrun(trace[i], k, trigger, category)
  {
    hide RollsBack, Inv, Acted, Admissible;
    EveryRunIsSafe(trace, script, i, i);
    RollbackIsSoundExactly(trace[i], trigger);
    if trace[i].data.migration.Some? {
      var k := MigrationMayOutliveRollback(trace[i], trigger);
      assert IsOverrun(trace[i], k, trigger, CategoryOf(trace[i].files.journal.value, trigger));
    }
  }

  function Repeated(letter: char, count: nat): string {
    seq(count, _ => letter)
  }

  const SAMPLE_PREVIOUS := SlotBinding("adopted-" + Repeated('a', 64), AdoptedPreUpdateSnapshot, false, "1", None, [])

  const SAMPLE_TARGET := SlotBinding("release-" + Repeated('b', 40), TrustedRelease, true, "2", Some(Repeated('b', 40)), [])

  const SAMPLE_SCHEMA := SchemaRecord(Repeated('a', 64), 1, 2, true, false, false, None)

  const SAMPLE_REQUEST := "update-" + Repeated('c', 32)

  lemma HexNameOfRepeated(prefix: string, letter: char, count: nat)
    requires 'a' <= letter <= 'f'
    ensures IsHexName(prefix + Repeated(letter, count), prefix, count)
  {
    assert (prefix + Repeated(letter, count))[|prefix|..] == Repeated(letter, count);
  }

  lemma SampleIdentity(j: Journal)
    requires j.requestId == "update-" + Repeated('c', 32) && j.generation == 1
    requires j.previous == SAMPLE_PREVIOUS && j.target == SAMPLE_TARGET && j.schema == SAMPLE_SCHEMA
    ensures ValidateIdentity(j)
  {
    HexNameOfRepeated("update-", 'c', 32);
    HexNameOfRepeated("adopted-", 'a', 64);
    HexNameOfRepeated("release-", 'b', 40);
    assert j.previous.slotId[0] == 'a' && j.target.slotId[0] == 'r';
  }

  /** One concrete such run, from a first installation on. */
  lemma WritersMayReturnInSample() returns (first: World, quiescing: World, blocked: World, loose: World)
    ensures first.files.journal.None? && Inv(first)
    ensures Written(Opening(first, SAMPLE_REQUEST, SAMPLE_PREVIOUS, SAMPLE_TARGET, SAMPLE_SCHEMA), quiescing,
                    SAMPLE_REQUEST, Quiescing, NO_UPDATE)
    ensures Continues(quiescing, blocked) && Interfered(blocked, loose)
    ensures Inv(loose) && loose.past.quiet && Api in loose.docker.running
  {
    first := World(
      Files(None, Some(SAMPLE_PREVIOUS.slotId), {SAMPLE_PREVIOUS.slotId, SAMPLE_TARGET.slotId}, None),
      Containers({}, {}, map[]),
      Store(Database(1, true), None, None),
      Past(false, 0, [], 0, 0, 0, false, false));
    FirstInstallation(first);
    var j := NextJournal(first.files, SAMPLE_REQUEST, SAMPLE_PREVIOUS, SAMPLE_TARGET, SAMPLE_SCHEMA);
    SampleIdentity(j);
    hide ValidateIdentity;
    OpeningKeepsInv(first, SAMPLE_REQUEST, SAMPLE_PREVIOUS, SAMPLE_TARGET, SAMPLE_SCHEMA);
    var start := Opening(first, SAMPLE_REQUEST, SAMPLE_PREVIOUS, SAMPLE_TARGET, SAMPLE_SCHEMA);
    EditKeepsIdentity(j, Quiescing, NO_UPDATE, first.files.pointer);
    quiescing := start.(files := start.files.(journal := Some(Edited(j, Quiescing, NO_UPDATE, first.files.pointer))));
    QuiesceKeepsInv(start, quiescing, SAMPLE_REQUEST);
    var stopped;
    stopped, blocked, loose := WritersMayReturn(quiescing);
    ContinuesFromSameFiles(quiescing, stopped);
    InterferedIsReflexive(stopped);
    WriteContinues(stopped, stopped, blocked, SAMPLE_REQUEST, Blocked, BlockUpdate(RollbackDatabaseUnverified, Some(SlotQuiesceFailed)));
    ContinuesIsTransitive(quiescing, stopped, blocked);
  }
}
