/** One installation as the activation machinery sees it: the durable files, the
    containers, the database, and an environment that acts between any two effects. */
module Installation {
  import opened Wrappers
  import opened Contracts
  import opened ActivationJournal

  datatype Service = RetryAdmission | StatusReader | Api | Recorder | Web | Nginx | SetupHelper

  const WRITER_SERVICES: set<Service> := {Api, Recorder}

  const CORE_RUNTIME_SERVICES: set<Service> := {Api, Recorder, Web, Nginx}

  const PERSISTENT_SERVICES: set<Service> := {RetryAdmission, StatusReader, Api, Recorder, Web, Nginx, SetupHelper}

  /** The order in which a slot's services are started. */
  const ACTIVATION_RUNTIME_SERVICES: seq<Service> :=
    [RetryAdmission, StatusReader, Api, Recorder, Web, Nginx, SetupHelper]

  const FENCED_ACTIVATION_PHASES: set<Phase> :=
    {Quiescing, SchemaPreparing, Activating, VerifyingTarget, CommittingTarget, RollingBack}

  /** `whole` is false while a migration has changed part of the schema. */
  datatype Database = Database(version: nat, whole: bool)

  /** A migration container.  It touches nothing before it holds the schema lock, which it
      takes by itself, some time after it was started. */
  datatype MigrationRun = MigrationRun(requestId: RequestId, commit: Option<string>, source: nat, target: nat, locked: bool)

  /** The mutation-state file, once it says `completed`. */
  datatype MutationEvidence = MutationEvidence(requestId: RequestId, commit: Option<string>)

  /** What a migration container does in the background; it outlives the bridge.  All but the
      first and the fourth take the schema lock if it is not held yet.  Its phases commit in
      sessions of their own: it may have committed the last one and die before it records the
      completion. */
  datatype MigrationNews = StillRunning | Locks | Tearing | Abandoned | Committed | Reverted | Finished

  /** Everything the environment decides at one effect.  `restoring` is the restore half of
      the writer-isolation decision. */
  datatype Event = Event(
    fate: Fate,
    answer: bool,
    report: string,
    restarted: set<Service>,
    died: set<Service>,
    reconciled: bool,
    restoring: bool,
    news: MigrationNews)
  {
    /** A step of a healthy environment: the effect succeeds, probes answer yes, no
        container dies and no migration fails. */
    predicate Benign() {
      fate == Done && answer && died == {} && news in {StillRunning, Locks, Finished}
    }
  }

  /** The durable control files and the slots on disk. */
  datatype Files = Files(
    journal: Option<Journal>,
    pointer: Option<SlotId>,
    slots: set<SlotId>,
    projection: Option<SlotBinding>)

  /** What Docker runs, what it may restart by itself, and from which slot's image. */
  datatype Containers = Containers(running: set<Service>, always: set<Service>, image: map<Service, SlotId>)

  datatype Store = Store(db: Database, migration: Option<MigrationRun>, evidence: Option<MutationEvidence>)

  /** What happened so far: `quiet` holds from a successful writer stop to the next start
      of a slot runtime, `starts` counts the migrations of this activation, `archive`
      holds the settled activations, and the next three number the rollback calls and the
      calls in which the latest proofs were obtained.  `slipped` records that a migration
      container was alive, without its lock, when the database probe of a rollback passed; a
      new activation forgets it if it finds the database at rest.  `inherited` records that the
      activation was opened over a database that was not. */
  datatype Past = Past(
    quiet: bool,
    starts: nat,
    archive: seq<Journal>,
    call: nat,
    databaseProof: nat,
    runtimeProof: nat,
    slipped: bool,
    inherited: bool)

  /** A value of the whole installation. */
  datatype World = World(files: Files, docker: Containers, data: Store, past: Past)

  /** The activation half of the bootstrap's writer-isolation decision. */
  predicate ActivationIsolation(journal: Option<Journal>) {
    && journal.Some?
    && var j := journal.value;
    && j.schema.migrationRequired
    && (j.phase in FENCED_ACTIVATION_PHASES || (j.phase == Blocked && j.schema.migrationInvoked))
  }

  /** The services whose restart policy is `always` after one policy reconcile. */
  function Policies(fenced: bool): set<Service> {
    if fenced then PERSISTENT_SERVICES - WRITER_SERVICES else PERSISTENT_SERVICES
  }

  /** No writer runs and the Docker daemon may not start one. */
  predicate Isolated(w: World) {
    && Api !in w.docker.running && Recorder !in w.docker.running
    && Api !in w.docker.always && Recorder !in w.docker.always
  }

  /** Every core service runs the image of one slot. */
  predicate Serves(d: Containers, slot: SlotId) {
    forall s :: s in CORE_RUNTIME_SERVICES ==> s in d.running && s in d.image && d.image[s] == slot
  }

  /** No container died and none changed its image. */
  predicate KeepsServing(d: Containers, e: Containers) {
    d.running <= e.running && e.image == d.image
  }

  lemma ServesStays(d: Containers, e: Containers, slot: SlotId)
    requires Serves(d, slot) && KeepsServing(d, e)
    ensures Serves(e, slot)
  {
  }

  function RunOf(j: Journal): MigrationRun {
    MigrationRun(j.requestId, j.target.commit, j.schema.sourceVersion, j.schema.targetVersion, false)
  }

  /** The run of this activation, with or without its lock. */
  predicate IsRunOf(run: MigrationRun, j: Journal) {
    run.(locked := false) == RunOf(j)
  }

  /** The database and the mutation evidence change only through a migration that holds the
      schema lock.  The evidence is written after the last commit, so a run that dies may leave a torn schema,
      or the whole target schema without evidence. */
  predicate DatabaseMoved(w: World, v: World) {
    || (v.data.db == w.data.db && v.data.migration == w.data.migration && v.data.evidence == w.data.evidence)
    || (&& w.data.migration.Some?
        && var run := w.data.migration.value;
        || (v.data.evidence == w.data.evidence
            && v.data.migration in {w.data.migration, Some(run.(locked := true)), None}
            && (v.data.migration == Some(run) && !run.locked ==> v.data.db == w.data.db)
            && (v.data.db == w.data.db || v.data.db == w.data.db.(whole := false)
                || v.data.db.version == run.target
                || (v.data.migration.None? && v.data.db == Database(run.source, true))))
        || (v.data.migration.None? && v.data.db == Database(run.target, true)
            && v.data.evidence == Some(MutationEvidence(run.requestId, run.commit))))
  }

  /** The database once a run is over, with its evidence. */
  function FinishedStore(run: MigrationRun): Store {
    Store(Database(run.target, true), None, Some(MutationEvidence(run.requestId, run.commit)))
  }

  /** What the environment may do between two effects: the Docker daemon starts any
      container whose policy is `always`, containers die, a bootstrap reconciles restart
      policies, and a running migration moves. */
  predicate Interfered(w: World, v: World) {
    && v.files == w.files && v.past == w.past && v.docker.image == w.docker.image
    && v.docker.always in {w.docker.always, Policies(ActivationIsolation(w.files.journal)), Policies(true)}
    && v.docker.running <= w.docker.running + w.docker.always + Policies(ActivationIsolation(w.files.journal))
    && DatabaseMoved(w, v)
  }

  lemma InterferedIsTransitive(u: World, v: World, w: World)
    requires Interfered(u, v) && Interfered(v, w)
    ensures Interfered(u, w)
  {
  }

  lemma InterferedIsReflexive(w: World)
    ensures Interfered(w, w)
  {
  }

  /** The journal of `w` was replaced by the result of one legal transition that records
      the real pointer; nothing else changed. */
  ghost predicate Written(w: World, v: World, requestId: RequestId, phase: Phase, u: Update) {
    && w.files.journal.Some? && v.files.journal.Some?
    && w.files.journal.value.requestId == requestId
    && v == w.(files := w.files.(journal := v.files.journal))
    && Transition(w.files.journal.value, phase, u, w.files.pointer)
       == Success(v.files.journal.value)
  }

  predicate PointerResolves(f: Files) {
    f.pointer.Some? ==> f.pointer.value in f.slots
  }

  /** The store would accept the transition. */
  ghost predicate Admits(f: Files, requestId: RequestId, phase: Phase, u: Update) {
    && f.journal.Some?
    && f.journal.value.requestId == requestId
    && ValidateJournal(f.journal.value)
    && PointerResolves(f)
    && Transition(f.journal.value, phase, u, f.pointer).Success?
  }

  /** Containers were started or stopped; nothing durable changed but the database. */
  predicate RuntimeMoved(w: World, v: World) {
    && v.files == w.files && v.past == w.past.(quiet := v.past.quiet)
    && DatabaseMoved(w, v)
  }

  lemma RuntimeMovedIsTransitive(u: World, v: World, w: World)
    requires RuntimeMoved(u, v) && RuntimeMoved(v, w)
    ensures RuntimeMoved(u, w)
  {
  }

  lemma RuntimeMovedFacts(w: World, v: World)
    requires RuntimeMoved(w, v)
    ensures v.files == w.files && v.past == w.past.(quiet := v.past.quiet)
    ensures w.data.migration.None? ==> v.data == w.data
  {
  }

  lemma RuntimeMovedIsReflexive(w: World)
    ensures RuntimeMoved(w, w)
  {
  }

  lemma InterferenceMovesRuntime(w: World, v: World)
    requires Interfered(w, v)
    ensures RuntimeMoved(w, v) && v.docker.image == w.docker.image
    ensures ActivationIsolation(w.files.journal) && Isolated(w) ==> Isolated(v)
  {
  }

  lemma EveryServiceIsStarted(s: Service)
    ensures s in ACTIVATION_RUNTIME_SERVICES
  {
    var order := ACTIVATION_RUNTIME_SERVICES;
    match s
    case RetryAdmission => assert order[0] == s;
    case StatusReader => assert order[1] == s;
    case Api => assert order[2] == s;
    case Recorder => assert order[3] == s;
    case Web => assert order[4] == s;
    case Nginx => assert order[5] == s;
    case SetupHelper => assert order[6] == s;
  }

  /** What the rollback database probe establishes.  It takes the schema lock for a moment,
      so it sees a migration that holds the lock, and no other. */
  predicate DatabaseProbed(d: Store, schema: SchemaRecord) {
    && (d.migration.Some? ==> !d.migration.value.locked) && d.db.whole
    && d.db.version in {schema.sourceVersion, schema.targetVersion}
  }

  /** No migration container is alive and the schema is whole. */
  predicate AtRest(d: Store) {
    d.migration.None? && d.db.whole
  }

  /** At rest at a version the activation knows: the probe passes, with nothing behind it. */
  predicate DatabaseProven(d: Store, schema: SchemaRecord) {
    AtRest(d) && d.db.version in {schema.sourceVersion, schema.targetVersion}
  }

  // ---------------------------------------------------------------------------
  // The inductive invariant
  // ---------------------------------------------------------------------------

  /** What the journal alone shows, beyond its validator. */
  predicate JournalInv(j: Journal) {
    && ValidateJournal(j)
    && (j.failureCategory.Some? ==> j.phase in {RollingBack, Blocked, FailedRolledBack})
    && (j.phase == RollingBack ==> j.rollbackTrigger.Some?)
    && (j.phase == Quiescing ==> j.schema.migrationRequired)
    && (j.schema.migrationInvoked ==> j.phase !in {TargetPrepared, Quiescing})
    && (j.phase == SchemaPreparing ==> j.schema.migrationInvoked)
    && (j.schema.migrationRequired && j.phase in {Activating, VerifyingTarget, CommittingTarget, Completed}
        ==> j.schema.migrationCompleted)
    && (j.phase == CommittingTarget ==> j.targetVerified)
  }

  /** Where the real pointer stands, and how far the journal may lag behind it. */
  predicate PointerInv(w: World, j: Journal) {
    && j.previous.slotId in w.files.slots && j.target.slotId in w.files.slots
    && w.files.pointer in {Some(j.previous.slotId), Some(j.target.slotId)}
    && (j.phase in {TargetPrepared, Quiescing, SchemaPreparing} ==> w.files.pointer == Some(j.previous.slotId))
    && (j.phase in {VerifyingTarget, CommittingTarget, Completed} ==> w.files.pointer == Some(j.target.slotId))
    && (j.phase == FailedRolledBack ==> w.files.pointer == Some(j.previous.slotId))
    && (|| j.pointer == w.files.pointer
        || (j.phase == Activating && w.files.pointer == Some(j.target.slotId))
        || (j.phase == RollingBack && w.files.pointer == Some(j.previous.slotId)))
  }

  /** The database agrees with the migration evidence, and only the run of this activation
      moves it. */
  predicate OwnDatabase(w: World, j: Journal) {
    && w.data.db.version in {j.schema.sourceVersion, j.schema.targetVersion}
    && (!j.schema.migrationInvoked ==> w.data.db == Database(j.schema.sourceVersion, true) && w.data.migration.None?)
    && (j.schema.migrationCompleted ==> w.data.db == Database(j.schema.targetVersion, true) && w.data.migration.None?)
    && (w.data.migration.Some? ==>
          && IsRunOf(w.data.migration.value, j)
          && (!w.data.migration.value.locked ==> w.data.db == Database(j.schema.sourceVersion, true)))
    && (w.data.evidence.Some? && w.data.evidence.value.requestId == j.requestId ==>
          j.schema.migrationInvoked && w.data.db == Database(j.schema.targetVersion, true) && w.data.migration.None?)
  }

  /** The database is this activation's own unless it was inherited, and at rest outside the
      quiet migration phases unless a container slipped through a probe. */
  predicate DatabaseInv(w: World, j: Journal) {
    && (w.past.inherited ==> w.past.slipped)
    && (!w.past.inherited ==> OwnDatabase(w, j))
    && (!w.past.slipped && !AtRest(w.data) ==> j.phase in {SchemaPreparing, Blocked} && w.past.quiet)
    && w.past.starts <= 1
    && (!j.schema.migrationInvoked ==> w.past.starts == 0)
  }

  /** `quiet` holds from a successful writer stop to the next start of a slot runtime. */
  predicate QuietInv(w: World, j: Journal) {
    && (w.past.quiet && (j.schema.migrationInvoked || j.phase == Quiescing) ==> Isolated(w))
    && (w.past.quiet ==> j.schema.migrationRequired && j.phase !in {TargetPrepared, CommittingTarget, Completed})
    && (w.past.quiet && j.phase == FailedRolledBack ==> !j.schema.migrationInvoked)
    && (j.schema.migrationRequired && j.phase in {SchemaPreparing, Activating} ==> w.past.quiet)
  }

  predicate Known(w: World, j: Journal, request: RequestId) {
    request == j.requestId || exists a :: a in w.past.archive && a.requestId == request
  }

  /** Earlier activations all settled; their request identities are not reused. */
  predicate HistoryInv(w: World, j: Journal) {
    && j.generation == |w.past.archive| + 1
    && (forall a :: a in w.past.archive ==> Settled(a.phase) && a.requestId != j.requestId)
    && (w.data.evidence.Some? ==> Known(w, j, w.data.evidence.value.requestId))
    && (w.data.migration.Some? ==> Known(w, j, w.data.migration.value.requestId))
    && (j.phase == FailedRolledBack ==> w.past.databaseProof == w.past.call && w.past.runtimeProof == w.past.call)
  }

  predicate Inv(w: World) {
    match w.files.journal
    case None =>
      && AtRest(w.data) && w.data.evidence.None?
      && w.past.archive == [] && !w.past.quiet && !w.past.slipped && !w.past.inherited
    case Some(j) =>
      JournalInv(j) && PointerInv(w, j) && DatabaseInv(w, j) && QuietInv(w, j) && HistoryInv(w, j)
  }

  /** How a run of any length relates its ends: settled activations are archived as they
      settled, and the journal of one activation only evolves. */
  predicate Progressed(w: World, v: World) {
    && w.past.archive <= v.past.archive
    && (w.files.journal.Some? && |v.past.archive| == |w.past.archive| ==>
          v.files.journal.Some? && Evolves(w.files.journal.value, v.files.journal.value))
    && (w.files.journal.Some? && |v.past.archive| > |w.past.archive| ==>
          Evolves(w.files.journal.value, v.past.archive[|w.past.archive|]))
  }

  lemma ProgressedIsTransitive(u: World, v: World, w: World)
    requires Progressed(u, v) && Progressed(v, w)
    requires u.files.journal.None? ==> u.past.archive == []
    ensures Progressed(u, w)
  {
    if u.files.journal.Some? {
      if |w.past.archive| == |u.past.archive| {
        EvolvesIsTransitive(u.files.journal.value, v.files.journal.value, w.files.journal.value);
      } else if |v.past.archive| == |u.past.archive| {
        EvolvesIsTransitive(u.files.journal.value, v.files.journal.value, w.past.archive[|u.past.archive|]);
      } else {
        assert w.past.archive[|u.past.archive|] == v.past.archive[|u.past.archive|];
      }
    }
  }

  /** Helper, read off the invariant: with no foreign writer, the real pointer is on one of
      the two slots, on the previous one before activation and after a rollback, on the target
      from verification to completion.  The journal lags behind it in two phases only, each in
      one direction. */
  lemma PointerStaysInside(w: World)
    requires Inv(w) && w.files.journal.Some?
    ensures var j := w.files.journal.value;
      && w.files.pointer in {Some(j.previous.slotId), Some(j.target.slotId)}
      && (j.phase in {TargetPrepared, Quiescing, SchemaPreparing} ==> w.files.pointer == Some(j.previous.slotId))
      && (j.phase in {VerifyingTarget, CommittingTarget, Completed} ==> w.files.pointer == Some(j.target.slotId))
      && (j.phase == FailedRolledBack ==> w.files.pointer == Some(j.previous.slotId))
      && (j.pointer != w.files.pointer ==>
            || (j.phase == Activating && w.files.pointer == Some(j.target.slotId))
            || (j.phase == RollingBack && w.files.pointer == Some(j.previous.slotId)))
  {
  }

  /** The environment alone never breaks the invariant. */
  lemma InterferenceKeepsInv(w: World, v: World)
    requires Interfered(w, v)
    ensures Inv(w) ==> Inv(v)
  {
  }

  /** A migration may start: it is declared invoked, and none was started before. */
  predicate ReadyToMigrate(w: World) {
    && w.files.journal.Some?
    && var j := w.files.journal.value;
    && j.phase == SchemaPreparing && !j.schema.migrationCompleted
    && w.past.starts == 0
    && (!w.past.inherited ==>
          && w.data.migration.None? && w.data.db == Database(j.schema.sourceVersion, true)
          && !(w.data.evidence.Some? && w.data.evidence.value.requestId == j.requestId))
  }

  /** The start of a migration, as a change of the world. */
  function MigrationStarted(w: World, run: MigrationRun): World {
    w.(data := w.data.(migration := Some(run)), past := w.past.(starts := w.past.starts + 1))
  }

  /** Starting the one migration keeps the invariant; in particular every writer is
      stopped and fenced at that moment. */
  lemma StartingKeepsInv(w: World)
    requires Inv(w) && ReadyToMigrate(w)
    ensures Inv(MigrationStarted(w, RunOf(w.files.journal.value)))
    ensures Isolated(w)
  {
  }

  /** A migration ended without finishing or undoing its work. */
  predicate Torn(d: Store) {
    d.migration.None? && !d.db.whole
  }

  /** One activation went on: nothing was archived and its journal evolved. */
  ghost predicate WentOn(w: World, v: World) {
    && v.past.archive == w.past.archive
    && w.files.journal.Some? && v.files.journal.Some?
    && Evolves(w.files.journal.value, v.files.journal.value)
  }

  /** One activation went on, and from the migration phase on no migration was started and
      nothing mended a torn database. */
  ghost predicate Continues(w: World, v: World) {
    && WentOn(w, v)
    && (Rank(w.files.journal.value.phase) >= 2 ==>
          && v.past.starts == w.past.starts
          && (Torn(w.data) ==> v.data == w.data && v.past.slipped == w.past.slipped))
  }

  lemma ContinuesFromSameFiles(w: World, v: World)
    requires w.files.journal.Some? && v.files.journal == w.files.journal
    requires v.past.archive == w.past.archive && v.past.starts == w.past.starts
    requires w.data.migration.None? ==> v.data == w.data && v.past.slipped == w.past.slipped
    ensures Continues(w, v)
  {
    EvolvesIsReflexive(w.files.journal.value);
  }

  lemma ContinuesKeepsActivation(w: World, v: World)
    requires Continues(w, v)
    ensures w.files.journal.Some? && v.files.journal.Some? && SameActivation(w.files.journal.value, v.files.journal.value)
  {
  }

  /** The first trigger and the first category stay, until the activation is completed. */
  lemma ContinuesKeepsCauses(w: World, v: World)
    requires Continues(w, v) && v.files.journal.value.phase != Completed
    ensures var j, k := w.files.journal.value, v.files.journal.value;
      && (j.rollbackTrigger.Some? ==> k.rollbackTrigger == j.rollbackTrigger)
      && (j.failureCategory.Some? ==> k.failureCategory == j.failureCategory)
  {
  }

  lemma ContinuesIsTransitive(u: World, v: World, w: World)
    requires Continues(u, v) && Continues(v, w)
    ensures Continues(u, w)
  {
    EvolvesIsTransitive(u.files.journal.value, v.files.journal.value, w.files.journal.value);
  }

  lemma MigratedThenContinues(u: World, v: World, w: World)
    requires WentOn(u, v) && Continues(v, w)
    ensures WentOn(u, w)
  {
    EvolvesIsTransitive(u.files.journal.value, v.files.journal.value, w.files.journal.value);
  }

  /** Before the migration phase a migration may still be started. */
  lemma ContinuesThroughMigration(u: World, v: World, w: World)
    requires Continues(u, v) && WentOn(v, w)
    requires Rank(u.files.journal.value.phase) < 2
    ensures Continues(u, w)
  {
    EvolvesIsTransitive(u.files.journal.value, v.files.journal.value, w.files.journal.value);
  }

  // ---------------------------------------------------------------------------
  // The mutable installation
  // ---------------------------------------------------------------------------

  /** From this point on the environment is benign. */
  ghost predicate BenignFrom(oracle: nat -> Event, at: nat) {
    forall n :: n >= at ==> oracle(n).Benign()
  }

  class Host {
    const oracle: nat -> Event
    var clock: nat

    var files: Files
    var docker: Containers
    var data: Store

    ghost var past: Past
    /** The world on the eve of the latest change. */
    ghost var eve: World

    ghost function Now(): World
      reads this
    {
      World(files, docker, data, past)
    }

    /** From here on the environment is benign. */
    ghost predicate Healthy()
      reads this
    {
      forall n :: n >= clock ==> oracle(n).Benign()
    }

    /** From here on no restore asks for writer isolation. */
    ghost predicate NoRestore()
      reads this
    {
      forall n :: n >= clock ==> !oracle(n).restoring
    }

    /** A migration left running in the background moves on. */
    method AdvanceMigration(news: MigrationNews)
      modifies this`data
      ensures DatabaseMoved(old(Now()), Now())
      ensures news == StillRunning ==> data == old(data)
      ensures news == Locks && old(data.migration).Some? ==>
        data == old(data).(migration := Some(old(data.migration).value.(locked := true)))
      ensures news == Finished && old(data.migration).Some? ==> data == FinishedStore(old(data.migration).value)
      ensures news in {Abandoned, Finished} ==> data.migration.None?
    {
      if data.migration.Some? {
        var run := data.migration.value;
        match news {
          case StillRunning =>
          case Locks => data := data.(migration := Some(run.(locked := true)));
          case Tearing => data := data.(migration := Some(run.(locked := true)), db := data.db.(whole := false));
          case Committed => data := data.(migration := Some(run.(locked := true)), db := Database(run.target, true));
          case Abandoned => data := data.(migration := None);
          case Reverted => data := data.(migration := None, db := Database(run.source, true));
          case Finished => data := FinishedStore(run);
        }
      }
    }

    /** The daemon and a concurrent bootstrap move containers and restart policies. */
    method MoveContainers(e: Event)
      modifies this`docker
      ensures docker.always in {old(docker.always), Policies(ActivationIsolation(files.journal)), Policies(true)}
      ensures !e.restoring ==> docker.always in {old(docker.always), Policies(ActivationIsolation(files.journal))}
      ensures docker.running <= old(docker.running) + old(docker.always) + Policies(ActivationIsolation(files.journal))
      ensures docker.image == old(docker.image)
      ensures e.died == {} ==> old(docker.running) <= docker.running
    {
      var startable := docker.always;
      if e.reconciled {
        docker := docker.(always := Policies(ActivationIsolation(files.journal) || e.restoring));
      }
      docker := docker.(running := docker.running + e.restarted * (startable + docker.always) - e.died);
    }

    ghost method NoteEve()
      modifies this`eve
      ensures eve == Now()
    {
      eve := Now();
    }

    /** The environment acts, then the event of the next effect is drawn. */
    method Draw() returns (e: Event)
      modifies this
      ensures e == oracle(old(clock)) && clock == old(clock) + 1
      ensures Interfered(old(Now()), Now()) && eve == Now() && files == old(files) && past == old(past)
      ensures !e.restoring ==> docker.always in {old(docker.always), Policies(ActivationIsolation(files.journal))}
      ensures old(Healthy()) ==> Healthy() && e.Benign() && old(docker.running) <= docker.running
      ensures old(Healthy()) && old(data.migration).Some? ==>
        var run := old(data.migration).value;
        data in {old(data), old(data).(migration := Some(run.(locked := true))), FinishedStore(run)}
    {
      e := oracle(clock);
      clock := clock + 1;
      MoveContainers(e);
      AdvanceMigration(e.news);
      eve := Now();
    }
  }
}
