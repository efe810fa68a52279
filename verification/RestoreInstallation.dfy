/** What a database restore acts on: the control files, the database and its artifacts, the
    writer containers, and an environment that acts between any two effects. */
module RestoreInstallation {
  import opened Wrappers
  import opened RestoreControl
  import ActivationJournal

  datatype Writer = Api | Recorder

  const WRITERS: set<Writer> := {Api, Recorder}

  /** Database contents up to what matters: which snapshot they come from.  Writers only
      ever edit; a restore cut short leaves a torn database. */
  datatype Content = Snapshot(id: nat) | Edited(base: Content, edit: nat) | Torn(id: nat)

  predicate DescendsFrom(c: Content, base: Content) {
    c == base || (c.Edited? && DescendsFrom(c.base, base))
  }

  lemma {:induction false} DescentIsTransitive(a: Content, b: Content, c: Content)
    requires DescendsFrom(b, a) && DescendsFrom(c, b)
    ensures DescendsFrom(c, a)
  {
    if c != b {
      DescentIsTransitive(a, b, c.base);
    }
  }

  datatype Control = Control(
    request: Option<RestoreRequest>,
    journal: Option<RestoreJournal>,
    marker: Option<OperationId>,
    receipts: map<string, RestoreRequest>,
    published: Option<PublicStatus>)

  datatype Fleet = Fleet(running: set<Writer>, always: set<Writer>)

  datatype Store = Store(content: Content, artifacts: map<ArtifactId, Content>)

  /** A restore container that outlived the helper's call: it passed the executor's check of
      the request, and `marked` once it wrote the destructive marker. */
  datatype Survivor = Survivor(operationId: OperationId, artifactId: ArtifactId, marked: bool)

  /** What one call saw of the services: the API came up, the restored database passed its
      check, the recorder came up. */
  datatype ServiceProof = ApiStarted | PostChecked | RecorderStarted

  const SERVICES: set<ServiceProof> := {ApiStarted, PostChecked, RecorderStarted}

  datatype SurvivorNews = Marks | Tears(id: nat) | Restores | Dies

  /** What becomes of the activation journal meanwhile.  A resumed activation starts the
      writers, whatever the restore documents say, and releases their fence once it settles. */
  datatype ActivationNews = Unchanged | Opens | Resumes(settles: bool)

  /** `start` is the database when the current request was admitted, `before` the one its
      verified pre-restore backup captured, `pristine` whether it was undisturbed by then.
      `exposed` records a restore that changed the database since the admission while a writer
      ran or could be started, `left` that a restore container ever outlived the helper's call,
      and `disturbed` that such a container acted since the admission or since the last restore
      that succeeded with no survivor alive.  `unsettled` records that an activation was
      unsettled at the admission or opened since, and `resumed` that one was resumed since
      while the restore demanded isolation.  `services` is what the latest call saw of the
      services while the request was open. */
  datatype Past = Past(
    start: Content,
    before: Option<Content>,
    pristine: bool,
    exposed: bool,
    left: bool,
    disturbed: bool,
    unsettled: bool,
    resumed: bool,
    services: set<ServiceProof>)

  /** `pending`: an activation journal is on disk that is not settled, blocked included. */
  datatype World = World(control: Control, fleet: Fleet, data: Store, survivors: set<Survivor>, pending: bool, past: Past)

  /** An exception: the helper's own error class, or anything else. */
  datatype Trouble = HelperTrouble(category: MachineReason, mutationStarted: bool) | OtherTrouble

  datatype Event = Event(
    fate: Fate,
    unexpected: bool,
    answer: bool,
    torn: bool,
    text: string,
    number: nat,
    restarted: set<Writer>,
    died: set<Writer>,
    reconciled: bool,
    activating: bool,
    activation: ActivationNews,
    edit: Option<nat>,
    survives: bool,
    survivor: Option<(Survivor, SurvivorNews)>)

  /** The restore half of the bootstrap predicate, on the files as they are. */
  function Decision(c: Control): Result<bool, ActivationJournal.Code> {
    RestoreIsolation(c.request, c.journal)
  }

  predicate MayUnfence(c: Control) {
    Decision(c) == Success(false)
  }

  /** The writers that run, or that the daemon or a bootstrap reconcile may start. */
  function Live(w: World): set<Writer> {
    w.fleet.running + w.fleet.always + (if MayUnfence(w.control) then WRITERS else {})
  }

  predicate Isolated(w: World) {
    w.fleet.running == {} && w.fleet.always == {}
  }

  /** The control files agree but for the marker, which survivors write. */
  predicate SameFiles(c: Control, d: Control) {
    d == c.(marker := d.marker)
  }

  /** Nothing but what survivors and activations leave behind was added to the history. */
  predicate Since(p: Past, q: Past) {
    && q == p.(exposed := q.exposed, disturbed := q.disturbed, unsettled := q.unsettled, resumed := q.resumed)
    && (p.disturbed ==> q.disturbed) && (p.unsettled ==> q.unsettled) && (p.resumed ==> q.resumed)
    && (q.exposed != p.exposed ==> q.disturbed)
  }

  /** No survivor added to the history. */
  predicate SameDisturbance(p: Past, q: Past) {
    q.disturbed == p.disturbed && q.exposed == p.exposed
  }

  predicate Owned(survivors: set<Survivor>, operation: OperationId) {
    exists x :: x in survivors && x.operationId == operation
  }

  /** Survivors end and write their marker; none comes back. */
  predicate Remaining(before: set<Survivor>, after: set<Survivor>) {
    forall x :: x in after ==> x in before || x.(marked := false) in before
  }

  /** A survivor acted: it wrote its marker, or it changed the database in whatever way. */
  predicate SurvivorActed(w: World, v: World) {
    && w.survivors != {}
    && Since(w.past, v.past) && v.past.disturbed
    && (v.control.marker == w.control.marker
        || (v.control.marker.Some? && Owned(w.survivors, v.control.marker.value)))
  }

  /** One step of a survivor. */
  function AfterSurvivor(w: World, x: Survivor, news: SurvivorNews): World {
    match news
    case Marks =>
      if x.marked then w
      else
        w.(control := w.control.(marker := Some(x.operationId)),
           survivors := w.survivors - {x} + {x.(marked := true)},
           past := w.past.(disturbed := true))
    case Tears(id) =>
      if !x.marked then w
      else
        w.(data := w.data.(content := Torn(id)),
           past := w.past.(disturbed := true, exposed := w.past.exposed || !Isolated(w)))
    case Restores =>
      if !x.marked || x.artifactId !in w.data.artifacts then w
      else
        w.(data := w.data.(content := w.data.artifacts[x.artifactId]),
           survivors := w.survivors - {x},
           past := w.past.(disturbed := true, exposed := w.past.exposed || !Isolated(w)))
    case Dies => w.(survivors := w.survivors - {x})
  }

  /** The daemon and the bootstrap moved containers and policies. */
  predicate DaemonMoved(w: World, v: World) {
    && (v.fleet.always in {w.fleet.always, {}} || (MayUnfence(w.control) && v.fleet.always == WRITERS))
    && v.fleet.running <= Live(w)
  }

  /** The daemon moved the fleet, or an unsettled activation was resumed. */
  predicate FleetMoved(w: World, v: World) {
    || DaemonMoved(w, v)
    || (w.pending && (!MayUnfence(w.control) ==> v.past.resumed))
  }

  /** Activations are resumed only if one is unsettled, and opened on the record. */
  predicate ActivationsMoved(w: World, v: World) {
    && (v.past.resumed ==> w.past.resumed || w.pending)
    && (v.pending ==> w.pending || v.past.unsettled)
  }

  /** What the environment may do between two effects: start and kill writers, reconcile
      policies, open and resume activations, through a live writer edit the database, and let
      survivors act or end. */
  ghost predicate Interfered(w: World, v: World) {
    && SameFiles(w.control, v.control) && v.data.artifacts == w.data.artifacts
    && Since(w.past, v.past) && FleetMoved(w, v) && ActivationsMoved(w, v)
    && Remaining(w.survivors, v.survivors)
    && (|| SurvivorActed(w, v)
        || (&& SameDisturbance(w.past, v.past) && v.control == w.control
            && (v.data.content == w.data.content || (Live(w) != {} && DescendsFrom(v.data.content, w.data.content)))))
  }

  lemma InterferenceKeepsArtifacts(w: World, v: World)
    requires Interfered(w, v)
    ensures v.data.artifacts == w.data.artifacts
  {
  }

  /** Writers move first, and edit at most once. */
  lemma WritersInterfere(w: World, u: World, edit: nat)
    requires u == w.(fleet := u.fleet, data := u.data, pending := u.pending, past := u.past)
    requires Since(w.past, u.past) && SameDisturbance(w.past, u.past) && FleetMoved(w, u) && ActivationsMoved(w, u)
    requires u.data == w.data || (Live(w) != {} && u.data == w.data.(content := Edited(w.data.content, edit)))
    ensures Interfered(w, u)
  {
    assert DescendsFrom(w.data.content, w.data.content);
  }

  /** Survivors act after the writers. */
  lemma SurvivorsFollow(w: World, u: World, x: Survivor, news: SurvivorNews)
    requires Interfered(w, u) && SameDisturbance(w.past, u.past) && u.control == w.control && u.survivors == w.survivors
    requires x in u.survivors
    ensures Interfered(w, AfterSurvivor(u, x, news)) && AfterSurvivor(u, x, news).fleet == u.fleet
    ensures AfterSurvivor(u, x, news).pending == u.pending
    ensures MayUnfence(AfterSurvivor(u, x, news).control) <==> MayUnfence(u.control)
  {
    hide RestoreIsolation, DescendsFrom;
  }

  /** While the bootstrap predicate does not release the fence and no activation is resumed,
      isolation lasts; and the database stands still unless a survivor acts. */
  lemma IsolationLasts(w: World, v: World)
    requires Interfered(w, v) && Isolated(w) && !MayUnfence(w.control)
    ensures v.past.resumed || Isolated(v)
    ensures SurvivorActed(w, v) || v.data == w.data
  {
  }

  // ---------------------------------------------------------------------------
  // The inductive invariant
  // ---------------------------------------------------------------------------

  /** Whatever is published about the current request is shown to its owner, and what may be
      published next is readable. */
  predicate Presented(c: Control) {
    c.request.Some? ==>
      var r := c.request.value;
      && Readable(r, BackupNamed(c.journal, r))
      && (c.published.Some? && c.published.value.operationId == r.operationId ==>
            RestorePublicStatus(c.published, c.request, r.subject, r.userId) == Shown(c.published.value))
  }

  /** `backup` is the verified backup of this operation, taken under isolation. */
  predicate Loaded(w: World, backup: ArtifactId) {
    && IsArtifactId(backup) && backup in w.data.artifacts
    && w.past.before == Some(w.data.artifacts[backup])
  }

  /** The journal of the claimed request demands isolation. */
  predicate Fencing(c: Control) {
    && c.request.Some? && c.request.value.state == Claimed && IsOperationId(c.request.value.operationId)
    && c.journal.Some? && JournalBelongs(c.journal.value, c.request.value)
    && c.journal.value.phase.phase in FENCED_RESTORE_PHASES
  }

  /** Everything a rollback of this operation will need is already on disk. */
  predicate Armed(w: World, backup: ArtifactId) {
    && Fencing(w.control) && w.control.journal.value.preRestoreBackupId == Some(backup) && Loaded(w, backup)
  }

  predicate Marked(c: Control) {
    c.request.Some? && c.marker == Some(c.request.value.operationId)
  }

  /** A restore of this operation wrote its marker, or may still write it. */
  predicate Underway(w: World, r: RestoreRequest) {
    w.control.marker == Some(r.operationId) || Owned(w.survivors, r.operationId)
  }

  /** What a terminal word claims about the database. */
  predicate Truthful(w: World, r: RestoreRequest, result: RestoreResult) {
    match result
    case Completed =>
      && r.artifact.artifactId in w.data.artifacts
      && DescendsFrom(w.data.content, w.data.artifacts[r.artifact.artifactId])
    case FailedRolledBack =>
      w.past.before.Some? && DescendsFrom(w.data.content, w.past.before.value)
    case Blocked =>
      w.control.marker != Some(r.operationId) && DescendsFrom(w.data.content, w.past.start)
    case FailedRecoveryRequired => true
  }

  /** What holds of the request whatever survivors do, and, while none acted, what it says
      about the database. */
  predicate RequestInv(w: World, r: RestoreRequest) {
    match r.state
    case Admitted =>
      && !Underway(w, r)
      && (w.control.journal.Some? ==> w.control.journal.value.operationId != r.operationId)
      && (!w.past.disturbed ==> DescendsFrom(w.data.content, w.past.start))
    case Claimed =>
      && (w.control.journal.Some? && w.control.journal.value.operationId == r.operationId ==> JournalBelongs(w.control.journal.value, r))
      && (Underway(w, r) ==>
            && w.control.journal.Some? && w.control.journal.value.preRestoreBackupId.Some?
            && Armed(w, w.control.journal.value.preRestoreBackupId.value))
      && (!w.past.disturbed && !Marked(w.control) ==> DescendsFrom(w.data.content, w.past.start))
    case Terminal =>
      && r.terminal.Some? && Served(w.past.services, r.terminal.value.status, r.terminal.value.reason)
      && (!w.past.disturbed ==> Truthful(w, r, r.terminal.value.status))
  }

  /** What a terminal word claims about the services: `completed` and `failed_rolled_back` that
      the call which wrote it saw them all come back, and a required recovery how far they came. */
  predicate Served(services: set<ServiceProof>, result: RestoreResult, reason: Option<Reason>) {
    && (result in {Completed, FailedRolledBack} ==> services == SERVICES)
    && (result == FailedRecoveryRequired && reason == Some(RollbackApiRecoveryFailed) ==> services == {})
    && (result == FailedRecoveryRequired && reason == Some(RollbackValidationFailed) ==> services == {ApiStarted})
    && (result == FailedRecoveryRequired && reason == Some(RollbackRecorderRecoveryFailed) ==>
          services == {ApiStarted, PostChecked})
  }

  predicate HasOpen(c: Control) {
    c.request.Some? && c.request.value.state == Claimed
  }

  /** What was seen of the services matters once the request ends. */
  lemma ServicesAreFree(w: World, services: set<ServiceProof>)
    requires HasOpen(w.control)
    ensures Inv(w) ==> Inv(w.(past := w.past.(services := services)))
  {
  }

  predicate Inv(w: World) {
    && (w.survivors != {} || w.past.disturbed || !w.past.pristine ==> w.past.left)
    && (w.past.exposed ==> w.past.left || w.past.resumed)
    && (w.pending || w.past.resumed ==> w.past.unsettled)
    && (w.past.before.Some? && w.past.pristine ==> DescendsFrom(w.past.before.value, w.past.start))
    && Presented(w.control)
    && (w.control.request.Some? ==> ValidateRestoreRequest(w.control.request.value) && RequestInv(w, w.control.request.value))
  }

  /** Claiming and ending a request changes nothing of what was asked for, and by whom. */
  predicate SameContract(a: RestoreRequest, b: RestoreRequest) {
    && a.operationId == b.operationId && a.submissionId == b.submissionId
    && a.userId == b.userId && a.subject == b.subject && a.artifact == b.artifact
  }

  /** The request on disk is the one this pass claimed, or its terminal form. */
  predicate Session(c: Control, r: RestoreRequest) {
    && r.state == Claimed && ValidateRestoreRequest(r) && c.request.Some?
    && (c.request.value == r || (SameContract(c.request.value, r) && c.request.value.state == Terminal))
  }

  /** Nothing but the journal, the projections, the writers and their edits moved, unless a
      survivor acted. */
  ghost predicate Drifted(w: World, v: World) {
    && v.control.request == w.control.request
    && Since(w.past, v.past) && v.data.artifacts == w.data.artifacts
    && Remaining(w.survivors, v.survivors)
    && (v.control.marker == w.control.marker
        || (v.control.marker.Some? && Owned(w.survivors, v.control.marker.value)))
    && (v.past.disturbed
        || (v.control.marker == w.control.marker && DescendsFrom(v.data.content, w.data.content)))
    && (w.survivors == {} ==> SameDisturbance(w.past, v.past))
  }

  lemma RemainingIsTransitive(a: set<Survivor>, b: set<Survivor>, c: set<Survivor>)
    requires Remaining(a, b) && Remaining(b, c)
    ensures Remaining(a, c)
  {
    forall x | x in c ensures x in a || x.(marked := false) in a {
      assert x in b || x.(marked := false) in b;
      assert x.(marked := false).(marked := false) == x.(marked := false);
    }
  }

  /** Only a survivor that was there can own an operation later. */
  lemma OwnersRemain(before: set<Survivor>, after: set<Survivor>, operation: OperationId)
    requires Remaining(before, after) && Owned(after, operation)
    ensures Owned(before, operation)
  {
    var x :| x in after && x.operationId == operation;
    assert x.(marked := false).operationId == operation;
  }

  lemma DriftIsTransitive(u: World, v: World, w: World)
    requires Drifted(u, v) && Drifted(v, w)
    ensures Drifted(u, w)
  {
    RemainingIsTransitive(u.survivors, v.survivors, w.survivors);
    if w.control.marker != v.control.marker {
      OwnersRemain(u.survivors, v.survivors, w.control.marker.value);
    }
    if !w.past.disturbed {
      DescentIsTransitive(u.data.content, v.data.content, w.data.content);
    }
  }

  lemma InterferenceDrifts(w: World, v: World)
    requires Interfered(w, v)
    ensures Drifted(w, v)
  {
  }

  /** What is underway was underway before. */
  lemma DriftStartsNothing(w: World, v: World, r: RestoreRequest)
    requires Drifted(w, v) && Underway(v, r)
    ensures Underway(w, r)
  {
    if Owned(v.survivors, r.operationId) {
      OwnersRemain(w.survivors, v.survivors, r.operationId);
    }
  }

  lemma DriftKeepsTruth(w: World, v: World, r: RestoreRequest, result: RestoreResult)
    requires Drifted(w, v) && Truthful(w, r, result) && !v.past.disturbed
    ensures Truthful(v, r, result)
  {
    match result
    case Completed => DescentIsTransitive(w.data.artifacts[r.artifact.artifactId], w.data.content, v.data.content);
    case FailedRolledBack => DescentIsTransitive(w.past.before.value, w.data.content, v.data.content);
    case Blocked => DescentIsTransitive(w.past.start, w.data.content, v.data.content);
    case FailedRecoveryRequired =>
  }

  /** The environment alone never breaks the invariant. */
  lemma InterferenceKeepsInv(w: World, v: World)
    requires Interfered(w, v)
    ensures Inv(w) ==> Inv(v)
  {
    if Inv(w) && w.control.request.Some? {
      var r := w.control.request.value;
      InterferenceDrifts(w, v);
      if Underway(v, r) {
        DriftStartsNothing(w, v, r);
      }
      if !v.past.disturbed {
        if r.state == Terminal {
          DriftKeepsTruth(w, v, r, r.terminal.value.status);
        } else if !Marked(w.control) {
          DescentIsTransitive(w.past.start, w.data.content, v.data.content);
        }
      }
    }
  }

  // ---------------------------------------------------------------------------
  // Environments
  // ---------------------------------------------------------------------------

  ghost predicate AllSucceed(oracle: nat -> Event, clock: nat) {
    forall n :: n >= clock ==> oracle(n).fate == Done
  }

  ghost predicate AllFavour(oracle: nat -> Event, clock: nat, taken: set<ArtifactId>) {
    && (forall n :: n >= clock ==> oracle(n).answer && IsArtifactId(oracle(n).text) && oracle(n).text !in taken)
    && (forall n :: n >= clock ==> oracle(n).activation == Unchanged)
    && (forall m, n :: clock <= m < n ==> oracle(m).text != oracle(n).text)
  }

  ghost predicate AllCalm(oracle: nat -> Event, clock: nat) {
    forall n :: n >= clock ==> oracle(n).died == {} && !oracle(n).activating
  }

  ghost predicate AllAttended(oracle: nat -> Event, clock: nat) {
    forall n :: n >= clock ==> !oracle(n).survives
  }

  lemma FavourSurvivesBackup(oracle: nat -> Event, clock: nat, taken: set<ArtifactId>, backup: ArtifactId)
    requires AllFavour(oracle, clock, taken) && forall n :: n >= clock ==> oracle(n).text != backup
    ensures AllFavour(oracle, clock, taken + {backup})
  {
  }

  lemma EnvironmentGoesOn(oracle: nat -> Event, clock: nat, taken: set<ArtifactId>)
    ensures AllSucceed(oracle, clock) ==> AllSucceed(oracle, clock + 1) && oracle(clock).fate == Done
    ensures AllCalm(oracle, clock) ==>
      AllCalm(oracle, clock + 1) && oracle(clock).died == {} && !oracle(clock).activating
    ensures AllAttended(oracle, clock) ==> AllAttended(oracle, clock + 1) && !oracle(clock).survives
    ensures AllFavour(oracle, clock, taken) ==>
      && AllFavour(oracle, clock + 1, taken)
      && oracle(clock).answer && IsArtifactId(oracle(clock).text) && oracle(clock).text !in taken
      && oracle(clock).activation == Unchanged
      && forall n :: n >= clock + 1 ==> oracle(n).text != oracle(clock).text
  {
    hide IsArtifactId;
  }

  class Host {
    const oracle: nat -> Event
    var clock: nat
    var control: Control
    var fleet: Fleet
    var data: Store
    var survivors: set<Survivor>
    var pending: bool

    ghost var past: Past
    /** The world on the eve of the latest change. */
    ghost var eve: World

    ghost function Now(): World
      reads this
    {
      World(control, fleet, data, survivors, pending, past)
    }

    /** From here on every effect succeeds. */
    ghost predicate Smooth()
      reads this
    {
      AllSucceed(oracle, clock)
    }

    /** Moreover no survivor is left, no activation is opened or resumed, every check comes
        out well, and every backup taken gets a well-formed identity of its own. */
    ghost predicate Favourable()
      reads this
    {
      Smooth() && survivors == {} && AllFavour(oracle, clock, data.artifacts.Keys)
    }

    /** From here on no container dies and no activation asks for isolation. */
    ghost predicate Calm()
      reads this
    {
      AllCalm(oracle, clock)
    }

    method MoveWriters(e: Event)
      modifies this`fleet
      ensures e.died == {} ==> old(fleet.running) <= fleet.running
      ensures !e.activating && MayUnfence(control) && old(fleet.always) == WRITERS ==> fleet.always == WRITERS
      ensures fleet.always in {old(fleet.always), {}} || (MayUnfence(control) && fleet.always == WRITERS)
      ensures fleet.running <= Live(old(Now()))
    {
      var startable := fleet.always;
      if e.reconciled && (e.activating || Decision(control).Success?) {
        var fenced := e.activating || Decision(control).value;
        fleet := fleet.(always := if fenced then {} else WRITERS);
      }
      fleet := fleet.(running := fleet.running + e.restarted * (startable + fleet.always) - e.died);
    }

    /** Keeps what this call saw of the services, as long as the request is open. */
    ghost method Note(services: set<ServiceProof>)
      modifies this`past
      ensures past == if HasOpen(control) then old(past).(services := services) else old(past)
      ensures Inv(old(Now())) ==> Inv(Now())
    {
      hide Inv;
      if HasOpen(control) {
        ServicesAreFree(Now(), services);
        past := past.(services := services);
      }
    }

    /** From here on every executor container ends with the helper's call. */
    ghost predicate Attended()
      reads this
    {
      survivors == {} && AllAttended(oracle, clock)
    }

    /** A survivor of an earlier call goes on by itself. */
    method MoveSurvivor(e: Event)
      modifies this`control, this`data, this`survivors, this`past
      ensures Now() ==
        if e.survivor.Some? && e.survivor.value.0 in old(survivors)
        then AfterSurvivor(old(Now()), e.survivor.value.0, e.survivor.value.1)
        else old(Now())
    {
      if e.survivor.Some? && e.survivor.value.0 in survivors {
        var (x, news) := e.survivor.value;
        if news.Marks? && !x.marked {
          control := control.(marker := Some(x.operationId));
          survivors := survivors - {x} + {x.(marked := true)};
          past := past.(disturbed := true);
        } else if news.Tears? && x.marked {
          past := past.(disturbed := true, exposed := past.exposed || !Isolated(Now()));
          data := data.(content := Torn(news.id));
        } else if news.Restores? && x.marked && x.artifactId in data.artifacts {
          past := past.(disturbed := true, exposed := past.exposed || !Isolated(Now()));
          data := data.(content := data.artifacts[x.artifactId]);
          survivors := survivors - {x};
        } else if news.Dies? {
          survivors := survivors - {x};
        }
      }
    }

    /** An activation is opened, or the unsettled one is resumed: from a shell, so nothing
        asks the restore. */
    method MoveActivation(news: ActivationNews)
      modifies this`fleet, this`pending, this`past
      ensures Since(old(past), past) && SameDisturbance(old(past), past) && ActivationsMoved(old(Now()), Now())
      ensures fleet == old(fleet) || (old(pending) && (!MayUnfence(control) ==> past.resumed))
      ensures news == Unchanged ==> Now() == old(Now())
      ensures old(fleet.running) <= fleet.running && (old(fleet.always) == WRITERS ==> fleet.always == WRITERS)
    {
      if news == Opens {
        pending := true;
        past := past.(unsettled := true);
      } else if news.Resumes? && pending {
        past := past.(resumed := past.resumed || !MayUnfence(control));
        fleet := Fleet(fleet.running + WRITERS, if news.settles then WRITERS else fleet.always);
        pending := !news.settles;
      }
    }

    /** The environment acts: the writers, the activations, then the survivors. */
    method Interfere(e: Event)
      modifies this`control, this`fleet, this`data, this`survivors, this`pending, this`past
      ensures Interfered(old(Now()), Now())
      ensures old(survivors) == {} ==> survivors == {} && SameDisturbance(old(past), past) && control == old(control)
      ensures e.activation == Unchanged ==> DaemonMoved(old(Now()), Now())
      ensures e.died == {} ==> old(fleet.running) <= fleet.running
      ensures !e.activating && MayUnfence(control) && old(fleet.always) == WRITERS ==> fleet.always == WRITERS
    {
      hide IsArtifactId, AfterSurvivor, Interfered, Decision, Since;
      var live := fleet.running + fleet.always + (if MayUnfence(control) then WRITERS else {});
      MoveWriters(e);
      if e.edit.Some? && live != {} {
        data := data.(content := Edited(data.content, e.edit.value));
      }
      MoveActivation(e.activation);
      ghost var moved := Now();
      WritersInterfere(old(Now()), moved, if e.edit.Some? then e.edit.value else 0);
      if e.survivor.Some? && e.survivor.value.0 in survivors {
        SurvivorsFollow(old(Now()), moved, e.survivor.value.0, e.survivor.value.1);
      }
      MoveSurvivor(e);
    }

    /** The environment acts, then the event of the next effect is drawn. */
    method Draw() returns (e: Event)
      modifies this
      ensures e == oracle(old(clock)) && clock == old(clock) + 1
      ensures Interfered(old(Now()), Now()) && eve == Now()
      ensures old(survivors) == {} ==> survivors == {} && SameDisturbance(old(past), past) && control == old(control)
      ensures old(Attended()) ==> Attended() && !e.survives
      ensures old(Smooth()) ==> Smooth() && e.fate == Done
      ensures old(Calm()) ==> Calm() && old(fleet.running) <= fleet.running
      ensures old(Calm()) && MayUnfence(control) && old(fleet.always) == WRITERS ==> fleet.always == WRITERS
      ensures old(Favourable()) ==> Favourable() && e.answer && IsArtifactId(e.text) && e.text !in data.artifacts
      ensures old(Favourable()) ==> forall n :: n >= clock ==> oracle(n).text != e.text
      ensures old(Favourable()) ==> DaemonMoved(old(Now()), Now())
    {
      hide AllSucceed, AllFavour, AllCalm, AllAttended, IsArtifactId, Interfered, Decision;
      EnvironmentGoesOn(oracle, clock, data.artifacts.Keys);
      e := oracle(clock);
      clock := clock + 1;
      Interfere(e);
      InterferenceKeepsArtifacts(old(Now()), Now());
      eve := Now();
    }
  }
}
