/** What a restore container that outlives the helper's call can make of a terminal word. */
module RestoreLimits {
  import opened Wrappers
  import opened RestoreControl
  import opened RestoreInstallation
  import opened RestoreEffects
  import opened RestoreFinish
  import opened RestoreHandler
  import opened RestoreRuns

  type Steps = seq<(Survivor, SurvivorNews)>

  /** The survivors alone go on; a step of one that is gone is none. */
  function AfterSurvivors(w: World, steps: Steps): World {
    if steps == [] then w
    else
      var v := AfterSurvivors(w, steps[..|steps| - 1]);
      var (x, news) := steps[|steps| - 1];
      if x in v.survivors then AfterSurvivor(v, x, news) else v
  }

  /** The survivors' steps are interference, and so keep the invariant. */
  lemma {:induction false} SurvivorsKeepInv(w: World, steps: Steps)
    requires Inv(w)
    ensures Inv(AfterSurvivors(w, steps)) && AfterSurvivors(w, steps).control.request == w.control.request
  {
    hide Inv, AfterSurvivor;
    if steps != [] {
      var before := steps[..|steps| - 1];
      SurvivorsKeepInv(w, before);
      var v := AfterSurvivors(w, before);
      if steps[|steps| - 1].0 in v.survivors {
        WritersInterfere(v, v, 0);
        SurvivorsFollow(v, v, steps[|steps| - 1].0, steps[|steps| - 1].1);
        InterferenceKeepsInv(v, AfterSurvivors(w, steps));
      }
    }
  }

  lemma {:induction false} NobodyActs(w: World, steps: Steps)
    requires w.survivors == {}
    ensures AfterSurvivors(w, steps) == w
  {
    if steps != [] {
      NobodyActs(w, steps[..|steps| - 1]);
    }
  }

  /** The request ended with a word that claims something about the database. */
  predicate Claims(c: Control) {
    HasEnded(c) && c.request.value.terminal.Some? && !EndedWith(c, FailedRecoveryRequired)
  }

  predicate WordIsTrue(w: World)
    requires Claims(w.control)
  {
    Truthful(w, w.control.request.value, w.control.request.value.terminal.value.status)
  }

  /** A torn database that `base` is not. */
  function Wreck(base: Content): nat {
    if base == Torn(0) then 1 else 0
  }

  /** The marker first, if it is not there yet, then the database. */
  function Wrecking(x: Survivor, id: nat): Steps {
    if x.marked then [(x, Tears(id))] else [(x, Marks), (x.(marked := true), Tears(id))]
  }

  lemma WreckingTears(w: World, x: Survivor, id: nat)
    requires x in w.survivors
    ensures AfterSurvivors(w, Wrecking(x, id)).data == w.data.(content := Torn(id))
    ensures AfterSurvivors(w, Wrecking(x, id)).past.before == w.past.before
    ensures AfterSurvivors(w, Wrecking(x, id)).past.start == w.past.start
    ensures AfterSurvivors(w, Wrecking(x, id)).control.request == w.control.request
  {
    var steps := Wrecking(x, id);
    assert steps[..|steps| - 1] == if x.marked then [] else [(x, Marks)];
    assert AfterSurvivors(w, []) == w;
    if !x.marked {
      assert [(x, Marks)][..0] == [];
      assert AfterSurvivors(w, [(x, Marks)]) == AfterSurvivor(w, x, Marks);
    }
  }

  /** A true word over the database stays true under every schedule of the survivors exactly
      when no restore container is alive. */
  lemma TruthLastsExactly(w: World)
    requires Inv(w) && Claims(w.control) && !w.past.disturbed
    ensures WordIsTrue(w)
    ensures w.survivors == {} <==> forall steps: Steps ::
      AfterSurvivors(w, steps).control.request == w.control.request && WordIsTrue(AfterSurvivors(w, steps))
  {
    if w.survivors == {} {
      forall steps: Steps
        ensures AfterSurvivors(w, steps) == w
      {
        NobodyActs(w, steps);
      }
    } else {
      var x :| x in w.survivors;
      var r := w.control.request.value;
      var base := match r.terminal.value.status
        case Completed => w.data.artifacts[r.artifact.artifactId]
        case FailedRolledBack => w.past.before.value
        case Blocked => w.past.start
        case FailedRecoveryRequired => w.past.start;
      var id := Wreck(base);
      WreckingTears(w, x, id);
      assert !WordIsTrue(AfterSurvivors(w, Wrecking(x, id)));
    }
  }

  // ---------------------------------------------------------------------------
  // Words that turn false
  // ---------------------------------------------------------------------------

  /** Where `PrepareRestore` leaves a pass, nothing having disturbed it: everything is on disk
      and the executor is called.  It has checked the request, and not yet written its marker. */
  ghost predicate AtTheExecutor(w: World, r: RestoreRequest, backup: ArtifactId) {
    && Untouched(w, r) && Armed(w, backup) && Isolated(w) && r.artifact.artifactId in w.data.artifacts
    && !w.past.disturbed
  }

  /** The container outlives the call. */
  function Abandoned(w: World, r: RestoreRequest): World {
    w.(survivors := w.survivors + {Survivor(r.operationId, r.artifact.artifactId, false)}, past := w.past.(left := true))
  }

  /** What a finish leaves in which nothing fails, with the writers back in service. */
  function Concluded(w: World, t: RestoreRequest, backup: Option<ArtifactId>, destructive: bool, now: Time): World
    requires t.terminal.Some?
  {
    w.(control := w.control.(
         request := Some(t), receipts := w.control.receipts[t.submissionId := t],
         journal := Some(EndingEvent(t, backup, destructive)), published := Some(EndingPayload(t, backup, now))),
       fleet := Fleet(WRITERS, WRITERS))
  }

  /** It is what `FinishRestoreRequest` promises in a favourable environment: the terminal
      form of the request, the derived documents that follow from it, and the fence released. */
  lemma ConcludedIsFinished(w: World, r: RestoreRequest, result: RestoreResult, reason: MachineReason, phase: RestorePhase,
                            backup: Option<ArtifactId>, destructive: bool, now: Time)
    requires Session(w.control, r) && result in {Blocked, FailedRolledBack}
    ensures var t := Terminated(r, result, Some(reason), Some(phase), now);
      var v := Concluded(w, t, backup, destructive, now);
      && EndedAs(v.control, t) && EndedWell(v, result, true) && Released(v)
      && ProjectionsOf(v.control, t) == FinishedProjections(t, ProjectionsOf(w.control, t), backup, destructive, now, NOTHING_LOST)
  {
  }

  /** A word that may be written keeps the invariant with all that follows from it. */
  lemma ConcludingKeepsInv(w: World, r: RestoreRequest, result: RestoreResult, reason: MachineReason, phase: RestorePhase,
                           backup: Option<ArtifactId>, destructive: bool, now: Time)
    requires Inv(w) && MayEnd(w, r, result, Some(reason)) && w.control.request == Some(r) && r.state == Claimed && WellNamed(backup)
    ensures Inv(Concluded(w, Terminated(r, result, Some(reason), Some(phase), now), backup, destructive, now))
  {
    hide Inv, MayEnd, Presented, Presents, Ends, EndingPayload;
    var t := Terminated(r, result, Some(reason), Some(phase), now);
    MayEndIsSession(w, r, result, Some(reason));
    SessionIsValid(w.control, r);
    TerminatedEndsPass(r, result, Some(reason), Some(phase), now);
    EndKeepsInv(w, r, result, Some(reason), Some(phase), now);
    var ended := w.(control := w.control.(request := Some(t)));
    EndingJournalKeepsInv(ended, EndingEvent(t, backup, destructive));
    var noted := ended.(control := ended.control.(journal := Some(EndingEvent(t, backup, destructive))));
    ReceiptsAreFree(noted, w.control.receipts[t.submissionId := t]);
    var received := noted.(control := noted.control.(receipts := w.control.receipts[t.submissionId := t]));
    InvPresents(received);
    EndingIsPresented(received.control, t, r, backup, now);
    PresentingKeepsInv(received, EndingPayload(t, backup, now));
    FleetIsIrrelevant(received.(control := received.control.(published := Some(EndingPayload(t, backup, now)))), Fleet(WRITERS, WRITERS));
  }

  lemma FleetIsIrrelevant(w: World, fleet: Fleet)
    requires Inv(w)
    ensures Inv(w.(fleet := fleet))
  {
  }

  /** The container goes on to its end. */
  function Overtaken(w: World, r: RestoreRequest): World {
    var x := Survivor(r.operationId, r.artifact.artifactId, false);
    AfterSurvivors(w, [(x, Marks), (x.(marked := true), Restores)])
  }

  /** The chosen artifact is in the database, the marker is set, and the writers ran. */
  lemma OvertakenFacts(w: World, r: RestoreRequest)
    requires Survivor(r.operationId, r.artifact.artifactId, false) in w.survivors
    requires r.artifact.artifactId in w.data.artifacts && w.fleet.running != {}
    ensures var v := Overtaken(w, r);
      && v.control == w.control.(marker := Some(r.operationId)) && v.past.exposed && v.past.before == w.past.before
      && v.data == w.data.(content := w.data.artifacts[r.artifact.artifactId])
  {
    var x := Survivor(r.operationId, r.artifact.artifactId, false);
    var steps: Steps := [(x, Marks), (x.(marked := true), Restores)];
    assert steps[..1] == [(x, Marks)] && steps[..1][..0] == [];
    assert AfterSurvivors(w, []) == w;
    assert AfterSurvivors(w, steps[..1]) == AfterSurvivor(w, x, Marks);
  }

  lemma AbandonedStaysOpen(w: World, r: RestoreRequest, backup: ArtifactId)
    requires AtTheExecutor(w, r, backup)
    ensures forall e: Event :: e.fate != Done && e.survives ==>
      Executed(w, e, r, r.artifact.artifactId) == Abandoned(w, r)
    ensures var left := Abandoned(w, r);
      && LeftRunning(w, left, r, r.artifact.artifactId)
      && Open(left, r) && FavourableWord(left.control, r) == Blocked && MayBlock(left, r)
      && MayEnd(left, r, Blocked, Some(InterruptedBeforeMutation)) && Armed(left, backup)
  {
  }

  /** `blocked` may turn false.  The helper dies after the executor's check; restarted, it
      finds a journal without a marker and blocks, with good reason so far; then the container
      writes the marker and replaces the database, under running writers. */
  lemma BlockedMayTurnFalse(w: World, r: RestoreRequest, backup: ArtifactId, phase: RestorePhase, now: Time)
    requires AtTheExecutor(w, r, backup)
    ensures LeftRunning(w, Abandoned(w, r), r, r.artifact.artifactId)
    ensures var left := Abandoned(w, r);
      Open(left, r) && FavourableWord(left.control, r) == Blocked && MayBlock(left, r)
    ensures var t := Terminated(r, Blocked, Some(InterruptedBeforeMutation), Some(phase), now);
      var ended := Concluded(Abandoned(w, r), t, Some(backup), false, now);
      OvertakenLater(w, ended, Overtaken(ended, r), r, Blocked) && !Truthful(Overtaken(ended, r), r, Blocked)
  {
    hide Inv, MayEnd, Terminated, Open, MayBlock, EndedWell, Armed, Untouched;
    AbandonedStaysOpen(w, r, backup);
    ConcludedTurns(w, Abandoned(w, r), r, Blocked, InterruptedBeforeMutation, phase, backup, false, now);
  }

  /** The word was true, with all documents in order; later the artifact is in the database,
      and it came there under running writers. */
  ghost predicate OvertakenLater(w: World, ended: World, after: World, r: RestoreRequest, result: RestoreResult) {
    && Inv(ended) && EndedWell(ended, result, true) && Truthful(ended, r, result)
    && Inv(after) && EndedWith(after.control, result) && after.control.marker == Some(r.operationId) && after.past.exposed
    && after.past.before == w.past.before && r.artifact.artifactId in w.data.artifacts
    && after.data == Store(w.data.artifacts[r.artifact.artifactId], w.data.artifacts)
  }

  /** A word written over an abandoned container stands until the container goes on. */
  lemma ConcludedTurns(w: World, back: World, r: RestoreRequest, result: RestoreResult, reason: MachineReason, phase: RestorePhase,
                       backup: ArtifactId, destructive: bool, now: Time)
    requires AtTheExecutor(w, r, backup) && result in {Blocked, FailedRolledBack}
    requires Inv(back) && MayEnd(back, r, result, Some(reason)) && !back.past.disturbed && back.control.request == Some(r)
    requires back.survivors == Abandoned(w, r).survivors && back.data.artifacts == w.data.artifacts
    requires back.past.before == w.past.before
    ensures var t := Terminated(r, result, Some(reason), Some(phase), now);
      var ended := Concluded(back, t, Some(backup), destructive, now);
      OvertakenLater(w, ended, Overtaken(ended, r), r, result)
  {
    hide Inv, AfterSurvivors, EndingEvent, EndingPayload, Agreed, ValidateRestoreRequest;
    var t := Terminated(r, result, Some(reason), Some(phase), now);
    var ended := Concluded(back, t, Some(backup), destructive, now);
    MayEndIsSession(back, r, result, Some(reason));
    ConcludedIsFinished(back, r, result, reason, phase, Some(backup), destructive, now);
    ConcludingKeepsInv(back, r, result, reason, phase, Some(backup), destructive, now);
    OvertakenFacts(ended, r);
    SurvivorsKeepInv(ended, [(Survivor(r.operationId, r.artifact.artifactId, false), Marks),
                             (Survivor(r.operationId, r.artifact.artifactId, true), Restores)]);
  }

  /** The call saw every service come back. */
  function Recovered(w: World): World {
    w.(past := w.past.(services := SERVICES))
  }

  lemma RestoredMayEnd(w: World, back: World, r: RestoreRequest, backup: ArtifactId)
    requires AtTheExecutor(w, r, backup)
    requires RestoredBy(Abandoned(w, r), back, r, backup) && back.data.content == back.data.artifacts[backup]
    requires !back.past.disturbed
    ensures Inv(Recovered(back)) && MayEnd(Recovered(back), r, FailedRolledBack, Some(ExecutorFailed))
    ensures back.control.request == Some(r)
    ensures back.past.before == Some(w.data.artifacts[backup]) && w.past.before == back.past.before
  {
    AbandonedStaysOpen(w, r, backup);
    RestoreKeepsInv(Abandoned(w, r), back, r, backup, backup);
    ServicesAreFree(back, SERVICES);
  }

  /** `failed_rolled_back` fails in the same way: the call times out, the handler puts the
      database back on its backup, sees the services come back and says so; then the container
      goes on. */
  lemma RolledBackMayTurnFalse(w: World, back: World, r: RestoreRequest, backup: ArtifactId, phase: RestorePhase, now: Time)
    requires AtTheExecutor(w, r, backup)
    requires RestoredBy(Abandoned(w, r), back, r, backup) && back.data.content == back.data.artifacts[backup]
    requires !back.past.disturbed
    ensures Inv(Recovered(back)) && MayEnd(Recovered(back), r, FailedRolledBack, Some(ExecutorFailed))
    ensures var t := Terminated(r, FailedRolledBack, Some(ExecutorFailed), Some(phase), now);
      var ended := Concluded(Recovered(back), t, Some(backup), true, now);
      && OvertakenLater(w, ended, Overtaken(ended, r), r, FailedRolledBack)
      && (Truthful(Overtaken(ended, r), r, FailedRolledBack)
          <==> DescendsFrom(w.data.artifacts[r.artifact.artifactId], w.data.artifacts[backup]))
  {
    hide Inv, MayEnd, Terminated, EndedWell, Armed, Untouched;
    RestoredMayEnd(w, back, r, backup);
    ConcludedTurns(w, Recovered(back), r, FailedRolledBack, ExecutorFailed, phase, backup, true, now);
  }

  // ---------------------------------------------------------------------------
  // Activations resumed during a restore
  // ---------------------------------------------------------------------------

  /** A shell resumes the unsettled activation, which settles: the writers run, unfenced. */
  function Resumed(w: World): World {
    w.(fleet := Fleet(WRITERS, WRITERS), pending := false, past := w.past.(resumed := true))
  }

  /** A restore is admitted beside an unsettled activation: nothing in the admission asks for
      the activation journal. */
  lemma AdmittedBesideActivation(w: World, candidate: RestoreRequest)
    requires Inv(w) && NewRequest(w, candidate) && w.pending
    ensures Inv(AdmittedWorld(w, candidate)) && AdmittedWorld(w, candidate).pending
  {
    AdmissionKeepsInv(w, candidate);
  }

  /** If the activation is then resumed once everything is prepared, the restore replaces the
      database under running writers, although every document demands isolation. */
  lemma ResumedActivationExposes(w: World, r: RestoreRequest, backup: ArtifactId)
    requires Untouched(w, r) && Armed(w, backup) && Isolated(w) && r.artifact.artifactId in w.data.artifacts && w.pending
    ensures Interfered(w, Resumed(w)) && Inv(Resumed(w)) && Fencing(Resumed(w).control) && !Isolated(Resumed(w))
    ensures forall e: Event :: e.fate == Done ==>
      var v := Executed(Resumed(w), e, r, r.artifact.artifactId);
      Inv(v) && v.past.exposed && v.fleet == Fleet(WRITERS, WRITERS) && v.control.marker == Some(r.operationId)
  {
    hide Inv;
    var u := Resumed(w);
    UntouchedFacts(w, r);
    FencingForbidsUnfencing(w.control);
    InterferenceKeepsInv(w, u);
    forall e: Event | e.fate == Done
      ensures var v := Executed(u, e, r, r.artifact.artifactId);
        Inv(v) && v.past.exposed && v.fleet == Fleet(WRITERS, WRITERS) && v.control.marker == Some(r.operationId)
    {
      ExecutionCases(u, e, r, r.artifact.artifactId);
      RestoreKeepsInv(u, Executed(u, e, r, r.artifact.artifactId), r, r.artifact.artifactId, backup);
    }
  }

  lemma UntouchedFacts(w: World, r: RestoreRequest)
    requires Untouched(w, r)
    ensures Inv(w) && w.control.request == Some(r) && r.state == Claimed
  {
  }

  /** Steps of the environment in which no activation is opened. */
  ghost predicate IsSchedule(w: World, path: seq<World>) {
    && path != [] && path[0] == w
    && forall k: nat :: k < |path| - 1 ==> Unopened(path, k)
  }

  ghost predicate Unopened(path: seq<World>, k: nat)
    requires k < |path| - 1
  {
    Interfered(path[k], path[k + 1]) && (path[k + 1].pending ==> path[k].pending)
  }

  lemma {:induction false} SettledStaysIsolated(w: World, path: seq<World>, k: nat)
    requires IsSchedule(w, path) && k < |path| && Isolated(w) && !MayUnfence(w.control) && !w.pending
    ensures Isolated(path[k]) && !MayUnfence(path[k].control) && !path[k].pending
  {
    hide Decision;
    if k > 0 {
      SettledStaysIsolated(w, path, k - 1);
      assert Unopened(path, k - 1);
      SameFilesDecide(path[k - 1].control, path[k].control);
    }
  }

  /** While the restore demands isolation, it lasts through every schedule in which no
      activation is opened exactly if none is unsettled.  Whether one is can be seen before
      the restore is admitted. */
  lemma IsolationLastsExactly(w: World)
    requires Isolated(w) && !MayUnfence(w.control)
    ensures !w.pending <==> forall path: seq<World>, k: nat :: IsSchedule(w, path) && k < |path| ==> Isolated(path[k])
  {
    if w.pending {
      var path := [w, Resumed(w)];
      assert Interfered(w, Resumed(w));
      assert Unopened(path, 0);
      assert IsSchedule(w, path) && !Isolated(path[1]);
    } else {
      forall path: seq<World>, k: nat | IsSchedule(w, path) && k < |path|
        ensures Isolated(path[k])
      {
        SettledStaysIsolated(w, path, k);
      }
    }
  }
}
