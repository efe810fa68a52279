/** The restore handler: forward restore, rollback to the verified backup, and what becomes
    of an interrupted or failed pass. */
module RestoreHandler {
  import opened Wrappers
  import opened RestoreControl
  import opened RestoreInstallation
  import opened RestoreEffects
  import opened RestoreFinish

  /** Both writers run, and the daemon may restart them. */
  predicate InService(f: Fleet) {
    f.running == WRITERS && f.always == WRITERS
  }

  /** How a pass ends when nothing fails in it: the request has its terminal word, the
      derived documents agree with it, and in a calm environment the writers are back. */
  ghost predicate EndedWell(w: World, result: RestoreResult, calm: bool) {
    EndedWith(w.control, result) && Agreed(w.control) && (calm ==> InService(w.fleet))
  }

  lemma RunningWriters(f: Fleet)
    ensures WRITERS <= f.running && f.always == WRITERS ==> InService(f)
  {
    forall x | x in f.running
      ensures x in WRITERS
    {
      match x
      case Api =>
      case Recorder =>
    }
  }

  /** The claimed request is still on disk. */
  predicate Alive(c: Control, r: RestoreRequest) {
    c.request == Some(r) && r.state == Claimed && ValidateRestoreRequest(r)
  }

  /** A rollback may begin: if the request is still open, its backup is on record. */
  predicate MayRollBack(w: World, r: RestoreRequest, backup: Option<ArtifactId>) {
    && Session(w.control, r) && WellNamed(backup)
    && (w.control.request == Some(r) ==> backup.Some? && Armed(w, backup.value))
  }

  /** The database stands where `result` would say it does unless a survivor moved it, or the
      request is over. */
  ghost predicate StandsOn(w: World, r: RestoreRequest, backup: ArtifactId, result: RestoreResult) {
    && Inv(w) && Session(w.control, r) && IsArtifactId(backup)
    && (w.control.request == Some(r) ==> Armed(w, backup) && (!w.past.disturbed ==> Truthful(w, r, result)))
  }

  lemma StandingIsPassive(w: World, v: World, r: RestoreRequest, backup: ArtifactId, result: RestoreResult)
    requires Passive(w, v) && StandsOn(w, r, backup, result)
    ensures StandsOn(v, r, backup, result)
  {
    if w.control.request == Some(r) && !v.past.disturbed {
      DriftKeepsTruth(w, v, r, result);
    }
  }

  lemma StandingPublishes(w: World, v: World, r: RestoreRequest, backup: ArtifactId, result: RestoreResult, phase: RestorePhase)
    requires StandsOn(w, r, backup, result) && phase in FENCED_RESTORE_PHASES
    requires Drifted(w, v) && (Publishable(w, r, phase, Some(backup)) ==> Inv(v))
    requires SameFiles(w.control.(journal := v.control.journal, published := v.control.published), v.control)
    requires v.control.journal in {w.control.journal, Some(JournalEvent(r, Operational(phase), Some(backup), true, None, None))}
    ensures StandsOn(v, r, backup, result)
  {
    if w.control.request == Some(r) && !v.past.disturbed {
      DriftKeepsTruth(w, v, r, result);
    }
  }

  lemma StandingIsSound(w: World, r: RestoreRequest, backup: ArtifactId, result: RestoreResult)
    requires StandsOn(w, r, backup, result)
    ensures Inv(w) && Session(w.control, r) && MayRollBack(w, r, Some(backup))
    ensures (HasOpen(w.control) ==> w.past.services == SERVICES) ==>
      forall reason: Option<MachineReason> :: WellEnded(result, reason) && result != FailedRecoveryRequired ==> MayEnd(w, r, result, reason)
  {
  }

  lemma StandingIgnoresServices(w: World, services: set<ServiceProof>, r: RestoreRequest, backup: ArtifactId, result: RestoreResult)
    requires HasOpen(w.control) && StandsOn(w, r, backup, result)
    ensures StandsOn(w.(past := w.past.(services := services)), r, backup, result)
  {
    ServicesAreFree(w, services);
  }

  /** Keeps that one more service came back. */
  ghost method NoteService(h: Host, proof: ServiceProof, r: RestoreRequest, backup: ArtifactId, result: RestoreResult)
    modifies h`past
    ensures h.past == if HasOpen(h.control) then old(h.past).(services := old(h.past.services) + {proof}) else old(h.past)
    ensures StandsOn(old(h.Now()), r, backup, result) ==> StandsOn(h.Now(), r, backup, result)
  {
    hide StandsOn, Inv, AllSucceed, AllFavour, AllCalm, AllAttended;
    if StandsOn(h.Now(), r, backup, result) && HasOpen(h.control) {
      StandingIgnoresServices(h.Now(), h.past.services + {proof}, r, backup, result);
    }
    h.Note(h.past.services + {proof});
  }

  /** A phase is published while the database stands where it was put. */
  method PublishStanding(h: Host, r: RestoreRequest, phase: RestorePhase, backup: ArtifactId, ghost result: RestoreResult)
    returns (o: Outcome<(), Trouble>)
    requires phase in FENCED_RESTORE_PHASES
    modifies h
    ensures h.control.request == old(h.control.request) && h.past.services == old(h.past.services)
    ensures StandsOn(old(h.Now()), r, backup, result) ==> StandsOn(h.Now(), r, backup, result)
    ensures o.Returned? ==> h.control.journal == Some(JournalEvent(r, Operational(phase), Some(backup), true, None, None))
    ensures o.Raised? ==> Fits(o.error, h.control)
    ensures old(h.Calm()) ==> h.Calm() && old(h.fleet.running) <= h.fleet.running
    ensures old(h.Favourable()) ==> h.Favourable() && o.Returned?
  {
    hide StandsOn, Inv, Drifted, Publishable, Fencing, AllSucceed, AllFavour, AllCalm, AllAttended;
    ghost var before := h.Now();
    o := PublishRestorePhase(h, r, phase, Some(backup), true);
    if StandsOn(before, r, backup, result) {
      StandingIsSound(before, r, backup, result);
      StandingPublishes(before, h.Now(), r, backup, result, phase);
    }
  }

  method StartStanding(h: Host, r: RestoreRequest, writer: Writer, backup: ArtifactId, ghost result: RestoreResult)
    returns (o: Outcome<(), Trouble>)
    modifies h
    ensures SameFiles(old(h.control), h.control)
    ensures StandsOn(old(h.Now()), r, backup, result) ==> StandsOn(h.Now(), r, backup, result)
    ensures var proof := if writer == Api then ApiStarted else RecorderStarted;
      h.past.services == old(h.past.services) + if o.Returned? && HasOpen(h.control) then {proof} else {}
    ensures o.Raised? ==> Fits(o.error, h.control)
    ensures old(h.Calm()) ==> h.Calm() && old(h.fleet.running) <= h.fleet.running
    ensures old(h.Calm()) && o.Returned? ==> writer in h.fleet.running
    ensures old(h.Favourable()) ==> h.Favourable() && o.Returned?
  {
    hide StandsOn, Inv, Passive, AllSucceed, AllFavour, AllCalm, AllAttended;
    ghost var before := h.Now();
    if writer == Api {
      o := StartWriter(h, Api, ApiStartFailed);
    } else {
      o := StartRecorderWithProof(h);
    }
    if StandsOn(before, r, backup, result) {
      StandingIsPassive(before, h.Now(), r, backup, result);
    }
    if o.Returned? {
      NoteService(h, if writer == Api then ApiStarted else RecorderStarted, r, backup, result);
    }
  }

  method CheckStanding(h: Host, r: RestoreRequest, backup: ArtifactId, ghost result: RestoreResult) returns (o: Outcome<Event, Trouble>)
    modifies h
    ensures SameFiles(old(h.control), h.control)
    ensures h.past.services == old(h.past.services) + if o.Returned? && HasOpen(h.control) then {PostChecked} else {}
    ensures StandsOn(old(h.Now()), r, backup, result) ==> StandsOn(h.Now(), r, backup, result)
    ensures o.Raised? ==> Fits(o.error, h.control)
    ensures old(h.Calm()) ==> h.Calm() && old(h.fleet.running) <= h.fleet.running
    ensures old(h.Favourable()) ==> h.Favourable() && o.Returned?
  {
    hide StandsOn, Inv, Passive, AllSucceed, AllFavour, AllCalm, AllAttended;
    ghost var before := h.Now();
    o := Observe(h);
    if StandsOn(before, r, backup, result) {
      StandingIsPassive(before, h.Now(), r, backup, result);
    }
    if o.Returned? {
      NoteService(h, PostChecked, r, backup, result);
    }
  }

  /** The steps of a rollback that may each leave the installation to an operator.  What raises
      anywhere else, or stops the writers with another error than the helper's, is left to the
      caller. */
  datatype RollbackStep = Isolating | Restoring | StartingApi | Checking | StartingRecorder | Unhandled(stopping: bool)

  function RecoveryReason(step: RollbackStep): MachineReason
    requires !step.Unhandled?
  {
    match step
    case Isolating => RollbackIsolationFailed
    case Restoring => RollbackDatabaseFailed
    case StartingApi => RollbackApiRecoveryFailed
    case Checking => RollbackValidationFailed
    case StartingRecorder => RollbackRecorderRecoveryFailed
  }

  function RecoveryPhase(step: RollbackStep): RestorePhase
    requires !step.Unhandled?
  {
    match step
    case Isolating => WritersPaused
    case Restoring => RestoreRunning
    case StartingApi => ServicesStarting
    case Checking => PostRestoreCheck
    case StartingRecorder => PostRestoreCheck
  }

  /** A step of a rollback that raised, and the world it left behind. */
  datatype Setback = Setback(step: RollbackStep, at: nat, world: World)

  /** From this point and this world on nothing fails, and no survivor is left. */
  ghost predicate FavourableFrom(oracle: nat -> Event, at: nat, w: World) {
    AllSucceed(oracle, at) && w.survivors == {} && AllFavour(oracle, at, w.data.artifacts.Keys)
  }

  /** After a setback that the rollback handles nothing fails any more. */
  ghost predicate Overcome(oracle: nat -> Event, s: Setback) {
    !s.step.Unhandled? && FavourableFrom(oracle, s.at, s.world)
  }

  /** Every document says that recovery is required, for the reason and the phase of the step,
      and the installation is still to be isolated. */
  ghost predicate LeftToRecover(c: Control, step: RollbackStep)
    requires !step.Unhandled?
  {
    && EndedFor(c, FailedRecoveryRequired, Some(RecoveryReason(step)), Some(RecoveryPhase(step)))
    && Agreed(c) && Decision(c) == Success(true)
  }

  /** `recovery_required`: nothing is claimed about the database, and the fence stays. */
  method RecoveryRequired(h: Host, r: RestoreRequest, backup: Option<ArtifactId>, reason: MachineReason, phase: RestorePhase)
    returns (o: Outcome<(), Trouble>)
    modifies h
    ensures Inv(old(h.Now())) && Session(old(h.control), r) && WellNamed(backup)
      && (HasOpen(old(h.control)) ==> Served(old(h.past.services), FailedRecoveryRequired, Some(reason)))
      ==> Inv(h.Now()) && Session(h.control, r)
    ensures o.Returned? ==>
      EndedFor(h.control, FailedRecoveryRequired, Some(reason), Some(phase)) && EndedWith(h.control, FailedRecoveryRequired)
    ensures old(h.Favourable()) && Alive(old(h.control), r) ==>
      o.Returned? && Agreed(h.control) && Decision(h.control) == Success(true)
    ensures old(h.Calm()) ==> h.Calm() && old(h.fleet.running) <= h.fleet.running
    ensures old(h.Favourable()) ==> h.Favourable()
  {
    hide Inv, AllSucceed, AllFavour, AllCalm, AllAttended;
    o := FinishRestoreRequest(h, r, FailedRecoveryRequired, Some(reason), backup, true, Some(phase));
  }

  /** A step of the rollback raised before the services were touched. */
  method LeaveToRecover(h: Host, r: RestoreRequest, backup: Option<ArtifactId>, reason: MachineReason, phase: RestorePhase,
                        ghost step: RollbackStep)
    returns (o: Outcome<(), Trouble>, ghost setback: Option<Setback>)
    requires step in {Isolating, Restoring} && reason == RecoveryReason(step) && phase == RecoveryPhase(step)
    modifies h
    ensures Inv(old(h.Now())) && Session(old(h.control), r) && WellNamed(backup) ==> Inv(h.Now()) && Session(h.control, r)
    ensures setback == Some(Setback(step, old(h.clock), old(h.Now())))
    ensures o.Returned? ==> EndedWith(h.control, FailedRecoveryRequired)
    ensures Overcome(h.oracle, setback.value) && Alive(old(h.control), r) ==> o.Returned? && LeftToRecover(h.control, step)
    ensures old(h.Calm()) ==> h.Calm() && old(h.fleet.running) <= h.fleet.running
    ensures old(h.Favourable()) ==> h.Favourable()
  {
    hide Inv, Session, EndedFor, Agreed, Decision, AllSucceed, AllFavour, AllCalm, AllAttended;
    setback := Some(Setback(step, h.clock, h.Now()));
    o := RecoveryRequired(h, r, backup, reason, phase);
  }

  function SourceOf(r: RestoreRequest, backup: ArtifactId, result: RestoreResult): ArtifactId {
    if result == Completed then r.artifact.artifactId else backup
  }

  /** A restore may begin: isolated, with everything a rollback needs on disk. */
  ghost predicate MayRestore(w: World, r: RestoreRequest, backup: ArtifactId) {
    Inv(w) && MayRollBack(w, r, Some(backup)) && (w.control.request == Some(r) ==> Sealed(w))
  }

  /** The executor puts the database on the chosen artifact, or back on the backup. */
  method RestoreOnto(h: Host, r: RestoreRequest, backup: ArtifactId, result: RestoreResult) returns (o: Outcome<(), Trouble>)
    requires result in {Completed, FailedRolledBack}
    modifies h
    ensures h.control.request == old(h.control.request)
    ensures h.data.artifacts == old(h.data.artifacts)
    ensures MayRestore(old(h.Now()), r, backup) ==> Inv(h.Now()) && MayRollBack(h.Now(), r, Some(backup))
    ensures MayRestore(old(h.Now()), r, backup) && o.Returned? ==> StandsOn(h.Now(), r, backup, result)
    ensures o.Raised? ==> Fits(o.error, h.control)
    ensures old(h.Calm()) ==> h.Calm() && old(h.fleet.running) <= h.fleet.running
    ensures old(h.Favourable()) ==> h.Favourable()
    ensures old(h.Favourable()) && Alive(old(h.control), r) && SourceOf(r, backup, result) in h.data.artifacts ==>
      o.Returned?
  {
    hide Inv, Passive, Fencing, StandsOn, AllSucceed, AllFavour, AllCalm, AllAttended;
    ghost var before := h.Now();
    var restored := RunRestore(h, r, SourceOf(r, backup, result));
    if MayRestore(before, r, backup) {
      AfterRestore(before, h.eve, h.Now(), r, backup, result);
    }
    ghost var middle := h.Now();
    var _ :- restored;
    o := InvalidateIntegrity(h, r);
    if MayRestore(before, r, backup) {
      StandingIsPassive(middle, h.Now(), r, backup, result);
      StandingIsSound(h.Now(), r, backup, result);
    }
  }

  lemma AfterRestore(w: World, eve: World, v: World, r: RestoreRequest, backup: ArtifactId, result: RestoreResult)
    requires MayRestore(w, r, backup) && result in {Completed, FailedRolledBack}
    requires Passive(w, eve) && Sheltered(w, eve)
    requires v == eve || RestoredBy(eve, v, r, SourceOf(r, backup, result)) || LeftRunning(eve, v, r, SourceOf(r, backup, result))
    ensures Inv(v) && MayRollBack(v, r, Some(backup))
    ensures RestoredBy(eve, v, r, SourceOf(r, backup, result)) ==>
      (v.past.disturbed || v.data.content == v.data.artifacts[SourceOf(r, backup, result)] ==> StandsOn(v, r, backup, result))
  {
    if w.control.request == Some(r) {
      FencingForbidsUnfencing(w.control);
      SameFilesDecide(w.control, eve.control);
      if v != eve {
        RestoreKeepsInv(eve, v, r, SourceOf(r, backup, result), backup);
      }
    }
  }

  /** Services come back up after a rollback; each failure names the recovery reason. */
  method RecoverServices(h: Host, r: RestoreRequest, backup: ArtifactId)
    returns (o: Outcome<Option<(MachineReason, RestorePhase)>, Trouble>, ghost setback: Option<Setback>)
    modifies h
    ensures h.control.request == old(h.control.request)
    ensures StandsOn(old(h.Now()), r, backup, FailedRolledBack) ==> StandsOn(h.Now(), r, backup, FailedRolledBack)
    ensures o == Returned(None) && HasOpen(h.control) ==> h.past.services == SERVICES
    ensures setback.Some? <==> o.Raised? || (o.Returned? && o.value.Some?)
    ensures setback.Some? ==> (setback.value.step == Unhandled(false) <==> o.Raised?) && setback.value.step != Unhandled(true)
    ensures o.Returned? && o.value.Some? ==> SetBackNow(h, setback.value, r, backup, o.value.value.0, o.value.value.1)
    ensures old(h.Calm()) ==> h.Calm() && old(h.fleet.running) <= h.fleet.running
    ensures old(h.Calm()) && o == Returned(None) ==> WRITERS <= h.fleet.running
    ensures old(h.Favourable()) ==> h.Favourable() && o == Returned(None)
  {
    hide StandsOn, Inv, AllSucceed, AllFavour, AllCalm, AllAttended;
    setback := None;
    ClearServices(h, r, backup, FailedRolledBack);
    var published := PublishStanding(h, r, ServicesStarting, backup, FailedRolledBack);
    if published.Raised? {
      setback := Some(Setback(Unhandled(false), h.clock, h.Now()));
    }
    var _ :- published;
    var api := StartStanding(h, r, Api, backup, FailedRolledBack);
    if api.Raised? {
      return Returned(Some((RollbackApiRecoveryFailed, ServicesStarting))), Some(Setback(StartingApi, h.clock, h.Now()));
    }
    var _ :- api;
    o, setback := ProveServices(h, r, backup);
  }

  /** The API is up: the check of the database, and the recorder. */
  method ProveServices(h: Host, r: RestoreRequest, backup: ArtifactId)
    returns (o: Outcome<Option<(MachineReason, RestorePhase)>, Trouble>, ghost setback: Option<Setback>)
    modifies h
    ensures h.control.request == old(h.control.request)
    ensures StandsOn(old(h.Now()), r, backup, FailedRolledBack) ==> StandsOn(h.Now(), r, backup, FailedRolledBack)
    ensures setback.Some? <==> o.Raised? || (o.Returned? && o.value.Some?)
    ensures setback.Some? ==> (setback.value.step == Unhandled(false) <==> o.Raised?) && setback.value.step != Unhandled(true)
    ensures HasOpen(h.control) && old(h.past.services) == {ApiStarted} && o == Returned(None) ==> h.past.services == SERVICES
    ensures (HasOpen(h.control) ==> old(h.past.services) == {ApiStarted}) && o.Returned? && o.value.Some? ==>
      SetBackNow(h, setback.value, r, backup, o.value.value.0, o.value.value.1)
    ensures old(h.Calm()) ==> h.Calm() && old(h.fleet.running) <= h.fleet.running
    ensures old(h.Calm()) && o == Returned(None) ==> Recorder in h.fleet.running
    ensures old(h.Favourable()) ==> h.Favourable() && o == Returned(None)
  {
    hide StandsOn, Inv, JournalEvent, Fits, AllSucceed, AllFavour, AllCalm, AllAttended;
    setback := None;
    var published := PublishStanding(h, r, PostRestoreCheck, backup, FailedRolledBack);
    if published.Raised? {
      setback := Some(Setback(Unhandled(false), h.clock, h.Now()));
    }
    var _ :- published;
    var checked := CheckStanding(h, r, backup, FailedRolledBack);
    if checked.Raised? {
      return Returned(Some((RollbackValidationFailed, PostRestoreCheck))), Some(Setback(Checking, h.clock, h.Now()));
    }
    var _ :- checked;
    var recorder := StartStanding(h, r, Recorder, backup, FailedRolledBack);
    if recorder.Raised? {
      return Returned(Some((RollbackRecorderRecoveryFailed, PostRestoreCheck))), Some(Setback(StartingRecorder, h.clock, h.Now()));
    }
    var _ :- recorder;
    o := Returned(None);
  }

  /** A call begins without having seen any service. */
  ghost method ClearServices(h: Host, r: RestoreRequest, backup: ArtifactId, result: RestoreResult)
    modifies h`past
    ensures h.past == if HasOpen(h.control) then old(h.past).(services := {}) else old(h.past)
    ensures StandsOn(old(h.Now()), r, backup, result) ==> StandsOn(h.Now(), r, backup, result)
  {
    hide StandsOn, Inv, AllSucceed, AllFavour, AllCalm, AllAttended;
    if StandsOn(h.Now(), r, backup, result) && HasOpen(h.control) {
      StandingIgnoresServices(h.Now(), {}, r, backup, result);
    }
    h.Note({});
  }

  /** The setback just happened, in the phase on record, and its step calls for this reason and
      phase, to which the services seen so far testify. */
  ghost predicate SetBackNow(h: Host, s: Setback, r: RestoreRequest, backup: ArtifactId, reason: MachineReason, phase: RestorePhase)
    reads h
  {
    && s.at == h.clock && s.world == h.Now() && !s.step.Unhandled?
    && h.control.journal == Some(JournalEvent(r, Operational(phase), Some(backup), true, None, None))
    && reason == RecoveryReason(s.step) && phase == RecoveryPhase(s.step)
    && (HasOpen(h.control) ==> Served(h.past.services, FailedRecoveryRequired, Some(reason)))
  }

  lemma OvercomeIsFavourable(h: Host, s: Setback, r: RestoreRequest, backup: ArtifactId, reason: MachineReason, phase: RestorePhase)
    requires SetBackNow(h, s, r, backup, reason, phase)
    ensures Overcome(h.oracle, s) <==> h.Favourable()
  {
  }

  /** The last steps of a rollback whose database part succeeded.  If a service does not come
      back and nothing fails after that, recovery is required for just that reason. */
  method ConcludeRollback(h: Host, r: RestoreRequest, backup: ArtifactId, reason: MachineReason, failedPhase: RestorePhase)
    returns (o: Outcome<(), Trouble>, ghost setback: Option<Setback>)
    modifies h
    ensures StandsOn(old(h.Now()), r, backup, FailedRolledBack) ==> Inv(h.Now()) && Session(h.control, r)
    ensures setback.Some? && o.Returned? ==> EndedWith(h.control, FailedRecoveryRequired)
    ensures (o.Raised? ==> setback.Some?) && (setback.Some? ==> setback.value.step != Unhandled(true))
    ensures setback.None? && o.Returned? ==> EndedFor(h.control, FailedRolledBack, Some(reason), Some(failedPhase))
    ensures setback.Some? && Overcome(h.oracle, setback.value) && Alive(old(h.control), r) ==>
      o.Returned? && LeftToRecover(h.control, setback.value.step)
    ensures old(h.Favourable()) && Alive(old(h.control), r) ==>
      setback.None? && o.Returned? && EndedWell(h.Now(), FailedRolledBack, old(h.Calm()))
  {
    hide StandsOn, Inv, Passive, MayEnd, EndedFor, FavourableFrom, AllSucceed, AllFavour, AllCalm, AllAttended;
    ghost var before := h.Now();
    var recovered;
    recovered, setback := RecoverServices(h, r, backup);
    if StandsOn(before, r, backup, FailedRolledBack) {
      StandingIsSound(h.Now(), r, backup, FailedRolledBack);
    }
    var problem :- recovered;
    if problem.Some? {
      OvercomeIsFavourable(h, setback.value, r, backup, problem.value.0, problem.value.1);
      o := RecoveryRequired(h, r, Some(backup), problem.value.0, problem.value.1);
      return;
    }
    o := EndRolledBack(h, r, backup, reason, failedPhase);
    if o.Raised? {
      setback := Some(Setback(Unhandled(false), h.clock, h.Now()));
    }
  }

  /** The proven outcome of a rollback. */
  method EndRolledBack(h: Host, r: RestoreRequest, backup: ArtifactId, reason: MachineReason, failedPhase: RestorePhase)
    returns (o: Outcome<(), Trouble>)
    modifies h
    ensures Inv(old(h.Now())) && MayEnd(old(h.Now()), r, FailedRolledBack, Some(reason)) && IsArtifactId(backup) ==>
      Inv(h.Now()) && Session(h.control, r)
    ensures o.Returned? ==> EndedFor(h.control, FailedRolledBack, Some(reason), Some(failedPhase))
    ensures old(h.Favourable()) && Alive(old(h.control), r) ==>
      o.Returned? && EndedWell(h.Now(), FailedRolledBack, old(h.Calm()) && WRITERS <= old(h.fleet.running))
  {
    hide Inv, Passive, MayEnd, EndedFor, AllSucceed, AllFavour, AllCalm, AllAttended;
    var _ :- FinishRestoreRequest(h, r, FailedRolledBack, Some(reason), Some(backup), true, Some(failedPhase));
    ghost var middle := h.Now();
    o := ScheduleIntegrity(h);
    PassiveDrifts(middle, h.Now());
    EndedForStays(middle.control, h.control, FailedRolledBack, Some(reason), Some(failedPhase));
    RunningWriters(h.fleet);
  }

  lemma RollBackStaysOpen(w: World, v: World, r: RestoreRequest, backup: Option<ArtifactId>)
    requires Passive(w, v) && MayRollBack(w, r, backup)
    ensures MayRollBack(v, r, backup)
  {
  }

  /** The rollback once the writers are stopped. */
  method RollbackIsolated(h: Host, r: RestoreRequest, backup: ArtifactId, reason: MachineReason, failedPhase: RestorePhase)
    returns (o: Outcome<(), Trouble>, ghost setback: Option<Setback>)
    modifies h
    ensures MayRestore(old(h.Now()), r, backup) ==> Inv(h.Now()) && Session(h.control, r)
    ensures setback.Some? && o.Returned? ==> EndedWith(h.control, FailedRecoveryRequired)
    ensures (o.Raised? ==> setback.Some?) && (setback.Some? ==> setback.value.step != Unhandled(true))
    ensures setback.None? && o.Returned? ==> EndedFor(h.control, FailedRolledBack, Some(reason), Some(failedPhase))
    ensures setback.Some? && Overcome(h.oracle, setback.value) && Alive(old(h.control), r) ==>
      o.Returned? && LeftToRecover(h.control, setback.value.step)
    ensures old(h.Favourable()) && Alive(old(h.control), r) && backup in old(h.data.artifacts) ==>
      setback.None? && o.Returned? && EndedWell(h.Now(), FailedRolledBack, old(h.Calm()))
  {
    hide Inv, FavourableFrom, LeftToRecover, StandsOn, MayRollBack, MayRestore, EndedFor, AllSucceed, AllFavour, AllCalm,
      AllAttended;
    ghost var may := MayRestore(h.Now(), r, backup);
    setback := None;
    var restored := RestoreOnto(h, r, backup, FailedRolledBack);
    if may {
      RollBackIsSession(h.Now(), r, Some(backup));
    }
    if restored.Raised? {
      o, setback := LeaveToRecover(h, r, Some(backup), RollbackDatabaseFailed, RestoreRunning, Restoring);
      return;
    }
    var _ :- restored;
    o, setback := ConcludeRollback(h, r, backup, reason, failedPhase);
  }

  /** Rolls the database back to its verified backup, or records that recovery is required.
      Only the proven outcome is ever written as rolled back.  `setback` is the step that raised:
      if nothing fails after it, recovery is required for its reason, and the installation stays
      isolated. */
  method RollbackCurrentRestore(h: Host, r: RestoreRequest, backup: Option<ArtifactId>, reason: MachineReason, failedPhase: RestorePhase)
    returns (o: Outcome<(), Trouble>, ghost setback: Option<Setback>)
    modifies h
    ensures Inv(old(h.Now())) && MayRollBack(old(h.Now()), r, backup) ==> Inv(h.Now()) && Session(h.control, r)
    ensures (backup.None? || !IsArtifactId(backup.value)) && o.Returned? ==>
      setback.None? && EndedFor(h.control, FailedRecoveryRequired, Some(PreRestoreBackupMissing), Some(RestoreRunning))
    ensures setback.Some? && o.Returned? ==> EndedWith(h.control, FailedRecoveryRequired)
    ensures o.Raised? ==> setback.Some?
    ensures setback.Some? && setback.value.step == Unhandled(true) ==> o.Raised? && !o.error.HelperTrouble?
    ensures backup.Some? && IsArtifactId(backup.value) && setback.None? && o.Returned? ==>
      EndedFor(h.control, FailedRolledBack, Some(reason), Some(failedPhase))
    ensures setback.Some? && Overcome(h.oracle, setback.value) && Alive(old(h.control), r) ==>
      o.Returned? && LeftToRecover(h.control, setback.value.step)
    ensures old(h.Favourable()) && Alive(old(h.control), r) && Inv(old(h.Now())) && MayRollBack(old(h.Now()), r, backup) ==>
      setback.None? && o.Returned? && EndedWell(h.Now(), FailedRolledBack, old(h.Calm()))
  {
    hide Inv, FavourableFrom, LeftToRecover, Passive, MayRollBack, Fencing, Isolated, Sealed, EndedFor, Agreed, Decision,
      EndedWith, AllSucceed, AllFavour, AllCalm, AllAttended;
    ghost var before := h.Now();
    setback := None;
    if Inv(before) && MayRollBack(before, r, backup) {
      RollBackIsSession(before, r, backup);
      RollBackIsFencing(before, r, backup);
    }
    if backup.None? || !IsArtifactId(backup.value) {
      o := RecoveryRequired(h, r, backup, PreRestoreBackupMissing, RestoreRunning);
      if o.Raised? {
        setback := Some(Setback(Unhandled(false), h.clock, h.Now()));
      }
      return;
    }
    var stopped := StopRestoreWriters(h);
    PassiveDrifts(before, h.Now());
    if MayRollBack(before, r, backup) {
      RollBackStaysOpen(before, h.Now(), r, backup);
      if Inv(h.Now()) {
        RollBackIsFencing(h.Now(), r, backup);
      }
    }
    if stopped.Raised? && stopped.error.HelperTrouble? {
      o, setback := LeaveToRecover(h, r, backup, RollbackIsolationFailed, WritersPaused, Isolating);
      return;
    }
    if stopped.Raised? {
      setback := Some(Setback(Unhandled(true), h.clock, h.Now()));
    }
    var _ :- stopped;
    o, setback := RollbackIsolated(h, r, backup.value, reason, failedPhase);
  }

  lemma RollBackIsFencing(w: World, r: RestoreRequest, backup: Option<ArtifactId>)
    requires Inv(w) && MayRollBack(w, r, backup)
    ensures w.control.request == Some(r) ==> Fencing(w.control)
  {
  }

  lemma RollBackIsSession(w: World, r: RestoreRequest, backup: Option<ArtifactId>)
    requires MayRollBack(w, r, backup)
    ensures Session(w.control, r) && WellNamed(backup)
    ensures w.control.request == Some(r) ==>
      backup.Some? && IsArtifactId(backup.value) && backup.value in w.data.artifacts
  {
  }

  // ---------------------------------------------------------------------------
  // The forward restore
  // ---------------------------------------------------------------------------

  /** What the handler of a failed pass knows: where the pass was, and what it had begun. */
  datatype Progress = Progress(phase: RestorePhase, isolationAttempted: bool, backup: Option<ArtifactId>, destructive: bool)

  /** The claimed request is open and no restore of it ever began. */
  ghost predicate Untouched(w: World, r: RestoreRequest) {
    Inv(w) && w.control.request == Some(r) && r.state == Claimed && !Underway(w, r)
  }

  lemma UntouchedIsPassive(w: World, v: World, r: RestoreRequest)
    requires Passive(w, v) && Untouched(w, r)
    ensures Untouched(v, r)
  {
    PassiveStartsNothing(w, v, r);
  }

  lemma UntouchedFences(w: World, r: RestoreRequest, phase: RestorePhase, backup: Option<ArtifactId>, destructive: bool)
    requires Untouched(w, r) && phase in FENCED_RESTORE_PHASES
    requires w.control.journal == Some(JournalEvent(r, Operational(phase), backup, destructive, None, None))
    ensures Fencing(w.control) && !MayUnfence(w.control)
    ensures backup.Some? && Loaded(w, backup.value) ==> Armed(w, backup.value)
  {
  }

  method PublishUntouched(h: Host, r: RestoreRequest, phase: RestorePhase, backup: Option<ArtifactId>) returns (o: Outcome<(), Trouble>)
    modifies h
    ensures Untouched(old(h.Now()), r) && WellNamed(backup) ==> Untouched(h.Now(), r)
    ensures Since(old(h.past), h.past) && h.data.artifacts == old(h.data.artifacts)
    ensures o.Returned? ==> h.control.journal == Some(JournalEvent(r, Operational(phase), backup, false, None, None))
    ensures o.Raised? ==> Fits(o.error, h.control)
    ensures Untouched(old(h.Now()), r) && Sealed(old(h.Now())) && Fencing(old(h.control)) && phase in FENCED_RESTORE_PHASES ==>
      Sealed(h.Now())
    ensures old(h.Calm()) ==> h.Calm() && old(h.fleet.running) <= h.fleet.running
    ensures old(h.Favourable()) ==> h.Favourable() && o.Returned?
  {
    hide Inv, Fencing, DescendsFrom, Drifted, Underway, Since, AllSucceed, AllFavour, AllCalm, AllAttended;
    ghost var before := h.Now();
    if Inv(before) {
      InvPresents(before);
    }
    o := PublishRestorePhase(h, r, phase, backup, false);
    if Underway(h.Now(), r) {
      DriftStartsNothing(before, h.Now(), r);
    }
  }

  /** Fences and stops the writers; a normal return leaves the installation isolated. */
  method PauseWriters(h: Host, r: RestoreRequest) returns (o: Outcome<(), Trouble>)
    modifies h
    ensures h.data.artifacts == old(h.data.artifacts)
    ensures Untouched(old(h.Now()), r) ==> Untouched(h.Now(), r)
    ensures Untouched(old(h.Now()), r) && o.Returned? ==> Sealed(h.Now()) && Fencing(h.control)
    ensures o.Raised? ==> Fits(o.error, h.control)
    ensures old(h.Calm()) ==> h.Calm()
    ensures old(h.Favourable()) && Untouched(old(h.Now()), r) ==> h.Favourable() && o.Returned?
  {
    hide Untouched, Passive, Fencing, Inv, AllSucceed, AllFavour, AllCalm, AllAttended;
    ghost var before := h.Now();
    var _ :- PublishUntouched(h, r, WritersPaused, None);
    ghost var middle := h.Now();
    if Untouched(middle, r) {
      UntouchedFences(middle, r, WritersPaused, None, false);
    }
    o := StopRestoreWriters(h);
    SameFilesDecide(middle.control, h.control);
    if Untouched(middle, r) {
      UntouchedIsPassive(middle, h.Now(), r);
    }
  }

  /** Takes the verified backup of the isolated database. */
  method BackUp(h: Host, r: RestoreRequest) returns (o: Outcome<ArtifactId, Trouble>, reported: Option<ArtifactId>)
    modifies h
    ensures forall a :: a in old(h.data.artifacts) ==> a in h.data.artifacts
    ensures SameFiles(old(h.control), h.control)
    ensures Untouched(old(h.Now()), r) ==> Untouched(h.Now(), r)
    ensures Sealed(old(h.Now())) && Fencing(old(h.control)) ==> Sealed(h.Now()) && Fencing(h.control)
    ensures WellNamed(reported)
    ensures o.Returned? ==> reported == Some(o.value) && Loaded(h.Now(), o.value)
    ensures o.Raised? ==> Fits(o.error, h.control)
    ensures old(h.Calm()) ==> h.Calm() && old(h.fleet.running) <= h.fleet.running
    ensures old(h.Favourable()) && Serves(h.control, r) ==> h.Favourable() && o.Returned?
  {
    hide Inv, Fencing, MayUnfence, Underway, AllSucceed, AllFavour, AllCalm, AllAttended;
    reported := None;
    if Fencing(h.control) {
      FencingForbidsUnfencing(h.control);
    }
    ghost var before := h.control;
    var taken := TakePreRestoreBackup(h, r);
    SameFilesDecide(before, h.control);
    var report :- taken;
    reported := Some(report.backupId);
    if !IsArtifactId(report.backupId) || !report.verified {
      return Raised(HelperTrouble(PreRestoreBackupVerificationFailed, false)), reported;
    }
    o := Returned(report.backupId);
  }

  /** The backup of the isolated database, and the journal that names it. */
  method SecureBackup(h: Host, r: RestoreRequest) returns (o: Outcome<ArtifactId, Trouble>, at: Progress)
    modifies h
    ensures forall a :: a in old(h.data.artifacts) ==> a in h.data.artifacts
    ensures Untouched(old(h.Now()), r) ==> Untouched(h.Now(), r)
    ensures !at.destructive && at.isolationAttempted && WellNamed(at.backup)
    ensures Untouched(old(h.Now()), r) && Sealed(old(h.Now())) && Fencing(old(h.control)) && o.Returned? ==>
      Armed(h.Now(), o.value) && Sealed(h.Now())
    ensures o.Raised? ==> Fits(o.error, h.control)
    ensures old(h.Calm()) ==> h.Calm()
    ensures old(h.Favourable()) && Untouched(old(h.Now()), r) ==> h.Favourable() && o.Returned?
  {
    hide Untouched, Inv, Passive, Fencing, Armed, Loaded, AllSucceed, AllFavour, AllCalm, AllAttended;
    at := Progress(PreRestoreBackup, true, None, false);
    if Untouched(h.Now(), r) {
      UntouchedIsUnmarked(h.Now(), r);
    }
    var backup, reported := BackUp(h, r);
    at := at.(backup := reported);
    var id :- backup;
    ghost var middle := h.Now();
    at := at.(phase := RestoreRunning);
    var _ :- PublishUntouched(h, r, RestoreRunning, Some(id));
    if Untouched(h.Now(), r) {
      LoadedStays(middle, h.Now(), id);
      UntouchedFences(h.Now(), r, RestoreRunning, Some(id), false);
    }
    o := Returned(id);
  }

  /** From preflight to the published `restore_running`.  The database is not touched; a
      normal return leaves it isolated and everything for a rollback on disk. */
  method PrepareRestore(h: Host, r: RestoreRequest) returns (o: Outcome<ArtifactId, Trouble>, at: Progress)
    modifies h
    ensures forall a :: a in old(h.data.artifacts) ==> a in h.data.artifacts
    ensures Untouched(old(h.Now()), r) ==> Untouched(h.Now(), r)
    ensures !at.destructive && WellNamed(at.backup)
    ensures Untouched(old(h.Now()), r) && o.Returned? ==> Armed(h.Now(), o.value) && Sealed(h.Now())
    ensures o.Raised? ==> Fits(o.error, h.control)
    ensures old(h.Calm()) ==> h.Calm()
    ensures old(h.Favourable()) && Untouched(old(h.Now()), r) ==> h.Favourable() && o.Returned?
  {
    hide Untouched, Inv, Passive, Fencing, Armed, Loaded, AllSucceed, AllFavour, AllCalm, AllAttended;
    at := Progress(Preflight, false, None, false);
    var _ :- PublishUntouched(h, r, Preflight, None);
    ghost var middle := h.Now();
    var checked := Observe(h);
    if Untouched(middle, r) {
      UntouchedIsPassive(middle, h.Now(), r);
    }
    var _ :- checked;
    at := at.(phase := PreRestoreBackup);
    var _ :- PublishUntouched(h, r, PreRestoreBackup, None);
    at := at.(phase := WritersPaused, isolationAttempted := true);
    var _ :- PauseWriters(h, r);
    o, at := SecureBackup(h, r);
  }

  lemma LoadedStays(w: World, v: World, backup: ArtifactId)
    requires Loaded(w, backup) && v.past.before == w.past.before && v.data.artifacts == w.data.artifacts
    ensures Loaded(v, backup)
  {
  }

  /** From the restore of the chosen artifact to the terminal word.  Wherever it raises, a
      rollback may begin or the request is over. */
  method ApplyRestore(h: Host, r: RestoreRequest, backup: ArtifactId) returns (o: Outcome<(), Trouble>, at: Progress)
    modifies h
    ensures MayRestore(old(h.Now()), r, backup) ==> Inv(h.Now()) && MayRollBack(h.Now(), r, Some(backup))
    ensures at.destructive && at.backup == Some(backup)
    ensures o.Returned? ==> EndedWith(h.control, Completed)
    ensures old(h.Favourable()) && Alive(old(h.control), r) && r.artifact.artifactId in old(h.data.artifacts) ==>
      o.Returned? && EndedWell(h.Now(), Completed, old(h.Calm()))
  {
    hide Inv, StandsOn, MayRollBack, MayRestore, MayEnd, AllSucceed, AllFavour, AllCalm, AllAttended;
    ghost var may := MayRestore(h.Now(), r, backup);
    at := Progress(RestoreRunning, true, Some(backup), true);
    var _ :- RestoreOnto(h, r, backup, Completed);
    if may {
      StandingIsSound(h.Now(), r, backup, Completed);
    }
    ClearServices(h, r, backup, Completed);
    at := at.(phase := ServicesStarting);
    var starting := PublishStanding(h, r, ServicesStarting, backup, Completed);
    if may {
      StandingIsSound(h.Now(), r, backup, Completed);
    }
    var _ :- starting;
    var api := StartStanding(h, r, Api, backup, Completed);
    if may {
      StandingIsSound(h.Now(), r, backup, Completed);
    }
    var _ :- api;
    at := at.(phase := PostRestoreCheck);
    var checking := PublishStanding(h, r, PostRestoreCheck, backup, Completed);
    if may {
      StandingIsSound(h.Now(), r, backup, Completed);
    }
    var _ :- checking;
    o := CompleteRestore(h, r, backup);
  }

  /** The last check, the recorder, and the terminal word `completed`. */
  method CompleteRestore(h: Host, r: RestoreRequest, backup: ArtifactId) returns (o: Outcome<(), Trouble>)
    modifies h
    ensures StandsOn(old(h.Now()), r, backup, Completed) && (HasOpen(old(h.control)) ==> old(h.past.services) == {ApiStarted}) ==>
      Inv(h.Now()) && MayRollBack(h.Now(), r, Some(backup))
    ensures o.Returned? ==> EndedWith(h.control, Completed)
    ensures old(h.Favourable()) && Alive(old(h.control), r) ==>
      o.Returned? && EndedWell(h.Now(), Completed, old(h.Calm()) && Api in old(h.fleet.running))
  {
    hide Inv, StandsOn, MayRollBack, MayEnd, Passive, Agreed, EndedWith, AllSucceed, AllFavour, AllCalm, AllAttended;
    ghost var stands := StandsOn(h.Now(), r, backup, Completed) && (HasOpen(h.control) ==> h.past.services == {ApiStarted});
    var checked := CheckStanding(h, r, backup, Completed);
    if stands {
      StandingIsSound(h.Now(), r, backup, Completed);
    }
    var _ :- checked;
    var recorder := StartStanding(h, r, Recorder, backup, Completed);
    if stands {
      StandingIsSound(h.Now(), r, backup, Completed);
    }
    var _ :- recorder;
    o := EndCompleted(h, r, backup);
  }

  /** The proven outcome of a restore. */
  method EndCompleted(h: Host, r: RestoreRequest, backup: ArtifactId) returns (o: Outcome<(), Trouble>)
    modifies h
    ensures Inv(old(h.Now())) && MayRollBack(old(h.Now()), r, Some(backup)) && MayEnd(old(h.Now()), r, Completed, None) ==>
      Inv(h.Now()) && MayRollBack(h.Now(), r, Some(backup))
    ensures o.Returned? ==> EndedFor(h.control, Completed, None, None) && EndedWith(h.control, Completed)
    ensures old(h.Favourable()) && Alive(old(h.control), r) ==>
      o.Returned? && EndedWell(h.Now(), Completed, old(h.Calm()) && WRITERS <= old(h.fleet.running))
  {
    hide Inv, MayRollBack, MayEnd, Passive, EndedFor, AllSucceed, AllFavour, AllCalm, AllAttended;
    ghost var before := h.Now();
    ghost var may := Inv(before) && MayRollBack(before, r, Some(backup)) && MayEnd(before, r, Completed, None);
    if may {
      RollBackIsSession(before, r, Some(backup));
    }
    var finished := FinishRestoreRequest(h, r, Completed, None, Some(backup), true, None);
    if may {
      FinishLeavesRollback(before, h.Now(), r, backup);
    }
    var _ :- finished;
    ghost var middle := h.Now();
    o := ScheduleIntegrity(h);
    RunningWriters(h.fleet);
    PassiveDrifts(middle, h.Now());
    EndedForStays(middle.control, h.control, Completed, None, None);
    if may {
      RollBackStaysOpen(middle, h.Now(), r, Some(backup));
    }
  }

  lemma FinishLeavesRollback(w: World, v: World, r: RestoreRequest, backup: ArtifactId)
    requires MayRollBack(w, r, Some(backup)) && Session(v.control, r)
    requires r.state == Claimed && v.control.request == Some(r) ==>
      SameFiles(w.control, v.control) && Since(w.past, v.past) && v.data.artifacts == w.data.artifacts
    ensures MayRollBack(v, r, Some(backup))
  {
  }

  // ---------------------------------------------------------------------------
  // Failed and interrupted passes
  // ---------------------------------------------------------------------------

  /** The request may be blocked: as far as no survivor acted, its database was not touched. */
  ghost predicate MayBlock(w: World, r: RestoreRequest) {
    Inv(w) && Session(w.control, r) && (w.control.request == Some(r) && !w.past.disturbed ==> !Marked(w.control))
  }

  lemma BlockStaysOpen(w: World, v: World, r: RestoreRequest)
    requires Passive(w, v) && MayBlock(w, r)
    ensures MayBlock(v, r)
  {
  }

  /** `blocked`: the database was not touched; the writers come back first. */
  method BlockRestore(h: Host, r: RestoreRequest, restart: bool, reason: MachineReason, backup: Option<ArtifactId>, failedPhase: RestorePhase)
    returns (o: Outcome<(), Trouble>)
    modifies h
    ensures MayBlock(old(h.Now()), r) && WellNamed(backup) ==> Inv(h.Now()) && Session(h.control, r)
    ensures o.Returned? ==>
      EndedFor(h.control, Blocked, Some(reason), Some(failedPhase))
      || (restart && EndedFor(h.control, Blocked, Some(WriterIsolationFailed), Some(failedPhase)))
    ensures old(h.Favourable()) && Alive(old(h.control), r) ==>
      o.Returned? && EndedWell(h.Now(), Blocked, old(h.Calm()) && restart)
  {
    hide Inv, Passive, MayEnd, MayBlock, EndedFor, Agreed, AllSucceed, AllFavour, AllCalm, AllAttended;
    ghost var before := h.Now();
    var restarted := Returned(true);
    if restart {
      restarted := RestartWritersBestEffort(h);
      if MayBlock(before, r) {
        BlockStaysOpen(before, h.Now(), r);
      }
    }
    if MayBlock(h.Now(), r) {
      UnmarkedMayBlock(h.Now(), r, if restarted.Returned? && restarted.value then reason else WriterIsolationFailed);
    }
    var recovered :- restarted;
    o := EndBlocked(h, r, if recovered then reason else WriterIsolationFailed, backup, failedPhase);
  }

  method EndBlocked(h: Host, r: RestoreRequest, reason: MachineReason, backup: Option<ArtifactId>, failedPhase: RestorePhase)
    returns (o: Outcome<(), Trouble>)
    modifies h
    ensures Inv(old(h.Now())) && MayEnd(old(h.Now()), r, Blocked, Some(reason)) && WellNamed(backup) ==>
      Inv(h.Now()) && Session(h.control, r)
    ensures o.Returned? ==> EndedFor(h.control, Blocked, Some(reason), Some(failedPhase))
    ensures old(h.Favourable()) && Alive(old(h.control), r) ==>
      o.Returned? && EndedWell(h.Now(), Blocked, old(h.Calm()) && WRITERS <= old(h.fleet.running))
  {
    hide Inv, Passive, MayEnd, EndedFor, AllSucceed, AllFavour, AllCalm, AllAttended;
    o := FinishRestoreRequest(h, r, Blocked, Some(reason), backup, false, Some(failedPhase));
    RunningWriters(h.fleet);
  }

  lemma UnmarkedMayBlock(w: World, r: RestoreRequest, reason: MachineReason)
    requires MayBlock(w, r)
    ensures Inv(w) && MayEnd(w, r, Blocked, Some(reason))
  {
  }

  /** Reads the destructive marker of this operation. */
  method RestoreDestructiveStarted(h: Host, r: RestoreRequest) returns (o: Outcome<bool, Trouble>)
    modifies h
    ensures Passive(old(h.Now()), h.Now())
    ensures o.Returned? ==> (o.value <==> h.control.marker == Some(r.operationId))
    ensures old(h.Favourable()) ==> h.Favourable() && o.Returned?
    ensures old(h.Calm()) ==> h.Calm() && old(h.fleet.running) <= h.fleet.running
  {
    hide AllSucceed, AllFavour, AllCalm, AllAttended;
    var _ :- Observe(h);
    o := Returned(h.control.marker == Some(r.operationId));
  }

  /** Blocked for this reason, or because the writers could not be restarted. */
  predicate BlockedBecause(c: Control, reason: MachineReason, failedPhase: RestorePhase) {
    || EndedFor(c, Blocked, Some(reason), Some(failedPhase))
    || EndedFor(c, Blocked, Some(WriterIsolationFailed), Some(failedPhase))
  }

  function CategoryOf(trouble: Trouble): MachineReason {
    if trouble.HelperTrouble? then trouble.category else HelperException
  }

  /** What the handler of a failed pass may rely on. */
  ghost predicate Failed(w: World, r: RestoreRequest, at: Progress) {
    if at.destructive then Inv(w) && MayRollBack(w, r, at.backup) else Untouched(w, r) && WellNamed(at.backup)
  }

  /** The handler of a forward pass that raised: it rolls back if anything destructive may
      have begun, and blocks otherwise.  If nothing fails in it, the pass still ends well. */
  method HandleFailure(h: Host, r: RestoreRequest, trouble: Trouble, at: Progress) returns (o: Outcome<(), Trouble>)
    requires Fits(trouble, h.control) || at.destructive
    modifies h
    ensures Session(old(h.control), r) && Failed(old(h.Now()), r, at) ==> Inv(h.Now()) && Session(h.control, r)
    ensures old(h.Favourable()) && Alive(old(h.control), r) && Failed(old(h.Now()), r, at) ==>
      o.Returned? && EndedWell(h.Now(), if at.destructive then FailedRolledBack else Blocked,
                               old(h.Calm()) && (at.destructive || at.isolationAttempted))
    ensures old(h.Favourable()) && Alive(old(h.control), r) && Failed(old(h.Now()), r, at) ==>
      var reason := if trouble.HelperTrouble? then trouble.category else HelperException;
      if at.destructive then EndedFor(h.control, FailedRolledBack, Some(reason), Some(at.phase))
      else BlockedBecause(h.control, reason, at.phase)
  {
    hide Inv, Passive, MayBlock, MayRollBack, Untouched, AllSucceed, AllFavour, AllCalm, AllAttended;
    ghost var before := h.Now();
    if !at.destructive && Untouched(before, r) {
      UntouchedIsUnmarked(before, r);
    }
    var begun := Returned(true);
    if !at.destructive && !(trouble.HelperTrouble? && trouble.mutationStarted) {
      begun := RestoreDestructiveStarted(h, r);
      PassiveDrifts(before, h.Now());
      if Untouched(before, r) {
        UntouchedIsPassive(before, h.Now(), r);
        UntouchedIsUnmarked(h.Now(), r);
      }
    }
    var destructive :- begun;
    if destructive {
      ghost var setback;
      o, setback := RollbackCurrentRestore(h, r, at.backup, CategoryOf(trouble), at.phase);
    } else {
      o := BlockRestore(h, r, at.isolationAttempted, CategoryOf(trouble), at.backup, at.phase);
    }
  }

  lemma UntouchedIsUnmarked(w: World, r: RestoreRequest)
    requires Untouched(w, r)
    ensures Inv(w) && Session(w.control, r) && w.control.marker != Some(r.operationId) && !Marked(w.control)
    ensures Alive(w.control, r) && MayBlock(w, r)
  {
  }

  /** A forward pass raised, before or after anything destructive may have begun, and left the
      world at this point of the environment. */
  datatype Mishap = Mishap(at: nat, world: World, destructive: bool)

  /** The pass of a request with no trace on disk.  If it raises and nothing fails afterwards,
      it is rolled back or blocked, according to whether anything destructive may have begun. */
  method RunFreshRestore(h: Host, r: RestoreRequest)
    returns (o: Outcome<(), Trouble>, ghost mishap: Option<Mishap>)
    modifies h
    ensures Untouched(old(h.Now()), r) ==> Inv(h.Now()) && Session(h.control, r)
    ensures o.Raised? ==> mishap.Some?
    ensures mishap.None? && o.Returned? ==> EndedWith(h.control, Completed)
    ensures mishap.Some? && Untouched(old(h.Now()), r) && FavourableFrom(h.oracle, mishap.value.at, mishap.value.world)
      && Alive(mishap.value.world.control, r)
      ==> o.Returned? && EndedWell(h.Now(), if mishap.value.destructive then FailedRolledBack else Blocked, false)
    ensures old(h.Favourable()) && Untouched(old(h.Now()), r) && r.artifact.artifactId in old(h.data.artifacts) ==>
      o.Returned? && EndedWell(h.Now(), Completed, old(h.Calm()))
  {
    hide Inv, MayRollBack, Untouched, Armed, AllSucceed, AllFavour, AllCalm, AllAttended;
    ghost var untouched := Untouched(h.Now(), r);
    mishap := None;
    var prepared, at := PrepareRestore(h, r);
    if untouched {
      UntouchedIsUnmarked(h.Now(), r);
    }
    if prepared.Raised? {
      mishap := Some(Mishap(h.clock, h.Now(), false));
      o := HandleFailure(h, r, prepared.error, at);
      return;
    }
    var backup :- prepared;
    if untouched {
      PreparedMayRestore(h.Now(), r, backup);
    }
    o, at := ApplyRestore(h, r, backup);
    if untouched {
      RollBackIsSession(h.Now(), r, Some(backup));
    }
    if o.Raised? {
      mishap := Some(Mishap(h.clock, h.Now(), true));
      o := HandleFailure(h, r, o.error, at);
    }
  }

  lemma PreparedMayRestore(w: World, r: RestoreRequest, backup: ArtifactId)
    requires Untouched(w, r) && Armed(w, backup) && Sealed(w)
    ensures MayRestore(w, r, backup)
  {
  }

  /** The phase a recorded journal gives to a failure. */
  function RecordedPhase(journal: Option<RestoreJournal>, otherwise: RestorePhase): RestorePhase {
    if journal.Some? && journal.value.phase.Operational? then journal.value.phase.phase else otherwise
  }

  function RecordedBackup(journal: Option<RestoreJournal>): Option<ArtifactId> {
    if journal.Some? then journal.value.preRestoreBackupId else None
  }

  /** The claimed request is open. */
  ghost predicate Open(w: World, r: RestoreRequest) {
    Inv(w) && w.control.request == Some(r) && r.state == Claimed
  }

  lemma OpenIsPassive(w: World, v: World, r: RestoreRequest)
    requires Passive(w, v) && Open(w, r)
    ensures Open(v, r)
  {
  }

  lemma OpenCases(w: World, r: RestoreRequest)
    requires Open(w, r)
    ensures Inv(w) && Session(w.control, r)
    ensures w.control.marker == Some(r.operationId) ==> MayRollBack(w, r, RecordedBackup(w.control.journal))
    ensures w.control.marker != Some(r.operationId) ==> MayBlock(w, r) && !Marked(w.control)
    ensures WellNamed(BackupNamed(w.control.journal, r))
    ensures w.control.marker != Some(r.operationId)
      && !(w.control.journal.Some? && w.control.journal.value.operationId == r.operationId)
      ==> Untouched(w, r)
  {
  }

  /** How a pass ends when nothing fails in it. */
  function FavourableWord(c: Control, r: RestoreRequest): RestoreResult {
    if c.marker == Some(r.operationId) then FailedRolledBack
    else if c.journal.Some? && c.journal.value.operationId == r.operationId then Blocked
    else Completed
  }

  /** A request found interrupted ends for that reason, in the phase its journal names. */
  predicate EndedAsFound(found: Control, c: Control, r: RestoreRequest) {
    var named := if found.journal.Some? && found.journal.value.phase.Operational? then Some(found.journal.value.phase.phase) else None;
    && (found.marker == Some(r.operationId) ==>
          EndedFor(c, FailedRolledBack, Some(InterruptedAfterMutation), if named.Some? then named else Some(RestoreRunning)))
    && (found.marker != Some(r.operationId) && found.journal.Some? && found.journal.value.operationId == r.operationId ==>
          BlockedBecause(c, InterruptedBeforeMutation, if named.Some? then named.value else Preflight))
  }

  /** One pass over the claimed request.  A marker left by an earlier pass means rollback to
      the backup its journal names; a journal without a marker means nothing was touched. */
  method RunCurrentRestore(h: Host, r: RestoreRequest) returns (o: Outcome<(), Trouble>)
    modifies h
    ensures Open(old(h.Now()), r) ==> Inv(h.Now()) && Session(h.control, r)
    ensures old(h.Favourable()) && Open(old(h.Now()), r) && r.artifact.artifactId in old(h.data.artifacts) ==>
      o.Returned? && EndedWell(h.Now(), FavourableWord(old(h.control), r), old(h.Calm())) && EndedAsFound(old(h.control), h.control, r)
  {
    hide Inv, Passive, MayBlock, Open, MayRollBack, Untouched, EndedFor, Agreed, AllSucceed, AllFavour, AllCalm, AllAttended;
    ghost var before := h.Now();
    if Open(before, r) {
      OpenCases(before, r);
    }
    var readJournal := Observe(h);
    if Open(before, r) {
      OpenIsPassive(before, h.Now(), r);
      OpenCases(h.Now(), r);
    }
    var _ :- readJournal;
    ghost var middle := h.Now();
    var readMarker := Observe(h);
    if Open(before, r) {
      OpenIsPassive(middle, h.Now(), r);
      OpenCases(h.Now(), r);
    }
    var _ :- readMarker;
    var journal := h.control.journal;
    if h.control.marker == Some(r.operationId) {
      if Open(before, r) {
        RollBackIsSession(h.Now(), r, RecordedBackup(journal));
      }
      ghost var setback;
      o, setback := RollbackCurrentRestore(h, r, RecordedBackup(journal), InterruptedAfterMutation, RecordedPhase(journal, RestoreRunning));
    } else if journal.Some? && journal.value.operationId == r.operationId {
      o := BlockRestore(h, r, true, InterruptedBeforeMutation, journal.value.preRestoreBackupId, RecordedPhase(journal, Preflight));
    } else {
      ghost var mishap;
      o, mishap := RunFreshRestore(h, r);
    }
  }

  /** What the helper's main loop does when a pass raised: the marker alone decides between
      rollback and `blocked`. */
  method ConvergeUnhandledRestoreFailure(h: Host, r: RestoreRequest, reason: MachineReason) returns (o: Outcome<(), Trouble>)
    modifies h
    ensures Inv(old(h.Now())) && Session(old(h.control), r) ==> Inv(h.Now()) && Session(h.control, r)
    ensures old(h.Favourable()) && Open(old(h.Now()), r) ==>
      if old(h.control.marker) == Some(r.operationId)
      then EndedFor(h.control, FailedRolledBack, Some(reason), Some(RecordedPhase(old(h.control.journal), RestoreRunning)))
      else BlockedBecause(h.control, reason, RecordedPhase(old(h.control.journal), Preflight))
    ensures old(h.Favourable()) && Open(old(h.Now()), r) ==>
      o.Returned? && EndedWell(h.Now(), if old(h.control.marker) == Some(r.operationId) then FailedRolledBack else Blocked, old(h.Calm()))
  {
    hide Inv, EndedFor, BlockedBecause, Passive, MayBlock, MayRollBack, AllSucceed, AllFavour, AllCalm, AllAttended;
    ghost var before := h.Now();
    var read := Observe(h);
    PassiveDrifts(before, h.Now());
    var _ :- read;
    var journal := h.control.journal;
    var backup := BackupNamed(journal, r);
    ghost var middle := h.Now();
    var started := RestoreDestructiveStarted(h, r);
    PassiveDrifts(middle, h.Now());
    PassiveKeepsControl(middle, h.Now());
    var destructive :- started;
    o := ConvergeMarked(h, r, destructive, journal, backup, reason);
  }

  /** The marker decides. */
  method ConvergeMarked(h: Host, r: RestoreRequest, destructive: bool, journal: Option<RestoreJournal>, backup: Option<ArtifactId>,
                        reason: MachineReason)
    returns (o: Outcome<(), Trouble>)
    requires destructive <==> h.control.marker == Some(r.operationId)
    requires journal == h.control.journal && backup == BackupNamed(journal, r)
    modifies h
    ensures Inv(old(h.Now())) && Session(old(h.control), r) ==> Inv(h.Now()) && Session(h.control, r)
    ensures old(h.Favourable()) && Open(old(h.Now()), r) ==>
      && o.Returned? && EndedWell(h.Now(), if destructive then FailedRolledBack else Blocked, old(h.Calm()))
      && (if destructive then EndedFor(h.control, FailedRolledBack, Some(reason), Some(RecordedPhase(journal, RestoreRunning)))
          else BlockedBecause(h.control, reason, RecordedPhase(journal, Preflight)))
  {
    hide Inv, EndedFor, Agreed, Decision, EndedWith, MayBlock, MayRollBack, AllSucceed, AllFavour, AllCalm, AllAttended;
    if Open(h.Now(), r) {
      OpenCases(h.Now(), r);
    }
    if destructive {
      if Inv(h.Now()) && Session(h.control, r) {
        MarkedMayRollBack(h.Now(), r);
        RollBackIsSession(h.Now(), r, backup);
      }
      ghost var setback;
      o, setback := RollbackCurrentRestore(h, r, backup, reason, RecordedPhase(journal, RestoreRunning));
    } else {
      if Inv(h.Now()) && Session(h.control, r) {
        UnmarkedMayBeBlocked(h.Now(), r);
      }
      o := BlockRestore(h, r, true, reason, backup, RecordedPhase(journal, Preflight));
    }
  }

  lemma UnmarkedMayBeBlocked(w: World, r: RestoreRequest)
    requires Inv(w) && Session(w.control, r) && w.control.marker != Some(r.operationId)
    ensures MayBlock(w, r) && WellNamed(BackupNamed(w.control.journal, r))
  {
  }

  lemma PassiveKeepsControl(w: World, v: World)
    requires Passive(w, v)
    ensures SameFiles(w.control, v.control)
  {
  }

  lemma MarkedMayRollBack(w: World, r: RestoreRequest)
    requires Inv(w) && Session(w.control, r) && w.control.marker == Some(r.operationId)
    ensures MayRollBack(w, r, BackupNamed(w.control.journal, r))
  {
  }
}
