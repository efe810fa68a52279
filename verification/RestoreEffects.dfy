/** The single effects of a restore: control-file writes, executor actions, writer control. */
module RestoreEffects {
  import opened Wrappers
  import opened RestoreControl
  import opened RestoreInstallation

  /** What a failing effect raises.  The executor reports a started mutation only over its
      durable marker. */
  function TroubleOf(e: Event, c: Control): Trouble {
    if e.unexpected then OtherTrouble
    else HelperTrouble(if IsMachineReason(Cause(e.text)) then Cause(e.text) else ExecutorFailed, e.torn && Marked(c))
  }

  predicate Fits(t: Trouble, c: Control) {
    t.HelperTrouble? && t.mutationStarted ==> Marked(c)
  }

  /** The control files did not change, and the database only by edits, unless a survivor
      acted. */
  ghost predicate Passive(w: World, v: World) {
    SameFiles(w.control, v.control) && Drifted(w, v) && (Inv(w) ==> Inv(v))
  }

  /** No writer runs or may be started, unless an activation was resumed during the restore. */
  predicate Sealed(w: World) {
    w.past.resumed || Isolated(w)
  }

  /** Isolation lasted, and the database stood still unless a survivor acted. */
  predicate Sheltered(w: World, v: World) {
    Sealed(w) && !MayUnfence(w.control) ==> Sealed(v) && (v.past.resumed || v.past.disturbed || v.data == w.data)
  }

  lemma InterferenceIsPassive(w: World, v: World)
    requires Interfered(w, v)
    ensures Passive(w, v) && Sheltered(w, v) && SameFiles(w.control, v.control)
    ensures Since(w.past, v.past) && v.data.artifacts == w.data.artifacts
  {
    InterferenceKeepsInv(w, v);
    InterferenceDrifts(w, v);
    if Isolated(w) && !MayUnfence(w.control) {
      IsolationLasts(w, v);
    }
  }

  lemma PassiveIsTransitive(u: World, v: World, w: World)
    requires Passive(u, v) && Passive(v, w)
    ensures Passive(u, w)
  {
    DriftIsTransitive(u, v, w);
  }

  /** Starting, stopping and fencing writers changes no file and no data. */
  lemma FleetIsFree(u: World, w: World, v: World)
    requires Passive(u, w) && v == w.(fleet := v.fleet)
    ensures Passive(u, v) && SameFiles(u.control, v.control)
    ensures Since(u.past, v.past) && v.data.artifacts == u.data.artifacts
  {
  }

  /** Neither does fencing them once more, nor a new public status. */
  lemma FencingShelters(w: World, v: World)
    requires Sheltered(w, v)
    ensures Sheltered(w, v.(fleet := v.fleet.(always := {})))
  {
  }

  lemma PublishingDrifts(w: World, v: World, p: PublicStatus)
    requires Passive(w, v) && Sheltered(w, v)
    ensures var u := v.(control := v.control.(published := Some(p)));
      && Drifted(w, v) && Drifted(w, u) && Sheltered(w, u)
      && (Inv(w) && Presents(w.control, p) ==> Inv(v) && Inv(u))
  {
    if Inv(w) && Presents(w.control, p) {
      PresentingKeepsInv(v, p);
    }
  }

  /** The marker has no part in the isolation decision. */
  lemma SameFilesDecide(c: Control, d: Control)
    requires SameFiles(c, d)
    ensures Decision(c) == Decision(d) && (MayUnfence(c) <==> MayUnfence(d)) && (Fencing(c) <==> Fencing(d))
  {
  }

  lemma FencingForbidsUnfencing(c: Control)
    requires Fencing(c)
    ensures Decision(c) == Success(true) && !MayUnfence(c)
  {
  }

  /** The environment acts before an effect. */
  method Meet(h: Host) returns (e: Event)
    modifies h
    ensures Passive(old(h.Now()), h.Now()) && Sheltered(old(h.Now()), h.Now()) && h.eve == h.Now()
    ensures SameFiles(old(h.control), h.control) && Since(old(h.past), h.past) && h.data.artifacts == old(h.data.artifacts)
    ensures old(h.Calm()) ==> h.Calm() && old(h.fleet.running) <= h.fleet.running
    ensures old(h.Favourable()) ==> h.Favourable()
    ensures old(h.Smooth()) ==> h.Smooth() && e.fate == Done
  {
    hide Inv, Passive, Drifted, Sheltered, Since, SameFiles, Interfered, DaemonMoved, AllSucceed, AllFavour, AllCalm, AllAttended,
      IsArtifactId;
    ghost var before := h.Now();
    e := h.Draw();
    InterferenceIsPassive(before, h.Now());
  }

  /** A read, or an executor action that changes nothing. */
  method Observe(h: Host) returns (o: Outcome<Event, Trouble>)
    modifies h
    ensures Passive(old(h.Now()), h.Now()) && Sheltered(old(h.Now()), h.Now())
    ensures SameFiles(old(h.control), h.control) && Since(old(h.past), h.past) && h.data.artifacts == old(h.data.artifacts)
    ensures old(h.survivors) == {} ==> h.control == old(h.control)
    ensures o.Raised? ==> Fits(o.error, h.control)
    ensures old(h.Calm()) ==> h.Calm() && old(h.fleet.running) <= h.fleet.running
    ensures old(h.Favourable()) ==> h.Favourable() && o.Returned?
    ensures old(h.Smooth()) ==> h.Smooth() && o.Returned?
  {
    hide AllSucceed, AllFavour, AllCalm, AllAttended;
    ghost var before := h.Now();
    var e := h.Draw();
    InterferenceIsPassive(before, h.Now());
    o := e.fate.Conclude(e, TroubleOf(e, h.control));
  }

  // ---------------------------------------------------------------------------
  // The journal and the public status of a running restore
  // ---------------------------------------------------------------------------

  method WriteJournal(h: Host, j: RestoreJournal) returns (o: Outcome<(), Trouble>)
    modifies h
    ensures Passive(old(h.Now()), h.eve) && SameFiles(old(h.control), h.eve.control)
    ensures Drifted(old(h.Now()), h.Now()) && Sheltered(old(h.Now()), h.Now())
    ensures Since(old(h.past), h.past) && h.data.artifacts == old(h.data.artifacts)
    ensures h.Now() == h.eve || h.Now() == h.eve.(control := h.eve.control.(journal := Some(j)))
    ensures o.Returned? ==> h.control.journal == Some(j)
    ensures o.Raised? ==> Fits(o.error, h.control)
    ensures old(h.Calm()) ==> h.Calm() && old(h.fleet.running) <= h.fleet.running
    ensures old(h.Favourable()) ==> h.Favourable() && o.Returned?
    ensures old(h.Smooth()) ==> h.Smooth() && o.Returned?
  {
    hide Interfered, DaemonMoved, Decision, Presented, AllSucceed, AllFavour, AllCalm, AllAttended;
    ghost var before := h.Now();
    var e := Meet(h);
    if e.fate.Happened() {
      h.control := h.control.(journal := Some(j));
    }
    o := e.fate.Conclude((), TroubleOf(e, h.control));
  }

  /** As far as `p` is about the current request, its owner is shown it. */
  predicate Presents(c: Control, p: PublicStatus) {
    c.request.Some? && p.operationId == c.request.value.operationId ==>
      RestorePublicStatus(Some(p), c.request, c.request.value.subject, c.request.value.userId) == Shown(p)
  }

  lemma PresentingKeepsInv(w: World, p: PublicStatus)
    requires Inv(w) && Presents(w.control, p)
    ensures Inv(w.(control := w.control.(published := Some(p))))
  {
    hide FieldsAccepted, ProgressAccepted, EndingAccepted, IsSubmissionId;
  }

  method WritePublicStatus(h: Host, p: PublicStatus) returns (o: Outcome<(), Trouble>)
    modifies h
    ensures Drifted(old(h.Now()), h.Now()) && Sheltered(old(h.Now()), h.Now())
    ensures SameFiles(old(h.control).(published := h.control.published), h.control)
    ensures Since(old(h.past), h.past) && h.data.artifacts == old(h.data.artifacts)
    ensures h.control.published in {old(h.control.published), Some(p)}
    ensures Inv(old(h.Now())) && Presents(old(h.control), p) ==> Inv(h.Now())
    ensures o.Returned? ==> h.control.published == Some(p)
    ensures o.Raised? ==> Fits(o.error, h.control)
    ensures old(h.Calm()) ==> h.Calm() && old(h.fleet.running) <= h.fleet.running
    ensures old(h.Favourable()) ==> h.Favourable() && o.Returned?
    ensures old(h.Smooth()) ==> h.Smooth() && o.Returned?
  {
    hide Inv, Passive, Drifted, Sheltered, Since, Interfered, DaemonMoved, Presents, AllSucceed, AllFavour, AllCalm, AllAttended;
    ghost var before := h.Now();
    var e := Meet(h);
    PublishingDrifts(before, h.Now(), p);
    if e.fate.Happened() {
      h.control := h.control.(published := Some(p));
    }
    o := e.fate.Conclude((), TroubleOf(e, h.control));
  }

  /** A phase of `r` may be published if no restore is underway, or if the document keeps
      demanding isolation and naming the backup. */
  predicate Publishable(w: World, r: RestoreRequest, phase: RestorePhase, backup: Option<ArtifactId>) {
    && Session(w.control, r) && WellNamed(backup)
    && (w.control.request == Some(r) && Underway(w, r) ==>
          phase in FENCED_RESTORE_PHASES && backup.Some? && Loaded(w, backup.value))
  }

  lemma JournalWriteKeepsInv(w: World, r: RestoreRequest, phase: RestorePhase, backup: Option<ArtifactId>, destructive: bool)
    requires Inv(w) && Publishable(w, r, phase, backup)
    ensures Inv(w.(control := w.control.(journal := Some(JournalEvent(r, Operational(phase), backup, destructive, None, None)))))
  {
  }

  lemma PhaseIsPresented(c: Control, r: RestoreRequest, phase: RestorePhase, backup: Option<ArtifactId>, now: Time)
    requires Session(c, r) && Presented(c) && WellNamed(backup)
    ensures Presents(c, RestorePublicPayload(r, Operational(phase), backup, None, None, None, now))
  {
    ProgressReachesOwner(r, phase, backup, now);
  }

  /** The event log and the public status of a published phase. */
  method AnnouncePhase(h: Host, r: RestoreRequest, phase: RestorePhase, backup: Option<ArtifactId>) returns (o: Outcome<(), Trouble>)
    modifies h
    ensures Drifted(old(h.Now()), h.Now()) && Sheltered(old(h.Now()), h.Now()) && Since(old(h.past), h.past)
    ensures SameFiles(old(h.control).(published := h.control.published), h.control)
    ensures h.data.artifacts == old(h.data.artifacts)
    ensures o.Raised? ==> Fits(o.error, h.control)
    ensures Inv(old(h.Now())) && Session(old(h.control), r) && WellNamed(backup) ==> Inv(h.Now())
    ensures old(h.Calm()) ==> h.Calm() && old(h.fleet.running) <= h.fleet.running
    ensures old(h.Favourable()) ==> h.Favourable() && o.Returned?
  {
    hide Inv, Passive, Drifted, MayUnfence, AllSucceed, AllFavour, AllCalm, AllAttended;
    ghost var before := h.Now();
    var logged := Observe(h);
    ghost var middle := h.Now();
    PassiveDrifts(before, middle);
    SameFilesDecide(before.control, middle.control);
    var seen :- logged;
    if Inv(before) && Session(before.control, r) && WellNamed(backup) {
      InvPresents(middle);
      PhaseIsPresented(middle.control, r, phase, backup, seen.number);
    }
    o := WritePublicStatus(h, RestorePublicPayload(r, Operational(phase), backup, None, None, None, seen.number));
    DriftIsTransitive(before, middle, h.Now());
  }

  /** Publishes a phase: the journal first, then the public status. */
  method PublishRestorePhase(h: Host, r: RestoreRequest, phase: RestorePhase, backup: Option<ArtifactId>, destructive: bool)
    returns (o: Outcome<(), Trouble>)
    modifies h
    ensures Drifted(old(h.Now()), h.Now()) && Since(old(h.past), h.past)
    ensures SameFiles(old(h.control).(journal := h.control.journal, published := h.control.published), h.control)
    ensures h.data.artifacts == old(h.data.artifacts)
    ensures h.control.journal in {old(h.control.journal), Some(JournalEvent(r, Operational(phase), backup, destructive, None, None))}
    ensures o.Returned? ==>
      h.control.journal == Some(JournalEvent(r, Operational(phase), backup, destructive, None, None))
    ensures o.Raised? ==> Fits(o.error, h.control)
    ensures Inv(old(h.Now())) && Publishable(old(h.Now()), r, phase, backup) ==> Inv(h.Now())
    ensures h.control.request == Some(r) && Sealed(old(h.Now())) && Fencing(old(h.control)) && phase in FENCED_RESTORE_PHASES ==>
      Sealed(h.Now()) && (h.past.resumed || h.past.disturbed || h.data == old(h.data))
    ensures old(h.Calm()) ==> h.Calm() && old(h.fleet.running) <= h.fleet.running
    ensures old(h.Favourable()) ==> h.Favourable() && o.Returned?
  {
    hide Inv, Passive, Drifted, Publishable, Fencing, MayUnfence, AllSucceed, AllFavour, AllCalm, AllAttended;
    ghost var before := h.Now();
    var event := JournalEvent(r, Operational(phase), backup, destructive, None, None);
    if h.control.request == Some(r) && Fencing(h.control) && phase in FENCED_RESTORE_PHASES {
      FencedEvent(before.control, r, phase, backup, destructive);
    }
    var written := WriteJournal(h, event);
    if Inv(before) && Publishable(before, r, phase, backup) {
      PassiveDrifts(before, h.eve);
      PublishableDrifts(before, h.eve, r, phase, backup);
      JournalWriteKeepsInv(h.eve, r, phase, backup, destructive);
    }
    ghost var middle := h.Now();
    var _ :- written;
    o := AnnouncePhase(h, r, phase, backup);
    DriftIsTransitive(before, middle, h.Now());
  }

  lemma InvPresents(w: World)
    requires Inv(w)
    ensures Presented(w.control)
    ensures w.control.request.Some? ==> ValidateRestoreRequest(w.control.request.value)
  {
  }

  lemma PassiveDrifts(w: World, v: World)
    requires Passive(w, v)
    ensures Drifted(w, v) && (Inv(w) ==> Inv(v))
  {
  }

  lemma FencedEvent(c: Control, r: RestoreRequest, phase: RestorePhase, backup: Option<ArtifactId>, destructive: bool)
    requires Fencing(c) && c.request == Some(r) && phase in FENCED_RESTORE_PHASES
    ensures forall d: Control ::
      SameFiles(c.(journal := d.journal, published := d.published), d)
      && d.journal in {c.journal, Some(JournalEvent(r, Operational(phase), backup, destructive, None, None))}
      ==> !MayUnfence(d)
  {
  }

  lemma PublishableDrifts(w: World, v: World, r: RestoreRequest, phase: RestorePhase, backup: Option<ArtifactId>)
    requires Passive(w, v) && Publishable(w, r, phase, backup)
    ensures Publishable(v, r, phase, backup) && Session(v.control, r) && WellNamed(backup)
  {
  }

  // ---------------------------------------------------------------------------
  // Writers
  // ---------------------------------------------------------------------------

  method SetRestoreWriterFence(h: Host, enabled: bool) returns (o: Outcome<(), Trouble>)
    modifies h
    ensures Passive(old(h.Now()), h.Now()) && SameFiles(old(h.control), h.control)
    ensures Since(old(h.past), h.past) && h.data.artifacts == old(h.data.artifacts)
    ensures enabled ==> Sheltered(old(h.Now()), h.Now())
    ensures o.Returned? ==> h.fleet.always == if enabled then {} else WRITERS
    ensures o.Raised? ==> Fits(o.error, h.control)
    ensures old(h.Calm()) ==> h.Calm() && old(h.fleet.running) <= h.fleet.running
    ensures old(h.Favourable()) ==> h.Favourable() && o.Returned?
    ensures old(h.Smooth()) ==> h.Smooth() && o.Returned?
  {
    hide Passive, Interfered, DaemonMoved, Inv, Drifted, Sheltered, Since, AllSucceed, AllFavour, AllCalm, AllAttended;
    ghost var before := h.Now();
    var e := Meet(h);
    FencingShelters(before, h.Now());
    if e.fate.Happened() {
      h.fleet := h.fleet.(always := if enabled then {} else WRITERS);
    }
    FleetIsFree(before, h.eve, h.Now());
    o := e.fate.Conclude((), TroubleOf(e, h.control));
  }

  /** `docker compose stop`; its own failure is not reported. */
  method StopContainers(h: Host) returns (o: Outcome<(), Trouble>)
    modifies h
    ensures Passive(old(h.Now()), h.Now()) && SameFiles(old(h.control), h.control)
    ensures Since(old(h.past), h.past) && h.data.artifacts == old(h.data.artifacts)
    ensures Sheltered(old(h.Now()), h.Now())
    ensures !MayUnfence(h.control) && old(h.fleet.always) == {} ==> h.past.resumed || h.fleet.always == {}
    ensures old(h.Favourable()) && !MayUnfence(h.control) && old(h.fleet.always) == {} ==> h.fleet.always == {}
    ensures o.Raised? ==> o.error == OtherTrouble
    ensures old(h.Calm()) ==> h.Calm()
    ensures old(h.Favourable()) ==> h.Favourable() && o.Returned?
    ensures old(h.Favourable()) ==> h.fleet.running == {}
  {
    hide Passive, Inv, Drifted, Remaining, SurvivorActed, AllSucceed, AllFavour, AllCalm, AllAttended;
    ghost var before := h.Now();
    var e := h.Draw();
    InterferenceIsPassive(before, h.Now());
    if e.fate.Happened() {
      h.fleet := h.fleet.(running := {});
    }
    SameFilesDecide(before.control, h.control);
    FleetIsFree(before, h.eve, h.Now());
    o := e.fate.Conclude((), OtherTrouble);
    if o.Raised? && !e.unexpected {
      o := Returned(());
    }
  }

  method VerifyStopped(h: Host) returns (o: Outcome<(), Trouble>)
    modifies h
    ensures Passive(old(h.Now()), h.Now()) && SameFiles(old(h.control), h.control)
    ensures Since(old(h.past), h.past) && h.data.artifacts == old(h.data.artifacts)
    ensures Sheltered(old(h.Now()), h.Now())
    ensures !MayUnfence(h.control) && old(h.fleet.always) == {} ==> h.past.resumed || h.fleet.always == {}
    ensures o.Returned? ==> h.fleet.running == {}
    ensures o.Raised? ==> Fits(o.error, h.control)
    ensures old(h.Calm()) ==> h.Calm()
    ensures old(h.Favourable()) ==> h.Favourable()
    ensures old(h.Favourable()) && Isolated(old(h.Now())) && !MayUnfence(h.control) ==> o.Returned?
  {
    hide DescendsFrom, Inv, AllSucceed, AllFavour, AllCalm, AllAttended;
    ghost var before := h.Now();
    var e := h.Draw();
    InterferenceIsPassive(before, h.Now());
    if h.fleet.running != {} {
      return Raised(HelperTrouble(WriterIsolationFailed, false));
    }
    o := e.fate.Conclude((), TroubleOf(e, h.control));
  }

  /** Fence, stop, then look.  While the published journal demands isolation, a normal return
      leaves no writer running and none that may be started. */
  method StopRestoreWriters(h: Host) returns (o: Outcome<(), Trouble>)
    modifies h
    ensures Passive(old(h.Now()), h.Now()) && SameFiles(old(h.control), h.control)
    ensures Since(old(h.past), h.past) && h.data.artifacts == old(h.data.artifacts)
    ensures Sheltered(old(h.Now()), h.Now())
    ensures o.Returned? && Fencing(h.control) ==> Sealed(h.Now())
    ensures o.Raised? ==> Fits(o.error, h.control)
    ensures old(h.Calm()) ==> h.Calm()
    ensures old(h.Favourable()) ==> h.Favourable()
    ensures old(h.Favourable()) && Fencing(h.control) ==> o.Returned?
  {
    hide Inv, Passive, Fencing, MayUnfence, AllSucceed, AllFavour, AllCalm, AllAttended;
    ghost var before := h.Now();
    if Fencing(h.control) {
      FencingForbidsUnfencing(h.control);
    }
    var fenced := SetRestoreWriterFence(h, true);
    ghost var middle := h.Now();
    SameFilesDecide(before.control, middle.control);
    var _ :- fenced;
    var stopped := StopContainers(h);
    PassiveIsTransitive(before, middle, h.Now());
    middle := h.Now();
    SameFilesDecide(before.control, middle.control);
    var _ :- stopped;
    o := VerifyStopped(h);
    PassiveIsTransitive(before, middle, h.Now());
    SameFilesDecide(before.control, h.control);
  }

  /** `docker start` of one writer, then a wait until it is up.  The restart policy stays. */
  method StartWriter(h: Host, writer: Writer, failure: MachineReason) returns (o: Outcome<(), Trouble>)
    modifies h
    ensures o.Returned? ==> writer in h.fleet.running
    ensures Passive(old(h.Now()), h.Now()) && SameFiles(old(h.control), h.control)
    ensures Since(old(h.past), h.past) && h.data.artifacts == old(h.data.artifacts)
    ensures o.Raised? ==> Fits(o.error, h.control)
    ensures old(h.Calm()) ==> h.Calm() && old(h.fleet.running) <= h.fleet.running
    ensures old(h.Favourable()) ==> h.Favourable() && o.Returned?
    ensures old(h.Smooth()) ==> h.Smooth() && o.Returned?
  {
    hide Passive, Interfered, DaemonMoved, Inv, Drifted, Sheltered, Since, AllSucceed, AllFavour, AllCalm, AllAttended;
    ghost var before := h.Now();
    var e := Meet(h);
    if e.fate.Happened() {
      h.fleet := h.fleet.(running := h.fleet.running + {writer});
    }
    FleetIsFree(before, h.eve, h.Now());
    o := e.fate.Conclude((), if e.unexpected then OtherTrouble else HelperTrouble(failure, false));
  }

  method StartRecorderWithProof(h: Host) returns (o: Outcome<(), Trouble>)
    modifies h
    ensures Passive(old(h.Now()), h.Now()) && SameFiles(old(h.control), h.control)
    ensures Since(old(h.past), h.past) && h.data.artifacts == old(h.data.artifacts)
    ensures o.Raised? ==> Fits(o.error, h.control)
    ensures old(h.Calm()) ==> h.Calm() && old(h.fleet.running) <= h.fleet.running
    ensures old(h.Calm()) && o.Returned? ==> Recorder in h.fleet.running
    ensures old(h.Favourable()) ==> h.Favourable() && o.Returned?
  {
    hide Inv, Passive, AllSucceed, AllFavour, AllCalm, AllAttended;
    ghost var before := h.Now();
    var started := StartWriter(h, Recorder, RecorderStartFailed);
    ghost var middle := h.Now();
    var _ :- started;
    var proof := Observe(h);
    PassiveIsTransitive(before, middle, h.Now());
    var _ :- proof;
    o := Returned(());
  }

  /** Brings both writers back as far as possible and says whether both are up.  Whatever it
      meets is swallowed; only a crash ends it. */
  method RestartWritersBestEffort(h: Host) returns (o: Outcome<bool, Trouble>)
    modifies h
    ensures Passive(old(h.Now()), h.Now()) && SameFiles(old(h.control), h.control)
    ensures Since(old(h.past), h.past) && h.data.artifacts == old(h.data.artifacts)
    ensures !o.Raised?
    ensures old(h.Calm()) ==> h.Calm() && old(h.fleet.running) <= h.fleet.running
    ensures old(h.Calm()) && o == Returned(true) ==> WRITERS <= h.fleet.running
    ensures old(h.Favourable()) ==> h.Favourable() && o == Returned(true)
  {
    hide Inv, Passive, AllSucceed, AllFavour, AllCalm, AllAttended;
    ghost var before := h.Now();
    var api := StartWriter(h, Api, ApiStartFailed);
    ghost var middle := h.Now();
    if api.Crashed? {
      return Crashed;
    }
    var recorder := StartRecorderWithProof(h);
    PassiveIsTransitive(before, middle, h.Now());
    if recorder.Crashed? {
      return Crashed;
    }
    o := Returned(api.Returned? && recorder.Returned?);
  }

  // ---------------------------------------------------------------------------
  // The executor
  // ---------------------------------------------------------------------------

  /** The executor works only for an admitted or claimed request of this operation. */
  predicate Serves(c: Control, r: RestoreRequest) {
    c.request.Some? && c.request.value.operationId == r.operationId && c.request.value.state != Terminal
  }

  datatype BackupReport = BackupReport(backupId: ArtifactId, verified: bool)

  lemma PassiveStartsNothing(w: World, v: World, r: RestoreRequest)
    requires Passive(w, v) && !Underway(w, r)
    ensures !Underway(v, r) && (Inv(w) ==> Inv(v))
  {
    if Underway(v, r) {
      DriftStartsNothing(w, v, r);
    }
  }

  /** The world once a backup of the database was taken. */
  function BackedUp(w: World, backup: ArtifactId): World {
    w.(data := w.data.(artifacts := w.data.artifacts[backup := w.data.content]),
       past := w.past.(before := Some(w.data.content), pristine := !w.past.disturbed))
  }

  lemma BackupKeepsInv(w: World, r: RestoreRequest, backup: ArtifactId)
    requires Inv(w) && w.control.request == Some(r) && r.state == Claimed && !Underway(w, r)
    ensures Inv(BackedUp(w, backup)) && !Underway(BackedUp(w, backup), r)
  {
  }

  method StoreBackup(h: Host, e: Event)
    modifies h`data, h`past
    ensures h.Now() == if e.fate.Happened() && e.answer then BackedUp(old(h.Now()), e.text) else old(h.Now())
    ensures old(h.Calm()) ==> h.Calm()
    ensures old(h.Favourable()) && (forall n :: n >= h.clock ==> h.oracle(n).text != e.text) ==> h.Favourable()
  {
    hide AllSucceed, AllFavour, AllCalm;
    if h.Favourable() && forall n :: n >= h.clock ==> h.oracle(n).text != e.text {
      FavourSurvivesBackup(h.oracle, h.clock, h.data.artifacts.Keys, e.text);
      assert h.data.artifacts[e.text := h.data.content].Keys == h.data.artifacts.Keys + {e.text};
    }
    if e.fate.Happened() && e.answer {
      h.data := h.data.(artifacts := h.data.artifacts[e.text := h.data.content]);
      h.past := h.past.(before := Some(h.data.content), pristine := !h.past.disturbed);
    }
  }

  /** The environment acts, then the executor starts its backup or refuses: it makes up a
      well-formed identity, or stops. */
  method MeetBackup(h: Host, r: RestoreRequest) returns (e: Event, refused: bool)
    modifies h
    ensures h.data.artifacts == old(h.data.artifacts) && SameFiles(old(h.control), h.control)
    ensures refused <==> !Serves(h.control, r) || e.text in h.data.artifacts || !IsArtifactId(e.text)
    ensures Inv(old(h.Now())) && !Underway(old(h.Now()), r) ==> Inv(h.Now()) && !Underway(h.Now(), r)
    ensures Sheltered(old(h.Now()), h.Now())
    ensures old(h.Calm()) ==> h.Calm() && old(h.fleet.running) <= h.fleet.running
    ensures old(h.Favourable()) ==> h.Favourable() && e.fate == Done && e.answer && IsArtifactId(e.text)
    ensures old(h.Favourable()) ==>
      e.text !in h.data.artifacts && forall n :: n >= h.clock ==> h.oracle(n).text != e.text
  {
    hide Interfered, Inv, DescendsFrom, Drifted, Passive, Remaining, SurvivorActed, Underway, AllSucceed, AllFavour,
      AllCalm, AllAttended, IsArtifactId;
    ghost var before := h.Now();
    e := h.Draw();
    InterferenceIsPassive(before, h.Now());
    if Inv(before) && !Underway(before, r) {
      PassiveStartsNothing(before, h.Now(), r);
    }
    refused := !Serves(h.control, r) || e.text in h.data.artifacts || !IsArtifactId(e.text);
  }

  /** A verified backup holds exactly the contents of its moment, under a new identity. */
  method TakePreRestoreBackup(h: Host, r: RestoreRequest) returns (o: Outcome<BackupReport, Trouble>)
    modifies h
    ensures forall a :: a in old(h.data.artifacts) ==> a in h.data.artifacts
    ensures SameFiles(old(h.control), h.control)
    ensures Inv(old(h.Now())) && h.control.request == Some(r) && r.state == Claimed && !Underway(old(h.Now()), r) ==>
      Inv(h.Now()) && !Underway(h.Now(), r)
    ensures Sealed(old(h.Now())) && !MayUnfence(h.control) ==>
      Sealed(h.Now()) && (h.past.resumed || h.past.disturbed || h.data.content == old(h.data.content))
    ensures o.Returned? ==> IsArtifactId(o.value.backupId)
    ensures o.Returned? && o.value.verified ==> Loaded(h.Now(), o.value.backupId)
    ensures o.Raised? ==> Fits(o.error, h.control)
    ensures old(h.Calm()) ==> h.Calm() && old(h.fleet.running) <= h.fleet.running
    ensures old(h.Favourable()) ==> h.Favourable()
    ensures old(h.Favourable()) && Serves(h.control, r) ==>
      o.Returned? && o.value.verified
  {
    hide Inv, Underway, AllSucceed, AllFavour, AllCalm, AllAttended, IsArtifactId;
    ghost var before := h.Now();
    var e, refused := MeetBackup(h, r);
    SameFilesDecide(before.control, h.control);
    if refused {
      return Raised(HelperTrouble(RestoreRefused, false));
    }
    if Inv(h.Now()) && h.control.request == Some(r) && r.state == Claimed && !Underway(h.Now(), r) {
      BackupKeepsInv(h.Now(), r, e.text);
    }
    StoreBackup(h, e);
    o := e.fate.Conclude(BackupReport(e.text, e.answer), TroubleOf(e, h.control));
  }

  /** What one run of the executor's `restore` action may leave behind that ended with the
      helper's call, once it passed its own checks: the marker is durable before the database
      changes, and only the success of the action promises the exact contents.  A restore that
      succeeds with no survivor alive puts an end to what survivors had disturbed; a survivor
      may meddle in it. */
  ghost predicate RestoredBy(w: World, v: World, r: RestoreRequest, artifactId: ArtifactId) {
    && Serves(w.control, r) && artifactId in w.data.artifacts
    && v.fleet == w.fleet && v.survivors == w.survivors && v.pending == w.pending
    && v.control == w.control.(marker := Some(r.operationId))
    && v.data.artifacts == w.data.artifacts
    && v.past == w.past.(exposed := w.past.exposed || !Isolated(w), disturbed := v.past.disturbed)
    && (v.past.disturbed == w.past.disturbed || (v.past.disturbed <==> w.survivors != {}))
  }

  /** The container passed its checks and outlives the call, its marker still unwritten. */
  ghost predicate LeftRunning(w: World, v: World, r: RestoreRequest, artifactId: ArtifactId) {
    && Serves(w.control, r) && artifactId in w.data.artifacts
    && v == w.(survivors := w.survivors + {Survivor(r.operationId, artifactId, false)}, past := w.past.(left := true))
  }

  /** A restore under isolation, with everything a rollback needs on disk, keeps the invariant;
      so does one that is left running. */
  lemma RestoreKeepsInv(w: World, v: World, r: RestoreRequest, artifactId: ArtifactId, backup: ArtifactId)
    requires Inv(w) && (RestoredBy(w, v, r, artifactId) || LeftRunning(w, v, r, artifactId))
    requires w.control.request == Some(r) && Armed(w, backup) && Sealed(w)
    ensures Inv(v) && Armed(v, backup)
  {
  }

  /** The container's work, as far as the call waits for it. */
  function Executed(w: World, e: Event, r: RestoreRequest, artifactId: ArtifactId): World
    requires artifactId in w.data.artifacts
  {
    if e.fate != Done && e.survives then
      w.(survivors := w.survivors + {Survivor(r.operationId, artifactId, false)}, past := w.past.(left := true))
    else if !e.fate.Happened() then w
    else
      var meddled := w.survivors != {} && e.torn;
      w.(control := w.control.(marker := Some(r.operationId)),
         data := w.data.(content :=
           if meddled || (e.fate != Done && e.torn) then Torn(e.number)
           else if e.fate == Done || e.answer then w.data.artifacts[artifactId]
           else w.data.content),
         past := w.past.(
           exposed := w.past.exposed || !Isolated(w),
           disturbed := if e.fate == Done then w.survivors != {} && (w.past.disturbed || meddled) else w.past.disturbed))
  }

  lemma ExecutionCases(w: World, e: Event, r: RestoreRequest, artifactId: ArtifactId)
    requires Serves(w.control, r) && artifactId in w.data.artifacts
    ensures var v := Executed(w, e, r, artifactId);
      && (v == w || RestoredBy(w, v, r, artifactId) || LeftRunning(w, v, r, artifactId))
      && (e.fate == Done ==> RestoredBy(w, v, r, artifactId) && (v.past.disturbed || v.data.content == v.data.artifacts[artifactId]))
      && (e.fate == Done && v.survivors == {} ==> !v.past.disturbed)
      && (e.fate == Done || !e.survives ==> v.survivors == w.survivors)
      && SameFiles(w.control, v.control) && v.data.artifacts == w.data.artifacts && v.fleet == w.fleet
  {
  }

  method Execute(h: Host, e: Event, r: RestoreRequest, artifactId: ArtifactId)
    requires artifactId in h.data.artifacts
    modifies h`control, h`data, h`past, h`survivors
    ensures h.Now() == Executed(old(h.Now()), e, r, artifactId)
  {
    if e.fate != Done && e.survives {
      h.survivors := h.survivors + {Survivor(r.operationId, artifactId, false)};
      h.past := h.past.(left := true);
    } else if e.fate.Happened() {
      var meddled := h.survivors != {} && e.torn;
      h.past := h.past.(
        exposed := h.past.exposed || !Isolated(h.Now()),
        disturbed := if e.fate == Done then h.survivors != {} && (h.past.disturbed || meddled) else h.past.disturbed);
      h.control := h.control.(marker := Some(r.operationId));
      h.data := h.data.(content :=
        if meddled || (e.fate != Done && e.torn) then Torn(e.number)
        else if e.fate == Done || e.answer then h.data.artifacts[artifactId]
        else h.data.content);
    }
  }

  method RunRestore(h: Host, r: RestoreRequest, artifactId: ArtifactId) returns (o: Outcome<(), Trouble>)
    modifies h
    ensures SameFiles(old(h.control), h.control) && h.data.artifacts == old(h.data.artifacts)
    ensures Passive(old(h.Now()), h.eve) && Sheltered(old(h.Now()), h.eve)
    ensures h.Now() == h.eve || RestoredBy(h.eve, h.Now(), r, artifactId) || LeftRunning(h.eve, h.Now(), r, artifactId)
    ensures o.Returned? ==>
      RestoredBy(h.eve, h.Now(), r, artifactId) && (h.past.disturbed || h.data.content == h.data.artifacts[artifactId])
    ensures o.Returned? && h.survivors == {} ==> !h.past.disturbed
    ensures o.Raised? ==> Fits(o.error, h.control)
    ensures old(h.Attended()) ==> h.Attended()
    ensures old(h.Calm()) ==> h.Calm() && old(h.fleet.running) <= h.fleet.running
    ensures old(h.Favourable()) ==> h.Favourable()
    ensures old(h.Favourable()) && Serves(old(h.control), r) && artifactId in old(h.data.artifacts) ==> o.Returned?
  {
    hide Interfered, Inv, DescendsFrom, Drifted, Passive, Sheltered, Since, Executed, RestoredBy, LeftRunning, DaemonMoved,
      AllSucceed, AllFavour, AllCalm, AllAttended;
    ghost var before := h.Now();
    var e := h.Draw();
    InterferenceIsPassive(before, h.Now());
    if !Serves(h.control, r) || artifactId !in h.data.artifacts {
      return Raised(HelperTrouble(RestoreRefused, false));
    }
    ExecutionCases(h.Now(), e, r, artifactId);
    Execute(h, e, r, artifactId);
    o := e.fate.Conclude((), TroubleOf(e, h.control));
  }

  /** The executor marks the archive integrity of the restored database as unknown, then the
      helper notes it. */
  method InvalidateIntegrity(h: Host, r: RestoreRequest) returns (o: Outcome<(), Trouble>)
    modifies h
    ensures Passive(old(h.Now()), h.Now()) && SameFiles(old(h.control), h.control)
    ensures Since(old(h.past), h.past) && h.data.artifacts == old(h.data.artifacts)
    ensures o.Raised? ==> Fits(o.error, h.control)
    ensures old(h.Calm()) ==> h.Calm() && old(h.fleet.running) <= h.fleet.running
    ensures old(h.Favourable()) ==> h.Favourable()
    ensures o.Returned? ==> Serves(old(h.control), r)
    ensures old(h.Favourable()) && Serves(h.control, r) ==> o.Returned?
  {
    hide Inv, Passive, Drifted, AllSucceed, AllFavour, AllCalm, AllAttended;
    ghost var before := h.Now();
    var invalidated := EditThroughExecutor(h, Serves(h.control, r));
    ghost var middle := h.Now();
    var _ :- invalidated;
    var noted := Observe(h);
    PassiveIsTransitive(before, middle, h.Now());
    var _ :- noted;
    o := Returned(());
  }

  method EditThroughExecutor(h: Host, serves: bool) returns (o: Outcome<(), Trouble>)
    modifies h
    ensures Passive(old(h.Now()), h.Now()) && SameFiles(old(h.control), h.control)
    ensures Since(old(h.past), h.past) && h.data.artifacts == old(h.data.artifacts)
    ensures o.Raised? ==> Fits(o.error, h.control)
    ensures old(h.Calm()) ==> h.Calm() && old(h.fleet.running) <= h.fleet.running
    ensures old(h.Calm()) && MayUnfence(h.control) && old(h.fleet.always) == WRITERS ==> h.fleet.always == WRITERS
    ensures old(h.Favourable()) ==> h.Favourable()
    ensures !serves ==> o == Raised(HelperTrouble(RestoreRefused, false))
    ensures o.Returned? ==> h.data.content.Edited?
    ensures old(h.Favourable()) && serves ==> o.Returned?
  {
    hide Inv, Interfered, DaemonMoved, AllSucceed, AllFavour, AllCalm, AllAttended;
    ghost var before := h.Now();
    var e := h.Draw();
    InterferenceIsPassive(before, h.Now());
    if !serves {
      return Raised(HelperTrouble(RestoreRefused, false));
    }
    ghost var middle := h.Now();
    if e.fate.Happened() {
      h.data := h.data.(content := Edited(h.data.content, e.number));
    }
    EditIsPassive(middle, e.number);
    PassiveIsTransitive(before, middle, middle.(data := middle.data.(content := Edited(middle.data.content, e.number))));
    o := e.fate.Conclude((), TroubleOf(e, h.control));
  }

  lemma EditIsPassive(w: World, edit: nat)
    ensures Passive(w, w.(data := w.data.(content := Edited(w.data.content, edit))))
  {
    var v := w.(data := w.data.(content := Edited(w.data.content, edit)));
    assert DescendsFrom(w.data.content, w.data.content);
    if Inv(w) && !w.past.disturbed && w.control.request.Some? && w.control.request.value.state == Terminal {
      DriftKeepsTruth(w, v, w.control.request.value, w.control.request.value.terminal.value.status);
    }
  }

  /** Schedules the integrity scan; every failure is deferred. */
  method ScheduleIntegrity(h: Host) returns (o: Outcome<(), Trouble>)
    modifies h
    ensures Passive(old(h.Now()), h.Now()) && SameFiles(old(h.control), h.control)
    ensures Since(old(h.past), h.past) && h.data.artifacts == old(h.data.artifacts)
    ensures !o.Raised?
    ensures old(h.Calm()) ==> h.Calm() && old(h.fleet.running) <= h.fleet.running
    ensures old(h.Calm()) && MayUnfence(h.control) && old(h.fleet.always) == WRITERS ==> h.fleet.always == WRITERS
    ensures old(h.Favourable()) ==> h.Favourable() && o.Returned?
  {
    hide AllSucceed, AllFavour, AllCalm, AllAttended;
    o := EditThroughExecutor(h, true);
    if o.Raised? {
      o := Returned(());
    }
  }
}
