/** The helper's restore loop over unbounded runs: admissions, passes, reconciles and
    crashes, with the environment acting between any two effects. */
module RestoreRuns {
  import opened Wrappers
  import opened RestoreControl
  import opened RestoreInstallation
  import opened RestoreEffects
  import opened RestoreFinish
  import opened RestoreHandler
  import Bootstrap
  import ActivationJournal

  // ---------------------------------------------------------------------------
  // The programs
  // ---------------------------------------------------------------------------

  function ClaimedForm(r: RestoreRequest, now: Time): RestoreRequest {
    r.(state := Claimed, claimedAt := Some(now), updatedAt := now)
  }

  lemma ClaimKeepsInv(w: World, now: Time)
    requires Inv(w) && w.control.request.Some? && w.control.request.value.state == Admitted
    ensures Inv(w.(control := w.control.(request := Some(ClaimedForm(w.control.request.value, now)))))
  {
  }

  method WriteClaim(h: Host, r: RestoreRequest, now: Time) returns (o: Outcome<(), Trouble>)
    requires h.control.request == Some(r) && r.state == Admitted
    modifies h
    ensures SameFiles(old(h.control).(request := h.control.request, receipts := h.control.receipts), h.control)
    ensures h.data.artifacts == old(h.data.artifacts)
    ensures Inv(old(h.Now())) ==> Inv(h.Now())
    ensures o.Returned? ==> h.control.request == Some(ClaimedForm(r, now))
    ensures old(h.Calm()) ==> h.Calm()
    ensures old(h.Favourable()) ==> h.Favourable() && o.Returned? && h.control.marker == old(h.control.marker)
  {
    hide Inv, Passive, AllSucceed, AllFavour, AllCalm, AllAttended;
    ghost var before := h.Now();
    var written := ReplaceRequest(h, r, ClaimedForm(r, now));
    PassiveDrifts(before, h.eve);
    if before.survivors == {} {
      NobodyMarks(before, h.eve);
    }
    if Inv(before) {
      ClaimKeepsInv(h.eve, now);
    }
    var _ :- written;
    ghost var middle := h.Now();
    o := WriteReceipt(h, ClaimedForm(r, now));
    PassiveDrifts(middle, h.eve);
    if middle.survivors == {} {
      NobodyMarks(middle, h.eve);
    }
    if Inv(middle) {
      ReceiptsAreFree(h.eve, h.control.receipts);
    }
  }

  /** Only survivors write the marker behind the helper's back. */
  lemma NobodyMarks(w: World, v: World)
    requires Passive(w, v) && w.survivors == {}
    ensures v.control.marker == w.control.marker
  {
  }

  /** A request waits for the helper. */
  predicate Pending(c: Control) {
    c.request.Some? && ValidateRestoreRequest(c.request.value) && c.request.value.state != Terminal
  }

  /** Takes the open request, claiming it first if it is new. */
  method ClaimRestoreRequest(h: Host) returns (o: Outcome<Option<RestoreRequest>, Trouble>)
    modifies h
    ensures SameFiles(old(h.control).(request := h.control.request, receipts := h.control.receipts), h.control)
    ensures h.data.artifacts == old(h.data.artifacts)
    ensures HasEnded(old(h.control)) ==> Drifted(old(h.Now()), h.Now()) && (o.Returned? ==> o.value.None?)
    ensures Inv(old(h.Now())) ==> Inv(h.Now())
    ensures o.Returned? && o.value.Some? ==> h.control.request == o.value && o.value.value.state == Claimed
    ensures old(h.Calm()) ==> h.Calm()
    ensures old(h.Favourable()) ==> h.Favourable() && o.Returned? && h.control.marker == old(h.control.marker)
    ensures old(h.Favourable()) && Pending(old(h.control)) ==>
      o.value.Some? && SameContract(o.value.value, old(h.control.request).value)
  {
    hide Inv, Passive, AllSucceed, AllFavour, AllCalm, AllAttended;
    ghost var before := h.Now();
    var read := Observe(h);
    PassiveDrifts(before, h.Now());
    var clock :- read;
    if h.control.request.None? || !ValidateRestoreRequest(h.control.request.value) || h.control.request.value.state == Terminal {
      return Returned(None);
    }
    var r := h.control.request.value;
    if r.state == Admitted {
      var _ :- WriteClaim(h, r, clock.number);
      return Returned(Some(ClaimedForm(r, clock.number)));
    }
    o := Returned(Some(r));
  }

  /** One turn of the helper's loop over a pending restore.  A failed pass is converged once
      more; whatever that raises is left to the next turn.  A turn in which nothing fails
      ends every pending request: a fresh one completes, one with a marker is rolled back,
      and one interrupted before its marker is blocked; every document says so, and in a
      calm environment the writers are back in service. */
  method ServiceRestore(h: Host)
    modifies h
    ensures HasEnded(old(h.control)) ==> Drifted(old(h.Now()), h.Now())
    ensures Inv(old(h.Now())) ==> Inv(h.Now())
    ensures old(h.Favourable()) && Inv(old(h.Now())) && Pending(old(h.control))
      && old(h.control.request).value.artifact.artifactId in old(h.data.artifacts)
      ==> EndedWell(h.Now(), FavourableWord(old(h.control), old(h.control.request).value), old(h.Calm()))
  {
    hide Inv, Open, AllSucceed, AllFavour, AllCalm, AllAttended;
    if Inv(h.Now()) {
      InvValidates(h.Now());
    }
    var claimed := ClaimRestoreRequest(h);
    if claimed.Returned? && claimed.value.Some? {
      var r := claimed.value.value;
      if Inv(h.Now()) {
        ClaimedIsOpen(h.Now(), r);
      }
      var ran := RunCurrentRestore(h, r);
      if ran.Raised? {
        var _ := ConvergeUnhandledRestoreFailure(h, r, CategoryOf(ran.error));
      }
    }
  }

  lemma ClaimedIsOpen(w: World, r: RestoreRequest)
    requires Inv(w) && w.control.request == Some(r) && r.state == Claimed
    ensures Open(w, r)
  {
  }

  /** The API admits a request when none is open.  Its operation identity is new, and the
      request passed the checks of the control plane. */
  ghost predicate NewRequest(w: World, candidate: RestoreRequest) {
    && ValidateRestoreRequest(candidate) && candidate.state == Admitted && Readable(candidate, None)
    && !Underway(w, candidate)
    && (w.control.journal.Some? ==> w.control.journal.value.operationId != candidate.operationId)
    && (w.control.published.Some? ==> w.control.published.value.operationId != candidate.operationId)
  }

  lemma NewRequestDrifts(w: World, v: World, candidate: RestoreRequest)
    requires Passive(w, v) && NewRequest(w, candidate)
    ensures NewRequest(v, candidate)
  {
    PassiveStartsNothing(w, v, candidate);
  }

  /** The history starts anew with an admission, but for containers left earlier. */
  function PastAdmitted(w: World): Past {
    Past(w.data.content, None, true, false, w.past.left, false, w.pending, false, {})
  }

  function AdmittedWorld(w: World, candidate: RestoreRequest): World {
    w.(control := w.control.(request := Some(candidate)), past := PastAdmitted(w))
  }

  lemma AdmissionKeepsInv(w: World, candidate: RestoreRequest)
    requires Inv(w) && NewRequest(w, candidate)
    ensures Inv(AdmittedWorld(w, candidate))
  {
  }

  predicate HasEnded(c: Control) {
    c.request.Some? && c.request.value.state == Terminal
  }

  /** The receipt holds the admitted request, and the public status says that it is queued. */
  predicate Announced(c: Control, r: RestoreRequest) {
    && r.submissionId in c.receipts && c.receipts[r.submissionId] == r
    && c.published.Some? && c.published.value.operationId == r.operationId && c.published.value.subject == r.subject
    && c.published.value.status == Queued && c.published.value.phase == Operational(Preflight)
    && c.published.value.nextAction == NextAction.Wait
  }

  /** The request file decides; the receipt and the queued status may be lost. */
  method AdmitRestore(h: Host, candidate: RestoreRequest)
    modifies h
    ensures Inv(old(h.Now())) && NewRequest(old(h.Now()), candidate) ==> Inv(h.Now())
    ensures old(h.control.request).Some? && !HasEnded(old(h.control)) ==> SameFiles(old(h.control), h.control)
    ensures h.control.request in {old(h.control.request), Some(candidate)}
    ensures old(h.Smooth()) && (old(h.control.request).None? || HasEnded(old(h.control))) ==>
      h.control.request == Some(candidate) && Announced(h.control, candidate)
  {
    hide Inv, NewRequest, Interfered, Passive, AllSucceed, AllFavour, AllCalm, AllAttended;
    ghost var before := h.Now();
    var e := h.Draw();
    InterferenceIsPassive(before, h.Now());
    PassiveDrifts(before, h.Now());
    if Inv(before) && NewRequest(before, candidate) {
      NewRequestDrifts(before, h.Now(), candidate);
      AdmissionKeepsInv(h.Now(), candidate);
    }
    if e.fate.Happened() && (h.control.request.None? || h.control.request.value.state == Terminal) {
      h.past := PastAdmitted(h.Now());
      h.control := h.control.(request := Some(candidate));
      if e.fate == Done {
        AnnounceAdmission(h, candidate, e.number);
      }
    }
  }

  /** Receipt and queued status of an admitted request; failures are passed over. */
  method AnnounceAdmission(h: Host, candidate: RestoreRequest, now: Time)
    modifies h
    ensures Inv(old(h.Now())) && old(h.control.request) == Some(candidate) && candidate.state == Admitted ==>
      Inv(h.Now())
    ensures h.control.request == old(h.control.request)
    ensures old(h.Smooth()) ==> Announced(h.control, candidate)
  {
    hide Inv, Passive, AllSucceed, AllFavour, AllCalm, AllAttended;
    ghost var before := h.Now();
    var written := WriteReceipt(h, candidate);
    PassiveDrifts(before, h.eve);
    if Inv(before) {
      ReceiptsAreFree(h.eve, h.control.receipts);
    }
    if written.Returned? {
      if Inv(h.Now()) && h.control.request == Some(candidate) && candidate.state == Admitted {
        AdmissionIsPresented(h.Now(), candidate, now);
      }
      var _ := WritePublicStatus(h, AdmittedPayload(candidate, now));
    }
  }

  lemma AdmissionIsPresented(w: World, candidate: RestoreRequest, now: Time)
    requires Inv(w) && w.control.request == Some(candidate) && candidate.state == Admitted
    ensures Presents(w.control, AdmittedPayload(candidate, now))
  {
    InvPresents(w);
    AdmissionReachesOwner(candidate, now);
  }

  // ---------------------------------------------------------------------------
  // Reconciling the projections
  // ---------------------------------------------------------------------------

  /** A projection whose write fails with a helper error is left to the next reconcile. */
  method ReconcileReceipt(h: Host, r: RestoreRequest) returns (o: Outcome<(), Trouble>)
    modifies h
    ensures Inv(old(h.Now())) ==> Inv(h.Now())
    ensures Drifted(old(h.Now()), h.Now())
    ensures SameFiles(old(h.control).(receipts := h.control.receipts), h.control)
    ensures old(h.Smooth()) ==> h.Smooth() && o.Returned?
    ensures old(h.Smooth()) ==>
      h.control.receipts ==
        if ReceiptAgrees(r, old(ProjectionsOf(h.control, r))) then old(h.control.receipts)
        else old(h.control.receipts)[r.submissionId := r]
  {
    hide Inv, Passive, AllSucceed, AllFavour, AllCalm, AllAttended;
    ghost var before := h.Now();
    o := Returned(());
    if !ReceiptAgrees(r, ProjectionsOf(h.control, r)) {
      o := WriteReceipt(h, r);
      PassiveDrifts(before, h.eve);
      if Inv(before) {
        ReceiptsAreFree(h.eve, h.control.receipts);
      }
    }
    o := Deferred(o);
  }

  method ReconcileJournal(h: Host, r: RestoreRequest, destructive: bool) returns (o: Outcome<(), Trouble>)
    requires r.terminal.Some? && h.control.request == Some(r) && r.state == Terminal
    modifies h
    ensures Inv(old(h.Now())) ==> Inv(h.Now())
    ensures Drifted(old(h.Now()), h.Now())
    ensures SameFiles(old(h.control).(journal := h.control.journal), h.control)
    ensures old(h.Smooth()) ==> h.Smooth() && o.Returned?
    ensures old(h.Smooth()) ==>
      var p := old(ProjectionsOf(h.control, r));
      h.control.journal == if JournalAgrees(r, p) then p.journal else Some(EndingEvent(r, BackupOnRecord(r, p), destructive))
  {
    hide Inv, Passive, AllSucceed, AllFavour, AllCalm, AllAttended;
    ghost var before := h.Now();
    var p := ProjectionsOf(h.control, r);
    o := Returned(());
    if !JournalAgrees(r, p) {
      var event := EndingEvent(r, BackupOnRecord(r, p), destructive);
      o := WriteJournal(h, event);
      PassiveDrifts(before, h.eve);
      if Inv(before) {
        InvPresents(before);
        EndingJournalKeepsInv(h.eve, event);
      }
    }
    o := Deferred(o);
  }

  method ReconcileStatus(h: Host, r: RestoreRequest, backup: Option<ArtifactId>, stamp: Time) returns (o: Outcome<(), Trouble>)
    requires r.terminal.Some?
    modifies h
    ensures Inv(old(h.Now())) && old(h.control.request) == Some(r) && r.state == Terminal && WellNamed(backup) ==>
      Inv(h.Now())
    ensures Drifted(old(h.Now()), h.Now())
    ensures SameFiles(old(h.control).(published := h.control.published), h.control)
    ensures old(h.Smooth()) ==>
      h.control.published ==
        if StatusAgrees(r, old(ProjectionsOf(h.control, r))) then old(h.control.published)
        else Some(EndingPayload(r, backup, stamp))
  {
    hide Inv, AllSucceed, AllFavour, AllCalm, AllAttended;
    o := Returned(());
    if !StatusAgrees(r, ProjectionsOf(h.control, r)) {
      if Inv(h.Now()) && h.control.request == Some(r) && r.state == Terminal && WellNamed(backup) {
        InvPresents(h.Now());
        EndingIsPresented(h.control, r, r, backup, stamp);
      }
      o := WritePublicStatus(h, EndingPayload(r, backup, stamp));
    }
    o := Deferred(o);
  }

  /** The three projections in their order.  `marked` is the marker as it was read. */
  method ReconcileDocuments(h: Host, r: RestoreRequest, stamp: Time) returns (o: Outcome<(), Trouble>, ghost marked: bool)
    requires h.control.request == Some(r) && r.state == Terminal && r.terminal.Some?
    modifies h
    ensures Inv(old(h.Now())) ==> Inv(h.Now())
    ensures Drifted(old(h.Now()), h.Now())
    ensures old(h.survivors) == {} ==> (marked <==> Marked(old(h.control)))
    ensures old(h.Smooth()) ==>
      ProjectionsOf(h.control, r) == ReconciledProjections(r, old(ProjectionsOf(h.control, r)), marked, stamp)
  {
    hide Inv, Drifted, Passive, AllSucceed, AllFavour, AllCalm, AllAttended;
    ghost var before := h.Now();
    DriftIsReflexive(before);
    var backup := BackupOnRecord(r, ProjectionsOf(h.control, r));
    if Inv(before) {
      InvPresents(before);
    }
    marked := Marked(h.control);
    var receipt := ReconcileReceipt(h, r);
    DriftedMarker(before, h.Now());
    var _ :- receipt;
    ghost var middle := h.Now();
    var destructive := Marked(h.control);
    marked := destructive;
    var journal := ReconcileJournal(h, r, destructive);
    DriftIsTransitive(before, middle, h.Now());
    var _ :- journal;
    middle := h.Now();
    o := ReconcileStatus(h, r, backup, stamp);
    DriftIsTransitive(before, middle, h.Now());
  }

  lemma DriftIsReflexive(w: World)
    ensures Drifted(w, w)
  {
  }

  lemma DriftedMarker(w: World, v: World)
    requires Drifted(w, v)
    ensures v.control.request == w.control.request
    ensures w.survivors == {} ==> v.survivors == {} && v.control.marker == w.control.marker
  {
  }

  /** One reconcile of the projections of a terminal request; without a failing write the
      result is the specified one. */
  method ReconcileTerminalProjection(h: Host) returns (o: Outcome<(), Trouble>, stamp: Time, ghost marked: bool)
    modifies h
    ensures Inv(old(h.Now())) ==> Inv(h.Now())
    ensures Drifted(old(h.Now()), h.Now())
    ensures old(h.survivors) == {} ==> (marked <==> Marked(old(h.control)))
    ensures old(h.Smooth()) && Inv(old(h.Now())) && HasEnded(h.control) ==>
      var r := h.control.request.value;
      r.terminal.Some? && ProjectionsOf(h.control, r) == ReconciledProjections(r, old(ProjectionsOf(h.control, r)), marked, stamp)
  {
    hide Inv, Drifted, Passive, ReconciledProjections, AllSucceed, AllFavour, AllCalm, AllAttended;
    stamp, marked := 0, Marked(h.control);
    ghost var before := h.Now();
    if Inv(before) {
      InvValidates(before);
    }
    var read := Observe(h);
    PassiveDrifts(before, h.Now());
    DriftedMarker(before, h.Now());
    var clock :- read;
    stamp := clock.number;
    if h.control.request.None? || !ValidateRestoreRequest(h.control.request.value) || h.control.request.value.state != Terminal {
      return Returned(()), stamp, marked;
    }
    ghost var middle := h.Now();
    o, marked := ReconcileDocuments(h, h.control.request.value, stamp);
    DriftIsTransitive(before, middle, h.Now());
    DriftedMarker(middle, h.Now());
  }

  lemma InvValidates(w: World)
    requires Inv(w)
    ensures w.control.request.Some? ==> ValidateRestoreRequest(w.control.request.value)
  {
  }

  // ---------------------------------------------------------------------------
  // Runs
  // ---------------------------------------------------------------------------

  datatype Action = Admit(candidate: RestoreRequest) | Service | Reconcile | Wait

  ghost predicate Admissible(w: World, action: Action) {
    action.Admit? ==> NewRequest(w, action.candidate)
  }

  ghost predicate Acted(w: World, action: Action, v: World) {
    && (Inv(w) && Admissible(w, action) ==> Inv(v))
    && (HasEnded(w.control) && !action.Admit? ==> Drifted(w, v))
  }

  ghost predicate Stepped(trace: seq<World>, script: seq<Action>, i: nat)
    requires |trace| == |script| + 1 && i < |script|
  {
    Acted(trace[i], script[i], trace[i + 1])
  }

  ghost predicate Invited(trace: seq<World>, script: seq<Action>, i: nat)
    requires |trace| == |script| + 1 && i < |script|
  {
    Admissible(trace[i], script[i])
  }

  ghost predicate IsRun(trace: seq<World>, script: seq<Action>) {
    |trace| == |script| + 1 && forall i: nat :: i < |script| ==> Stepped(trace, script, i)
  }

  /** No request is admitted between two states of a run. */
  predicate AdmitsNothing(script: seq<Action>, i: nat, k: nat)
    requires i <= k <= |script|
  {
    forall j :: i <= j < k ==> !script[j].Admit?
  }

  method Act(h: Host, action: Action)
    modifies h
    ensures Acted(old(h.Now()), action, h.Now())
  {
    hide Inv, NewRequest, AllSucceed, AllFavour, AllCalm, AllAttended;
    match action {
      case Admit(candidate) => AdmitRestore(h, candidate);
      case Service => ServiceRestore(h);
      case Reconcile =>
        var _, _, _ := ReconcileTerminalProjection(h);
      case Wait =>
        var _ := Observe(h);
    }
  }

  method Run(h: Host, script: seq<Action>) returns (ghost trace: seq<World>)
    modifies h
    ensures IsRun(trace, script)
    ensures trace[0] == old(h.Now()) && trace[|script|] == h.Now()
  {
    hide Acted, AllSucceed, AllFavour, AllCalm, AllAttended;
    trace := [h.Now()];
    for i := 0 to |script|
      invariant |trace| == i + 1 && trace[0] == old(h.Now()) && trace[i] == h.Now()
      invariant forall k {:trigger script[k]} :: 0 <= k < i ==> Acted(trace[k], script[k], trace[k + 1])
    {
      Act(h, script[i]);
      trace := trace + [h.Now()];
    }
  }

  ghost predicate Legal(trace: seq<World>, script: seq<Action>) {
    && IsRun(trace, script)
    && Inv(trace[0])
    && forall i: nat :: i < |script| ==> Invited(trace, script, i)
  }

  lemma {:induction false} EveryRunIsSafe(trace: seq<World>, script: seq<Action>, i: nat)
    requires Legal(trace, script) && i <= |script|
    ensures Inv(trace[i])
  {
    hide Inv, Admissible;
    if i > 0 {
      EveryRunIsSafe(trace, script, i - 1);
      assert Stepped(trace, script, i - 1) && Invited(trace, script, i - 1);
    }
  }

  /** Nothing was ever restored: the invariant holds. */
  lemma FirstInstallation(w: World)
    requires w.control.request.None? && w.survivors == {}
    requires w.past == Past(w.data.content, None, true, false, false, false, w.pending, false, {})
    ensures Inv(w)
  {
  }

  /** The terminal word tells the truth about the database in every state of every run in
      which no surviving container acted on it: `completed` means it comes from the chosen
      artifact, `failed_rolled_back` from the verified backup and so from the database of
      before, and `blocked` that no restore touched it.  Without a container that outlives
      the helper's call this is every state. */
  lemma TerminalWordIsTrue(trace: seq<World>, script: seq<Action>, i: nat)
    requires Legal(trace, script) && i <= |script|
    requires trace[i].control.request.Some? && trace[i].control.request.value.state == Terminal
    ensures trace[i].control.request.value.terminal.Some?
    ensures var w, r := trace[i], trace[i].control.request.value;
      && (!w.past.left ==> !w.past.disturbed && w.past.pristine)
      && (!w.past.disturbed ==> Truthful(w, r, r.terminal.value.status))
      && (!w.past.disturbed && w.past.pristine && r.terminal.value.status == FailedRolledBack ==>
            DescendsFrom(w.data.content, w.past.start))
  {
    EveryRunIsSafe(trace, script, i);
    var w, r := trace[i], trace[i].control.request.value;
    if r.terminal.value.status == FailedRolledBack && !w.past.disturbed && w.past.pristine {
      DescentIsTransitive(w.past.start, w.past.before.value, w.data.content);
    }
  }

  /** The terminal word tells the truth about the services in every state of every run:
      `completed` and `failed_rolled_back` were written by a call that saw the API start, the
      database pass its check and the recorder start; and a recovery required for the sake of a
      service, by a call that saw just the services before it. */
  lemma TerminalWordIsServed(trace: seq<World>, script: seq<Action>, i: nat)
    requires Legal(trace, script) && i <= |script|
    requires trace[i].control.request.Some? && trace[i].control.request.value.terminal.Some?
    requires trace[i].control.request.value.state == Terminal
    ensures var ending, seen := trace[i].control.request.value.terminal.value, trace[i].past.services;
      && (ending.status in {Completed, FailedRolledBack} ==> seen == {ApiStarted, PostChecked, RecorderStarted})
      && (ending.status == FailedRecoveryRequired ==>
            && (ending.reason == Some(RollbackApiRecoveryFailed) ==> seen == {})
            && (ending.reason == Some(RollbackValidationFailed) ==> seen == {ApiStarted})
            && (ending.reason == Some(RollbackRecorderRecoveryFailed) ==> seen == {ApiStarted, PostChecked}))
  {
    EveryRunIsSafe(trace, script, i);
  }

  /** No restore changed the database while a writer ran or could be started, unless a
      container outlived the helper's call, or an activation was resumed meanwhile; and none
      is resumed if all were settled at the admission and none was opened since. */
  lemma RestoresAreIsolated(trace: seq<World>, script: seq<Action>, i: nat)
    requires Legal(trace, script) && i <= |script|
    ensures trace[i].past.exposed ==> trace[i].past.left || trace[i].past.resumed
    ensures trace[i].past.resumed ==> trace[i].past.unsettled
  {
    EveryRunIsSafe(trace, script, i);
  }

  /** The marker of the claimed operation implies that its own journal already names the
      backup a rollback will read, and that this backup holds the database of before. */
  lemma MarkerImpliesBackup(trace: seq<World>, script: seq<Action>, i: nat)
    requires Legal(trace, script) && i <= |script|
    requires var c := trace[i].control; c.request.Some? && c.request.value.state == Claimed && c.marker == Some(c.request.value.operationId)
    ensures var w := trace[i];
      && w.control.journal.Some? && w.control.journal.value.operationId == w.control.request.value.operationId
      && w.control.journal.value.preRestoreBackupId.Some?
      && var backup := w.control.journal.value.preRestoreBackupId.value;
      && backup in w.data.artifacts && w.past.before == Some(w.data.artifacts[backup])
  {
    EveryRunIsSafe(trace, script, i);
  }

  /** While the claimed request has its marker, or recovery is required, the bootstrap
      predicate demands isolation and does not raise, whatever the activation journal says. */
  lemma IsolationIsDemanded(trace: seq<World>, script: seq<Action>, i: nat, activation: Option<ActivationJournal.Journal>)
    requires Legal(trace, script) && i <= |script| && trace[i].control.request.Some?
    requires var c := trace[i].control;
      || (c.request.value.state == Claimed && c.marker == Some(c.request.value.operationId))
      || (c.request.value.state == Terminal && EndedWith(c, FailedRecoveryRequired))
    ensures Bootstrap.WriterIsolationActive(Success(activation), trace[i].control.request, trace[i].control.journal) == Success(true)
  {
    EveryRunIsSafe(trace, script, i);
  }

  /** The predicate raises in a run only between a claim and its first published phase. */
  lemma EvidenceIsConsistent(trace: seq<World>, script: seq<Action>, i: nat)
    requires Legal(trace, script) && i <= |script|
    requires RestoreIsolation(trace[i].control.request, trace[i].control.journal).Failure?
    ensures var c := trace[i].control;
      && c.request.Some? && c.request.value.state == Claimed
      && c.journal.Some? && c.journal.value.operationId != c.request.value.operationId
      && c.marker != Some(c.request.value.operationId)
  {
    EveryRunIsSafe(trace, script, i);
  }

  /** A terminal request never reverts: only a new admission replaces it. */
  lemma {:induction false} TerminalIsPermanent(trace: seq<World>, script: seq<Action>, i: nat, k: nat)
    requires IsRun(trace, script) && i <= k <= |script| && HasEnded(trace[i].control)
    requires AdmitsNothing(script, i, k)
    ensures trace[k].control.request == trace[i].control.request
  {
    if i < k {
      TerminalIsPermanent(trace, script, i, k - 1);
      assert Stepped(trace, script, k - 1);
    }
  }

  /** Whatever is published about the current request, its owner is shown it. */
  lemma OwnerIsShown(trace: seq<World>, script: seq<Action>, i: nat)
    requires Legal(trace, script) && i <= |script|
    requires var c := trace[i].control;
      c.request.Some? && c.published.Some? && c.published.value.operationId == c.request.value.operationId
    ensures var c := trace[i].control;
      RestorePublicStatus(c.published, c.request, c.request.value.subject, c.request.value.userId) == Shown(c.published.value)
  {
    EveryRunIsSafe(trace, script, i);
  }

  lemma {:induction false} EndedDrifts(trace: seq<World>, script: seq<Action>, i: nat, k: nat)
    requires IsRun(trace, script) && i <= k <= |script| && HasEnded(trace[i].control)
    requires AdmitsNothing(script, i, k)
    ensures Drifted(trace[i], trace[k])
  {
    hide Drifted;
    if i < k {
      EndedDrifts(trace, script, i, k - 1);
      TerminalIsPermanent(trace, script, i, k - 1);
      assert Stepped(trace, script, k - 1);
      DriftIsTransitive(trace[i], trace[k - 1], trace[k]);
    } else {
      DriftIsReflexive(trace[i]);
    }
  }

  /** A true word over which no container is left alive stays true until the next
      admission, whatever the writers, the helper and the daemon do. */
  lemma TruthLasts(trace: seq<World>, script: seq<Action>, i: nat, k: nat)
    requires Legal(trace, script) && i <= k <= |script| && HasEnded(trace[i].control)
    requires AdmitsNothing(script, i, k)
    requires trace[i].survivors == {} && !trace[i].past.disturbed
    ensures var r := trace[i].control.request.value;
      && r.terminal.Some? && trace[k].control.request == Some(r) && trace[k].survivors == {}
      && Truthful(trace[k], r, r.terminal.value.status)
  {
    EndedDrifts(trace, script, i, k);
    TerminalWordIsTrue(trace, script, i);
    TerminalWordIsTrue(trace, script, k);
  }
}
