/** Finishing a restore: the terminal request first, then everything derived from it. */
module RestoreFinish {
  import opened Wrappers
  import opened RestoreControl
  import opened RestoreInstallation
  import opened RestoreEffects

  function Terminated(r: RestoreRequest, result: RestoreResult, reason: Option<MachineReason>,
                      failedPhase: Option<RestorePhase>, finished: Time): RestoreRequest
  {
    r.(state := Terminal, updatedAt := finished,
       terminal := Some(Ending(result, finished, reason, if result == Completed then None else failedPhase)))
  }

  predicate WellEnded(result: RestoreResult, reason: Option<MachineReason>) {
    result == Completed <==> reason.None?
  }

  /** A terminal word may be written over the claimed request when this call saw what it says
      of the services, and it is true of the database as far as no survivor acted. */
  predicate MayEnd(w: World, r: RestoreRequest, result: RestoreResult, reason: Option<MachineReason>) {
    && Session(w.control, r) && WellEnded(result, reason)
    && (w.control.request == Some(r) ==> Served(w.past.services, result, reason))
    && (w.control.request == Some(r) && !w.past.disturbed ==> Truthful(w, r, result))
  }

  lemma MayEndDrifts(w: World, v: World, r: RestoreRequest, result: RestoreResult, reason: Option<MachineReason>)
    requires Drifted(w, v) && MayEnd(w, r, result, reason)
    ensures MayEnd(v, r, result, reason)
  {
    if w.control.request == Some(r) && !v.past.disturbed {
      DriftKeepsTruth(w, v, r, result);
    }
  }

  lemma EndKeepsInv(w: World, r: RestoreRequest, result: RestoreResult, reason: Option<MachineReason>,
                    failedPhase: Option<RestorePhase>, finished: Time)
    requires Inv(w) && MayEnd(w, r, result, reason) && Serves(w.control, r)
    ensures var t := Terminated(r, result, reason, failedPhase, finished);
      Inv(w.(control := w.control.(request := Some(t)))) && Session(w.control.(request := Some(t)), r)
  {
  }

  /** The derived documents carry no claim once the request is terminal, but must stay
      readable. */
  lemma ProjectionsAreFree(w: World, journal: Option<RestoreJournal>, receipts: map<string, RestoreRequest>,
                           published: Option<PublicStatus>)
    requires Inv(w) && w.control.request.Some? && w.control.request.value.state == Terminal
    requires Presented(w.control.(journal := journal, receipts := receipts, published := published))
    ensures Inv(w.(control := w.control.(journal := journal, receipts := receipts, published := published)))
  {
  }

  lemma ReceiptsAreFree(w: World, receipts: map<string, RestoreRequest>)
    requires Inv(w)
    ensures Inv(w.(control := w.control.(receipts := receipts)))
  {
  }

  /** A journal of the ended request. */
  lemma EndingJournalKeepsInv(w: World, j: RestoreJournal)
    requires Inv(w) && w.control.request.Some? && w.control.request.value.state == Terminal && WellNamed(j.preRestoreBackupId)
    ensures Inv(w.(control := w.control.(journal := Some(j))))
  {
    ProjectionsAreFree(w, Some(j), w.control.receipts, w.control.published);
  }

  /** `t` is a terminal form of the request this pass claimed. */
  predicate Ends(t: RestoreRequest, r: RestoreRequest) {
    t.state == Terminal && ValidateRestoreRequest(t) && SameContract(t, r)
  }

  lemma EndingIsPresented(c: Control, t: RestoreRequest, r: RestoreRequest, backup: Option<ArtifactId>, now: Time)
    requires c.request.Some? && SameContract(c.request.value, r) && Presented(c) && Ends(t, r) && WellNamed(backup)
    ensures Presents(c, EndingPayload(t, backup, now))
  {
    EndingReachesOwner(t, backup, now);
  }

  lemma TerminatedEndsPass(r: RestoreRequest, result: RestoreResult, reason: Option<MachineReason>,
                           failedPhase: Option<RestorePhase>, finished: Time)
    requires r.state == Claimed && ValidateRestoreRequest(r) && WellEnded(result, reason)
    ensures Ends(Terminated(r, result, reason, failedPhase, finished), r)
  {
  }

  /** The request on disk ended as `t` says. */
  predicate EndedAs(c: Control, t: RestoreRequest) {
    && c.request.Some? && c.request.value.operationId == t.operationId
    && c.request.value.state == Terminal && c.request.value.terminal == t.terminal
  }

  /** A write reported as failed is confirmed by reading back. */
  method Confirm(h: Host, t: RestoreRequest, trouble: Trouble) returns (o: Outcome<(), Trouble>)
    requires Fits(trouble, h.control)
    modifies h
    ensures Passive(old(h.Now()), h.Now()) && SameFiles(old(h.control), h.control)
    ensures Since(old(h.past), h.past) && h.data.artifacts == old(h.data.artifacts)
    ensures o.Returned? ==> EndedAs(h.control, t)
    ensures o.Raised? ==> h.past.disturbed || Fits(o.error, h.control)
    ensures old(h.Calm()) ==> h.Calm() && old(h.fleet.running) <= h.fleet.running
    ensures old(h.Favourable()) ==> h.Favourable()
  {
    hide Inv, Passive, AllSucceed, AllFavour, AllCalm, AllAttended;
    ghost var before := h.Now();
    var read := Observe(h);
    PassiveDrifts(before, h.Now());
    var _ :- read;
    if !EndedAs(h.control, t) || !ValidateRestoreRequest(h.control.request.value) {
      return Raised(trouble);
    }
    o := Returned(());
  }

  /** The write itself: it takes effect or not, whatever it reports. */
  method ReplaceRequest(h: Host, r: RestoreRequest, t: RestoreRequest) returns (o: Outcome<(), Trouble>)
    requires t.operationId == r.operationId
    modifies h
    ensures Passive(old(h.Now()), h.eve) && SameFiles(old(h.control), h.eve.control)
    ensures h.Now() == h.eve || h.Now() == h.eve.(control := h.eve.control.(request := Some(t)))
    ensures Since(old(h.past), h.past) && h.data.artifacts == old(h.data.artifacts)
    ensures o.Returned? ==> h.control.request == Some(t)
    ensures o.Raised? ==> Fits(o.error, h.control)
    ensures old(h.Calm()) ==> h.Calm() && old(h.fleet.running) <= h.fleet.running
    ensures old(h.Favourable()) ==> h.Favourable() && o.Returned?
  {
    hide Inv, Passive, Sheltered, Since, Interfered, DaemonMoved, AllSucceed, AllFavour, AllCalm, AllAttended;
    ghost var before := h.Now();
    var e := Meet(h);
    if e.fate.Happened() {
      h.control := h.control.(request := Some(t));
    }
    o := e.fate.Conclude((), TroubleOf(e, h.control));
  }

  /** Writes the terminal form of the request, if that is all that happens. */
  method WriteTerminated(h: Host, r: RestoreRequest, ghost result: RestoreResult, ghost reason: Option<MachineReason>,
                         t: RestoreRequest, ghost failedPhase: Option<RestorePhase>, ghost finished: Time)
    returns (o: Outcome<(), Trouble>)
    requires t == Terminated(r, result, reason, failedPhase, finished)
    modifies h
    ensures SameFiles(old(h.control).(request := h.control.request), h.control)
    ensures Since(old(h.past), h.past) && h.data.artifacts == old(h.data.artifacts)
    ensures h.control.request in {old(h.control.request), Some(t)}
    ensures Inv(old(h.Now())) && MayEnd(old(h.Now()), r, result, reason) && Serves(old(h.control), r) ==>
      Inv(h.Now()) && Session(h.control, r)
    ensures o.Returned? ==> h.control.request == Some(t)
    ensures o.Raised? ==> Fits(o.error, h.control)
    ensures old(h.Calm()) ==> h.Calm() && old(h.fleet.running) <= h.fleet.running
    ensures old(h.Favourable()) ==> h.Favourable() && o.Returned?
  {
    hide Inv, Passive, Drifted, Since, MayEnd, Session, ValidateRestoreRequest, AllSucceed, AllFavour, AllCalm, AllAttended;
    ghost var before := h.Now();
    o := ReplaceRequest(h, r, t);
    if Inv(before) && MayEnd(before, r, result, reason) && Serves(before.control, r) {
      PassiveDrifts(before, h.eve);
      MayEndDrifts(before, h.eve, r, result, reason);
      MayEndIsSession(h.eve, r, result, reason);
      EndKeepsInv(h.eve, r, result, reason, failedPhase, finished);
    }
  }

  /** Writes the terminal form of the request; a write reported as failed is confirmed. */
  method CommitTerminal(h: Host, r: RestoreRequest, result: RestoreResult, reason: Option<MachineReason>,
                        failedPhase: Option<RestorePhase>, finished: Time) returns (o: Outcome<(), Trouble>)
    modifies h
    ensures SameFiles(old(h.control).(request := h.control.request), h.control)
    ensures Since(old(h.past), h.past) && h.data.artifacts == old(h.data.artifacts)
    ensures h.control.request in {old(h.control.request), Some(Terminated(r, result, reason, failedPhase, finished))}
    ensures Inv(old(h.Now())) && MayEnd(old(h.Now()), r, result, reason) && Serves(old(h.control), r) ==>
      Inv(h.Now()) && Session(h.control, r)
    ensures o.Returned? ==> EndedAs(h.control, Terminated(r, result, reason, failedPhase, finished))
    ensures o.Raised? ==> h.past.disturbed || Fits(o.error, h.control)
    ensures old(h.Calm()) ==> h.Calm() && old(h.fleet.running) <= h.fleet.running
    ensures old(h.Favourable()) ==> h.Favourable() && o.Returned?
    ensures old(h.Favourable()) ==> h.control.request == Some(Terminated(r, result, reason, failedPhase, finished))
  {
    hide Inv, Passive, Drifted, MayEnd, Terminated, ValidateRestoreRequest, AllSucceed, AllFavour, AllCalm, AllAttended;
    var t := Terminated(r, result, reason, failedPhase, finished);
    TerminatedEndsAs(r, result, reason, failedPhase, finished);
    o := WriteTerminated(h, r, result, reason, t, failedPhase, finished);
    if o.Raised? && o.error.HelperTrouble? {
      ghost var middle := h.Now();
      o := Confirm(h, t, o.error);
      PassiveDrifts(middle, h.Now());
    }
  }

  /** A read on the way to the terminal word. */
  method ObserveEnding(h: Host, r: RestoreRequest, ghost result: RestoreResult, ghost reason: Option<MachineReason>)
    returns (o: Outcome<Event, Trouble>)
    modifies h
    ensures SameFiles(old(h.control), h.control) && Since(old(h.past), h.past) && h.data.artifacts == old(h.data.artifacts)
    ensures Inv(old(h.Now())) ==> Inv(h.Now())
    ensures MayEnd(old(h.Now()), r, result, reason) ==> MayEnd(h.Now(), r, result, reason) && Session(h.control, r)
    ensures o.Raised? ==> Fits(o.error, h.control)
    ensures old(h.Calm()) ==> h.Calm() && old(h.fleet.running) <= h.fleet.running
    ensures old(h.Favourable()) ==> h.Favourable() && o.Returned?
  {
    hide Inv, Passive, MayEnd, Session, Since, SameFiles, Sheltered, AllSucceed, AllFavour, AllCalm, AllAttended;
    ghost var before := h.Now();
    o := Observe(h);
    PassiveDrifts(before, h.Now());
    if MayEnd(before, r, result, reason) {
      MayEndDrifts(before, h.Now(), r, result, reason);
      MayEndIsSession(h.Now(), r, result, reason);
    }
  }

  /** The durable step of a finish, refused if the request changed in the meantime. */
  method WriteTerminalRequest(h: Host, r: RestoreRequest, result: RestoreResult, reason: Option<MachineReason>,
                              failedPhase: Option<RestorePhase>, finished: Time) returns (o: Outcome<(), Trouble>)
    modifies h
    ensures SameFiles(old(h.control).(request := h.control.request), h.control)
    ensures Since(old(h.past), h.past) && h.data.artifacts == old(h.data.artifacts)
    ensures h.control.request in {old(h.control.request), Some(Terminated(r, result, reason, failedPhase, finished))}
    ensures old(h.control.request) != Some(r) && Session(old(h.control), r) ==>
      SameFiles(old(h.control), h.control) && !o.Returned?
    ensures Inv(old(h.Now())) && MayEnd(old(h.Now()), r, result, reason) ==> Inv(h.Now()) && Session(h.control, r)
    ensures o.Returned? ==> EndedAs(h.control, Terminated(r, result, reason, failedPhase, finished))
    ensures o.Raised? ==> h.past.disturbed || Fits(o.error, h.control)
    ensures old(h.Favourable()) && o.Returned? ==>
      h.control.request == Some(Terminated(r, result, reason, failedPhase, finished))
    ensures old(h.Calm()) ==> h.Calm() && old(h.fleet.running) <= h.fleet.running
    ensures old(h.Favourable()) ==> h.Favourable()
    ensures old(h.Favourable()) && Serves(old(h.control), r) && ValidateRestoreRequest(old(h.control.request).value) ==>
      o.Returned?
  {
    hide Inv, MayEnd, ValidateRestoreRequest, Terminated, EndedAs, AllSucceed, AllFavour, AllCalm, AllAttended;
    var _ :- ObserveEnding(h, r, result, reason);
    if !Serves(h.control, r) || !ValidateRestoreRequest(h.control.request.value) {
      return Raised(HelperTrouble(RequestChanged, false));
    }
    o := CommitTerminal(h, r, result, reason, failedPhase, finished);
  }

  function ProjectionsOf(c: Control, r: RestoreRequest): Projections {
    Projections(if r.submissionId in c.receipts then Some(c.receipts[r.submissionId]) else None, c.journal, c.published)
  }

  /** A helper error in a derived step is deferred to the next reconcile. */
  function Deferred(o: Outcome<(), Trouble>): Outcome<(), Trouble> {
    if o.Raised? && o.error.HelperTrouble? then Returned(()) else o
  }

  method WriteReceipt(h: Host, r: RestoreRequest) returns (o: Outcome<(), Trouble>)
    modifies h
    ensures Sheltered(old(h.Now()), h.Now())
    ensures Passive(old(h.Now()), h.eve) && SameFiles(old(h.control), h.eve.control)
    ensures Since(old(h.past), h.past) && h.data.artifacts == old(h.data.artifacts)
    ensures h.Now() == h.eve || h.Now() == h.eve.(control := h.eve.control.(receipts := h.eve.control.receipts[r.submissionId := r]))
    ensures o.Returned? ==>
      h.Now() != h.eve || (r.submissionId in h.control.receipts && h.control.receipts[r.submissionId] == r)
    ensures old(h.Calm()) ==> h.Calm() && old(h.fleet.running) <= h.fleet.running
    ensures old(h.Favourable()) ==> h.Favourable() && o.Returned?
    ensures old(h.Smooth()) ==> h.Smooth() && o.Returned?
  {
    hide Inv, Interfered, DaemonMoved, AllSucceed, AllFavour, AllCalm, AllAttended;
    ghost var before := h.Now();
    var e := Meet(h);
    if e.fate.Happened() {
      h.control := h.control.(receipts := h.control.receipts[r.submissionId := r]);
    }
    o := e.fate.Conclude((), TroubleOf(e, h.control));
  }

  /** The ended request on disk, with the invariant. */
  ghost predicate Over(w: World, r: RestoreRequest) {
    Inv(w) && Session(w.control, r) && w.control.request.value.state == Terminal
  }

  lemma OverDrifts(w: World, v: World, r: RestoreRequest)
    requires Passive(w, v) && Over(w, r)
    ensures Over(v, r)
  {
  }

  lemma OverIgnoresReceipts(w: World, receipts: map<string, RestoreRequest>, r: RestoreRequest)
    requires Over(w, r)
    ensures Over(w.(control := w.control.(receipts := receipts)), r)
  {
    ReceiptsAreFree(w, receipts);
  }

  lemma OverIgnoresJournal(w: World, j: RestoreJournal, r: RestoreRequest)
    requires Over(w, r) && WellNamed(j.preRestoreBackupId)
    ensures Over(w.(control := w.control.(journal := Some(j))), r)
  {
    EndingJournalKeepsInv(w, j);
  }

  method WriteEndingReceipt(h: Host, t: RestoreRequest, ghost r: RestoreRequest) returns (o: Outcome<(), Trouble>, ghost lost: bool)
    modifies h
    ensures Sheltered(old(h.Now()), h.Now())
    ensures Over(old(h.Now()), r) ==> Over(h.Now(), r)
    ensures SameFiles(old(h.control).(receipts := h.control.receipts), h.control)
    ensures ProjectionsOf(h.control, t).receipt == if lost then old(ProjectionsOf(h.control, t)).receipt else Some(t)
    ensures o.Raised? ==> o.error == OtherTrouble
    ensures old(h.Favourable()) ==> !lost
    ensures old(h.Calm()) ==> h.Calm() && old(h.fleet.running) <= h.fleet.running
    ensures old(h.Favourable()) ==> h.Favourable() && o.Returned?
  {
    hide Inv, Passive, Over, AllSucceed, AllFavour, AllCalm, AllAttended;
    ghost var before := h.Now();
    var written := WriteReceipt(h, t);
    lost := ProjectionsOf(h.control, t).receipt != Some(t);
    if Over(before, r) {
      OverDrifts(before, h.eve, r);
      OverIgnoresReceipts(h.eve, h.control.receipts, r);
    }
    o := Deferred(written);
  }

  method WriteEndingJournal(h: Host, j: RestoreJournal, ghost r: RestoreRequest) returns (o: Outcome<(), Trouble>, ghost lost: bool)
    modifies h
    ensures Sheltered(old(h.Now()), h.Now())
    ensures Over(old(h.Now()), r) && WellNamed(j.preRestoreBackupId) ==> Over(h.Now(), r)
    ensures SameFiles(old(h.control).(journal := h.control.journal), h.control)
    ensures h.control.journal == if lost then old(h.control.journal) else Some(j)
    ensures o.Raised? ==> o.error == OtherTrouble
    ensures old(h.Favourable()) ==> !lost
    ensures old(h.Calm()) ==> h.Calm() && old(h.fleet.running) <= h.fleet.running
    ensures old(h.Favourable()) ==> h.Favourable() && o.Returned?
  {
    hide Inv, Passive, Over, AllSucceed, AllFavour, AllCalm, AllAttended;
    ghost var before := h.Now();
    var written := WriteJournal(h, j);
    lost := h.control.journal != Some(j);
    if Over(before, r) && WellNamed(j.preRestoreBackupId) {
      OverDrifts(before, h.eve, r);
      OverIgnoresJournal(h.eve, j, r);
    }
    o := Deferred(written);
  }

  /** A request that ended with recovery required demands isolation, whatever its journal says. */
  predicate RecoveryDemanded(c: Control) {
    && c.request.Some? && IsOperationId(c.request.value.operationId) && c.request.value.state == Terminal
    && c.request.value.terminal.Some? && c.request.value.terminal.value.status == FailedRecoveryRequired
  }

  /** The derived writes of a finish, in their order.  Wherever the sequence ends, what is on
      disk is what some set of lost writes leaves. */
  method WriteDerived(h: Host, t: RestoreRequest, backup: Option<ArtifactId>, destructive: bool, now: Time, ghost r: RestoreRequest)
    returns (o: Outcome<(), Trouble>, ghost lost: Lost)
    requires t.terminal.Some?
    modifies h
    ensures RecoveryDemanded(old(h.control)) && Sealed(old(h.Now())) ==> Sealed(h.Now())
    ensures ProjectionsOf(h.control, t) == FinishedProjections(t, old(ProjectionsOf(h.control, t)), backup, destructive, now, lost)
    ensures Over(old(h.Now()), r) && Ends(t, r) && WellNamed(backup) ==> Over(h.Now(), r)
    ensures h.control.request == old(h.control.request)
    ensures o.Raised? ==> o.error == OtherTrouble
    ensures old(h.Favourable()) ==> lost == NOTHING_LOST
    ensures old(h.Calm()) ==> h.Calm() && old(h.fleet.running) <= h.fleet.running
    ensures old(h.Favourable()) ==> h.Favourable() && o.Returned?
  {
    hide Inv, Over, Ends, Session, Presented, Presents, EndingPayload, AllSucceed, AllFavour, AllCalm, AllAttended;
    lost := Lost(true, true, true);
    var receipt, receiptLost := WriteEndingReceipt(h, t, r);
    lost := lost.(receipt := receiptLost);
    var _ :- receipt;
    var journal, journalLost := WriteEndingJournal(h, EndingEvent(t, backup, destructive), r);
    lost := lost.(journal := journalLost);
    var _ :- journal;
    ghost var statusLost;
    o, statusLost := WriteEndingStatus(h, t, backup, now, r);
    lost := lost.(status := statusLost);
  }

  method WriteEndingStatus(h: Host, t: RestoreRequest, backup: Option<ArtifactId>, now: Time, ghost r: RestoreRequest)
    returns (o: Outcome<(), Trouble>, ghost lost: bool)
    requires t.terminal.Some?
    modifies h
    ensures Sheltered(old(h.Now()), h.Now())
    ensures Over(old(h.Now()), r) && Ends(t, r) && WellNamed(backup) ==> Over(h.Now(), r)
    ensures SameFiles(old(h.control).(published := h.control.published), h.control)
    ensures h.control.published == if lost then old(h.control.published) else Some(EndingPayload(t, backup, now))
    ensures o.Raised? ==> o.error == OtherTrouble
    ensures old(h.Favourable()) ==> !lost
    ensures old(h.Calm()) ==> h.Calm() && old(h.fleet.running) <= h.fleet.running
    ensures old(h.Favourable()) ==> h.Favourable() && o.Returned?
  {
    hide Inv, Ends, EndingPayload, AllSucceed, AllFavour, AllCalm, AllAttended;
    var p := EndingPayload(t, backup, now);
    if Over(h.Now(), r) && Ends(t, r) && WellNamed(backup) {
      InvPresents(h.Now());
      EndingIsPresented(h.control, t, r, backup, now);
    }
    var written := WritePublicStatus(h, p);
    lost := h.control.published != Some(p);
    o := Deferred(written);
  }

  /** Receipt, journal and public status all say how `t` ended. */
  predicate AgreesWith(c: Control, t: RestoreRequest) {
    && t.terminal.Some?
    && ReceiptAgrees(t, ProjectionsOf(c, t)) && JournalAgrees(t, ProjectionsOf(c, t)) && StatusAgrees(t, ProjectionsOf(c, t))
  }

  /** The fence is released, and the bootstrap predicate would release it. */
  predicate Released(w: World) {
    MayUnfence(w.control) && w.fleet.always == WRITERS
  }

  predicate Agreed(c: Control) {
    c.request.Some? && AgreesWith(c, c.request.value)
  }

  /** What follows the durable terminal word: the projections, and the release of the fence
      unless recovery is still required. */
  method FollowEnd(h: Host, t: RestoreRequest, backup: Option<ArtifactId>, destructive: bool, now: Time, ghost r: RestoreRequest)
    returns (o: Outcome<(), Trouble>)
    requires t.terminal.Some?
    modifies h
    ensures t.terminal.value.status == FailedRecoveryRequired && RecoveryDemanded(old(h.control)) && Sealed(old(h.Now())) ==>
      Sealed(h.Now())
    ensures Over(old(h.Now()), r) && Ends(t, r) && WellNamed(backup) ==> Over(h.Now(), r)
    ensures h.control.request == old(h.control.request)
    ensures o.Raised? ==> o.error == OtherTrouble
    ensures old(h.Favourable()) ==> AgreesWith(h.control, t)
    ensures old(h.Favourable()) && t.terminal.value.status != FailedRecoveryRequired ==> h.fleet.always == WRITERS
    ensures old(h.Calm()) ==> h.Calm() && old(h.fleet.running) <= h.fleet.running
    ensures old(h.Favourable()) ==> h.Favourable() && o.Returned?
  {
    hide Inv, Passive, Over, Ends, AllSucceed, AllFavour, AllCalm, AllAttended;
    ghost var lost;
    var derived;
    derived, lost := WriteDerived(h, t, backup, destructive, now, r);
    var _ :- derived;
    if t.terminal.value.status == FailedRecoveryRequired {
      return Returned(());
    }
    ghost var middle := h.Now();
    o := SetRestoreWriterFence(h, false);
    if Over(middle, r) {
      OverDrifts(middle, h.Now(), r);
    }
    o := Deferred(o);
  }

  /** The guarded durable step. */
  method EndRequest(h: Host, r: RestoreRequest, result: RestoreResult, reason: Option<MachineReason>, failedPhase: Option<RestorePhase>)
    returns (o: Outcome<Time, Trouble>)
    modifies h
    ensures Inv(old(h.Now())) && MayEnd(old(h.Now()), r, result, reason) ==> Inv(h.Now()) && Session(h.control, r)
    ensures SameFiles(old(h.control).(request := h.control.request), h.control)
    ensures Since(old(h.past), h.past) && h.data.artifacts == old(h.data.artifacts)
    ensures old(h.control.request) != Some(r) && Session(old(h.control), r) ==> !o.Returned?
    ensures h.control.request == old(h.control.request) || (h.control.request.Some? && h.control.request.value.state == Terminal)
    ensures o.Returned? ==> EndedAs(h.control, Terminated(r, result, reason, failedPhase, o.value))
    ensures o.Raised? ==> h.past.disturbed || Fits(o.error, h.control)
    ensures old(h.Favourable()) && o.Returned? ==>
      h.control.request == Some(Terminated(r, result, reason, failedPhase, o.value))
    ensures old(h.Calm()) ==> h.Calm() && old(h.fleet.running) <= h.fleet.running
    ensures old(h.Favourable()) ==> h.Favourable()
    ensures old(h.Favourable()) && Serves(old(h.control), r) && ValidateRestoreRequest(old(h.control.request).value) ==>
      o.Returned?
  {
    hide Inv, MayEnd, ValidateRestoreRequest, EndedAs, AllSucceed, AllFavour, AllCalm, AllAttended;
    var clock :- ObserveEnding(h, r, result, reason);
    var _ :- WriteTerminalRequest(h, r, result, reason, failedPhase, clock.number);
    o := Returned(clock.number);
  }

  lemma MayEndIsSession(w: World, r: RestoreRequest, result: RestoreResult, reason: Option<MachineReason>)
    requires MayEnd(w, r, result, reason)
    ensures Session(w.control, r) && WellEnded(result, reason)
  {
  }

  lemma SessionIsValid(c: Control, r: RestoreRequest)
    requires Session(c, r)
    ensures r.state == Claimed && ValidateRestoreRequest(r)
  {
  }

  /** The request ended with this word, for this reason and in this phase. */
  predicate EndedFor(c: Control, result: RestoreResult, reason: Option<MachineReason>, failedPhase: Option<RestorePhase>) {
    && EndedWith(c, result) && c.request.value.state == Terminal
    && c.request.value.terminal.value.reason == reason
    && (result != Completed ==> c.request.value.terminal.value.failedPhase == failedPhase)
  }

  predicate EndedWith(c: Control, result: RestoreResult) {
    c.request.Some? && c.request.value.terminal.Some? && c.request.value.terminal.value.status == result
  }

  /** Ends the request.  The terminal word is durable before anything else changes; if an
      unexpected error strikes after that, the call raises over a terminal request. */
  method FinishRestoreRequest(h: Host, r: RestoreRequest, result: RestoreResult, reason: Option<MachineReason>,
                              backup: Option<ArtifactId>, destructive: bool, failedPhase: Option<RestorePhase>)
    returns (o: Outcome<(), Trouble>)
    modifies h
    ensures Inv(old(h.Now())) && MayEnd(old(h.Now()), r, result, reason) && WellNamed(backup) ==>
      Inv(h.Now()) && Session(h.control, r)
    ensures Session(old(h.control), r) && old(h.control.request) != Some(r) ==> !o.Returned?
    ensures r.state == Claimed && h.control.request == Some(r) ==>
      SameFiles(old(h.control), h.control) && Since(old(h.past), h.past) && h.data.artifacts == old(h.data.artifacts)
    ensures o.Returned? ==> EndedWith(h.control, result)
    ensures o.Returned? ==> EndedFor(h.control, result, reason, failedPhase)
    ensures o.Raised? ==> h.past.disturbed || Fits(o.error, h.control)
    ensures old(h.Favourable()) && o.Returned? ==> Agreed(h.control)
    ensures old(h.Favourable()) && o.Returned? && IsOperationId(r.operationId) ==>
      Decision(h.control) == Success(result == FailedRecoveryRequired)
    ensures old(h.Favourable()) && o.Returned? && result != FailedRecoveryRequired && IsOperationId(r.operationId) ==>
      Released(h.Now())
    ensures old(h.Calm()) ==> h.Calm() && old(h.fleet.running) <= h.fleet.running
    ensures old(h.Favourable()) ==> h.Favourable()
    ensures old(h.Favourable()) && Serves(old(h.control), r) && ValidateRestoreRequest(old(h.control.request).value) ==>
      o.Returned?
  {
    hide Inv, Session, MayEnd, MayUnfence, Over, Ends, Terminated, EndedAs, EndedWith, EndedFor, Decision,
      ValidateRestoreRequest, IsOperationId,
      SameContract, AgreesWith, AllSucceed, AllFavour, AllCalm, AllAttended;
    ghost var before := h.Now();
    var finished :- EndRequest(h, r, result, reason, failedPhase);
    ghost var middle := h.Now();
    TerminatedEnds(h.control, r, result, reason, failedPhase, finished);
    if Inv(middle) && Session(h.control, r) && MayEnd(before, r, result, reason) {
      EndedIsOver(middle, r);
      MayEndIsSession(before, r, result, reason);
      SessionIsValid(before.control, r);
      TerminatedEndsPass(r, result, reason, failedPhase, finished);
    }
    o := FollowEnd(h, Terminated(r, result, reason, failedPhase, finished), backup, destructive, finished, r);
    EndedForStays(middle.control, h.control, result, reason, failedPhase);
    if h.control.request == Some(Terminated(r, result, reason, failedPhase, finished))
      && IsOperationId(r.operationId) {
      TerminatedReleases(h.control, r, result, reason, failedPhase, finished);
    }
    if Over(h.Now(), r) {
      OverIsSound(h.Now(), r);
    }
  }

  lemma TerminatedEndsAs(r: RestoreRequest, result: RestoreResult, reason: Option<MachineReason>,
                         failedPhase: Option<RestorePhase>, finished: Time)
    ensures Terminated(r, result, reason, failedPhase, finished).state == Terminal
    ensures Terminated(r, result, reason, failedPhase, finished).operationId == r.operationId
  {
  }

  lemma TerminatedEnds(c: Control, r: RestoreRequest, result: RestoreResult, reason: Option<MachineReason>,
                       failedPhase: Option<RestorePhase>, finished: Time)
    ensures Terminated(r, result, reason, failedPhase, finished).terminal.Some?
    ensures EndedAs(c, Terminated(r, result, reason, failedPhase, finished)) ==>
      EndedFor(c, result, reason, failedPhase) && EndedWith(c, result) && c.request.value.state == Terminal
  {
  }

  lemma TerminatedReleases(c: Control, r: RestoreRequest, result: RestoreResult, reason: Option<MachineReason>,
                           failedPhase: Option<RestorePhase>, finished: Time)
    requires c.request == Some(Terminated(r, result, reason, failedPhase, finished))
    requires IsOperationId(r.operationId)
    ensures Decision(c) == Success(result == FailedRecoveryRequired)
    ensures result != FailedRecoveryRequired ==> MayUnfence(c)
  {
  }

  lemma EndedForStays(c: Control, d: Control, result: RestoreResult, reason: Option<MachineReason>, failedPhase: Option<RestorePhase>)
    requires d.request == c.request
    ensures EndedFor(d, result, reason, failedPhase) <==> EndedFor(c, result, reason, failedPhase)
    ensures EndedFor(d, result, reason, failedPhase) ==> EndedWith(d, result)
  {
  }

  lemma EndedIsOver(w: World, r: RestoreRequest)
    requires Inv(w) && Session(w.control, r) && w.control.request.value.state == Terminal
    ensures Over(w, r)
  {
  }

  lemma OverIsSound(w: World, r: RestoreRequest)
    requires Over(w, r)
    ensures Inv(w) && Session(w.control, r)
  {
  }
}
