/** The update half of the helper's loop: claiming an admitted request, starting its update
    at most once, and publishing its terminal word. */
module UpdateClaim {
  import opened Wrappers
  import opened Contracts

  type RequestId = string

  datatype Word = Committed | Failed | RolledBack | Cancelled | Stuck

  datatype State = Admitted | Claimed | Ended(word: Word)

  datatype UpdateRequest = UpdateRequest(requestId: RequestId, state: State)

  /** The status file: a running phase or the terminal word of one request. */
  datatype Report = Running | Announced(word: Word)

  datatype Status = Status(requestId: RequestId, report: Report)

  /** What the helper reads from an activation journal. */
  datatype ActivationView = ActivationView(requestId: RequestId, phase: Phase)

  datatype Control = Control(request: Option<UpdateRequest>, status: Option<Status>, journal: Option<ActivationView>)

  /** `starts` counts the updates started for each request.  `misreported` holds the requests
      whose ending write took effect although it was reported as failed; `seen` is what a pass
      last found before it decided on a word other than a failure. */
  datatype Past = Past(starts: map<RequestId, nat>, misreported: set<RequestId>, seen: map<RequestId, Sight>)

  /** The activation journal as it was read, and whether the new commit was verified. */
  datatype Sight = Sight(journal: Option<ActivationView>, verified: bool)

  datatype World = World(control: Control, past: Past)

  /** The helper's own error class, or anything else. */
  datatype Trouble = HelperTrouble | OtherTrouble

  /** The activation bridge may change its journal between any two effects of the helper. */
  datatype Event = Event(fate: Fate, unexpected: bool, answer: bool, journal: Option<ActivationView>)

  function StartsOf(p: Past, request: RequestId): nat {
    if request in p.starts then p.starts[request] else 0
  }

  /** The word an ended activation gives to its update. */
  function WordOf(phase: Phase): Option<Word> {
    match phase
    case Completed => Some(Committed)
    case FailedRolledBack => Some(RolledBack)
    case Blocked => Some(Stuck)
    case _ => None
  }

  /** What the words say of an activation that was found in this phase. */
  predicate Says(word: Word, phase: Phase) {
    && (word == Committed <==> phase == Completed)
    && (word == RolledBack <==> phase == FailedRolledBack)
    && (word == Stuck <==> phase == Blocked)
  }

  /** What the words say of the journal that was found: of an activation of this request, or
      of a child process without one. */
  predicate Tells(word: Word, id: RequestId, journal: Option<ActivationView>, applied: bool) {
    if IsAbout(journal, id) then
      Says(word, journal.value.phase) && (journal.value.phase !in {Completed, FailedRolledBack, Blocked} ==> word == Failed)
    else word == (if applied then Committed else Failed)
  }

  /** The request ended, was announced with the same word, and the word tells of the journal. */
  predicate EndedBy(c: Control, id: RequestId, journal: Option<ActivationView>, applied: bool) {
    IsEnded(c, id) && WordsAgree(c) && Tells(c.request.value.state.word, id, journal, applied)
  }

  predicate IsAbout(journal: Option<ActivationView>, id: RequestId) {
    journal.Some? && journal.value.requestId == id
  }

  /** A committed update was seen with a completed activation, or with none and its commit
      verified; the other two words rest on the activation they name. */
  predicate Warrants(s: Sight, id: RequestId, word: Word) {
    && (word == Committed ==> s.journal == Some(ActivationView(id, Completed)) || (!IsAbout(s.journal, id) && s.verified))
    && (word == RolledBack ==> s.journal == Some(ActivationView(id, FailedRolledBack)))
    && (word == Stuck ==> s.journal == Some(ActivationView(id, Blocked)))
  }

  predicate Warranted(p: Past, id: RequestId, word: Word) {
    word in {Committed, RolledBack, Stuck} ==> id in p.seen && Warrants(p.seen[id], id, word)
  }

  /** The status file announces a terminal word for the request. */
  predicate IsAnnounced(c: Control, id: RequestId) {
    c.status.Some? && c.status.value.requestId == id && c.status.value.report.Announced?
  }

  /** The request ended, and the status file announces the same word. */
  predicate WordsAgree(c: Control) {
    Over(c) && c.status == Some(Status(c.request.value.requestId, Announced(c.request.value.state.word)))
  }

  predicate RequestInv(w: World, r: UpdateRequest) {
    match r.state
    case Admitted => StartsOf(w.past, r.requestId) == 0 && r.requestId !in w.past.misreported
    case Claimed => r.requestId !in w.past.misreported
    case Ended(word) =>
      Warranted(w.past, r.requestId, word) &&
      (word != Cancelled ==>
        && IsAnnounced(w.control, r.requestId)
        && w.control.status.value.report.word in {word, Failed}
        && (r.requestId !in w.past.misreported ==> WordsAgree(w.control)))
  }

  /** Every update was started at most once, and an ended request was announced first. */
  predicate Inv(w: World) {
    && (forall id :: id in w.past.starts ==> w.past.starts[id] <= 1)
    && (w.control.request.Some? ==> RequestInv(w, w.control.request.value))
  }

  predicate IsEnded(c: Control, id: RequestId) {
    c.request.Some? && c.request.value.requestId == id && c.request.value.state.Ended?
  }

  predicate Waiting(c: Control) {
    c.request.Some? && !c.request.value.state.Ended?
  }

  predicate Over(c: Control) {
    c.request.Some? && c.request.value.state.Ended?
  }

  /** The pass still has to end its request, or ended it by a write reported as failed. */
  predicate Unsettled(w: World, r: UpdateRequest) {
    Session(w.control, r) && (w.control.request.value.state == Claimed || r.requestId in w.past.misreported)
  }

  /** The word may be published: the request is still claimed, or the loop announces the
      failure that a misreported write made it believe in. */
  predicate MayPublish(w: World, r: UpdateRequest, word: Word) {
    && Session(w.control, r)
    && (w.control.request.value.state == Claimed || (r.requestId in w.past.misreported && word == Failed))
    && Warranted(w.past, r.requestId, word)
  }

  /** Only the activation journal moved. */
  predicate Drifted(w: World, v: World) {
    v == w.(control := w.control.(journal := v.control.journal))
  }

  class Helper {
    const oracle: nat -> Event
    var clock: nat
    var control: Control
    ghost var past: Past

    ghost function Now(): World
      reads this
    {
      World(control, past)
    }

    /** From here on every effect succeeds and every check comes out well. */
    ghost predicate Smooth()
      reads this
    {
      forall n :: n >= clock ==> oracle(n).fate == Done && oracle(n).answer
    }

    /** From here on no effect takes place that is reported as failed. */
    ghost predicate Candid()
      reads this
    {
      forall n :: n >= clock ==> oracle(n).fate != FailedAfter
    }

    constructor (oracle: nat -> Event, control: Control)
      ensures this.oracle == oracle && this.control == control && clock == 0
      ensures past == Past(map[], {}, map[])
    {
      this.oracle := oracle;
      this.control := control;
      clock := 0;
      past := Past(map[], {}, map[]);
    }

    method Draw() returns (e: Event)
      modifies this
      ensures clock == old(clock) + 1
      ensures old(Candid()) ==> Candid() && e.fate != FailedAfter
      ensures e == oracle(old(clock)) && Drifted(old(Now()), Now()) && control.journal == e.journal
      ensures old(Smooth()) ==> Smooth() && e.fate == Done && e.answer
    {
      e := oracle(clock);
      clock := clock + 1;
      control := control.(journal := e.journal);
    }

    method Look() returns (o: Outcome<bool, Trouble>)
      modifies this
      ensures Drifted(old(Now()), Now()) && clock == old(clock) + 1
      ensures oracle(old(clock)).fate == Done ==> o == Returned(oracle(old(clock)).answer)
      ensures control.journal == oracle(old(clock)).journal
      ensures old(Candid()) ==> Candid()
      ensures old(Smooth()) ==> Smooth() && o == Returned(true)
    {
      var e := Draw();
      o := e.fate.Conclude(e.answer, if e.unexpected then OtherTrouble else HelperTrouble);
    }

    method WriteStatus(s: Status) returns (o: Outcome<(), Trouble>)
      modifies this
      ensures Drifted(old(Now()).(control := old(control).(status := control.status)), Now())
      ensures control.status in {old(control.status), Some(s)} && clock == old(clock) + 1
      ensures o.Returned? ==> control.status == Some(s)
      ensures oracle(old(clock)).fate == Done ==> o.Returned?
      ensures old(Candid()) ==> Candid()
      ensures old(Smooth()) ==> Smooth() && o.Returned?
    {
      var e := Draw();
      if e.fate.Happened() {
        control := control.(status := Some(s));
      }
      o := e.fate.Conclude((), if e.unexpected then OtherTrouble else HelperTrouble);
    }

    method WriteRequest(r: UpdateRequest) returns (o: Outcome<(), Trouble>)
      modifies this
      ensures Drifted(old(Now()).(control := old(control).(request := control.request)), Now())
      ensures control.request in {old(control.request), Some(r)} && clock == old(clock) + 1
      ensures o.Returned? ==> control.request == Some(r)
      ensures o.Raised? && control.request != old(control.request) ==> oracle(old(clock)).fate == FailedAfter
      ensures oracle(old(clock)).fate == FailedAfter ==> o.Raised? && control.request == Some(r)
      ensures old(Candid()) ==> Candid()
      ensures old(Smooth()) ==> Smooth() && o.Returned?
    {
      var e := Draw();
      if e.fate.Happened() {
        control := control.(request := Some(r));
      }
      o := e.fate.Conclude((), if e.unexpected then OtherTrouble else HelperTrouble);
    }

    /** Writes the terminal form of a claimed request, and notes whether a write that took
        effect was reported as failed. */
    method EndRequest(r: UpdateRequest, word: Word) returns (o: Outcome<(), Trouble>)
      requires Session(control, r) && control.request.value.state == Claimed && word != Cancelled
      modifies this
      ensures control.status == old(control.status) && past.starts == old(past.starts) && past.seen == old(past.seen) && clock == old(clock) + 1
      ensures control.request in {old(control.request), Some(UpdateRequest(r.requestId, Ended(word)))}
      ensures o.Returned? ==> control.request == Some(UpdateRequest(r.requestId, Ended(word)))
      ensures past.misreported - {r.requestId} == old(past.misreported) - {r.requestId}
      ensures o.Raised? && control.request != old(control.request) ==> r.requestId in past.misreported
      ensures control.request == old(control.request) || !o.Raised? ==> past.misreported == old(past.misreported)
      ensures oracle(old(clock)).fate == FailedAfter ==>
        o.Raised? && control.request == Some(UpdateRequest(r.requestId, Ended(word)))
      ensures old(Candid()) ==> Candid() && past.misreported == old(past.misreported)
      ensures old(Smooth()) ==> Smooth() && o.Returned?
    {
      o := WriteRequest(UpdateRequest(r.requestId, Ended(word)));
      if o.Raised? && control.request == Some(UpdateRequest(r.requestId, Ended(word))) {
        past := past.(misreported := past.misreported + {r.requestId});
      }
    }

    /** Ends the request: the status file first, the request last.  A request that already
        ended keeps its word, but its status file is rewritten: after a normal return the two
        words agree exactly when the request was still claimed or had ended with this word. */
    method PublishTerminal(r: UpdateRequest, word: Word) returns (o: Outcome<(), Trouble>)
      requires word != Cancelled
      modifies this
      ensures o.Returned? ==>
        IsEnded(control, r.requestId) && control.status == Some(Status(r.requestId, Announced(word)))
      ensures Session(old(control), r) ==> Session(control, r)
      ensures Session(old(control), r) && o.Returned? ==>
        (WordsAgree(control) <==> old(control.request).value.state in {Claimed, Ended(word)})
      ensures Session(old(control), r) && old(control.request).value.state.Ended? ==>
        control.request == old(control.request)
      ensures Inv(old(Now())) && MayPublish(old(Now()), r, word) ==> Inv(Now())
      ensures Unsettled(old(Now()), r) && o.Raised? ==> Unsettled(Now(), r)
      ensures past.starts == old(past.starts)
      ensures Session(old(control), r) && old(control.request).value.state == Claimed && o.Returned? ==>
        control.request == Some(UpdateRequest(r.requestId, Ended(word)))
      ensures Session(old(control), r) && old(control.request).value.state.Ended?
        && oracle(old(clock)).fate == Done && oracle(old(clock) + 1).fate == Done
        ==> o.Returned?
      ensures Misreports(old(clock)) && Session(old(control), r) && old(control.request).value.state == Claimed ==>
        o.Raised? && control.request == Some(UpdateRequest(r.requestId, Ended(word))) && clock == old(clock) + 3
      ensures old(Candid()) ==> Candid() && past.misreported == old(past.misreported)
      ensures old(Smooth()) ==> Smooth() && !o.Crashed? && (Session(old(control), r) ==> o.Returned?)
    {
      var _ :- WriteStatus(Status(r.requestId, Announced(word)));
      var _ :- Look();
      if control.request.None? || control.request.value.requestId != r.requestId || control.request.value.state == Admitted {
        return Raised(HelperTrouble);
      }
      if control.request.value.state.Ended? {
        return Returned(());
      }
      o := EndRequest(r, word);
    }

    /** The effects from `n` on: a status write and a look that succeed, then a request write
        that takes effect and is reported as failed. */
    ghost predicate Misreports(n: nat) {
      oracle(n).fate == Done && oracle(n + 1).fate == Done && oracle(n + 2).fate == FailedAfter
    }

    /** The next `count` looks succeed and find the activation of this request completed. */
    ghost predicate Finds(n: nat, count: nat, id: RequestId) {
      forall k :: n <= k < n + count ==>
        oracle(k).fate == Done && oracle(k).answer && oracle(k).journal == Some(ActivationView(id, Completed))
    }

    /** Keeps what was found before a word is published. */
    ghost method Note(id: RequestId, verified: bool)
      modifies this`past
      ensures past == old(past).(seen := old(past.seen)[id := Sight(control.journal, verified)])
    {
      past := past.(seen := past.seen[id := Sight(control.journal, verified)]);
    }

    /** Publishes what the activation of this request came to. */
    method PublishActivationOutcome(r: UpdateRequest, view: ActivationView) returns (o: Outcome<(), Trouble>)
      modifies this
      ensures o.Returned? ==>
        IsEnded(control, r.requestId) && IsAnnounced(control, r.requestId)
        && view.phase in {Completed, FailedRolledBack, Blocked} && Says(control.status.value.report.word, view.phase)
      ensures Session(old(control), r) && old(control.request).value.state == Claimed && o.Returned? ==> WordsAgree(control)
      ensures Session(old(control), r) ==> Session(control, r)
      ensures Inv(old(Now())) && Session(old(control), r) && old(control.request).value.state == Claimed
        && r.requestId in old(past.seen) && old(past.seen)[r.requestId].journal == Some(view)
        && view.requestId == r.requestId
        ==> Inv(Now())
      ensures Unsettled(old(Now()), r) && o.Raised? ==> Unsettled(Now(), r)
      ensures past.starts == old(past.starts)
      ensures Session(old(control), r) && old(control.request).value.state == Claimed && view.phase == Completed
        && Finds(old(clock), 1, r.requestId) && Misreports(old(clock) + 1)
        ==> o.Raised? && control.request == Some(UpdateRequest(r.requestId, Ended(Committed))) && clock == old(clock) + 4
      ensures old(Candid()) ==> Candid() && past.misreported == old(past.misreported)
      ensures old(Smooth()) ==>
        Smooth() && !o.Crashed?
        && (Session(old(control), r) && view.phase in {Completed, FailedRolledBack, Blocked} ==> o.Returned?)
        && (view.phase !in {Completed, FailedRolledBack, Blocked} ==> o.Raised? && control.request == old(control.request))
    {
      var matches :- Look();
      var word := WordOf(view.phase);
      if !matches || word.None? {
        return Raised(HelperTrouble);
      }
      o := PublishTerminal(r, word.value);
    }

    /** Publishes what the child process of an update came to: its activation's outcome if
        there is one, otherwise the verified commit. */
    method ConcludeUpdate(r: UpdateRequest, applied: bool) returns (o: Outcome<(), Trouble>)
      modifies this
      ensures o.Returned? ==> IsEnded(control, r.requestId)
      ensures Session(old(control), r) ==> Session(control, r)
      ensures Inv(old(Now())) && Session(old(control), r) && old(control.request).value.state == Claimed ==> Inv(Now())
      ensures Unsettled(old(Now()), r) && o.Raised? ==> Unsettled(Now(), r)
      ensures past.starts == old(past.starts)
      ensures old(Candid()) ==> Candid() && past.misreported == old(past.misreported)
      ensures old(Smooth()) ==> Smooth() && !o.Crashed?
      ensures old(Smooth()) && Session(old(control), r) && old(control.request).value.state == Claimed ==>
        ConcludedBy(o, control, r, oracle(old(clock)).journal, applied)
    {
      var _ :- Look();
      if control.journal.Some? && control.journal.value.requestId == r.requestId {
        Note(r.requestId, false);
        o := PublishActivationOutcome(r, control.journal.value);
        return;
      }
      Note(r.requestId, applied);
      if !applied {
        return Raised(HelperTrouble);
      }
      var _ :- Look();
      o := PublishTerminal(r, Committed);
    }

    /** Starts the child process of an update and waits for it. */
    method RunChild(r: UpdateRequest) returns (o: Outcome<bool, Trouble>)
      modifies this
      ensures Inv(old(Now())) && Session(old(control), r) && old(control.request).value.state == Claimed && StartsOf(old(past), r.requestId) == 0 ==>
        Inv(Now())
      ensures control.request == old(control.request)
      ensures past == old(past).(starts := past.starts)
      ensures StartsOf(past, r.requestId) == StartsOf(old(past), r.requestId) + 1
      ensures old(Candid()) ==> Candid()
      ensures old(Smooth()) ==> Smooth() && o == Returned(true) && clock == old(clock) + 3
    {
      past := past.(starts := past.starts[r.requestId := StartsOf(past, r.requestId) + 1]);
      var _ :- Look();
      var _ :- WriteStatus(Status(r.requestId, Running));
      o := Look();
    }

    /** Starts the update of a request this pass has just claimed. */
    method RunUpdate(r: UpdateRequest) returns (o: Outcome<(), Trouble>)
      modifies this
      ensures o.Returned? ==> IsEnded(control, r.requestId)
      ensures Inv(old(Now())) && Session(old(control), r) && old(control.request).value.state == Claimed && StartsOf(old(past), r.requestId) == 0 ==>
        Inv(Now())
      ensures Session(old(control), r) ==> Session(control, r)
      ensures Unsettled(old(Now()), r) && o.Raised? ==> Unsettled(Now(), r)
      ensures old(Candid()) ==> Candid() && past.misreported == old(past.misreported)
      ensures StartsOf(past, r.requestId) == StartsOf(old(past), r.requestId) + 1
      ensures old(Smooth()) ==> Smooth() && !o.Crashed?
      ensures old(Smooth()) && Session(old(control), r) && old(control.request).value.state == Claimed ==>
        ConcludedBy(o, control, r, oracle(old(clock) + 3).journal, true)
    {
      hide Inv, Says, Warrants, WordsAgree, ConcludedBy, EndedBy, Tells;
      var applied :- RunChild(r);
      o := ConcludeUpdate(r, applied);
    }

    /** Picks up a request found claimed: its activation is published, never started again. */
    method ResumeActivation(r: UpdateRequest) returns (o: Outcome<(), Trouble>)
      modifies this
      ensures o.Returned? ==> IsEnded(control, r.requestId)
      ensures Session(old(control), r) ==> Session(control, r)
      ensures Inv(old(Now())) && Session(old(control), r) && old(control.request).value.state == Claimed ==> Inv(Now())
      ensures Session(old(control), r) && old(control.request).value.state == Claimed
        && Finds(old(clock), 3, r.requestId) && Misreports(old(clock) + 3)
        ==> o.Raised? && control.request == Some(UpdateRequest(r.requestId, Ended(Committed))) && clock == old(clock) + 6
      ensures Unsettled(old(Now()), r) && o.Raised? ==> Unsettled(Now(), r)
      ensures past.starts == old(past.starts)
      ensures old(Candid()) ==> Candid() && past.misreported == old(past.misreported)
      ensures old(Smooth()) ==> Smooth() && !o.Crashed?
      ensures old(Smooth()) && Session(old(control), r) && old(control.request).value.state == Claimed ==>
        ConcludedBy(o, control, r, oracle(old(clock) + 1).journal, false)
    {
      var _ :- Look();
      var _ :- Look();
      if control.journal.None? || control.journal.value.requestId != r.requestId {
        return Raised(HelperTrouble);
      }
      Note(r.requestId, false);
      o := PublishActivationOutcome(r, control.journal.value);
    }

    /** A claimed request without an activation journal was interrupted: it fails. */
    method FailInterrupted(r: UpdateRequest) returns (o: Outcome<(), Trouble>)
      requires control.request == Some(r) && r.state == Claimed
      modifies this
      ensures Inv(old(Now())) ==> Inv(Now())
      ensures control.request in {Some(r), Some(UpdateRequest(r.requestId, Ended(Failed)))}
      ensures past.starts == old(past.starts)
      ensures old(Candid()) ==> Candid() && past.misreported == old(past.misreported)
      ensures o.Returned? ==> control.request == Some(UpdateRequest(r.requestId, Ended(Failed))) && WordsAgree(control)
      ensures old(Smooth()) ==> Smooth() && o.Returned?
    {
      var _ :- WriteStatus(Status(r.requestId, Announced(Failed)));
      var _ :- Look();
      o := EndRequest(r, Failed);
    }

    /** Claims an admitted request, or says how a claimed one is to be resumed. */
    method ClaimCurrentRequest() returns (o: Outcome<Option<(UpdateRequest, bool)>, Trouble>)
      modifies this
      ensures o.Returned? && o.value.Some? ==>
        Waiting(old(control)) && o.value.value.0.requestId == old(control.request).value.requestId
      ensures o.Returned? && o.value.Some? ==> (o.value.value.1 <==> old(control.request).value.state == Claimed)
      ensures Inv(old(Now())) ==> Inv(Now())
      ensures Waiting(old(control)) ==>
        control.request.Some? && control.request.value.requestId == old(control.request).value.requestId
      ensures Waiting(old(control)) && Over(control) ==> control.request.value.state.word == Failed
      ensures old(Candid()) && Inv(old(Now())) && Waiting(old(control)) && Over(control) ==> WordsAgree(control)
      ensures past.starts == old(past.starts)
      ensures old(Candid()) ==> Candid() && past.misreported == old(past.misreported)
      ensures o.Returned? && o.value.Some? ==>
        Session(control, o.value.value.0) && control.request.value.state == Claimed
      ensures Inv(old(Now())) && o.Returned? && o.value.Some? && !o.value.value.1 ==>
        StartsOf(past, o.value.value.0.requestId) == 0
      ensures Over(old(control)) ==> control.request == old(control.request) && (o.Returned? ==> o.value.None?)
      ensures old(control.request).Some? && old(control.request).value.state == Claimed
        && Finds(old(clock), 2, old(control.request).value.requestId)
        ==> o == Returned(Some((old(control.request).value, true))) && clock == old(clock) + 2
      ensures old(Smooth()) ==> Smooth() && o.Returned?
      ensures old(Smooth()) && Waiting(old(control)) && old(control.request).value.state == Admitted ==>
        o.value.Some? && clock == old(clock) + 3
      ensures old(Smooth()) && Waiting(old(control)) && old(control.request).value.state == Claimed ==>
        (o.value.Some? <==> IsAbout(oracle(old(clock) + 1).journal, old(control.request).value.requestId))
        && (if o.value.Some? then clock == old(clock) + 2 else EndedBy(control, old(control.request).value.requestId, None, false))
    {
      var _ :- Look();
      if control.request.None? || control.request.value.state.Ended? {
        return Returned(None);
      }
      var r := control.request.value;
      if r.state == Claimed {
        var _ :- Look();
        if control.journal.Some? && control.journal.value.requestId == r.requestId {
          return Returned(Some((r, true)));
        }
        var _ :- FailInterrupted(r);
        return Returned(None);
      }
      var claimed := UpdateRequest(r.requestId, Claimed);
      var _ :- WriteRequest(claimed);
      var _ :- WriteStatus(Status(r.requestId, Running));
      o := Returned(Some((claimed, false)));
    }

    /** Runs or resumes a claimed request.  Whatever that raises is published as a failure. */
    method ServiceClaimed(r: UpdateRequest, resume: bool)
      requires Session(control, r) && control.request.value.state == Claimed
      modifies this
      ensures Inv(old(Now())) && (!resume ==> StartsOf(old(past), r.requestId) == 0) ==> Inv(Now())
      ensures Session(control, r)
      ensures StartsOf(past, r.requestId) == StartsOf(old(past), r.requestId) + (if resume then 0 else 1)
      ensures old(Candid()) && Inv(old(Now())) && (!resume ==> StartsOf(old(past), r.requestId) == 0) && Over(control) ==>
        WordsAgree(control)
      ensures resume && Finds(old(clock), 3, r.requestId) && Misreports(old(clock) + 3)
        && oracle(old(clock) + 6).fate == Done && oracle(old(clock) + 7).fate == Done
        ==> control.request == Some(UpdateRequest(r.requestId, Ended(Committed)))
            && control.status == Some(Status(r.requestId, Announced(Failed)))
      ensures old(Smooth()) ==>
        EndedBy(control, r.requestId, oracle(old(clock) + if resume then 1 else 3).journal, !resume)
    {
      hide Warrants, Says, Tells;
      var ran;
      if resume {
        ran := ResumeActivation(r);
      } else {
        ran := RunUpdate(r);
      }
      if ran.Raised? {
        var _ := PublishTerminal(r, Failed);
      }
    }

    /** One turn of the loop.  A turn in which nothing fails ends a waiting request with the word
        its activation calls for, and starts it only if it was new; and when no write of the turn
        is misreported, the status file and the ended request agree. */
    method ServiceUpdate()
      modifies this
      ensures Inv(old(Now())) ==> Inv(Now())
      ensures Over(old(control)) ==> control.request == old(control.request) && past.starts == old(past.starts)
      ensures old(Candid()) && Inv(old(Now())) && Waiting(old(control)) && Over(control) ==> WordsAgree(control)
      ensures old(control.request).Some? && old(control.request).value.state == Claimed
        && Finds(old(clock), 5, old(control.request).value.requestId) && Misreports(old(clock) + 5)
        && oracle(old(clock) + 8).fate == Done && oracle(old(clock) + 9).fate == Done
        ==> control.request == Some(old(control.request).value.(state := Ended(Committed)))
            && control.status == Some(Status(old(control.request).value.requestId, Announced(Failed)))
      ensures old(Smooth()) && Waiting(old(control)) ==>
        var r := old(control.request).value;
        StartsOf(past, r.requestId) == StartsOf(old(past), r.requestId) + (if r.state == Admitted then 1 else 0)
      ensures old(Smooth()) && Waiting(old(control)) && old(control.request).value.state == Admitted ==>
        EndedBy(control, old(control.request).value.requestId, oracle(old(clock) + 6).journal, true)
      ensures old(Smooth()) && Waiting(old(control)) && old(control.request).value.state == Claimed ==>
        var id := old(control.request).value.requestId;
        EndedBy(control, id, if IsAbout(oracle(old(clock) + 1).journal, id) then oracle(old(clock) + 3).journal else None, false)
    {
      hide Inv, RequestInv, Warrants, EndedBy, WordsAgree;
      var claimed := ClaimCurrentRequest();
      if claimed.Returned? && claimed.value.Some? {
        ServiceClaimed(claimed.value.value.0, claimed.value.value.1);
      }
    }

    /** The control plane admits a request when none is open, under a new identity. */
    method Admit(id: RequestId)
      modifies this
      ensures Inv(old(Now())) && StartsOf(old(past), id) == 0 && id !in old(past.misreported) ==> Inv(Now())
      ensures past == old(past)
      ensures control == old(control).(request := control.request, journal := control.journal)
      ensures control.request in {old(control.request), Some(UpdateRequest(id, Admitted))}
      ensures old(control.request).Some? && !old(control.request).value.state.Ended? ==>
        control.request == old(control.request)
    {
      var e := Draw();
      if e.fate.Happened() && (control.request.None? || control.request.value.state.Ended?) {
        control := control.(request := Some(UpdateRequest(id, Admitted)));
      }
    }

    /** A queued request may be cancelled before it is claimed. */
    method Cancel()
      modifies this
      ensures Inv(old(Now())) ==> Inv(Now())
      ensures past == old(past)
      ensures control == old(control).(request := control.request, journal := control.journal)
      ensures control.request == old(control.request)
        || (&& old(control.request).Some? && old(control.request).value.state == Admitted
            && control.request == Some(old(control.request).value.(state := Ended(Cancelled))))
    {
      var e := Draw();
      if e.fate.Happened() && control.request.Some? && control.request.value.state == Admitted {
        control := control.(request := Some(control.request.value.(state := Ended(Cancelled))));
      }
    }
  }

  /** What a pass in which no effect fails comes to, given the journal it found: an error if
      the update failed, and otherwise the word. */
  predicate ConcludedBy(o: Outcome<(), Trouble>, c: Control, r: UpdateRequest, journal: Option<ActivationView>, applied: bool) {
    if Tells(Failed, r.requestId, journal, applied) then
      o.Raised? && c.request.Some? && c.request.value.requestId == r.requestId && c.request.value.state == Claimed
    else o.Returned? && EndedBy(c, r.requestId, journal, applied)
  }

  /** The request on disk is the one this pass holds: still claimed, or ended. */
  predicate Session(c: Control, r: UpdateRequest) {
    && c.request.Some? && c.request.value.requestId == r.requestId
    && (c.request.value.state == Claimed || (c.request.value.state.Ended? && c.request.value.state.word != Cancelled))
  }

  // ---------------------------------------------------------------------------
  // Runs
  // ---------------------------------------------------------------------------

  datatype Action = AdmitNew(id: RequestId) | CancelQueued | Service

  ghost predicate Admissible(w: World, action: Action) {
    action.AdmitNew? ==> StartsOf(w.past, action.id) == 0 && action.id !in w.past.misreported
  }

  ghost predicate Acted(w: World, action: Action, v: World) {
    && (Inv(w) && Admissible(w, action) ==> Inv(v))
    && (Over(w.control) && !action.AdmitNew? ==> v.control.request == w.control.request)
  }

  ghost predicate IsRun(trace: seq<World>, script: seq<Action>) {
    && |trace| == |script| + 1
    && forall i {:trigger script[i]} :: 0 <= i < |script| ==> Acted(trace[i], script[i], trace[i + 1])
  }

  method Run(h: Helper, script: seq<Action>) returns (ghost trace: seq<World>)
    modifies h
    ensures IsRun(trace, script) && trace[0] == old(h.Now()) && trace[|script|] == h.Now()
  {
    hide Inv;
    trace := [h.Now()];
    for i := 0 to |script|
      invariant |trace| == i + 1 && trace[0] == old(h.Now()) && trace[i] == h.Now()
      invariant forall k {:trigger script[k]} :: 0 <= k < i ==> Acted(trace[k], script[k], trace[k + 1])
    {
      match script[i] {
        case AdmitNew(id) => h.Admit(id);
        case CancelQueued => h.Cancel();
        case Service => h.ServiceUpdate();
      }
      trace := trace + [h.Now()];
    }
  }

  ghost predicate Legal(trace: seq<World>, script: seq<Action>) {
    && IsRun(trace, script) && Inv(trace[0])
    && forall i :: 0 <= i < |script| ==> Admissible(trace[i], script[i])
  }

  lemma {:induction false} EveryRunIsSafe(trace: seq<World>, script: seq<Action>, i: nat)
    requires Legal(trace, script) && i <= |script|
    ensures Inv(trace[i])
  {
    hide Inv, Admissible;
    if i > 0 {
      EveryRunIsSafe(trace, script, i - 1);
      assert Acted(trace[i - 1], script[i - 1], trace[i]);
    }
  }

  /** No update is started twice for one request, over any number of restarts. */
  lemma StartsAtMostOnce(trace: seq<World>, script: seq<Action>, i: nat, id: RequestId)
    requires Legal(trace, script) && i <= |script|
    ensures StartsOf(trace[i].past, id) <= 1
  {
    EveryRunIsSafe(trace, script, i);
  }

  /** An ended request keeps its word until a new one is admitted. */
  lemma {:induction false} EndedNeverReverts(trace: seq<World>, script: seq<Action>, i: nat, k: nat)
    requires IsRun(trace, script) && i <= k <= |script| && Over(trace[i].control)
    requires forall j :: i <= j < k ==> !script[j].AdmitNew?
    ensures trace[k].control.request == trace[i].control.request
  {
    if i < k {
      EndedNeverReverts(trace, script, i, k - 1);
      assert Acted(trace[k - 1], script[k - 1], trace[k]);
    }
  }

  /** Over every run the word of an ended request is warranted: a committed update was seen with
      its activation completed, or with none of its own and the new commit verified; one that
      was rolled back or is stuck was seen with the activation that says so. */
  lemma WordsAreWarranted(trace: seq<World>, script: seq<Action>, i: nat)
    requires Legal(trace, script) && i <= |script| && Over(trace[i].control)
    requires trace[i].control.request.value.state.word in {Committed, RolledBack, Stuck}
    ensures var id := trace[i].control.request.value.requestId; id in trace[i].past.seen
    ensures var id, word := trace[i].control.request.value.requestId, trace[i].control.request.value.state.word;
      var sight := trace[i].past.seen[id];
      && (word == Committed ==>
            sight.journal == Some(ActivationView(id, Completed))
            || (sight.verified && (sight.journal.None? || sight.journal.value.requestId != id)))
      && (word == RolledBack ==> sight.journal == Some(ActivationView(id, FailedRolledBack)))
      && (word == Stuck ==> sight.journal == Some(ActivationView(id, Blocked)))
  {
    EveryRunIsSafe(trace, script, i);
  }

  /** Unless it was cancelled in the queue, a request ends only after the status file
      announced a terminal word for it.  The two words agree exactly unless the status file
      announces a failure and the request ended otherwise; and that happens only if the write
      that ended it took effect and was reported as failed. */
  lemma AnnouncedBeforeEnded(trace: seq<World>, script: seq<Action>, i: nat)
    requires Legal(trace, script) && i <= |script| && Over(trace[i].control)
    requires trace[i].control.request.value.state.word != Cancelled
    ensures IsAnnounced(trace[i].control, trace[i].control.request.value.requestId)
    ensures var c := trace[i].control;
      WordsAgree(c) <==> (c.status.value.report.word == Failed ==> c.request.value.state.word == Failed)
    ensures trace[i].control.request.value.requestId !in trace[i].past.misreported ==> WordsAgree(trace[i].control)
  {
    EveryRunIsSafe(trace, script, i);
  }

  // ---------------------------------------------------------------------------
  // Two words for one request
  // ---------------------------------------------------------------------------

  /** The activation is found completed, and the write that ends the request is the one effect
      that is misreported. */
  function Misreporting(n: nat, id: RequestId): Event {
    Event(if n == 7 then FailedAfter else Done, true, true, Some(ActivationView(id, Completed)))
  }

  /** The words may disagree after one turn of the loop: it publishes the completed update, the
      last write is misreported, and the loop publishes a failure. */
  method WordsMayDisagree(id: RequestId) returns (h: Helper)
    ensures fresh(h) && Inv(h.Now())
    ensures h.control.request == Some(UpdateRequest(id, Ended(Committed)))
    ensures h.control.status == Some(Status(id, Announced(Failed))) && !WordsAgree(h.control)
  {
    var r := UpdateRequest(id, Claimed);
    h := new Helper((n: nat) => Misreporting(n, id), Control(Some(r), Some(Status(id, Running)), None));
    h.ServiceUpdate();
  }
}
