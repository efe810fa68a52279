/** Admission of a retry in two files: a signed admission record, then the request file. */
module RetryAdmission {
  import opened Wrappers
  import ActivationJournal

  /** Request names: minted here, never twice, or given by another program. */
  datatype Name = Minted(serial: nat) | Given(text: string)

  datatype Source = Source(kind: string, channel: string, version: string, commit: string, applyRef: string,
                           ref: string, repo: string, sourceType: string)

  datatype Requester = Requester(userId: string, role: string, username: Option<string>)

  /** A document of the request file; `source` and `requestedBy` are absent when malformed. */
  datatype UpdateDocument = UpdateDocument(
    requestId: Name,
    retryOf: Option<Name>,
    attemptId: Option<nat>,
    source: Option<Source>,
    requestedBy: Option<Requester>,
    content: nat)

  /** The facts the contract fingerprint covers. */
  datatype ContractKey = ContractKey(
    requestId: Name,
    admissionAttempt: string,
    targetVersion: string,
    targetCommit: string,
    targetSchemaVersion: nat,
    registry: string,
    plan: string,
    actor: string,
    generation: nat,
    state: string,
    errorCode: string)

  datatype FailureContract = FailureContract(key: ContractKey, retryable: bool, helperTerminal: bool)

  datatype RetryBody = RetryBody(confirmed: bool, extraFields: bool, expectedVersion: string, expectedCommit: string)

  /** Digests are represented by what they digest: the contract key, the original document. */
  datatype Admission = Admission(
    key: ContractKey,
    originalId: Name,
    original: UpdateDocument,
    requestId: Name,
    attemptId: nat,
    actor: string,
    retry: UpdateDocument)

  datatype Reply = Reply(requestId: Name, attemptId: nat, replay: bool)

  datatype Refusal =
    | PayloadInvalid
    | TargetMismatch
    | AdmissionIdentityInvalid
    | ReconciliationConflict
    | NotAvailable
    | OriginalMismatch
    | OriginalInvalid
    | RequestMissing
    | FileUnavailable

  datatype Event = Event(fate: Fate, stamp: nat)

  datatype Files = Files(request: Option<UpdateDocument>, admission: Option<Admission>, serial: nat)

  /** `held` lists the names the request file had one after the other, `seen` is the set of
      them, and `installed` the retries this program
      put there in order, and `replies` what it answered to each contract. */
  datatype Past = Past(held: seq<Name>, seen: set<Name>, installed: seq<UpdateDocument>, replies: map<ContractKey, (Name, nat)>)

  datatype World = World(files: Files, past: Past)

  predicate BodyAccepted(b: RetryBody, c: FailureContract) {
    b.confirmed && !b.extraFields && b.expectedVersion == c.key.targetVersion && b.expectedCommit == c.key.targetCommit
    && ActivationJournal.IsLowerHex(b.expectedCommit, 40)
  }

  predicate SourceAccepted(s: Source, c: FailureContract) {
    && s.commit == c.key.targetCommit && s.applyRef == c.key.targetCommit && s.repo == "kmishnev87/km-vms"
  }

  predicate RequesterAccepted(q: Requester) {
    && 0 < |q.userId| <= 20 && (forall i :: 0 <= i < |q.userId| ==> '0' <= q.userId[i] <= '9')
    && (q.role == "owner" || q.role == "admin")
  }

  predicate OriginalAccepted(d: UpdateDocument, c: FailureContract) {
    && d.source.Some? && SourceAccepted(d.source.value, c)
    && d.requestedBy.Some? && RequesterAccepted(d.requestedBy.value)
  }

  /** The recorded admission is the one this contract and this caller obtained. */
  predicate SameAdmission(a: Admission, c: FailureContract, subject: string) {
    a.key == c.key && a.actor == subject && a.originalId == c.key.requestId
  }

  function RetryOf(original: UpdateDocument, serial: nat, stamp: nat): UpdateDocument {
    UpdateDocument(Minted(serial), Some(original.requestId), Some(serial), original.source, original.requestedBy, stamp)
  }

  // ---------------------------------------------------------------------------
  // The invariant
  // ---------------------------------------------------------------------------

  /** The admission record is consistent with the documents it names. */
  predicate AdmissionInv(a: Admission) {
    && a.original.requestId == a.originalId == a.key.requestId
    && a.retry.requestId == a.requestId && a.retry.attemptId == Some(a.attemptId) && a.retry.retryOf == Some(a.originalId)
    && a.requestId != a.originalId && a.requestId.Minted?
    && CarriesOver(a.original, a.retry)
  }

  /** The retry asks for what its original asked for, in the same name. */
  predicate CarriesOver(original: UpdateDocument, retry: UpdateDocument) {
    retry.retryOf == Some(original.requestId) && retry.source == original.source && retry.requestedBy == original.requestedBy
  }

  /** What entitles a call to record an admission over these files: the confirmed target, a
      failed contract whose helper is done, and its own request, well formed, on disk. */
  predicate Entitled(f: Files, c: FailureContract, subject: string, body: RetryBody, a: Admission) {
    && BodyAccepted(body, c)
    && c.key.state == "failed" && c.retryable && c.helperTerminal
    && f.request == Some(a.original) && OriginalAccepted(a.original, c)
    && a.key == c.key && a.actor == subject && a.original.requestId == c.key.requestId
    && CarriesOver(a.original, a.retry)
  }

  /** The record stays, or the call was entitled to the new one. */
  predicate Admits(before: Files, c: FailureContract, subject: string, body: RetryBody, after: Files) {
    after.admission == before.admission
    || (after.admission.Some? && Entitled(before, c, subject, body, after.admission.value))
  }

  /** A refused call leaves both files as they are. */
  predicate Kept(before: Files, after: Files) {
    after.request == before.request && after.admission == before.admission
  }

  /** The request file stays, or takes the recorded retry over its original. */
  predicate Installs(before: Files, c: FailureContract, subject: string, after: Files) {
    after.request == before.request
    || (&& after.admission.Some? && SameAdmission(after.admission.value, c, subject)
        && before.request == Some(after.admission.value.original)
        && after.request == Some(after.admission.value.retry))
  }

  /** The installed retries stay, or the recorded one joins them. */
  predicate Extends(before: World, after: World) {
    after.past.installed == before.past.installed
    || (&& after.files.admission.Some?
        && after.past.installed == before.past.installed + [after.files.admission.value.retry])
  }

  predicate MintedBefore(n: Name, serial: nat) {
    n.Minted? ==> n.serial < serial
  }

  ghost predicate Inv(w: World) {
    && (forall n :: n in w.past.seen ==> MintedBefore(n, w.files.serial))
    && (w.files.request.Some? ==> w.files.request.value.requestId in w.past.seen)
    && (w.files.admission.Some? ==>
          && AdmissionInv(w.files.admission.value)
          && MintedBefore(w.files.admission.value.requestId, w.files.serial)
          && (w.files.admission.value.requestId in w.past.seen ==> w.files.admission.value.retry in w.past.installed))
    && (forall d :: d in w.past.installed ==>
          && d.requestId in w.past.seen && d.retryOf.Some? && d.retryOf.value in w.past.seen
          && (w.files.request.Some? ==> w.files.request.value.requestId != d.retryOf.value))
    && (forall i, j :: 0 <= i < j < |w.past.installed| ==> w.past.installed[i].retryOf != w.past.installed[j].retryOf)
    && (forall k :: k in w.past.replies ==> Answered(w, k))
    && ChainInv(w.past.held, w.past.seen, w.past.installed, NameOf(w.files.request))
  }

  /** The retry came directly after its original in the request file. */
  ghost predicate Follows(held: seq<Name>, d: UpdateDocument) {
    exists n :: 0 <= n < |held| - 1 && d.retryOf == Some(held[n]) && d.requestId == held[n + 1]
  }

  /** The name at `n` came in by a retry of the request directly before it. */
  ghost predicate Linked(held: seq<Name>, installed: seq<UpdateDocument>, n: nat) {
    && 0 < n < |held|
    && exists d :: d in installed && d.requestId == held[n] && d.retryOf == Some(held[n - 1])
  }

  predicate Distinct(held: seq<Name>) {
    forall m, n :: 0 <= m < n < |held| ==> held[m] != held[n]
  }

  /** The request file never has a name twice, and its minted names came in by retries. */
  ghost predicate Chained(held: seq<Name>, installed: seq<UpdateDocument>) {
    && Distinct(held)
    && (forall d {:trigger Follows(held, d)} :: d in installed ==> Follows(held, d))
    && (forall n: nat {:trigger Linked(held, installed, n)} :: n < |held| && held[n].Minted? ==> Linked(held, installed, n))
  }

  function NameOf(request: Option<UpdateDocument>): Option<Name> {
    if request.Some? then Some(request.value.requestId) else None
  }

  ghost predicate ChainInv(held: seq<Name>, seen: set<Name>, installed: seq<UpdateDocument>, current: Option<Name>) {
    && Chained(held, installed)
    && (forall n :: 0 <= n < |held| ==> held[n] in seen)
    && (current.Some? ==> held != [] && held[|held| - 1] == current.value)
  }

  lemma FollowsGrows(held: seq<Name>, name: Name, d: UpdateDocument)
    requires Follows(held, d)
    ensures Follows(held + [name], d)
  {
    var n :| 0 <= n < |held| - 1 && d.retryOf == Some(held[n]) && d.requestId == held[n + 1];
    assert (held + [name])[n] == held[n] && (held + [name])[n + 1] == held[n + 1];
  }

  lemma LinkedGrows(held: seq<Name>, name: Name, installed: seq<UpdateDocument>, more: seq<UpdateDocument>, n: nat)
    requires Linked(held, installed, n)
    ensures Linked(held + [name], installed + more, n)
  {
    var d :| d in installed && d.requestId == held[n] && d.retryOf == Some(held[n - 1]);
    assert d in installed + more && (held + [name])[n] == held[n] && (held + [name])[n - 1] == held[n - 1];
  }

  /** A chain grows by a retry of its last name, or by a name another program gave. */
  lemma ChainGrows(held: seq<Name>, name: Name, installed: seq<UpdateDocument>, more: seq<UpdateDocument>)
    requires Chained(held, installed) && name !in held
    requires more == [] || (held != [] && |more| == 1
                            && more[0].retryOf == Some(held[|held| - 1]) && more[0].requestId == name)
    requires name.Minted? ==> more != []
    ensures Chained(held + [name], installed + more)
  {
    hide Follows, Linked;
    var longer, all := held + [name], installed + more;
    forall d | d in all ensures Follows(longer, d) {
      if d in installed {
        FollowsGrows(held, name, d);
      } else {
        NewRetryFollows(held, d);
      }
    }
    forall n: nat | n < |longer| && longer[n].Minted? ensures Linked(longer, all, n) {
      if n < |held| {
        LinkedGrows(held, name, installed, more, n);
      } else {
        NewRetryIsLinked(held, installed, more[0]);
        assert more == [more[0]];
      }
    }
  }

  lemma NewRetryFollows(held: seq<Name>, d: UpdateDocument)
    requires held != [] && d.retryOf == Some(held[|held| - 1])
    ensures Follows(held + [d.requestId], d)
  {
    var last := |held| - 1;
    assert (held + [d.requestId])[last] == held[last] && (held + [d.requestId])[last + 1] == d.requestId;
  }

  lemma NewRetryIsLinked(held: seq<Name>, installed: seq<UpdateDocument>, d: UpdateDocument)
    requires held != [] && d.retryOf == Some(held[|held| - 1])
    ensures Linked(held + [d.requestId], installed + [d], |held|)
  {
    assert d in installed + [d];
  }

  lemma InstallKeepsChain(w: World, d: UpdateDocument)
    requires ChainInv(w.past.held, w.past.seen, w.past.installed, NameOf(w.files.request)) && w.files.request.Some?
    requires d.retryOf == Some(w.files.request.value.requestId) && d.requestId !in w.past.seen
    ensures var p := InstalledWorld(w, d).past; ChainInv(p.held, p.seen, p.installed, Some(d.requestId))
  {
    hide Chained;
    ChainGrows(w.past.held, d.requestId, w.past.installed, [d]);
  }

  /** A name given by another program starts the chain anew. */
  lemma ForeignKeepsChain(w: World, d: UpdateDocument)
    requires ChainInv(w.past.held, w.past.seen, w.past.installed, NameOf(w.files.request)) && d.requestId.Given? && d.requestId !in w.past.seen
    ensures var p := ReplacedWorld(w, d).past; ChainInv(p.held, p.seen, p.installed, Some(d.requestId))
  {
    hide Chained;
    ChainGrows(w.past.held, d.requestId, w.past.installed, []);
    assert w.past.installed + [] == w.past.installed;
  }

  function ReplacedWorld(w: World, d: UpdateDocument): World {
    World(w.files.(request := Some(d)),
          w.past.(held := w.past.held + [d.requestId], seen := w.past.seen + {d.requestId}))
  }

  /** A contract that was answered: its retry was installed, with the identities of the reply. */
  ghost predicate Answered(w: World, k: ContractKey) {
    && k in w.past.replies
    && (exists d :: d in w.past.installed && d.retryOf == Some(k.requestId)
                    && d.requestId == w.past.replies[k].0 && d.attemptId == Some(w.past.replies[k].1))
  }

  /** Installing the retry of the document on disk keeps the invariant, and that document is
      retried for the first time. */
  lemma InstallKeepsInv(w: World, d: UpdateDocument)
    requires Inv(w) && w.files.request.Some? && w.files.admission.Some?
    requires d == w.files.admission.value.retry && d.retryOf == Some(w.files.request.value.requestId)
    ensures Inv(InstalledWorld(w, d))
    ensures forall e :: e in w.past.installed ==> e.retryOf != d.retryOf
  {
    hide ChainInv;
    var v := InstalledWorld(w, d);
    assert d.requestId !in w.past.seen;
    InstallKeepsChain(w, d);
    forall k | k in v.past.replies ensures Answered(v, k) {
      assert Answered(w, k);
    }
  }

  function InstalledWorld(w: World, d: UpdateDocument): World {
    World(w.files.(request := Some(d)),
          w.past.(held := w.past.held + [d.requestId], seen := w.past.seen + {d.requestId}, installed := w.past.installed + [d]))
  }

  /** Every answer to one contract names the same retry. */
  lemma AnswersAgree(w: World, k: ContractKey, d: UpdateDocument)
    requires Inv(w) && d in w.past.installed && d.retryOf == Some(k.requestId) && d.attemptId.Some?
    requires k in w.past.replies
    ensures w.past.replies[k] == (d.requestId, d.attemptId.value)
  {
    assert Answered(w, k);
    var e :| e in w.past.installed && e.retryOf == Some(k.requestId)
             && e.requestId == w.past.replies[k].0 && e.attemptId == Some(w.past.replies[k].1);
    var i :| 0 <= i < |w.past.installed| && w.past.installed[i] == d;
    var j :| 0 <= j < |w.past.installed| && w.past.installed[j] == e;
    assert i == j;
  }

  class Controller {
    const oracle: nat -> Event
    var clock: nat
    var files: Files
    ghost var past: Past

    ghost function Now(): World
      reads this
    {
      World(files, past)
    }

    ghost predicate Smooth()
      reads this
    {
      forall n :: n >= clock ==> oracle(n).fate == Done
    }

    method Draw() returns (e: Event)
      modifies this`clock
      ensures e == oracle(old(clock)) && clock == old(clock) + 1
      ensures old(Smooth()) ==> Smooth() && e.fate == Done
    {
      e := oracle(clock);
      clock := clock + 1;
    }

    method Read() returns (o: Outcome<(), Refusal>)
      modifies this`clock
      ensures o.Raised? ==> o.error == FileUnavailable
      ensures old(Smooth()) ==> Smooth() && o.Returned?
    {
      var e := Draw();
      o := e.fate.Conclude((), FileUnavailable);
    }

    method WriteAdmission(a: Admission) returns (o: Outcome<(), Refusal>)
      modifies this`clock, this`files
      ensures files in {old(files), old(files).(admission := Some(a))}
      ensures o.Returned? ==> files == old(files).(admission := Some(a))
      ensures o.Raised? ==> o.error == FileUnavailable
      ensures old(Smooth()) ==> Smooth() && o.Returned?
    {
      var e := Draw();
      if e.fate.Happened() {
        files := files.(admission := Some(a));
      }
      o := e.fate.Conclude((), FileUnavailable);
    }

    /** Puts the retry in the request file. */
    method InstallRetry(d: UpdateDocument) returns (o: Outcome<(), Refusal>)
      modifies this
      ensures Now() in {old(Now()), InstalledWorld(old(Now()), d)}
      ensures o.Raised? ==> o.error == FileUnavailable
      ensures o.Returned? ==> Now() == InstalledWorld(old(Now()), d)
      ensures old(Smooth()) ==> Smooth() && o.Returned?
    {
      var e := Draw();
      if e.fate.Happened() {
        files := files.(request := Some(d));
        past := past.(
          held := past.held + [d.requestId], seen := past.seen + {d.requestId}, installed := past.installed + [d]);
      }
      o := e.fate.Conclude((), FileUnavailable);
    }

    /** Answers a duplicate from the admission record, and finishes an admission whose
        request write was lost. */
    method Reconcile(a: Admission) returns (o: Outcome<Reply, Refusal>)
      requires files.admission == Some(a)
      modifies this
      ensures Inv(old(Now())) ==> Inv(Now())
      ensures files.admission == old(files.admission) && past.replies == old(past.replies)
      ensures files.request == old(files.request) || (old(files.request) == Some(a.original) && files.request == Some(a.retry))
      ensures o.Returned? ==> o.value == Reply(a.requestId, a.attemptId, true) && files.request == Some(a.retry)
      ensures o.Returned? ==> AnsweredBy(files, a.key, o.value)
      ensures Inv(old(Now())) && o.Returned? ==> a.retry in past.installed
      ensures Extends(old(Now()), Now())
      ensures old(Smooth()) && AdmissionInv(a) ==> (o.Returned? <==> old(files.request) in {Some(a.original), Some(a.retry)})
      ensures !o.Returned? && !o.Crashed? && o.error != FileUnavailable ==> files == old(files)
      ensures old(Smooth()) && AdmissionInv(a) && o.Raised? ==>
        o.error == if old(files.request).None? then RequestMissing else ReconciliationConflict
    {
      hide Inv;
      if a.retry.requestId != a.requestId || a.retry.attemptId != Some(a.attemptId) || a.retry.retryOf != Some(a.key.requestId) {
        return Raised(AdmissionIdentityInvalid);
      }
      var _ :- Read();
      if files.request.None? {
        return Raised(RequestMissing);
      }
      if files.request.value == a.retry {
        if Inv(Now()) {
          RetryOnDiskIsInstalled(Now());
        }
        return Returned(Reply(a.requestId, a.attemptId, true));
      }
      if files.request.value != a.original {
        return Raised(ReconciliationConflict);
      }
      ghost var before := Now();
      if Inv(before) {
        InvAdmits(before);
        InstallKeepsInv(before, a.retry);
      }
      var _ :- InstallRetry(a.retry);
      o := Returned(Reply(a.requestId, a.attemptId, true));
    }

    /** Admits a new retry: the identities are minted and recorded before the request file is
        touched. */
    method AdmitNew(c: FailureContract, subject: string, ghost body: RetryBody) returns (o: Outcome<Reply, Refusal>)
      modifies this
      ensures Inv(old(Now())) ==> Inv(Now())
      ensures past.replies == old(past.replies)
      ensures BodyAccepted(body, c) ==> Admits(old(files), c, subject, body, files)
      ensures Installs(old(files), c, subject, files) && Extends(old(Now()), Now())
      ensures !Available(old(files), c) ==> Kept(old(files), files)
      ensures BodyAccepted(body, c) && o.Returned? ==>
        files.admission.Some? && Entitled(old(files), c, subject, body, files.admission.value)
      ensures o.Returned? ==>
        AnsweredBy(files, c.key, o.value) && files.request.value in past.installed && !o.value.replay
      ensures Inv(old(Now())) && o.Returned? ==> c.key !in past.replies
      ensures old(Smooth()) ==> (o.Returned? <==> Available(old(files), c))
      ensures o == Raised(NotAvailable) <==> c.key.state != "failed" || !c.retryable || !c.helperTerminal
      ensures old(Smooth()) && o.Raised? && o.error != NotAvailable ==>
        && (o.error == RequestMissing <==> old(files.request).None?)
        && (o.error == OriginalMismatch <==>
              old(files.request).Some? && old(files.request).value.requestId != c.key.requestId)
        && o.error in {RequestMissing, OriginalMismatch, OriginalInvalid}
    {
      hide Inv;
      ghost var before := Now();
      if c.key.state != "failed" || !c.retryable || !c.helperTerminal {
        return Raised(NotAvailable);
      }
      var _ :- Read();
      if files.request.None? {
        return Raised(RequestMissing);
      }
      var original := files.request.value;
      if original.requestId != c.key.requestId {
        return Raised(OriginalMismatch);
      }
      if !OriginalAccepted(original, c) {
        return Raised(OriginalInvalid);
      }
      var e := Draw();
      var retry := RetryOf(original, files.serial, e.stamp);
      var admission := Admission(c.key, c.key.requestId, original, retry.requestId, files.serial, subject, retry);
      files := files.(serial := files.serial + 1);
      ghost var minted := Now();
      if Inv(before) {
        MintKeepsInv(before, admission);
      }
      var _ :- WriteAdmission(admission);
      if Inv(before) {
        InstallKeepsInv(Now(), retry);
        FirstAnswer(minted, c.key);
      }
      var _ :- InstallRetry(retry);
      o := Returned(Reply(retry.requestId, admission.attemptId, false));
    }

    /** One call of the retry entry point, under the admission lock. */
    method CreateRetry(c: FailureContract, subject: string, body: RetryBody) returns (o: Outcome<Reply, Refusal>)
      modifies this
      ensures Inv(old(Now())) ==> Inv(Now())
      ensures Admits(old(files), c, subject, body, files) && Installs(old(files), c, subject, files)
      ensures Inv(old(Now())) ==> Replaces(old(files.request), files.request, c.key)
      ensures Extends(old(Now()), Now())
      ensures !BodyAccepted(body, c) ==>
        files == old(files) && o == Raised(if body.confirmed && !body.extraFields then TargetMismatch else PayloadInvalid)
      ensures o.Returned? ==> AnsweredBy(files, c.key, o.value)
      ensures o.Returned? && !o.value.replay ==>
        files.admission.Some? && Entitled(old(files), c, subject, body, files.admission.value)
      ensures o.Returned? && o.value.replay ==>
        && old(files.admission).Some? && files.admission == old(files.admission)
        && old(files.admission).value.key == c.key && old(files.admission).value.actor == subject
        && old(files.admission).value.originalId == c.key.requestId
      ensures Inv(old(Now())) && o.Returned? && c.key in old(past.replies) ==>
        old(past.replies)[c.key] == (o.value.requestId, o.value.attemptId)
      ensures forall k :: k in old(past.replies) ==>
        k in past.replies && (Inv(old(Now())) ==> past.replies[k] == old(past.replies)[k])
      ensures old(Smooth()) && Inv(old(Now())) && BodyAccepted(body, c) && Recorded(old(files), c, subject) ==>
        o.Returned? && o.value.requestId == old(files.admission).value.requestId
      ensures old(Smooth()) && Inv(old(Now())) ==> (o.Returned? <==> Answerable(old(files), c, subject, body))
    {
      hide Inv, BodyAccepted;
      ghost var before := Now();
      if !BodyAccepted(body, c) {
        return Raised(if body.confirmed && !body.extraFields then TargetMismatch else PayloadInvalid);
      }
      var _ :- Read();
      if files.admission.Some? && files.admission.value.key.targetSchemaVersion != c.key.targetSchemaVersion {
        return Raised(AdmissionIdentityInvalid);
      }
      if Inv(before) && files.admission.Some? {
        InvAdmits(before);
      }
      var answered;
      if files.admission.Some? && SameAdmission(files.admission.value, c, subject) {
        answered := Reconcile(files.admission.value);
      } else {
        answered := AdmitNew(c, subject, body);
      }
      var reply :- answered;
      if Inv(before) {
        AnswerKeepsInv(Now(), c.key, reply);
      }
      past := past.(replies := past.replies[c.key := (reply.requestId, reply.attemptId)]);
      o := Returned(reply);
    }

    /** Another program replaces the request file by a request under a name never used here. */
    method InstallForeign(d: UpdateDocument)
      modifies this
      ensures Inv(old(Now())) && d.requestId.Given? && d.requestId !in old(past.seen) ==> Inv(Now())
      ensures past.replies == old(past.replies) && past.installed == old(past.installed)
      ensures files.admission == old(files.admission)
    {
      hide ChainInv;
      ghost var before := Now();
      past := past.(held := past.held + [d.requestId], seen := past.seen + {d.requestId});
      files := files.(request := Some(d));
      if Inv(before) && d.requestId.Given? && d.requestId !in before.past.seen {
        ForeignKeepsChain(before, d);
        forall k | k in past.replies ensures Answered(Now(), k) {
          assert Answered(before, k);
        }
      }
    }

    /** The helper rewrites the request it owns: the name stays. */
    method RewriteRequest(d: UpdateDocument)
      modifies this`files
      ensures Inv(old(Now())) ==> Inv(Now())
      ensures files.admission == old(files.admission)
    {
      hide ChainInv;
      ghost var before := Now();
      if files.request.Some? && files.request.value.requestId == d.requestId {
        files := files.(request := Some(d));
      }
      if Inv(before) {
        forall k | k in past.replies ensures Answered(Now(), k) {
          assert Answered(before, k);
        }
      }
    }
  }

  /** The request file changed, if at all, from the contract's own request to a retry of it. */
  predicate Replaces(before: Option<UpdateDocument>, after: Option<UpdateDocument>, k: ContractKey) {
    after == before
    || (&& before.Some? && before.value.requestId == k.requestId
        && after.Some? && after.value.retryOf == Some(k.requestId))
  }

  /** The reply names the retry that is now in the request file. */
  predicate AnsweredBy(f: Files, k: ContractKey, reply: Reply) {
    && f.request.Some? && f.request.value.retryOf == Some(k.requestId)
    && f.request.value.requestId == reply.requestId && f.request.value.attemptId == Some(reply.attemptId)
  }

  /** A first call that nothing stands in the way of. */
  predicate Available(f: Files, c: FailureContract) {
    && c.key.state == "failed" && c.retryable && c.helperTerminal
    && f.request.Some? && f.request.value.requestId == c.key.requestId && OriginalAccepted(f.request.value, c)
  }

  /** An earlier call recorded this admission, whether or not it reached the request file. */
  predicate Recorded(f: Files, c: FailureContract, subject: string) {
    && f.admission.Some? && SameAdmission(f.admission.value, c, subject)
    && f.request in {Some(f.admission.value.original), Some(f.admission.value.retry)}
  }

  /** The calls that are answered when nothing fails. */
  predicate Answerable(f: Files, c: FailureContract, subject: string, body: RetryBody) {
    && BodyAccepted(body, c)
    && (f.admission.Some? ==> f.admission.value.key.targetSchemaVersion == c.key.targetSchemaVersion)
    && (Recorded(f, c, subject)
        || (Available(f, c) && !(f.admission.Some? && SameAdmission(f.admission.value, c, subject))))
  }

  lemma MintKeepsInv(w: World, a: Admission)
    requires Inv(w) && AdmissionInvOnMint(w, a)
    ensures Inv(World(w.files.(serial := w.files.serial + 1), w.past))
    ensures Inv(World(w.files.(serial := w.files.serial + 1, admission := Some(a)), w.past))
  {
    hide ChainInv;
    forall k | k in w.past.replies
      ensures Answered(World(w.files.(serial := w.files.serial + 1), w.past), k)
      ensures Answered(World(w.files.(serial := w.files.serial + 1, admission := Some(a)), w.past), k)
    {
      assert Answered(w, k);
    }
  }

  predicate AdmissionInvOnMint(w: World, a: Admission) {
    && w.files.request == Some(a.original) && a.original.requestId == a.originalId == a.key.requestId
    && a.requestId == Minted(w.files.serial) && a.attemptId == w.files.serial
    && a.retry.requestId == a.requestId && a.retry.attemptId == Some(a.attemptId) && CarriesOver(a.original, a.retry)
  }

  /** The contract of a request that is still in the file was never answered. */
  lemma FirstAnswer(w: World, k: ContractKey)
    requires Inv(w) && w.files.request.Some? && w.files.request.value.requestId == k.requestId
    ensures k !in w.past.replies
  {
    assert k in w.past.replies ==> Answered(w, k);
  }

  lemma AnswerKeepsInv(w: World, k: ContractKey, reply: Reply)
    requires Inv(w) && AnsweredBy(w.files, k, reply) && w.files.request.value in w.past.installed
    ensures Inv(World(w.files, w.past.(replies := w.past.replies[k := (reply.requestId, reply.attemptId)])))
    ensures k in w.past.replies ==> w.past.replies[k] == (reply.requestId, reply.attemptId)
  {
    hide ChainInv;
    var v := World(w.files, w.past.(replies := w.past.replies[k := (reply.requestId, reply.attemptId)]));
    forall q | q in v.past.replies ensures Answered(v, q) {
      if q == k {
        assert w.files.request.value in v.past.installed;
      } else {
        assert Answered(w, q);
      }
    }
    if k in w.past.replies {
      AnswersAgree(w, k, w.files.request.value);
    }
  }

  lemma RetryOnDiskIsInstalled(w: World)
    requires Inv(w) && w.files.admission.Some? && w.files.request == Some(w.files.admission.value.retry)
    ensures w.files.admission.value.retry in w.past.installed
  {
  }

  lemma InvAdmits(w: World)
    requires Inv(w) && w.files.admission.Some?
    ensures AdmissionInv(w.files.admission.value)
  {
  }

  // ---------------------------------------------------------------------------
  // Runs
  // ---------------------------------------------------------------------------

  datatype Action =
    | Retry(contract: FailureContract, subject: string, body: RetryBody)
    | Foreign(document: UpdateDocument)
    | Rewrite(document: UpdateDocument)

  ghost predicate Admissible(w: World, action: Action) {
    action.Foreign? ==> action.document.requestId.Given? && action.document.requestId !in w.past.seen
  }

  /** One action: the invariant, what a retry may overwrite, and which answers it may give. */
  ghost predicate Acted(w: World, action: Action, v: World) {
    && (Inv(w) && Admissible(w, action) ==> Inv(v))
    && (Inv(w) && action.Retry? ==> Replaces(w.files.request, v.files.request, action.contract.key))
    && (forall k :: k in w.past.replies ==> k in v.past.replies && (Inv(w) ==> v.past.replies[k] == w.past.replies[k]))
    && Extends(w, v)
    && (if action.Retry? then
          && Admits(w.files, action.contract, action.subject, action.body, v.files)
          && Installs(w.files, action.contract, action.subject, v.files)
        else v.files.admission == w.files.admission && v.past.installed == w.past.installed)
  }

  ghost predicate Stepped(trace: seq<World>, script: seq<Action>, i: nat)
    requires |trace| == |script| + 1 && i < |script|
  {
    Acted(trace[i], script[i], trace[i + 1])
  }

  ghost predicate Invited(trace: seq<World>, script: seq<Action>, i: nat)
    requires |trace| == |script| + 1 && i < |script|
  {
    Admissible(trace[i], script[i])
  }

  ghost predicate IsRun(trace: seq<World>, script: seq<Action>) {
    |trace| == |script| + 1 && forall i: nat :: i < |script| ==> Stepped(trace, script, i)
  }

  method Run(h: Controller, script: seq<Action>) returns (ghost trace: seq<World>)
    modifies h
    ensures IsRun(trace, script) && trace[0] == old(h.Now()) && trace[|script|] == h.Now()
  {
    hide Inv;
    trace := [h.Now()];
    for i := 0 to |script|
      invariant |trace| == i + 1 && trace[0] == old(h.Now()) && trace[i] == h.Now()
      invariant forall k {:trigger script[k]} :: 0 <= k < i ==> Acted(trace[k], script[k], trace[k + 1])
    {
      match script[i] {
        case Retry(contract, subject, body) =>
          var _ := h.CreateRetry(contract, subject, body);
        case Foreign(document) => h.InstallForeign(document);
        case Rewrite(document) => h.RewriteRequest(document);
      }
      trace := trace + [h.Now()];
    }
  }

  ghost predicate Legal(trace: seq<World>, script: seq<Action>) {
    && IsRun(trace, script) && Inv(trace[0])
    && forall i: nat :: i < |script| ==> Invited(trace, script, i)
  }

  lemma {:induction false} EveryRunIsSafe(trace: seq<World>, script: seq<Action>, i: nat)
    requires Legal(trace, script) && i <= |script|
    ensures Inv(trace[i])
  {
    hide Inv, Admissible;
    if i > 0 {
      EveryRunIsSafe(trace, script, i - 1);
      assert Stepped(trace, script, i - 1) && Invited(trace, script, i - 1);
    }
  }

  /** Each original is retried at most once. */
  lemma RetriedAtMostOnce(trace: seq<World>, script: seq<Action>, i: nat, d: UpdateDocument, e: UpdateDocument)
    requires Legal(trace, script) && i <= |script|
    requires d in trace[i].past.installed && e in trace[i].past.installed && d.retryOf == e.retryOf
    ensures d == e
  {
    EveryRunIsSafe(trace, script, i);
    var installed := trace[i].past.installed;
    var j :| 0 <= j < |installed| && installed[j] == d;
    var k :| 0 <= k < |installed| && installed[k] == e;
    assert j == k;
  }

  /** A record that came in during a run was written by a call that was entitled to it. */
  lemma {:induction false} RecordsAreEntitled(trace: seq<World>, script: seq<Action>, i: nat) returns (j: nat)
    requires IsRun(trace, script) && i <= |script|
    requires trace[i].files.admission.Some? && trace[i].files.admission != trace[0].files.admission
    ensures j < i && script[j].Retry?
    ensures Entitled(trace[j].files, script[j].contract, script[j].subject, script[j].body, trace[i].files.admission.value)
  {
    hide Entitled, Inv;
    j := i - 1;
    assert Stepped(trace, script, j);
    if trace[i].files.admission == trace[j].files.admission {
      j := RecordsAreEntitled(trace, script, i - 1);
    }
  }

  /** A retry that was installed during a run, other than the one already on record at its
      start, came from a record of that run. */
  lemma {:induction false} InstalledWereRecorded(trace: seq<World>, script: seq<Action>, i: nat, d: UpdateDocument) returns (k: nat)
    requires IsRun(trace, script) && i <= |script|
    requires d in trace[i].past.installed && d !in trace[0].past.installed
    ensures k <= i && trace[k].files.admission.Some? && trace[k].files.admission.value.retry == d
  {
    hide Inv, Admits, Installs, Replaces;
    k := i;
    assert Stepped(trace, script, i - 1);
    if d in trace[i - 1].past.installed {
      k := InstalledWereRecorded(trace, script, i - 1, d);
    }
  }

  /** Every retry installed in a run was admitted by a call of the run that confirmed the target
      of a failed, retryable contract while the helper was done with the original; it asks for
      the source of that original, in the name of the one who asked for it. */
  lemma EveryRetryWasEntitled(trace: seq<World>, script: seq<Action>, i: nat, d: UpdateDocument) returns (j: nat)
    requires IsRun(trace, script) && i <= |script|
    requires d in trace[i].past.installed && d !in trace[0].past.installed
    requires trace[0].files.admission.Some? ==> d != trace[0].files.admission.value.retry
    ensures j < i && script[j].Retry? && trace[j].files.request.Some?
    ensures var contract := script[j].contract;
      contract.key.state == "failed" && contract.retryable && contract.helperTerminal
    ensures var original := trace[j].files.request.value;
      && original.requestId == script[j].contract.key.requestId && d.retryOf == Some(original.requestId)
      && d.source == original.source && d.requestedBy == original.requestedBy
    ensures d.source.Some? && d.source.value.repo == "kmishnev87/km-vms"
    ensures script[j].body.confirmed && !script[j].body.extraFields
    ensures script[j].body.expectedVersion == script[j].contract.key.targetVersion
    ensures d.source.value.commit == d.source.value.applyRef == script[j].contract.key.targetCommit == script[j].body.expectedCommit
    ensures var commit := d.source.value.commit;
      |commit| == 40 && forall i :: 0 <= i < 40 ==> '0' <= commit[i] <= '9' || 'a' <= commit[i] <= 'f'
    ensures d.requestedBy.Some? && d.requestedBy.value.role in {"owner", "admin"}
    ensures var user := d.requestedBy.value.userId;
      0 < |user| <= 20 && forall i :: 0 <= i < |user| ==> '0' <= user[i] <= '9'
  {
    hide IsRun;
    var k := InstalledWereRecorded(trace, script, i, d);
    j := RecordsAreEntitled(trace, script, k);
  }

  /** One action never changes an answer. */
  lemma ActionKeepsAnswer(w: World, action: Action, v: World, k: ContractKey)
    requires Inv(w) && Acted(w, action, v) && k in w.past.replies
    ensures k in v.past.replies && v.past.replies[k] == w.past.replies[k]
  {
  }

  lemma AnswerIsInstalled(w: World, k: ContractKey)
    requires Inv(w) && k in w.past.replies
    ensures Answered(w, k)
  {
  }

  /** All accepted answers to one contract, at any two points of a run, are the same, and
      name the retry that was installed for its request. */
  lemma {:induction false} AnswersNeverChange(trace: seq<World>, script: seq<Action>, i: nat, j: nat, k: ContractKey)
    requires Legal(trace, script) && i <= j <= |script| && k in trace[i].past.replies
    ensures k in trace[j].past.replies && trace[j].past.replies[k] == trace[i].past.replies[k]
    ensures Answered(trace[j], k)
  {
    hide Inv, Admissible, Answered, Acted;
    if i < j {
      AnswersNeverChange(trace, script, i, j - 1, k);
      EveryRunIsSafe(trace, script, j - 1);
      assert Stepped(trace, script, j - 1);
      ActionKeepsAnswer(trace[j - 1], script[j - 1], trace[j], k);
    }
    EveryRunIsSafe(trace, script, j);
    AnswerIsInstalled(trace[j], k);
  }

  /** Over every run the values of the request file form chains: no name comes twice, every
      installed retry came directly after its original, and every minted name is such a retry.
      Only a request of another program starts a new chain. */
  lemma RetriesFormChains(trace: seq<World>, script: seq<Action>, i: nat)
    requires Legal(trace, script) && i <= |script|
    ensures Chained(trace[i].past.held, trace[i].past.installed)
    ensures var held, request := trace[i].past.held, trace[i].files.request;
      request.Some? ==> held != [] && held[|held| - 1] == request.value.requestId
  {
    hide Admissible, Chained, Answered, Acted;
    EveryRunIsSafe(trace, script, i);
  }

  /** A retry overwrites nothing but the request its contract names, and installs a retry of
      exactly that request. */
  lemma OnlyTheOriginalIsReplaced(trace: seq<World>, script: seq<Action>, i: nat)
    requires Legal(trace, script) && i < |script| && script[i].Retry?
    requires trace[i + 1].files.request != trace[i].files.request
    ensures var before, after := trace[i].files.request, trace[i + 1].files.request;
      && before.Some? && after.Some?
      && before.value.requestId == script[i].contract.key.requestId
      && after.value.retryOf == Some(before.value.requestId)
  {
    EveryRunIsSafe(trace, script, i);
    assert Stepped(trace, script, i);
  }
}
