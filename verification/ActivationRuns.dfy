/** What holds in every state of every run: unbounded schedules of commands, bootstrap
    calls and crashes, with the environment acting between any two effects. */
module ActivationRuns {
  import opened Wrappers
  import opened Contracts
  import opened ActivationJournal
  import opened Installation
  import opened SlotStore
  import opened Runtime
  import opened JournalWrites
  import opened Bridge
  import opened Activation
  import opened Bootstrap

  /** One invocation of a program that touches the activation state.  Any of them may crash
      at any effect. */
  datatype Action =
    | Command(arguments: Arguments, reports: Reports)
    | Resolve(repair: bool, recovery: Reports)
    | Wait

  /** A control plane does not submit the request identity of an earlier activation again. */
  ghost predicate Admissible(w: World, action: Action) {
    action.Command? ==> Fresh(w.past, action.arguments.requestId)
  }

  ghost predicate Acted(w: World, action: Action, v: World) {
    Inv(w) && Admissible(w, action) ==> Inv(v) && Progressed(w, v)
  }

  /** Action `i` of the schedule led from one world of the trace to the next. */
  ghost predicate Stepped(trace: seq<World>, script: seq<Action>, i: nat)
    requires |trace| == |script| + 1 && i < |script|
  {
    Acted(trace[i], script[i], trace[i + 1])
  }

  ghost predicate Invited(trace: seq<World>, script: seq<Action>, i: nat)
    requires |trace| == |script| + 1 && i < |script|
  {
    Admissible(trace[i], script[i])
  }

  /** The worlds between the actions of one schedule. */
  ghost predicate IsRun(trace: seq<World>, script: seq<Action>) {
    |trace| == |script| + 1 && forall i: nat :: i < |script| ==> Stepped(trace, script, i)
  }

  method Act(h: Host, action: Action)
    modifies h
    ensures Acted(old(h.Now()), action, h.Now())
  {
    hide Inv, Progressed, Fresh;
    ghost var before := h.Now();
    match action {
      case Command(arguments, reports) =>
        var _ := ActivateOrResume(h, arguments, reports);
      case Resolve(repair, recovery) =>
        var _ := ResolveAuthority(h, repair, recovery);
      case Wait =>
        var _ := Observe(h, EvidenceMissing);
        RestingProgresses(before, h.Now());
    }
  }

  /** Executes a whole schedule. */
  method Run(h: Host, script: seq<Action>) returns (ghost trace: seq<World>)
    modifies h
    ensures IsRun(trace, script)
    ensures trace[0] == old(h.Now()) && trace[|script|] == h.Now()
  {
    hide Acted;
    trace := [h.Now()];
    for i := 0 to |script|
      invariant |trace| == i + 1 && trace[0] == old(h.Now()) && trace[i] == h.Now()
      invariant forall k: nat {:trigger script[k]} :: k < i ==> Acted(trace[k], script[k], trace[k + 1])
    {
      Act(h, script[i]);
      trace := trace + [h.Now()];
    }
  }

  /** A run from a sound state whose requests are admissible. */
  ghost predicate Legal(trace: seq<World>, script: seq<Action>) {
    && IsRun(trace, script)
    && Inv(trace[0])
    && forall i: nat :: i < |script| ==> Invited(trace, script, i)
  }

  /** Safety over whole runs: the invariant holds in every state, and any two states of a
      run are related by archived settlements and one evolving journal. */
  lemma {:induction false} EveryRunIsSafe(trace: seq<World>, script: seq<Action>, i: nat, j: nat)
    requires Legal(trace, script) && i <= j <= |script|
    ensures Inv(trace[j]) && Progressed(trace[i], trace[j])
    decreases j
  {
    hide Inv, Progressed, Admissible;
    if j == 0 {
      RestingProgresses(trace[0], trace[0]);
    } else {
      EveryRunIsSafe(trace, script, 0, j - 1);
      assert Stepped(trace, script, j - 1) && Invited(trace, script, j - 1);
      if i == j {
        RestingProgresses(trace[j], trace[j]);
      } else {
        EveryRunIsSafe(trace, script, 0, i);
        EveryRunIsSafe(trace, script, i, j - 1);
        ProgressedFrom(trace[i], trace[j - 1], trace[j]);
      }
    }
  }

  /** A fresh installation satisfies the invariant. */
  lemma FirstInstallation(w: World)
    requires w.files.journal.None? && w.data.migration.None? && w.data.db.whole && w.data.evidence.None?
    requires w.past.archive == [] && !w.past.quiet && !w.past.slipped && !w.past.inherited
    ensures Inv(w)
  {
  }

  /** While a migration container is alive, or one has left the schema torn, no writer runs
      and the Docker daemon may start none; and no bootstrap reconcile would lift the fence.
      The exception is a container that slipped through the probe of a rollback. */
  lemma NoWriterDuringMigration(trace: seq<World>, script: seq<Action>, i: nat)
    requires Legal(trace, script) && i <= |script|
    requires !AtRest(trace[i].data) && !trace[i].past.slipped
    ensures Isolated(trace[i]) && ActivationIsolation(trace[i].files.journal)
  {
    EveryRunIsSafe(trace, script, i, i);
  }

  /** From the declared invocation until the activation settles, isolation is demanded. */
  lemma InvokedDemandsIsolation(trace: seq<World>, script: seq<Action>, i: nat)
    requires Legal(trace, script) && i <= |script| && trace[i].files.journal.Some?
    requires var j := trace[i].files.journal.value; j.schema.migrationInvoked && !Settled(j.phase)
    ensures ActivationIsolation(trace[i].files.journal)
  {
    EveryRunIsSafe(trace, script, i, i);
  }

  /** The window, exactly.  While the migration was invoked or the journal is quiescing no
      writer runs.  In every quiet state with the writers still stopped, no step of the
      environment can start one if and only if the migration was invoked or the activation
      neither blocked nor settled. */
  lemma QuietWindowExactly(trace: seq<World>, script: seq<Action>, i: nat)
    requires Legal(trace, script) && i <= |script| && trace[i].files.journal.Some? && trace[i].past.quiet
    ensures var j := trace[i].files.journal.value; j.schema.migrationInvoked || j.phase == Quiescing ==>
      Isolated(trace[i])
    ensures var j := trace[i].files.journal.value;
      Isolated(trace[i]) ==>
        ((forall v :: Interfered(trace[i], v) ==> Isolated(v))
         <==> j.schema.migrationInvoked || j.phase !in {Blocked, FailedRolledBack})
  {
    EveryRunIsSafe(trace, script, i, i);
    if Isolated(trace[i]) {
      IsolationLastsExactly(trace[i]);
    }
  }

  /** Helper: the environment can end the isolation of a stopped installation exactly when
      the bootstrap predicate does not demand it. */
  lemma IsolationLastsExactly(w: World)
    requires Isolated(w)
    ensures ActivationIsolation(w.files.journal) <==> forall v :: Interfered(w, v) ==> Isolated(v)
  {
    if !ActivationIsolation(w.files.journal) {
      var v := w.(docker := w.docker.(running := w.docker.running + {Api}, always := Policies(false)));
      assert Interfered(w, v) && !Isolated(v);
    }
  }

  /** The migration is started at most once per activation, and only after it was declared. */
  lemma MigrationStartsOnce(trace: seq<World>, script: seq<Action>, i: nat)
    requires Legal(trace, script) && i <= |script| && trace[i].files.journal.Some?
    ensures trace[i].past.starts <= 1
    ensures trace[i].past.starts == 1 ==> trace[i].files.journal.value.schema.migrationInvoked
  {
    EveryRunIsSafe(trace, script, i, i);
  }

  /** Sound commit: the target is verified and active only over a finished migration. */
  lemma CommitIsSound(trace: seq<World>, script: seq<Action>, i: nat)
    requires Legal(trace, script) && i <= |script| && trace[i].files.journal.Some?
    requires trace[i].files.journal.value.phase in {VerifyingTarget, CommittingTarget, Completed}
    ensures var w, j := trace[i], trace[i].files.journal.value;
      && w.files.pointer == Some(j.target.slotId)
      && (j.phase != VerifyingTarget ==> j.targetVerified)
      && (!w.past.inherited ==> AtRest(w.data))
      && (!w.past.inherited && j.schema.migrationRequired ==> j.schema.migrationCompleted && w.data.db.version == j.schema.targetVersion)
  {
    EveryRunIsSafe(trace, script, i, i);
  }

  /** Sound rollback: the previous slot is active again, over a whole database unless a
      container slipped through the probe, and both proofs were obtained by the rollback call
      that settled the journal. */
  lemma RollbackIsSound(trace: seq<World>, script: seq<Action>, i: nat)
    requires Legal(trace, script) && i <= |script| && trace[i].files.journal.Some?
    requires trace[i].files.journal.value.phase == FailedRolledBack
    ensures var w, j := trace[i], trace[i].files.journal.value;
      && w.files.pointer == Some(j.previous.slotId) && j.previousVerified
      && j.failureCategory.Some? && j.rollbackTrigger.Some?
      && (!w.past.slipped ==> DatabaseProven(w.data, j.schema))
      && w.past.databaseProof == w.past.call && w.past.runtimeProof == w.past.call
  {
    EveryRunIsSafe(trace, script, i, i);
  }

  /** The pointer never leaves the two slots of the activation, and the journal lags behind
      it in two phases only. */
  lemma PointerLag(trace: seq<World>, script: seq<Action>, i: nat)
    requires Legal(trace, script) && i <= |script| && trace[i].files.journal.Some?
    ensures var w, j := trace[i], trace[i].files.journal.value;
      && w.files.pointer in {Some(j.previous.slotId), Some(j.target.slotId)}
      && (j.pointer != w.files.pointer ==>
            || (j.phase == Activating && w.files.pointer == Some(j.target.slotId))
            || (j.phase == RollingBack && w.files.pointer == Some(j.previous.slotId)))
  {
    EveryRunIsSafe(trace, script, i, i);
  }

  /** A settled activation is permanent over every run: it still stands, or it is archived
      as it stood. */
  lemma SettledIsPermanent(trace: seq<World>, script: seq<Action>, i: nat, k: nat)
    requires Legal(trace, script) && i <= k <= |script|
    requires trace[i].files.journal.Some? && Settled(trace[i].files.journal.value.phase)
    ensures var w, v, j := trace[i], trace[k], trace[i].files.journal.value;
      if |v.past.archive| <= |w.past.archive|
      then v.files.journal.Some? && v.files.journal.value.phase == j.phase && SameActivation(j, v.files.journal.value)
      else v.past.archive[|w.past.archive|].phase == j.phase && SameActivation(j, v.past.archive[|w.past.archive|])
  {
    EveryRunIsSafe(trace, script, i, k);
  }

  /** Failure evidence is permanent over every run of one activation. */
  lemma FailureIsPermanent(trace: seq<World>, script: seq<Action>, i: nat, k: nat)
    requires Legal(trace, script) && i <= k <= |script|
    requires |trace[k].past.archive| == |trace[i].past.archive|
    requires trace[i].files.journal.Some? && trace[i].files.journal.value.failureCategory.Some?
    ensures trace[k].files.journal.Some?
    ensures var a, b := trace[i].files.journal.value, trace[k].files.journal.value;
      && b.failureCategory == a.failureCategory
      && b.phase in {RollingBack, Blocked, FailedRolledBack}
      && (a.rollbackTrigger.Some? ==> b.rollbackTrigger == a.rollbackTrigger)
  {
    EveryRunIsSafe(trace, script, i, i);
    EveryRunIsSafe(trace, script, i, k);
  }

  /** An activation is superseded only once it is settled: whatever a run archives, the
      blocked journals the store itself would give up included, was settled. */
  lemma OnlySettledIsSuperseded(trace: seq<World>, script: seq<Action>, i: nat, a: Journal)
    requires Legal(trace, script) && i <= |script| && a in trace[i].past.archive
    ensures Settled(a.phase)
  {
    EveryRunIsSafe(trace, script, i, i);
    assert trace[i].files.journal.Some?;
  }
}
