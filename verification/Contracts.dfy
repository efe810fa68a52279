/** The activation phases and the table of legal transitions between them. */
module Contracts {

  datatype Phase =
    | TargetPrepared
    | Quiescing
    | SchemaPreparing
    | Activating
    | VerifyingTarget
    | CommittingTarget
    | RollingBack
    | Completed
    | FailedRolledBack
    | Blocked

  const TERMINAL_ACTIVATION_PHASES: set<Phase> := {Completed, FailedRolledBack, Blocked}

  function ActivationTransitions(phase: Phase): set<Phase> {
    match phase
    case TargetPrepared => {Quiescing, SchemaPreparing, Activating, RollingBack, Blocked}
    case Quiescing => {SchemaPreparing, Activating, RollingBack, Blocked}
    case SchemaPreparing => {Activating, RollingBack, Blocked}
    case Activating => {VerifyingTarget, RollingBack, Blocked}
    case VerifyingTarget => {CommittingTarget, RollingBack, Blocked}
    case CommittingTarget => {Completed, RollingBack, Blocked}
    case RollingBack => {FailedRolledBack, Blocked}
    case Completed => {}
    case FailedRolledBack => {}
    case Blocked => {RollingBack}
  }

  /** A settled phase names a winner: the target or the previous slot. */
  predicate Settled(phase: Phase) {
    phase == Completed || phase == FailedRolledBack
  }

  /** A journal may stay in its phase or take one edge of the table. */
  predicate Step(from: Phase, to: Phase) {
    to == from || to in ActivationTransitions(from)
  }

  /** The table as a rule: one phase forward at a time, except that the migration phases may be
      skipped; failure from every unsettled phase, back and forth between its two open phases,
      and out of it only as rolled back. */
  lemma StepExactly(from: Phase, to: Phase)
    ensures Rank(from) < 6 ==>
      (Step(from, to) <==>
        || to == from || to in {RollingBack, Blocked}
        || Rank(to) == Rank(from) + 1
        || (Rank(from) < Rank(to) <= Rank(Activating)))
    ensures from == RollingBack ==> (Step(from, to) <==> to in {RollingBack, Blocked, FailedRolledBack})
    ensures from == Blocked ==> (Step(from, to) <==> to in {RollingBack, Blocked})
    ensures from in {Completed, FailedRolledBack} ==> (Step(from, to) <==> to == from)
  {
  }

  /** A sequence of phases, each one `Step` from its predecessor. */
  ghost predicate Walk(path: seq<Phase>) {
    |path| > 0 && forall i {:trigger path[i]} :: 0 < i < |path| ==> Step(path[i - 1], path[i])
  }

  /** The distance a phase has travelled towards a commit. */
  function Rank(phase: Phase): nat {
    match phase
    case TargetPrepared => 0
    case Quiescing => 1
    case SchemaPreparing => 2
    case Activating => 3
    case VerifyingTarget => 4
    case CommittingTarget => 5
    case Completed => 6
    case RollingBack => 7
    case Blocked => 7
    case FailedRolledBack => 8
  }

  /** What any number of transitions can do, in closed form: the forward line only
      moves forward, failure is a closed region, and the two settled phases are final. */
  predicate Reaches(from: Phase, to: Phase) {
    || to == from
    || (Rank(from) < 6 && Rank(from) < Rank(to))
    || (from == RollingBack && to in {Blocked, FailedRolledBack})
    || (from == Blocked && to in {RollingBack, FailedRolledBack})
  }

  lemma ReachesIsTransitive(a: Phase, b: Phase, c: Phase)
    requires Reaches(a, b) && Reaches(b, c)
    ensures Reaches(a, c)
  {
  }

  /** The closed form is sound for walks of any length. */
  lemma {:induction false} WalkReaches(path: seq<Phase>)
    requires Walk(path)
    ensures Reaches(path[0], path[|path| - 1])
  {
    if |path| > 1 {
      var shorter := path[..|path| - 1];
      WalkReaches(shorter);
      assert Step(path[|path| - 2], path[|path| - 1]);
      ReachesIsTransitive(path[0], shorter[|shorter| - 1], path[|path| - 1]);
    }
  }

  /** The next phase of an activation that meets no failure. */
  function Forward(phase: Phase): (next: Phase)
    requires Rank(phase) < 6
    ensures Rank(next) == Rank(phase) + 1 && Step(phase, next)
  {
    match phase
    case TargetPrepared => Quiescing
    case Quiescing => SchemaPreparing
    case SchemaPreparing => Activating
    case Activating => VerifyingTarget
    case VerifyingTarget => CommittingTarget
    case CommittingTarget => Completed
  }

  /** The closed form is tight: every pair it admits is joined by a walk of the table. */
  lemma {:induction false} ReachesHasWalk(from: Phase, to: Phase) returns (path: seq<Phase>)
    requires Reaches(from, to)
    ensures Walk(path) && path[0] == from && path[|path| - 1] == to
    decreases if Rank(from) < 6 then 6 - Rank(from) else 0
  {
    if to == from {
      path := [from];
    } else if Rank(from) < 6 && Rank(to) <= 6 {
      var rest := ReachesHasWalk(Forward(from), to);
      path := [from] + rest;
    } else if to == FailedRolledBack && from != RollingBack {
      path := [from, RollingBack, to];
    } else {
      path := [from, to];
    }
  }

  /** The only non-trivial cycle of the journal graph joins `RollingBack` and `Blocked`. */
  lemma OnlyCycle(p: Phase, q: Phase)
    requires Reaches(p, q) && Reaches(q, p)
    ensures p == q || {p, q} == {RollingBack, Blocked}
  {
  }

  /** Once an activation starts to fail it can settle only as rolled back. */
  lemma FailureIsClosed(path: seq<Phase>)
    requires Walk(path) && path[0] in {RollingBack, Blocked, FailedRolledBack}
    ensures path[|path| - 1] in {RollingBack, Blocked, FailedRolledBack}
    ensures path[0] == FailedRolledBack ==> path[|path| - 1] == FailedRolledBack
  {
    WalkReaches(path);
  }

  /** A completed activation stays completed along every walk. */
  lemma CompletionIsFinal(path: seq<Phase>)
    requires Walk(path) && path[0] == Completed
    ensures path[|path| - 1] == Completed
  {
    WalkReaches(path);
  }
}
