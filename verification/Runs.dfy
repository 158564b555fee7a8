/** Runs of a step system: what holds at every point of every run, and how long a run can be. */
module Runs {
  /** `run` starts in an initial state and every state follows from the one before it. */
  ghost predicate IsRun<S(!new)>(init: S -> bool, next: (S, S) -> bool, run: seq<S>)
  {
    |run| > 0 && init(run[0]) && forall i :: 0 < i < |run| ==> next(run[i - 1], run[i])
  }

  ghost predicate IsStuck<S(!new)>(next: (S, S) -> bool, s: S)
  {
    forall t :: !next(s, t)
  }

  lemma {:induction false} InvariantAlways<S(!new)>(
      init: S -> bool, next: (S, S) -> bool, inv: S -> bool, run: seq<S>)
    requires forall s :: init(s) ==> inv(s)
    requires forall s, t :: inv(s) && next(s, t) ==> inv(t)
    requires IsRun(init, next, run)
    ensures forall i :: 0 <= i < |run| ==> inv(run[i])
  {
    if |run| > 1 {
      var shorter := run[..|run| - 1];
      InvariantAlways(init, next, inv, shorter);
      assert inv(shorter[|run| - 2]) && next(run[|run| - 2], run[|run| - 1]);
    }
  }

  /** If every step lowers a measure, no run is longer than the measure of its first state allows. */
  lemma {:induction false} MeasureBoundsRun<S(!new)>(
      init: S -> bool, next: (S, S) -> bool, inv: S -> bool, measure: S -> nat, run: seq<S>)
    requires forall s :: init(s) ==> inv(s)
    requires forall s, t :: inv(s) && next(s, t) ==> inv(t) && measure(t) < measure(s)
    requires IsRun(init, next, run)
    ensures |run| - 1 + measure(run[|run| - 1]) <= measure(run[0])
  {
    if |run| > 1 {
      var shorter := run[..|run| - 1];
      MeasureBoundsRun(init, next, inv, measure, shorter);
      InvariantAlways(init, next, inv, shorter);
      assert inv(shorter[|run| - 2]) && next(run[|run| - 2], run[|run| - 1]);
    }
  }

  ghost predicate IsReachable<S(!new)>(init: S -> bool, next: (S, S) -> bool, s: S)
  {
    exists run :: IsRun(init, next, run) && run[|run| - 1] == s
  }

  lemma InitialIsReachable<S(!new)>(init: S -> bool, next: (S, S) -> bool, s: S)
    requires init(s)
    ensures IsReachable(init, next, s)
  {
    var run := [s];
    assert IsRun(init, next, run) && run[|run| - 1] == s;
  }

  lemma StepIsReachable<S(!new)>(init: S -> bool, next: (S, S) -> bool, s: S, t: S)
    requires IsReachable(init, next, s) && next(s, t)
    ensures IsReachable(init, next, t)
  {
    var run :| IsRun(init, next, run) && run[|run| - 1] == s;
    var longer := run + [t];
    assert IsRun(init, next, longer) && longer[|longer| - 1] == t;
  }

  /** If every step lowers a measure, every run can be completed to one that cannot go on. */
  lemma {:induction false} RunCanBeCompleted<S(!new)>(
      init: S -> bool, next: (S, S) -> bool, inv: S -> bool, measure: S -> nat, run: seq<S>)
    returns (complete: seq<S>)
    requires forall s, t :: inv(s) && next(s, t) ==> inv(t) && measure(t) < measure(s)
    requires IsRun(init, next, run) && inv(run[|run| - 1])
    ensures run <= complete && IsRun(init, next, complete) && IsStuck(next, complete[|complete| - 1])
    decreases measure(run[|run| - 1])
  {
    complete := run;
    var last := run[|run| - 1];
    if t :| next(last, t) {
      complete := RunCanBeCompleted(init, next, inv, measure, run + [t]);
    }
  }
}
