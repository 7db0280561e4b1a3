/** Transition systems: runs, reachable states, paths, and induction over runs.
    Every concurrent program of the project is a `System` over its own states. */
module Runs {

  datatype System<!S> = System(init: S -> bool, next: (S, S) -> bool)

  /** A finite sequence of states in which each state steps to the one after it. */
  ghost predicate IsPath<S>(sys: System<S>, path: seq<S>) {
    |path| > 0 && forall i | 0 <= i < |path| - 1 :: sys.next(path[i], path[i + 1])
  }

  /** A path that starts in an initial state. */
  ghost predicate IsRun<S>(sys: System<S>, run: seq<S>) {
    IsPath(sys, run) && sys.init(run[0])
  }

  ghost predicate Reachable<S(!new)>(sys: System<S>, s: S) {
    exists run :: IsRun(sys, run) && run[|run| - 1] == s
  }

  /** No step leaves `s`: a run that ends here cannot be extended. */
  ghost predicate Final<S(!new)>(sys: System<S>, s: S) {
    forall t :: !sys.next(s, t)
  }

  ghost predicate Inductive<S(!new)>(sys: System<S>, inv: S -> bool) {
    && (forall s :: sys.init(s) ==> inv(s))
    && (forall s, t :: inv(s) && sys.next(s, t) ==> inv(t))
  }

  /** An inductive predicate holds in every state of every run. */
  lemma {:induction false} InductiveHoldsOnRun<S(!new)>(sys: System<S>, inv: S -> bool, run: seq<S>, i: nat)
    requires Inductive(sys, inv) && IsRun(sys, run) && i < |run|
    ensures inv(run[i])
  {
    if i == 0 {
    } else {
      InductiveHoldsOnRun(sys, inv, run, i - 1);
      assert sys.next(run[i - 1], run[i - 1 + 1]);
    }
  }

  lemma InductiveHoldsWhenReachable<S(!new)>(sys: System<S>, inv: S -> bool, s: S)
    requires Inductive(sys, inv) && Reachable(sys, s)
    ensures inv(s)
  {
    var run :| IsRun(sys, run) && run[|run| - 1] == s;
    InductiveHoldsOnRun(sys, inv, run, |run| - 1);
  }

  lemma InitReachable<S(!new)>(sys: System<S>, s: S)
    requires sys.init(s)
    ensures Reachable(sys, s)
  {
    assert IsRun(sys, [s]);
  }

  lemma StepReachable<S(!new)>(sys: System<S>, s: S, t: S)
    requires Reachable(sys, s) && sys.next(s, t)
    ensures Reachable(sys, t)
  {
    var run :| IsRun(sys, run) && run[|run| - 1] == s;
    var longer := run + [t];
    assert forall i | 0 <= i < |longer| - 1 :: sys.next(longer[i], longer[i + 1]);
    assert IsRun(sys, longer) && longer[|longer| - 1] == t;
  }

  /** Every state of a run is reachable. */
  lemma OnRunReachable<S(!new)>(sys: System<S>, run: seq<S>, i: nat)
    requires IsRun(sys, run) && i < |run|
    ensures Reachable(sys, run[i])
  {
    assert IsRun(sys, run[..i + 1]);
  }

  /** A path leads from `s` to a state satisfying `goal`. */
  ghost predicate CanReach<S(!new)>(sys: System<S>, s: S, goal: S -> bool) {
    exists path :: IsPath(sys, path) && path[0] == s && goal(path[|path| - 1])
  }

  lemma CanReachNow<S(!new)>(sys: System<S>, s: S, goal: S -> bool)
    requires goal(s)
    ensures CanReach(sys, s, goal)
  {
    assert IsPath(sys, [s]);
  }

  lemma CanReachByStep<S(!new)>(sys: System<S>, s: S, t: S, goal: S -> bool)
    requires sys.next(s, t) && CanReach(sys, t, goal)
    ensures CanReach(sys, s, goal)
  {
    var path :| IsPath(sys, path) && path[0] == t && goal(path[|path| - 1]);
    var longer := [s] + path;
    assert forall i | 0 <= i < |longer| - 1 :: sys.next(longer[i], longer[i + 1]);
    assert IsPath(sys, longer) && longer[0] == s && goal(longer[|longer| - 1]);
  }

  /** A predicate that steps keep holds at the end of every path that starts inside it. */
  lemma {:induction false} KeptOnPath<S(!new)>(sys: System<S>, keep: S -> bool, path: seq<S>)
    requires IsPath(sys, path) && keep(path[0])
    requires forall s, t :: keep(s) && sys.next(s, t) ==> keep(t)
    ensures keep(path[|path| - 1])
  {
    if |path| == 1 {
    } else {
      var front := path[..|path| - 1];
      assert forall i | 0 <= i < |front| - 1 :: sys.next(front[i], front[i + 1]);
      KeptOnPath(sys, keep, front);
      var k := |path| - 2;
      assert sys.next(path[k], path[k + 1]);
    }
  }
}
