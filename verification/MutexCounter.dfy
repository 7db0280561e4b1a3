/** The shared counter of 09_Day09/02_mutex_plus/mutex_add.c: threads that increment a global under a mutex, and a
    main thread that joins them and prints it. Any number of threads and any loop bounds; `NUM++` is a load
    and a store. */
module MutexCounter {
  import opened Runs
  import opened Counting

  datatype Pc =
    | Test    // line 9 or 21
    | Lock    // line 11 or 23
    | Load    // line 12 or 24, the read of NUM
    | Store   // line 12 or 24, the write of NUM
    | Unlock  // line 13 or 25
    | Exited  // line 16 or 28

  /** A thread: its next statement, its loop bound, its loop counter `i`, and the value it has loaded. */
  datatype Worker = Worker(pc: Pc, bound: nat, i: nat, loaded: int)

  /** The main thread: waiting in the k-th join (lines 57 and 63), or past line 69. */
  datatype Main = Joining(k: nat) | Printed(value: int)

  datatype Owner = Free | HeldBy(i: nat)

  datatype State = State(workers: seq<Worker>, mutex: Owner, num: int, main: Main)

  predicate WorkerCan(s: State, i: nat) {
    && i < |s.workers|
    && match s.workers[i].pc
       case Lock => s.mutex == Free
       case Exited => false
       case _ => true
  }

  function WorkerStep(s: State, i: nat): State
    requires WorkerCan(s, i)
  {
    var w := s.workers[i];
    match w.pc
    case Test => s.(workers := s.workers[i := w.(pc := if w.i < w.bound then Lock else Exited)])
    case Lock => s.(workers := s.workers[i := w.(pc := Load)], mutex := HeldBy(i))
    case Load => s.(workers := s.workers[i := w.(pc := Store, loaded := s.num)])
    case Store => s.(workers := s.workers[i := w.(pc := Unlock)], num := w.loaded + 1)
    case Unlock => s.(workers := s.workers[i := w.(pc := Test, i := w.i + 1)], mutex := Free)
  }

  predicate MainCan(s: State) {
    && s.main.Joining?
    && (s.main.k < |s.workers| ==> s.workers[s.main.k].pc.Exited?)
  }

  function MainStep(s: State): State
    requires MainCan(s)
  {
    if s.main.k < |s.workers| then s.(main := Joining(s.main.k + 1)) else s.(main := Printed(s.num))
  }

  function Start(bounds: seq<nat>): State {
    State(seq(|bounds|, i requires 0 <= i < |bounds| => Worker(Test, bounds[i], 0, 0)), Free, 0, Joining(0))
  }

  ghost function Program(bounds: seq<nat>): System<State> {
    System((s: State) => s == Start(bounds),
           (s: State, t: State) =>
             || (exists i :: WorkerCan(s, i) && t == WorkerStep(s, i))
             || (MainCan(s) && t == MainStep(s)))
  }

  /** The increments a thread has stored. */
  function Stored(w: Worker): nat {
    if w.pc.Unlock? then w.i + 1 else w.i
  }

  function Bound(w: Worker): nat { w.bound }

  predicate WorkerOk(bounds: seq<nat>, s: State, i: nat)
    requires i < |s.workers| == |bounds|
  {
    var w := s.workers[i];
    && w.bound == bounds[i]
    && (s.mutex == HeldBy(i) <==> w.pc.Load? || w.pc.Store? || w.pc.Unlock?)
    && (if w.pc.Test? then w.i <= w.bound else if w.pc.Exited? then w.i == w.bound else w.i < w.bound)
    && (w.pc.Store? ==> w.loaded == s.num)
  }

  ghost predicate Inv(bounds: seq<nat>, s: State) {
    && |s.workers| == |bounds|
    && (forall i: nat | i < |s.workers| :: WorkerOk(bounds, s, i))
    && (s.mutex.HeldBy? ==> s.mutex.i < |bounds|)
    && s.num == Sum(Stored, s.workers)
    && (s.main.Joining? ==> forall k | 0 <= k < s.main.k && k < |bounds| :: s.workers[k].pc.Exited?)
    && (s.main.Printed? ==> s.main.value == s.num && forall k | 0 <= k < |bounds| :: s.workers[k].pc.Exited?)
  }

  lemma WorkerKeepsInv(bounds: seq<nat>, s: State, i: nat)
    requires Inv(bounds, s) && WorkerCan(s, i)
    ensures Inv(bounds, WorkerStep(s, i))
  {
    var t := WorkerStep(s, i);
    assert WorkerOk(bounds, s, i);
    SumUpdate(Stored, s.workers, i, t.workers[i]);
    forall k: nat | k < |t.workers|
      ensures WorkerOk(bounds, t, k)
    {
      assert WorkerOk(bounds, s, k);
    }
  }

  lemma MainKeepsInv(bounds: seq<nat>, s: State)
    requires Inv(bounds, s) && MainCan(s)
    ensures Inv(bounds, MainStep(s))
  {
    var t := MainStep(s);
    forall k: nat | k < |t.workers|
      ensures WorkerOk(bounds, t, k)
    {
      assert WorkerOk(bounds, s, k);
    }
  }

  lemma StartInv(bounds: seq<nat>)
    ensures Inv(bounds, Start(bounds))
  {
    SumZero(Stored, Start(bounds).workers);
    assert forall i: nat | i < |bounds| :: WorkerOk(bounds, Start(bounds), i);
  }

  lemma ReachableInv(bounds: seq<nat>, s: State)
    requires Reachable(Program(bounds), s)
    ensures Inv(bounds, s)
  {
    var inv := (t: State) => Inv(bounds, t);
    StartInv(bounds);
    forall u, v | inv(u) && Program(bounds).next(u, v)
      ensures inv(v)
    {
      if i: nat :| WorkerCan(u, i) && v == WorkerStep(u, i) {
        WorkerKeepsInv(bounds, u, i);
      } else {
        MainKeepsInv(bounds, u);
      }
    }
    InductiveHoldsWhenReachable(Program(bounds), inv, s);
  }

  function Total(bounds: seq<nat>): nat {
    if bounds == [] then 0 else bounds[0] + Total(bounds[1..])
  }

  lemma {:induction false} SumIsTotal(weight: Worker -> nat, workers: seq<Worker>, bounds: seq<nat>)
    requires |workers| == |bounds|
    requires forall k | 0 <= k < |bounds| :: weight(workers[k]) == bounds[k]
    ensures Sum(weight, workers) == Total(bounds)
  {
    if bounds == [] {
    } else {
      SumIsTotal(weight, workers[1..], bounds[1..]);
    }
  }

  /** No increment is lost: every run that gets past the joins prints the sum of the loop bounds, and in every
      state NUM is the number of increments stored so far and at most that sum. */
  lemma NoIncrementLost(bounds: seq<nat>, s: State)
    requires Reachable(Program(bounds), s)
    ensures s.num == Sum(Stored, s.workers) <= Total(bounds)
    ensures s.main.Printed? ==> s.main.value == Total(bounds)
  {
    ReachableInv(bounds, s);
    forall k | 0 <= k < |bounds|
      ensures Stored(s.workers[k]) <= bounds[k] && Bound(s.workers[k]) == bounds[k]
      ensures s.main.Printed? ==> Stored(s.workers[k]) == bounds[k]
    {
      assert WorkerOk(bounds, s, k);
    }
    SumLeq(Stored, Bound, s.workers);
    SumIsTotal(Bound, s.workers, bounds);
    if s.main.Printed? {
      SumIsTotal(Stored, s.workers, bounds);
    }
  }

  /** The program as written: two threads of a million increments print two million, and NUM never leaves the
      range of a 32-bit int. */
  lemma TwoMillion(s: State)
    requires Reachable(Program([1000000, 1000000]), s)
    ensures 0 <= s.num <= 2000000 < 0x8000_0000
    ensures s.main.Printed? ==> s.main.value == 2000000
  {
    NoIncrementLost([1000000, 1000000], s);
    assert Total([1000000]) == 1000000;
  }

  // ---- Progress ----

  /** The steps a thread still has to take: five for each increment and one for the last test. */
  function StepsLeft(w: Worker): nat {
    var left := if w.i < w.bound then 5 * (w.bound - w.i) else 0;
    match w.pc
    case Test => left + 1
    case Lock => left
    case Load => if left > 1 then left - 1 else 0
    case Store => if left > 2 then left - 2 else 0
    case Unlock => if left > 3 then left - 3 else 0
    case Exited => 0
  }

  ghost function AllStepsLeft(s: State): nat {
    Sum(StepsLeft, s.workers)
    + match s.main case Printed(_) => 0 case Joining(k) => if k < |s.workers| then |s.workers| - k + 1 else 1
  }

  lemma WorkerStepCounts(bounds: seq<nat>, s: State, i: nat)
    requires Inv(bounds, s) && WorkerCan(s, i)
    ensures AllStepsLeft(WorkerStep(s, i)) == AllStepsLeft(s) - 1
  {
    assert WorkerOk(bounds, s, i);
    SumUpdate(StepsLeft, s.workers, i, WorkerStep(s, i).workers[i]);
  }

  /** Each step is one of a number of steps fixed in advance. */
  lemma EveryStepCounts(bounds: seq<nat>, s: State, t: State)
    requires Inv(bounds, s) && Program(bounds).next(s, t)
    ensures AllStepsLeft(t) == AllStepsLeft(s) - 1
  {
    if i: nat :| WorkerCan(s, i) && t == WorkerStep(s, i) {
      WorkerStepCounts(bounds, s, i);
    }
  }

  predicate Inside(w: Worker) { w.pc.Load? || w.pc.Store? || w.pc.Unlock? }

  /** A thread is kept from moving only by one that is between lock and unlock, and the main thread only by the thread
      that it joins. */
  lemma BlockedIff(bounds: seq<nat>, s: State, i: nat)
    requires Reachable(Program(bounds), s) && i < |bounds|
    ensures |s.workers| == |bounds|
    ensures !WorkerCan(s, i) <==>
      || s.workers[i].pc.Exited?
      || (s.workers[i].pc.Lock? && exists k: nat :: k < |bounds| && Inside(s.workers[k]))
    ensures !MainCan(s) <==> s.main.Printed? || (s.main.k < |bounds| && !s.workers[s.main.k].pc.Exited?)
  {
    ReachableInv(bounds, s);
    forall k: nat | k < |bounds|
      ensures Inside(s.workers[k]) <==> s.mutex == HeldBy(k)
      ensures WorkerOk(bounds, s, k)
    {
      assert WorkerOk(bounds, s, k);
    }
    assert s.mutex.HeldBy? ==> Inside(s.workers[s.mutex.i]);
  }

  lemma MainMoves(bounds: seq<nat>, s: State)
    requires MainCan(s)
    ensures !Final(Program(bounds), s)
  {
    assert Program(bounds).next(s, MainStep(s));
  }

  lemma WorkerMoves(bounds: seq<nat>, s: State, i: nat)
    requires WorkerCan(s, i)
    ensures !Final(Program(bounds), s)
  {
    assert Program(bounds).next(s, WorkerStep(s, i));
  }

  /** And it terminates in one way only: with the sum printed. */
  lemma EndsPrinted(bounds: seq<nat>, s: State)
    requires Reachable(Program(bounds), s) && Final(Program(bounds), s)
    ensures s.main == Printed(Total(bounds))
  {
    ReachableInv(bounds, s);
    NoIncrementLost(bounds, s);
    if s.main.Joining? {
      if MainCan(s) {
        MainMoves(bounds, s);
      } else if s.mutex == Free {
        WorkerMoves(bounds, s, s.main.k);
      } else {
        assert WorkerOk(bounds, s, s.mutex.i);
        WorkerMoves(bounds, s, s.mutex.i);
      }
    }
  }

  lemma {:induction false} RunCounts(bounds: seq<nat>, run: seq<State>, n: nat)
    requires IsRun(Program(bounds), run) && n < |run|
    ensures n + AllStepsLeft(run[n]) == AllStepsLeft(Start(bounds))
  {
    if n == 0 {
    } else {
      RunCounts(bounds, run, n - 1);
      assert Program(bounds).next(run[n - 1], run[n - 1 + 1]);
      OnRunReachable(Program(bounds), run, n - 1);
      ReachableInv(bounds, run[n - 1]);
      EveryStepCounts(bounds, run[n - 1], run[n]);
    }
  }

  lemma NoStepsAfterPrinting(bounds: seq<nat>, s: State)
    requires Reachable(Program(bounds), s) && s.main.Printed?
    ensures AllStepsLeft(s) == 0
  {
    ReachableInv(bounds, s);
    SumZero(StepsLeft, s.workers);
  }

  lemma FinishedRun(bounds: seq<nat>, run: seq<State>)
    requires IsRun(Program(bounds), run) && Final(Program(bounds), run[|run| - 1])
    ensures AllStepsLeft(run[|run| - 1]) == 0 && run[|run| - 1].main == Printed(Total(bounds))
  {
    OnRunReachable(Program(bounds), run, |run| - 1);
    EndsPrinted(bounds, run[|run| - 1]);
    NoStepsAfterPrinting(bounds, run[|run| - 1]);
  }

  lemma {:induction false} StartSteps(bounds: seq<nat>)
    ensures Sum(StepsLeft, Start(bounds).workers) == 5 * Total(bounds) + |bounds|
  {
    if bounds == [] {
    } else {
      StartSteps(bounds[1..]);
      assert Start(bounds).workers[1..] == Start(bounds[1..]).workers;
    }
  }

  /** Every schedule terminates: no run takes more than five steps for each increment, two for each thread and one
      for the printing, and a run that cannot go on has taken exactly those and printed the sum. */
  lemma EveryScheduleEnds(bounds: seq<nat>, run: seq<State>)
    requires IsRun(Program(bounds), run)
    ensures |run| - 1 <= 5 * Total(bounds) + 2 * |bounds| + 1
    ensures Final(Program(bounds), run[|run| - 1]) ==>
      |run| - 1 == 5 * Total(bounds) + 2 * |bounds| + 1 && run[|run| - 1].main == Printed(Total(bounds))
  {
    RunCounts(bounds, run, |run| - 1);
    StartSteps(bounds);
    if Final(Program(bounds), run[|run| - 1]) {
      FinishedRun(bounds, run);
    }
  }

  // ---- The program in place ----

  datatype Turn = WorkerTurn(i: nat) | MainTurn

  /** NUM, the mutex and the threads, updated one statement at a time. */
  class Process {
    var workers: seq<Worker>
    var mutex: Owner
    var num: int
    var main: Main

    function Now(): State
      reads this
    {
      State(workers, mutex, num, main)
    }

    constructor (bounds: seq<nat>)
      ensures Now() == Start(bounds)
    {
      workers := seq(|bounds|, i requires 0 <= i < |bounds| => Worker(Test, bounds[i], 0, 0));
      mutex, num, main := Free, 0, Joining(0);
    }

    method Work(i: nat)
      modifies this
      ensures Now() == if WorkerCan(old(Now()), i) then WorkerStep(old(Now()), i) else old(Now())
    {
      if !WorkerCan(Now(), i) {
        return;
      }
      var w := workers[i];
      match w.pc
      case Test => workers := workers[i := w.(pc := if w.i < w.bound then Lock else Exited)];
      case Lock => workers, mutex := workers[i := w.(pc := Load)], HeldBy(i);
      case Load => workers := workers[i := w.(pc := Store, loaded := num)];
      case Store => workers, num := workers[i := w.(pc := Unlock)], w.loaded + 1;
      case Unlock => workers, mutex := workers[i := w.(pc := Test, i := w.i + 1)], Free;
    }

    method Join()
      modifies this
      ensures Now() == if MainCan(old(Now())) then MainStep(old(Now())) else old(Now())
    {
      if MainCan(Now()) {
        main := if main.k < |workers| then Joining(main.k + 1) else Printed(num);
      }
    }

    /** Runs any schedule from the start: if it gets past the joins, it has printed the sum of the bounds. */
    method Run(bounds: seq<nat>, schedule: seq<Turn>)
      requires Now() == Start(bounds)
      modifies this
      ensures main.Printed? ==> main.value == Total(bounds)
    {
      InitReachable(Program(bounds), Now());
      for k := 0 to |schedule|
        invariant Reachable(Program(bounds), Now())
      {
        ghost var before := Now();
        match schedule[k]
        case WorkerTurn(i) =>
          Work(i);
          if WorkerCan(before, i) {
            StepReachable(Program(bounds), before, Now());
          }
        case MainTurn =>
          Join();
          if MainCan(before) {
            StepReachable(Program(bounds), before, Now());
          }
      }
      NoIncrementLost(bounds, Now());
    }
  }
}
