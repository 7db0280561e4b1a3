/** The readers and writers of 09_Day09/03_read_write_lock/read_write_lock.c over the shared counter NUM: any number
    of each. `NUM++` is a load and a store; the lock admits one writer or any number of readers. */
module ReadWriteLock {
  import opened Runs
  import opened Counting

  datatype ReaderPc =
    | RdLock    // line 10
    | Read      // line 11
    | RdUnlock  // line 12

  /** A reader: its next statement, and the values of NUM that it has printed. */
  datatype Reader = Reader(pc: ReaderPc, seen: seq<int>)

  datatype WriterPc =
    | WrLock    // line 21
    | Load      // line 22, the read of NUM
    | Store     // line 22, the write of NUM
    | WrUnlock  // line 24

  /** A writer: its next statement, the value it has loaded, and the sections it has completed. */
  datatype Writer = Writer(pc: WriterPc, loaded: int, completed: nat)

  /** `reading` holders of the read lock, and whether the write lock is held. */
  datatype State = State(readers: seq<Reader>, writers: seq<Writer>, reading: nat, writing: bool, num: int)

  predicate ReaderCan(s: State, i: nat) {
    && i < |s.readers|
    && match s.readers[i].pc
       case RdLock => !s.writing
       case Read => true
       case RdUnlock => s.reading > 0
  }

  function ReaderStep(s: State, i: nat): State
    requires ReaderCan(s, i)
  {
    var r := s.readers[i];
    match r.pc
    case RdLock => s.(readers := s.readers[i := r.(pc := Read)], reading := s.reading + 1)
    case Read => s.(readers := s.readers[i := Reader(RdUnlock, r.seen + [s.num])])
    case RdUnlock => s.(readers := s.readers[i := r.(pc := RdLock)], reading := s.reading - 1)
  }

  predicate WriterCan(s: State, j: nat) {
    && j < |s.writers|
    && (s.writers[j].pc.WrLock? ==> !s.writing && s.reading == 0)
  }

  function WriterStep(s: State, j: nat): State
    requires WriterCan(s, j)
  {
    var w := s.writers[j];
    match w.pc
    case WrLock => s.(writers := s.writers[j := w.(pc := Load)], writing := true)
    case Load => s.(writers := s.writers[j := w.(pc := Store, loaded := s.num)])
    case Store => s.(writers := s.writers[j := w.(pc := WrUnlock)], num := w.loaded + 1)
    case WrUnlock => s.(writers := s.writers[j := w.(pc := WrLock, completed := w.completed + 1)], writing := false)
  }

  /** The program has five readers and three writers. */
  function Start(readers: nat, writers: nat): State {
    State(seq(readers, _ => Reader(RdLock, [])), seq(writers, _ => Writer(WrLock, 0, 0)), 0, false, 0)
  }

  ghost predicate ReaderNext(s: State, t: State) {
    exists i :: ReaderCan(s, i) && t == ReaderStep(s, i)
  }

  ghost predicate WriterNext(s: State, t: State) {
    exists j :: WriterCan(s, j) && t == WriterStep(s, j)
  }

  ghost function Program(readers: nat, writers: nat): System<State> {
    System((s: State) => s == Start(readers, writers), (s: State, t: State) => ReaderNext(s, t) || WriterNext(s, t))
  }

  // ---- The invariant ----

  function Reading(r: Reader): nat { if r.pc.RdLock? then 0 else 1 }

  function Writing(w: Writer): nat { if w.pc.WrLock? then 0 else 1 }

  function Completed(w: Writer): nat { w.completed }

  /** The increments a writer has stored. */
  function Stored(w: Writer): nat { if w.pc.WrUnlock? then w.completed + 1 else w.completed }

  /** What a reader has seen is no more than there has been, and never goes back. */
  predicate SeenOk(seen: seq<int>, now: nat) {
    && (forall k | 0 <= k < |seen| :: seen[k] <= now)
    && (forall k, m | 0 <= k < m < |seen| :: seen[k] <= seen[m])
  }

  ghost predicate Inv(s: State) {
    && s.reading == Sum(Reading, s.readers)
    && Sum(Writing, s.writers) == (if s.writing then 1 else 0)
    && (s.writing ==> s.reading == 0)
    && s.num == Sum(Stored, s.writers)
    && (forall j | 0 <= j < |s.writers| :: s.writers[j].pc.Store? ==> s.writers[j].loaded == s.num)
    && (forall i | 0 <= i < |s.readers| :: SeenOk(s.readers[i].seen, Sum(Completed, s.writers)))
  }

  lemma {:induction false} SumEqualWhenIdle(writers: seq<Writer>)
    requires Sum(Writing, writers) == 0
    ensures Sum(Stored, writers) == Sum(Completed, writers)
  {
    if writers == [] {
    } else {
      SumEqualWhenIdle(writers[1..]);
    }
  }

  /** No writer is inside its section, so nothing is stored that is not completed. */
  lemma NobodyWriting(s: State)
    requires Inv(s) && !s.writing
    ensures Sum(Stored, s.writers) == Sum(Completed, s.writers)
  {
    SumEqualWhenIdle(s.writers);
  }

  lemma ReaderKeepsInv(s: State, i: nat)
    requires Inv(s) && ReaderCan(s, i)
    ensures Inv(ReaderStep(s, i))
  {
    var t := ReaderStep(s, i);
    SumUpdate(Reading, s.readers, i, t.readers[i]);
    SumAtLeast(Reading, s.readers, i);
    assert SeenOk(s.readers[i].seen, Sum(Completed, s.writers));
    if s.readers[i].pc.Read? {
      NobodyWriting(s);
    }
  }

  /** At most one writer is inside. */
  lemma OneWriter(s: State, j: nat, k: nat)
    requires Inv(s) && j < |s.writers| && k < |s.writers| && j != k
    ensures Writing(s.writers[j]) + Writing(s.writers[k]) <= 1
  {
    var idle := Writer(WrLock, 0, 0);
    SumUpdate(Writing, s.writers, j, idle);
    SumAtLeast(Writing, s.writers[j := idle], k);
  }

  lemma WriterKeepsInv(s: State, j: nat)
    requires Inv(s) && WriterCan(s, j)
    ensures Inv(WriterStep(s, j))
  {
    var t := WriterStep(s, j);
    SumUpdate(Writing, s.writers, j, t.writers[j]);
    SumUpdate(Stored, s.writers, j, t.writers[j]);
    SumUpdate(Completed, s.writers, j, t.writers[j]);
    SumAtLeast(Writing, s.writers, j);
    forall k | 0 <= k < |t.writers|
      ensures t.writers[k].pc.Store? ==> t.writers[k].loaded == t.num
    {
      if k != j {
        OneWriter(s, j, k);
      }
    }
    forall i | 0 <= i < |t.readers|
      ensures SeenOk(t.readers[i].seen, Sum(Completed, t.writers))
    {
      assert SeenOk(s.readers[i].seen, Sum(Completed, s.writers));
    }
  }

  lemma StepKeepsInv(s: State, t: State)
    requires Inv(s) && (ReaderNext(s, t) || WriterNext(s, t))
    ensures Inv(t)
  {
    if ReaderNext(s, t) {
      var i :| ReaderCan(s, i) && t == ReaderStep(s, i);
      ReaderKeepsInv(s, i);
    } else {
      var j :| WriterCan(s, j) && t == WriterStep(s, j);
      WriterKeepsInv(s, j);
    }
  }

  lemma StartInv(readers: nat, writers: nat)
    ensures Inv(Start(readers, writers))
  {
    var start := Start(readers, writers);
    SumZero(Reading, start.readers);
    SumZero(Writing, start.writers);
    SumZero(Stored, start.writers);
  }

  lemma ReachableInv(readers: nat, writers: nat, s: State)
    requires Reachable(Program(readers, writers), s)
    ensures Inv(s)
  {
    StartInv(readers, writers);
    forall u, v | Inv(u) && Program(readers, writers).next(u, v)
      ensures Inv(v)
    {
      StepKeepsInv(u, v);
    }
    InductiveHoldsWhenReachable(Program(readers, writers), Inv, s);
  }

  // ---- Every reachable state ----

  /** A writer inside its section excludes every reader and every other writer. */
  lemma WriterExcludes(readers: nat, writers: nat, s: State, j: nat)
    requires Reachable(Program(readers, writers), s) && j < |s.writers| && !s.writers[j].pc.WrLock?
    ensures forall i | 0 <= i < |s.readers| :: s.readers[i].pc.RdLock?
    ensures forall k | 0 <= k < |s.writers| && k != j :: s.writers[k].pc.WrLock?
  {
    ReachableInv(readers, writers, s);
    SumAtLeast(Writing, s.writers, j);
    forall i | 0 <= i < |s.readers|
      ensures s.readers[i].pc.RdLock?
    {
      SumAtLeast(Reading, s.readers, i);
    }
    forall k | 0 <= k < |s.writers| && k != j
      ensures s.writers[k].pc.WrLock?
    {
      OneWriter(s, j, k);
    }
  }

  /** Outside the writer sections NUM is the number of completed ones, and so it is at every reader inside. What a
      reader has printed never decreases. */
  lemma NumCountsSections(readers: nat, writers: nat, s: State, i: nat)
    requires Reachable(Program(readers, writers), s) && i < |s.readers|
    ensures !s.writing ==> s.num == Sum(Completed, s.writers)
    ensures !s.readers[i].pc.RdLock? ==> s.num == Sum(Completed, s.writers)
    ensures SeenOk(s.readers[i].seen, Sum(Completed, s.writers))
  {
    ReachableInv(readers, writers, s);
    SumAtLeast(Reading, s.readers, i);
    if !s.writing {
      NobodyWriting(s);
    }
  }

  lemma StepKeepsCompleted(s: State, t: State)
    requires ReaderNext(s, t) || WriterNext(s, t)
    ensures |t.readers| == |s.readers| && |t.writers| == |s.writers|
    ensures Sum(Completed, s.writers) <= Sum(Completed, t.writers)
  {
    if WriterNext(s, t) {
      var j: nat :| WriterCan(s, j) && t == WriterStep(s, j);
      SumUpdate(Completed, s.writers, j, t.writers[j]);
    }
  }

  lemma {:induction false} CompletedGrows(readers: nat, writers: nat, run: seq<State>, m: nat, n: nat)
    requires IsRun(Program(readers, writers), run) && m <= n < |run|
    ensures |run[n].readers| == readers && |run[n].writers| == writers
    ensures Sum(Completed, run[m].writers) <= Sum(Completed, run[n].writers)
  {
    if n > 0 {
      CompletedGrows(readers, writers, run, if m < n then m else n - 1, n - 1);
      assert Program(readers, writers).next(run[n - 1], run[n - 1 + 1]);
      StepKeepsCompleted(run[n - 1], run[n]);
    }
  }

  /** Along every run: a reader prints exactly when it passes line 11, and what it prints is NUM as it is then: at least
      the sections that have been completed in any earlier state, and no more than have been completed now. */
  lemma ReadsAreFresh(readers: nat, writers: nat, run: seq<State>, m: nat, n: nat, i: nat)
    requires IsRun(Program(readers, writers), run) && m <= n && n + 1 < |run| && i < readers
    ensures |run[n].readers| == |run[n + 1].readers| == readers
    ensures var before, after := run[n].readers[i], run[n + 1].readers[i];
      if before.pc.Read? && !after.pc.Read? then
        && after.seen == before.seen + [run[n].num]
        && Sum(Completed, run[m].writers) <= run[n].num == Sum(Completed, run[n].writers)
      else after.seen == before.seen
  {
    CompletedGrows(readers, writers, run, m, n);
    CompletedGrows(readers, writers, run, n, n + 1);
    assert Program(readers, writers).next(run[n], run[n + 1]);
    OnRunReachable(Program(readers, writers), run, n);
    NumCountsSections(readers, writers, run[n], i);
    if ReaderNext(run[n], run[n + 1]) {
      var k: nat :| ReaderCan(run[n], k) && run[n + 1] == ReaderStep(run[n], k);
    }
  }

  // ---- Who can move, and what all the moves add up to ----

  lemma InsideIffHeld(s: State)
    requires Inv(s)
    ensures s.writing <==> exists k :: 0 <= k < |s.writers| && !s.writers[k].pc.WrLock?
    ensures s.reading > 0 <==> exists k :: 0 <= k < |s.readers| && !s.readers[k].pc.RdLock?
  {
    if s.writing {
      var k := SumPositive(Writing, s.writers);
      assert !s.writers[k].pc.WrLock?;
    } else if k: nat :| k < |s.writers| && !s.writers[k].pc.WrLock? {
      SumAtLeast(Writing, s.writers, k);
    }
    if s.reading > 0 {
      var k := SumPositive(Reading, s.readers);
      assert !s.readers[k].pc.RdLock?;
    } else if k: nat :| k < |s.readers| && !s.readers[k].pc.RdLock? {
      SumAtLeast(Reading, s.readers, k);
    }
  }

  /** A thread is kept from moving only by the lock, and by it only as a readers-writer lock should: a reader while a
      writer is inside, a writer while anybody is. Readers never keep readers out. */
  lemma BlockedIff(readers: nat, writers: nat, s: State, i: nat, j: nat)
    requires Reachable(Program(readers, writers), s) && i < |s.readers| && j < |s.writers|
    ensures !ReaderCan(s, i) <==>
      s.readers[i].pc.RdLock? && exists k :: 0 <= k < |s.writers| && !s.writers[k].pc.WrLock?
    ensures !WriterCan(s, j) <==>
      && s.writers[j].pc.WrLock?
      && (|| (exists k :: 0 <= k < |s.readers| && !s.readers[k].pc.RdLock?)
          || (exists k :: 0 <= k < |s.writers| && !s.writers[k].pc.WrLock?))
  {
    ReachableInv(readers, writers, s);
    SumAtLeast(Reading, s.readers, i);
    InsideIffHeld(s);
  }

  /** The steps a reader has taken: three for each value, of which the last releases the lock. */
  function ReaderSteps(r: Reader): nat {
    match r.pc
    case RdLock => 3 * |r.seen|
    case Read => 3 * |r.seen| + 1
    case RdUnlock => if r.seen == [] then 0 else 3 * |r.seen| - 1
  }

  /** The steps a writer has taken: four for each section. */
  function WriterSteps(w: Writer): nat {
    4 * w.completed + match w.pc case WrLock => 0 case Load => 1 case Store => 2 case WrUnlock => 3
  }

  predicate HasSeen(s: State) {
    forall i | 0 <= i < |s.readers| :: s.readers[i].pc.RdUnlock? ==> s.readers[i].seen != []
  }

  ghost function AllSteps(s: State): nat { Sum(ReaderSteps, s.readers) + Sum(WriterSteps, s.writers) }

  lemma ReaderStepIsWork(s: State, i: nat)
    requires ReaderCan(s, i) && HasSeen(s)
    ensures HasSeen(ReaderStep(s, i)) && AllSteps(ReaderStep(s, i)) == AllSteps(s) + 1
  {
    SumUpdate(ReaderSteps, s.readers, i, ReaderStep(s, i).readers[i]);
  }

  lemma WriterStepIsWork(s: State, j: nat)
    requires WriterCan(s, j) && HasSeen(s)
    ensures HasSeen(WriterStep(s, j)) && AllSteps(WriterStep(s, j)) == AllSteps(s) + 1
  {
    SumUpdate(WriterSteps, s.writers, j, WriterStep(s, j).writers[j]);
  }

  /** Every step is work: the number of steps of a run is made up of three for each value printed and four for each
      section completed, and of what is under way. */
  lemma {:induction false} EveryStepIsWork(readers: nat, writers: nat, run: seq<State>, n: nat)
    requires IsRun(Program(readers, writers), run) && n < |run|
    ensures HasSeen(run[n])
    ensures n == Sum(ReaderSteps, run[n].readers) + Sum(WriterSteps, run[n].writers)
  {
    if n == 0 {
      SumZero(ReaderSteps, run[0].readers);
      SumZero(WriterSteps, run[0].writers);
    } else {
      EveryStepIsWork(readers, writers, run, n - 1);
      assert Program(readers, writers).next(run[n - 1], run[n - 1 + 1]);
      if ReaderNext(run[n - 1], run[n]) {
        var i: nat :| ReaderCan(run[n - 1], i) && run[n] == ReaderStep(run[n - 1], i);
        ReaderStepIsWork(run[n - 1], i);
      } else {
        var j: nat :| WriterCan(run[n - 1], j) && run[n] == WriterStep(run[n - 1], j);
        WriterStepIsWork(run[n - 1], j);
      }
    }
  }

  /** All readers can be inside together. */
  lemma AllReadersInside(readers: nat, writers: nat) returns (s: State)
    ensures Reachable(Program(readers, writers), s) && |s.readers| == readers
    ensures forall i | 0 <= i < readers :: s.readers[i].pc.Read?
  {
    s := Start(readers, writers);
    InitReachable(Program(readers, writers), s);
    for n := 0 to readers
      invariant Reachable(Program(readers, writers), s) && |s.readers| == readers && !s.writing
      invariant forall i | 0 <= i < readers :: s.readers[i].pc == if i < n then Read else RdLock
    {
      assert ReaderNext(s, ReaderStep(s, n));
      StepReachable(Program(readers, writers), s, ReaderStep(s, n));
      s := ReaderStep(s, n);
    }
  }

  lemma ReaderMoves(readers: nat, writers: nat, s: State, i: nat)
    requires ReaderCan(s, i)
    ensures !Final(Program(readers, writers), s)
  {
    assert Program(readers, writers).next(s, ReaderStep(s, i));
  }

  lemma WriterMoves(readers: nat, writers: nat, s: State, j: nat)
    requires WriterCan(s, j)
    ensures !Final(Program(readers, writers), s)
  {
    assert Program(readers, writers).next(s, WriterStep(s, j));
  }

  /** There is no deadlock among the threads. */
  lemma NoDeadlock(readers: nat, writers: nat, s: State)
    requires Reachable(Program(readers, writers), s) && |s.readers| + |s.writers| > 0
    ensures !Final(Program(readers, writers), s)
  {
    ReachableInv(readers, writers, s);
    if s.writing {
      var j := SumPositive(Writing, s.writers);
      WriterMoves(readers, writers, s, j);
    } else if |s.readers| > 0 {
      SumAtLeast(Reading, s.readers, 0);
      ReaderMoves(readers, writers, s, 0);
    } else {
      SumAtLeast(Writing, s.writers, 0);
      WriterMoves(readers, writers, s, 0);
    }
  }

  // ---- The program in place ----

  datatype Turn = ReaderTurn(i: nat) | WriterTurn(j: nat)

  /** The lock, NUM and the threads, updated one statement at a time. */
  class Process {
    var readers: seq<Reader>
    var writers: seq<Writer>
    var reading: nat
    var writing: bool
    var num: int

    function Now(): State
      reads this
    {
      State(readers, writers, reading, writing, num)
    }

    constructor (readers: nat, writers: nat)
      ensures Now() == Start(readers, writers)
    {
      this.readers := seq(readers, _ => Reader(RdLock, []));
      this.writers := seq(writers, _ => Writer(WrLock, 0, 0));
      reading, writing, num := 0, false, 0;
    }

    method Read(i: nat)
      modifies this
      ensures Now() == if ReaderCan(old(Now()), i) then ReaderStep(old(Now()), i) else old(Now())
    {
      if !ReaderCan(Now(), i) {
        return;
      }
      var r := readers[i];
      match r.pc
      case RdLock => readers, reading := readers[i := r.(pc := ReaderPc.Read)], reading + 1;
      case Read => readers := readers[i := Reader(RdUnlock, r.seen + [num])];
      case RdUnlock => readers, reading := readers[i := r.(pc := RdLock)], reading - 1;
    }

    method Write(j: nat)
      modifies this
      ensures Now() == if WriterCan(old(Now()), j) then WriterStep(old(Now()), j) else old(Now())
    {
      if !WriterCan(Now(), j) {
        return;
      }
      var w := writers[j];
      match w.pc
      case WrLock => writers, writing := writers[j := w.(pc := Load)], true;
      case Load => writers := writers[j := w.(pc := Store, loaded := num)];
      case Store => writers, num := writers[j := w.(pc := WrUnlock)], w.loaded + 1;
      case WrUnlock => writers, writing := writers[j := w.(pc := WrLock, completed := w.completed + 1)], false;
    }

    /** Runs any schedule from the start: outside the writer sections NUM counts the completed ones, and what the
        readers have printed never decreases. */
    method Run(readerCount: nat, writerCount: nat, schedule: seq<Turn>)
      requires Now() == Start(readerCount, writerCount)
      modifies this
      ensures Reachable(Program(readerCount, writerCount), Now())
      ensures !writing ==> num == Sum(Completed, writers)
      ensures forall i | 0 <= i < |readers| :: SeenOk(readers[i].seen, Sum(Completed, writers))
    {
      ghost var program := Program(readerCount, writerCount);
      InitReachable(program, Now());
      for k := 0 to |schedule|
        invariant Reachable(program, Now())
      {
        ghost var before := Now();
        match schedule[k]
        case ReaderTurn(i) =>
          Read(i);
          if ReaderCan(before, i) {
            assert ReaderNext(before, Now());
            StepReachable(program, before, Now());
          }
        case WriterTurn(j) =>
          Write(j);
          if WriterCan(before, j) {
            assert WriterNext(before, Now());
            StepReachable(program, before, Now());
          }
      }
      ReachableInv(readerCount, writerCount, Now());
      if !writing {
        NobodyWriting(Now());
      }
    }
  }
}
