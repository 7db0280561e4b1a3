/** The serialised printers of 09_Day09/05_semaphore/semaphore.c: threads that print one character at a time
    under one semaphore. Any number of printers, any strings. */
module Printers {
  import opened Runs
  import opened Counting
  import opened Interleaving

  datatype Pc =
    | Test     // line 8
    | Wait     // line 10
    | Put      // lines 11-12
    | Advance  // line 13
    | Post     // line 15
    | Exited   // line 24 or 33

  /** A printer: its next statement and the rest of its string, which is what `str` points to. */
  datatype Printer = Printer(pc: Pc, str: string)

  datatype State = State(
    printers: seq<Printer>, sem: nat,
    out: string,
    who: seq<nat>  // who printed each character: written by the steps, never read by them
  )

  predicate Can(s: State, i: nat) {
    && i < |s.printers|
    && match s.printers[i].pc
       case Wait => s.sem > 0
       case Put => s.printers[i].str != ""
       case Advance => s.printers[i].str != ""
       case Exited => false
       case _ => true
  }

  function Step(s: State, i: nat): State
    requires Can(s, i)
  {
    var p := s.printers[i];
    match p.pc
    case Test => s.(printers := s.printers[i := p.(pc := if p.str != "" then Wait else Exited)])
    case Wait => s.(printers := s.printers[i := p.(pc := Put)], sem := s.sem - 1)
    case Put => s.(printers := s.printers[i := p.(pc := Advance)], out := s.out + [p.str[0]], who := s.who + [i])
    case Advance => s.(printers := s.printers[i := Printer(Post, p.str[1..])])
    case Post => s.(printers := s.printers[i := p.(pc := Test)], sem := s.sem + 1)
  }

  function Start(texts: seq<string>): State {
    State(seq(|texts|, i requires 0 <= i < |texts| => Printer(Test, texts[i])), 1, "", [])
  }

  ghost function Program(texts: seq<string>): System<State> {
    System((s: State) => s == Start(texts), (s: State, t: State) => exists i :: Can(s, i) && t == Step(s, i))
  }

  // ---- The invariant ----

  /** 1 for a printer between sem_wait and sem_post. */
  function InSection(p: Printer): nat {
    if p.pc.Put? || p.pc.Advance? || p.pc.Post? then 1 else 0
  }

  /** What a printer still has to print. */
  function Unprinted(p: Printer): string {
    if p.pc.Advance? && p.str != "" then p.str[1..] else p.str
  }

  predicate PrinterOk(texts: seq<string>, s: State, i: nat)
    requires i < |s.printers| == |texts| && |s.who| == |s.out|
  {
    var p := s.printers[i];
    && (p.pc.Wait? || p.pc.Put? || p.pc.Advance? ==> p.str != "")
    && (p.pc.Exited? ==> p.str == "")
    && Project(s.out, s.who, i) + Unprinted(p) == texts[i]
  }

  ghost predicate Inv(texts: seq<string>, s: State) {
    && |s.printers| == |texts| && |s.who| == |s.out|
    && s.sem + Sum(InSection, s.printers) == 1
    && (forall k | 0 <= k < |s.who| :: s.who[k] < |texts|)
    && (forall i: nat | i < |texts| :: PrinterOk(texts, s, i))
  }

  lemma StepKeepsInv(texts: seq<string>, s: State, i: nat)
    requires Inv(texts, s) && Can(s, i)
    ensures Inv(texts, Step(s, i))
  {
    var t := Step(s, i);
    assert PrinterOk(texts, s, i);
    SumUpdate(InSection, s.printers, i, t.printers[i]);
    forall k: nat | k < |texts|
      ensures PrinterOk(texts, t, k)
    {
      assert PrinterOk(texts, s, k);
      if s.printers[i].pc.Put? {
        ProjectAppend(s.out, s.who, s.printers[i].str[0], i, k);
      }
    }
  }

  lemma StartInv(texts: seq<string>)
    ensures Inv(texts, Start(texts))
  {
    SumZero(InSection, Start(texts).printers);
    assert forall i: nat | i < |texts| :: PrinterOk(texts, Start(texts), i);
  }

  lemma ReachableInv(texts: seq<string>, s: State)
    requires Reachable(Program(texts), s)
    ensures Inv(texts, s)
  {
    var inv := (t: State) => Inv(texts, t);
    StartInv(texts);
    forall u, v | inv(u) && Program(texts).next(u, v)
      ensures inv(v)
    {
      var i :| Can(u, i) && v == Step(u, i);
      StepKeepsInv(texts, u, i);
    }
    InductiveHoldsWhenReachable(Program(texts), inv, s);
  }

  /** The semaphore value plus the printers inside the section is 1, so at most one printer is inside. */
  lemma MutualExclusion(texts: seq<string>, s: State, i: nat, k: nat)
    requires Reachable(Program(texts), s)
    ensures |s.printers| == |texts| && s.sem + Sum(InSection, s.printers) == 1
    ensures i < k < |texts| ==> InSection(s.printers[i]) + InSection(s.printers[k]) <= 1
  {
    ReachableInv(texts, s);
    if i < k < |texts| {
      var outside := Printer(Test, "");
      SumUpdate(InSection, s.printers, i, outside);
      SumAtLeast(InSection, s.printers[i := outside], k);
    }
  }

  // ---- Every schedule ends, and prints everything ----

  /** The steps a printer still has to take: five for each character and one for the last test. */
  function StepsLeft(p: Printer): nat {
    var left := 5 * |p.str|;
    match p.pc
    case Test => left + 1
    case Wait => left
    case Put => if left > 1 then left - 1 else 0
    case Advance => if left > 2 then left - 2 else 0
    case Post => left + 2
    case Exited => 0
  }

  lemma StepCounts(texts: seq<string>, s: State, i: nat)
    requires Inv(texts, s) && Can(s, i)
    ensures Sum(StepsLeft, Step(s, i).printers) == Sum(StepsLeft, s.printers) - 1
  {
    assert PrinterOk(texts, s, i);
    SumUpdate(StepsLeft, s.printers, i, Step(s, i).printers[i]);
  }

  lemma {:induction false} RunCounts(texts: seq<string>, run: seq<State>, n: nat)
    requires IsRun(Program(texts), run) && n < |run|
    ensures n + Sum(StepsLeft, run[n].printers) == Sum(StepsLeft, Start(texts).printers)
  {
    if n == 0 {
    } else {
      RunCounts(texts, run, n - 1);
      assert Program(texts).next(run[n - 1], run[n - 1 + 1]);
      var i :| Can(run[n - 1], i) && run[n] == Step(run[n - 1], i);
      OnRunReachable(Program(texts), run, n - 1);
      ReachableInv(texts, run[n - 1]);
      StepCounts(texts, run[n - 1], i);
    }
  }

  lemma Moves(texts: seq<string>, s: State, i: nat)
    requires Can(s, i)
    ensures !Final(Program(texts), s)
  {
    assert Program(texts).next(s, Step(s, i));
  }

  /** There is no deadlock: a state that no step leaves is one in which every printer has exited. */
  lemma NoDeadlock(texts: seq<string>, s: State, i: nat)
    requires Inv(texts, s) && Final(Program(texts), s) && i < |texts|
    ensures s.printers[i].pc.Exited?
  {
    if !s.printers[i].pc.Exited? {
      assert PrinterOk(texts, s, i);
      if Can(s, i) {
        Moves(texts, s, i);
      } else {
        var k := SumPositive(InSection, s.printers);
        assert PrinterOk(texts, s, k);
        Moves(texts, s, k);
      }
    }
  }

  /** The length of the strings decides the length of every run: five steps for each character, one more
      for each printer. */
  function Work(texts: seq<string>): nat {
    if texts == [] then 0 else 5 * |texts[0]| + 1 + Work(texts[1..])
  }

  lemma {:induction false} StartWork(texts: seq<string>)
    ensures Sum(StepsLeft, Start(texts).printers) == Work(texts)
  {
    if texts == [] {
    } else {
      StartWork(texts[1..]);
      assert Start(texts).printers[1..] == Start(texts[1..]).printers;
    }
  }

  /** Every schedule terminates: no run takes more than Work steps, and a run that cannot go on has taken exactly
      Work steps and has printed an interleaving of all the strings, each complete and in order. */
  lemma EveryScheduleInterleaves(texts: seq<string>, run: seq<State>)
    requires IsRun(Program(texts), run)
    ensures |run| - 1 <= Work(texts)
    ensures Final(Program(texts), run[|run| - 1]) ==>
      |run| - 1 == Work(texts) && Interleaves(run[|run| - 1].out, texts)
  {
    var last := run[|run| - 1];
    RunCounts(texts, run, |run| - 1);
    StartWork(texts);
    OnRunReachable(Program(texts), run, |run| - 1);
    ReachableInv(texts, last);
    if Final(Program(texts), last) {
      forall i | 0 <= i < |texts|
        ensures last.printers[i].pc.Exited? && Project(last.out, last.who, i) == texts[i]
      {
        NoDeadlock(texts, last, i);
        assert PrinterOk(texts, last, i);
        assert Project(last.out, last.who, i) + "" == Project(last.out, last.who, i);
      }
      SumZero(StepsLeft, last.printers);
    }
  }

  // ---- The other way round: every interleaving is printed under some schedule ----

  /** A printer is kept from moving only by one that is inside the section. */
  lemma BlockedIff(texts: seq<string>, s: State, i: nat)
    requires Reachable(Program(texts), s) && i < |texts|
    ensures |s.printers| == |texts|
    ensures !Can(s, i) <==>
      || s.printers[i].pc.Exited?
      || (s.printers[i].pc.Wait? && exists k :: 0 <= k < |texts| && InSection(s.printers[k]) == 1)
  {
    ReachableInv(texts, s);
    assert PrinterOk(texts, s, i);
    if s.sem == 0 {
      var k := SumPositive(InSection, s.printers);
      assert InSection(s.printers[k]) == 1;
    } else if k: nat :| k < |texts| && InSection(s.printers[k]) == 1 {
      SumAtLeast(InSection, s.printers, k);
    }
  }

  lemma {:induction false} ProjectPrefix(merged: string, tags: seq<nat>, k: nat, i: nat)
    requires |tags| == |merged| && k <= |merged|
    ensures Project(merged[..k], tags[..k], i) <= Project(merged, tags, i)
    decreases |merged| - k
  {
    if k < |merged| {
      ProjectPrefix(merged, tags, k + 1, i);
      assert merged[..k + 1][..k] == merged[..k] && tags[..k + 1][..k] == tags[..k];
    } else {
      assert merged[..k] == merged && tags[..k] == tags;
    }
  }

  /** All printers stand at line 8, with `merged` printed by the printers `tags`. */
  ghost predicate Between(texts: seq<string>, s: State, merged: string, tags: seq<nat>) {
    && Reachable(Program(texts), s) && |s.printers| == |texts| && s.sem == 1 && s.out == merged && s.who == tags
    && forall i | 0 <= i < |texts| :: s.printers[i].pc.Test?
  }

  lemma StepOn(texts: seq<string>, s: State, i: nat)
    requires Reachable(Program(texts), s) && Can(s, i)
    ensures Reachable(Program(texts), Step(s, i))
  {
    assert Program(texts).next(s, Step(s, i));
    StepReachable(Program(texts), s, Step(s, i));
  }

  lemma PrintOne(texts: seq<string>, s: State, merged: string, tags: seq<nat>, i: nat, c: char) returns (t: State)
    requires Between(texts, s, merged, tags) && i < |texts| && s.printers[i].str != "" && s.printers[i].str[0] == c
    ensures Between(texts, t, merged + [c], tags + [i])
  {
    t := s;
    for n := 0 to 5
      invariant Reachable(Program(texts), t) && |t.printers| == |texts|
      invariant t.printers[i].pc == [Test, Wait, Put, Advance, Post, Test][n]
      invariant n < 4 ==> t.printers[i].str == s.printers[i].str
      invariant t.sem == if n < 2 || n == 5 then 1 else 0
      invariant forall k | 0 <= k < |texts| && k != i :: t.printers[k] == s.printers[k]
      invariant if n < 3 then t.out == merged && t.who == tags else t.out == merged + [c] && t.who == tags + [i]
    {
      StepOn(texts, t, i);
      t := Step(t, i);
    }
  }

  lemma ExitAll(texts: seq<string>, s: State, merged: string, tags: seq<nat>) returns (t: State)
    requires Between(texts, s, merged, tags) && forall i | 0 <= i < |texts| :: s.printers[i].str == ""
    ensures Reachable(Program(texts), t) && Final(Program(texts), t) && t.out == merged
  {
    t := s;
    for n := 0 to |texts|
      invariant Reachable(Program(texts), t) && |t.printers| == |texts| && t.out == merged
      invariant forall i | 0 <= i < |texts| :: t.printers[i] == Printer(if i < n then Exited else Test, "")
    {
      StepOn(texts, t, n);
      t := Step(t, n);
    }
  }

  lemma PrintAlong(texts: seq<string>, merged: string, tags: seq<nat>) returns (s: State)
    requires |tags| == |merged| && (forall k | 0 <= k < |tags| :: tags[k] < |texts|)
    requires forall i | 0 <= i < |texts| :: Project(merged, tags, i) == texts[i]
    ensures Reachable(Program(texts), s) && Final(Program(texts), s) && s.out == merged
  {
    s := Start(texts);
    InitReachable(Program(texts), s);
    for n := 0 to |merged|
      invariant Between(texts, s, merged[..n], tags[..n])
    {
      var i := tags[n];
      ReachableInv(texts, s);
      assert PrinterOk(texts, s, i);
      ProjectPrefix(merged, tags, n + 1, i);
      assert merged[..n + 1][..n] == merged[..n] && tags[..n + 1][..n] == tags[..n];
      var front := Project(merged[..n], tags[..n], i);
      assert Project(merged[..n + 1], tags[..n + 1], i) == front + [merged[n]];
      assert texts[i] == front + s.printers[i].str && front + [merged[n]] <= texts[i];
      assert texts[i][|front|] == merged[n];
      s := PrintOne(texts, s, merged[..n], tags[..n], i, merged[n]);
      assert merged[..n] + [merged[n]] == merged[..n + 1] && tags[..n] + [i] == tags[..n + 1];
    }
    assert merged[..|merged|] == merged && tags[..|merged|] == tags;
    ReachableInv(texts, s);
    forall i | 0 <= i < |texts|
      ensures s.printers[i].str == ""
    {
      assert PrinterOk(texts, s, i);
      assert |Project(merged, tags, i) + s.printers[i].str| == |texts[i]|;
    }
    s := ExitAll(texts, s, merged, tags);
  }

  /** What the program can print when it ends is exactly the interleavings of its strings. */
  lemma OutputsAreTheInterleavings(texts: seq<string>, merged: string)
    ensures (exists s :: Reachable(Program(texts), s) && Final(Program(texts), s) && s.out == merged)
            <==> Interleaves(merged, texts)
  {
    if Interleaves(merged, texts) {
      var tags: seq<nat> :|
        && |tags| == |merged|
        && (forall k | 0 <= k < |tags| :: tags[k] < |texts|)
        && (forall i | 0 <= i < |texts| :: Project(merged, tags, i) == texts[i]);
      var s := PrintAlong(texts, merged, tags);
    }
    if s :| Reachable(Program(texts), s) && Final(Program(texts), s) && s.out == merged {
      var run :| IsRun(Program(texts), run) && run[|run| - 1] == s;
      EveryScheduleInterleaves(texts, run);
    }
  }

  // ---- The program in place ----

  /** The semaphore, the printers and the terminal, updated one statement at a time. */
  class Process {
    var printers: seq<Printer>
    var sem: nat
    var out: string
    ghost var who: seq<nat>

    ghost function Now(): State
      reads this
    {
      State(printers, sem, out, who)
    }

    constructor (texts: seq<string>)
      ensures Now() == Start(texts)
    {
      printers := seq(|texts|, i requires 0 <= i < |texts| => Printer(Test, texts[i]));
      sem, out, who := 1, "", [];
    }

    /** Runs the next statement of printer `i`, unless it is blocked or has exited. */
    method Turn(i: nat)
      modifies this
      ensures Now() == if Can(old(Now()), i) then Step(old(Now()), i) else old(Now())
    {
      if i >= |printers| {
        return;
      }
      var p := printers[i];
      match p.pc
      case Test => printers := printers[i := p.(pc := if p.str != "" then Wait else Exited)];
      case Wait =>
        if sem > 0 {
          sem := sem - 1;
          printers := printers[i := p.(pc := Put)];
        }
      case Put =>
        if p.str != "" {
          out, who := out + [p.str[0]], who + [i];
          printers := printers[i := p.(pc := Advance)];
        }
      case Advance =>
        if p.str != "" {
          printers := printers[i := Printer(Post, p.str[1..])];
        }
      case Post =>
        sem := sem + 1;
        printers := printers[i := p.(pc := Test)];
      case Exited =>
    }

    /** Runs any schedule that reaches the joins of lines 63-64: the terminal then shows an interleaving of
        all the strings. */
    method Run(texts: seq<string>, schedule: seq<nat>) returns (joined: bool)
      requires Now() == Start(texts)
      modifies this
      ensures joined <==> forall i | 0 <= i < |printers| :: printers[i].pc.Exited?
      ensures joined ==> Interleaves(out, texts)
    {
      StartInv(texts);
      for k := 0 to |schedule|
        invariant Inv(texts, Now())
      {
        ghost var before := Now();
        Turn(schedule[k]);
        if Can(before, schedule[k]) {
          StepKeepsInv(texts, before, schedule[k]);
        }
      }
      joined := forall i | 0 <= i < |printers| :: printers[i].pc.Exited?;
      if joined {
        forall i | 0 <= i < |texts|
          ensures Project(out, who, i) == texts[i]
        {
          assert PrinterOk(texts, Now(), i);
          assert Project(out, who, i) + "" == Project(out, who, i);
        }
      }
    }
  }
}
