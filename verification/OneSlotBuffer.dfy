/** The producer/customer program of 09_Day09/06_semaphore_sync_lock exactly as it is written:
    one slot, one node allocated before the producer's loop and linked again every round, and a
    customer that reads `tmp = head` once, before its loop and outside the lock, and frees `tmp` every round.
    Each shared read and each shared write is a step of its own. */
module OneSlotBuffer {
  import opened Runs
  import opened HeapStack
  import opened StackLog

  /** The next statement of the producer. */
  datatype ProducerPc =
    | Malloc     // line 20
    | Wait1      // line 24
    | Lock       // line 31
    | StoreData  // line 38
    | LoadHead   // line 39, the read of head
    | StoreNext  // line 39, the write of new_node->next
    | StoreHead  // line 40
    | Print      // line 42
    | Unlock     // line 44
    | Post2      // line 53
  {
    /** Between sem_wait(&sem1) and sem_post(&sem2). */
    predicate HasToken() { !Malloc? && !Wait1? }

    predicate Locked() { HasToken() && !Lock? && !Post2? }
  }

  /** The next statement of the customer. */
  datatype CustomerPc =
    | LoadTmp     // line 68
    | Wait2       // line 71
    | Acquire     // line 78
    | ReadHead    // line 85, the read of head
    | PrintData   // line 85, the read of head->data
    | ReloadHead  // line 87, the read of head
    | LoadNext    // line 87, the read of head->next
    | PopHead     // line 87, the write of head
    | FreeTmp     // line 88
    | Release     // line 90
    | Post1       // line 98
  {
    /** Between sem_wait(&sem2) and sem_post(&sem1). */
    predicate HasToken() { !LoadTmp? && !Wait2? }

    predicate Locked() { HasToken() && !Acquire? && !Post1? }

    /** Has taken the token but not yet unlinked the node. */
    predicate BeforePop() { Acquire? || ReadHead? || PrintData? || ReloadHead? || LoadNext? || PopHead? }
  }

  datatype Owner = Free | ByProducer | ByCustomer

  datatype State = State(
    p: ProducerPc, newNode: Ptr, pReg: Ptr,
    c: CustomerPc, tmp: Ptr, cReg: Ptr,
    head: Ptr, sem1: nat, sem2: nat, mutex: Owner, heap: Heap,
    log: seq<Event>,  // the printed lines
    fault: bool       // freed memory or NULL was accessed, or freed memory was freed again
  )

  /** What the program does not decide: the address and contents malloc returns, the random number. */
  datatype Choice = Choice(addr: nat, garbage: Node, value: int)

  predicate ProducerCan(s: State, choice: Choice) {
    && !s.fault
    && match s.p
       case Malloc => choice.addr !in s.heap
       case Wait1 => s.sem1 > 0
       case Lock => s.mutex == Free
       case StoreData => 1 <= choice.value <= 100
       case _ => true
  }

  function ProducerStep(s: State, choice: Choice): State
    requires ProducerCan(s, choice)
  {
    match s.p
    case Malloc => s.(newNode := At(choice.addr), heap := s.heap[choice.addr := choice.garbage], p := Wait1)
    case Wait1 => s.(sem1 := s.sem1 - 1, p := Lock)
    case Lock => s.(mutex := ByProducer, p := StoreData)
    case StoreData =>
      if Live(s.heap, s.newNode) then
        s.(heap := s.heap[s.newNode.addr := s.heap[s.newNode.addr].(data := choice.value)], p := LoadHead)
      else s.(fault := true)
    case LoadHead => s.(pReg := s.head, p := StoreNext)
    case StoreNext =>
      if Live(s.heap, s.newNode) then
        s.(heap := s.heap[s.newNode.addr := s.heap[s.newNode.addr].(next := s.pReg)], p := StoreHead)
      else s.(fault := true)
    case StoreHead => s.(head := s.newNode, p := Print)
    case Print =>
      if Live(s.heap, s.newNode) then
        s.(log := s.log + [Produced(s.heap[s.newNode.addr].data)], p := Unlock)
      else s.(fault := true)
    case Unlock => s.(mutex := Free, p := Post2)
    case Post2 => s.(sem2 := s.sem2 + 1, p := Wait1)
  }

  predicate CustomerCan(s: State) {
    && !s.fault
    && match s.c
       case Wait2 => s.sem2 > 0
       case Acquire => s.mutex == Free
       case _ => true
  }

  function CustomerStep(s: State): State
    requires CustomerCan(s)
  {
    match s.c
    case LoadTmp => s.(tmp := s.head, c := Wait2)
    case Wait2 => s.(sem2 := s.sem2 - 1, c := Acquire)
    case Acquire => s.(mutex := ByCustomer, c := ReadHead)
    case ReadHead => s.(cReg := s.head, c := PrintData)
    case PrintData =>
      if Live(s.heap, s.cReg) then s.(log := s.log + [Consumed(s.heap[s.cReg.addr].data)], c := ReloadHead)
      else s.(fault := true)
    case ReloadHead => s.(cReg := s.head, c := LoadNext)
    case LoadNext =>
      if Live(s.heap, s.cReg) then s.(cReg := s.heap[s.cReg.addr].next, c := PopHead)
      else s.(fault := true)
    case PopHead => s.(head := s.cReg, c := FreeTmp)
    case FreeTmp =>
      if s.tmp == Null then s.(c := Release)
      else if Live(s.heap, s.tmp) then s.(heap := s.heap - {s.tmp.addr}, c := Release)
      else s.(fault := true)
    case Release => s.(mutex := Free, c := Post1)
    case Post1 => s.(sem1 := s.sem1 + 1, c := Wait2)
  }

  /** main with `slots` as the initial value of sem1. */
  function StartWith(slots: nat): State {
    State(Malloc, Null, Null, LoadTmp, Null, Null, Null, slots, 0, Free, map[], [], false)
  }

  /** Line 116 passes 1. */
  const START: State := StartWith(1)

  ghost predicate ProducerNext(s: State, t: State) {
    exists choice :: ProducerCan(s, choice) && t == ProducerStep(s, choice)
  }

  ghost predicate CustomerNext(s: State, t: State) {
    CustomerCan(s) && t == CustomerStep(s)
  }

  ghost function ProgramWith(slots: nat): System<State> {
    System(s => s == StartWith(slots), (s, t) => ProducerNext(s, t) || CustomerNext(s, t))
  }

  ghost function Program(): System<State> { ProgramWith(1) }

  // ---- What every reachable state satisfies ----

  function Holds(b: bool): nat { if b then 1 else 0 }

  /** There is one slot, and so one token. */
  predicate OneToken(s: State) {
    s.sem1 + s.sem2 + Holds(s.p.HasToken()) + Holds(s.c.HasToken()) == 1
  }

  predicate MutexHeld(s: State) {
    && (s.mutex == ByProducer <==> s.p.Locked())
    && (s.mutex == ByCustomer <==> s.c.Locked())
  }

  /** The node is linked: from its insertion at line 40 to its removal at line 87. */
  predicate Full(s: State) {
    s.sem2 == 1 || s.p.Print? || s.p.Unlock? || s.p.Post2? || s.c.BeforePop()
  }

  /** A produced number has been printed and not consumed yet. */
  predicate Pending(s: State) {
    s.sem2 == 1 || s.p.Unlock? || s.p.Post2? || s.c.Acquire? || s.c.ReadHead? || s.c.PrintData?
  }

  /** Line 88 has freed the only node (possible only when line 68 read a non-NULL head). */
  predicate Freed(s: State) {
    && s.tmp != Null
    && (s.c.Release? || s.c.Post1? || (s.c.Wait2? && (s.sem1 == 1 || s.p.Lock? || s.p.StoreData?)))
  }

  predicate HeapShape(s: State) {
    && (s.tmp == Null || (!s.c.LoadTmp? && s.tmp == s.newNode))
    && (s.p.Malloc? <==> s.newNode == Null)
    && (s.p.Malloc? ==> s.sem1 == 1)
    && s.heap.Keys == (if s.p.Malloc? || Freed(s) then {} else {s.newNode.addr})
    && (Full(s) ==> !s.p.Malloc? && !Freed(s))
    && s.head == (if Full(s) then s.newNode else Null)
    && (s.p.LoadHead? || s.p.StoreNext? || s.p.StoreHead? ==> s.tmp == Null)
    && (Full(s) || s.p.StoreHead? ==> s.newNode.addr in s.heap && s.heap[s.newNode.addr].next == Null)
    && (s.p.StoreNext? ==> s.pReg == Null)
    && (s.c.PrintData? || s.c.LoadNext? ==> s.cReg == s.newNode)
    && (s.c.PopHead? ==> s.cReg == Null)
  }

  /** The log alternates: each produced number is consumed before the next one is produced. */
  predicate Alternates(log: seq<Event>) {
    log == [] ||
    (var k := |log| - 1;
     && Alternates(log[..k])
     && if k % 2 == 0 then log[k].Produced? else log[k] == Consumed(log[k - 1].value))
  }

  predicate LogShape(s: State) {
    && (|s.log| % 2 == 1 <==> Pending(s))
    && (Pending(s) ==> s.newNode != Null && s.newNode.addr in s.heap
                       && s.log[|s.log| - 1] == Produced(s.heap[s.newNode.addr].data))
  }

  predicate Inv(s: State) {
    && Alternates(s.log)
    && (s.fault ==> s.tmp != Null && s.head == Null)
    && (!s.fault ==> OneToken(s) && MutexHeld(s) && HeapShape(s) && LogShape(s))
  }

  lemma ProducerKeepsToken(s: State, choice: Choice)
    requires Inv(s) && ProducerCan(s, choice)
    ensures var t := ProducerStep(s, choice); !t.fault ==> OneToken(t) && MutexHeld(t)
  {
  }

  lemma ProducerKeepsHeap(s: State, choice: Choice)
    requires Inv(s) && ProducerCan(s, choice)
    ensures var t := ProducerStep(s, choice); if t.fault then t.tmp != Null && t.head == Null else HeapShape(t)
  {
  }

  lemma AlternatesAppend(log: seq<Event>, e: Event)
    requires Alternates(log)
    requires if |log| % 2 == 0 then e.Produced? else e == Consumed(log[|log| - 1].value)
    ensures Alternates(log + [e])
  {
    assert (log + [e])[..|log|] == log;
  }

  lemma ProducerKeepsLog(s: State, choice: Choice)
    requires Inv(s) && ProducerCan(s, choice)
    ensures var t := ProducerStep(s, choice); Alternates(t.log) && (!t.fault ==> LogShape(t))
  {
    if s.p.Print? {
      AlternatesAppend(s.log, Produced(s.heap[s.newNode.addr].data));
    }
  }

  lemma ProducerKeepsInv(s: State, choice: Choice)
    requires Inv(s) && ProducerCan(s, choice)
    ensures Inv(ProducerStep(s, choice))
  {
    ProducerKeepsToken(s, choice);
    ProducerKeepsHeap(s, choice);
    ProducerKeepsLog(s, choice);
  }

  lemma CustomerKeepsToken(s: State)
    requires Inv(s) && CustomerCan(s)
    ensures var t := CustomerStep(s); !t.fault ==> OneToken(t) && MutexHeld(t)
  {
  }

  lemma CustomerKeepsHeap(s: State)
    requires Inv(s) && CustomerCan(s)
    ensures var t := CustomerStep(s); if t.fault then t.tmp != Null && t.head == Null else HeapShape(t)
  {
  }

  lemma CustomerKeepsLog(s: State)
    requires Inv(s) && CustomerCan(s)
    ensures var t := CustomerStep(s); Alternates(t.log) && (!t.fault ==> LogShape(t))
  {
    if s.c.PrintData? {
      AlternatesAppend(s.log, Consumed(s.heap[s.newNode.addr].data));
    }
  }

  lemma CustomerKeepsInv(s: State)
    requires Inv(s) && CustomerCan(s)
    ensures Inv(CustomerStep(s))
  {
    CustomerKeepsToken(s);
    CustomerKeepsHeap(s);
    CustomerKeepsLog(s);
  }

  lemma StepKeepsInv(s: State, t: State)
    requires Inv(s) && Program().next(s, t)
    ensures Inv(t)
  {
    if ProducerNext(s, t) {
      var choice :| ProducerCan(s, choice) && t == ProducerStep(s, choice);
      ProducerKeepsInv(s, choice);
    } else {
      CustomerKeepsInv(s);
    }
  }

  lemma InvInductive()
    ensures Inductive(Program(), Inv)
  {
    forall s, t | Inv(s) && Program().next(s, t)
      ensures Inv(t)
    {
      StepKeepsInv(s, t);
    }
  }

  lemma ReachableInv(s: State)
    requires Reachable(Program(), s)
    ensures Inv(s)
  {
    InvInductive();
    InductiveHoldsWhenReachable(Program(), Inv, s);
  }

  // ---- The list, the token and the log, in every reachable state ----

  /** The token fixes the list: it holds no node or the one node, and how many is read off sem2 and the two
      program counters. Line 39 therefore always links to NULL, and lines 85-87 always find a node. */
  lemma TokenFixesList(s: State) returns (chain: seq<nat>)
    requires Reachable(Program(), s) && !s.fault
    ensures OneToken(s)
    ensures Linked(s.heap, s.head, chain)
    ensures |chain| == s.sem2 + Holds(s.p.Print? || s.p.Unlock? || s.p.Post2?) + Holds(s.c.BeforePop()) <= 1
    ensures s.p.LoadHead? || s.p.StoreNext? || s.p.StoreHead? ==> s.head == Null
    ensures s.p.StoreNext? ==> s.pReg == Null
    ensures s.c.BeforePop() ==> Live(s.heap, s.head)
  {
    ReachableInv(s);
    chain := if Full(s) then [s.newNode.addr] else [];
  }

  lemma {:induction false} AlternatesIsFifo(log: seq<Event>)
    requires Alternates(log)
    ensures |ConsumedValues(log)| == |log| / 2
    ensures ProducedValues(log)
         == if |log| % 2 == 0 then ConsumedValues(log) else ConsumedValues(log) + [log[|log| - 1].value]
  {
    if log == [] {
    } else {
      var k := |log| - 1;
      AlternatesIsFifo(log[..k]);
      if k % 2 == 1 {
        assert log[..k][k - 1] == log[k - 1];
      } else {
        assert ConsumedValues(log) == ConsumedValues(log[..k]);
      }
    }
  }

  /** On every run the numbers consumed are the numbers produced, in the same order, at most one behind. */
  lemma ConsumedInOrder(run: seq<State>, i: nat)
    requires IsRun(Program(), run) && i < |run|
    ensures ConsumedValues(run[i].log) <= ProducedValues(run[i].log)
    ensures |ProducedValues(run[i].log)| <= |ConsumedValues(run[i].log)| + 1
  {
    OnRunReachable(Program(), run, i);
    ReachableInv(run[i]);
    AlternatesIsFifo(run[i].log);
  }

  // ---- Progress ----

  ghost predicate ProducerEnabled(s: State) {
    exists choice :: ProducerCan(s, choice)
  }

  lemma ProducerEnabledWhen(s: State)
    requires !s.fault
    ensures ProducerEnabled(s) <==> (s.p.Wait1? ==> s.sem1 > 0) && (s.p.Lock? ==> s.mutex == Free)
  {
    var addr := FreshAddress(s.heap);
    var choice := Choice(addr, Node(0, Null), 1);
    if (s.p.Wait1? ==> s.sem1 > 0) && (s.p.Lock? ==> s.mutex == Free) {
      assert ProducerCan(s, choice);
    }
  }

  /** Once the customer has passed line 68 there is no race at all: exactly one thread can move. */
  lemma ExactlyOneThreadMoves(s: State)
    requires Reachable(Program(), s) && !s.fault && !s.c.LoadTmp?
    ensures ProducerEnabled(s) <==> !CustomerCan(s)
  {
    ReachableInv(s);
    ProducerEnabledWhen(s);
  }

  /** No deadlock, and the mutex is never contended. */
  lemma NoDeadlock(s: State)
    requires Reachable(Program(), s) && !s.fault
    ensures !Final(Program(), s)
    ensures s.p.Lock? || s.c.Acquire? ==> s.mutex == Free
  {
    ReachableInv(s);
    ProducerEnabledWhen(s);
    if CustomerCan(s) {
      assert Program().next(s, CustomerStep(s));
    } else {
      var choice :| ProducerCan(s, choice);
      assert Program().next(s, ProducerStep(s, choice));
    }
  }

  /** The place in the round that the token has reached: 9 steps of the producer, then 10 of the customer.
      From the customer's print on, the round is counted as over, and the place is counted back from its end. */
  function Place(s: State): int {
    match s.p
    case Lock => 1
    case StoreData => 2
    case LoadHead => 3
    case StoreNext => 4
    case StoreHead => 5
    case Print => 6
    case Unlock => 7
    case Post2 => 8
    case _ =>
      match s.c
      case Acquire => 10
      case ReadHead => 11
      case PrintData => 12
      case ReloadHead => -6
      case LoadNext => -5
      case PopHead => -4
      case FreeTmp => -3
      case Release => -2
      case Post1 => -1
      case _ => if s.sem2 == 1 then 9 else 0
  }

  /** The steps that lead to a state: lines 20 and 68, 19 for each number consumed, and those of the current round. */
  function StepsTaken(s: State): int {
    Holds(!s.p.Malloc?) + Holds(!s.c.LoadTmp?) + 19 * (|s.log| / 2) + Place(s)
  }

  lemma ProducerStepIsCounted(s: State, choice: Choice)
    requires Inv(s) && ProducerCan(s, choice)
    ensures var t := ProducerStep(s, choice); t.fault || StepsTaken(t) == StepsTaken(s) + 1
  {
  }

  lemma CustomerStepIsCounted(s: State)
    requires Inv(s) && CustomerCan(s)
    ensures var t := CustomerStep(s); t.fault || StepsTaken(t) == StepsTaken(s) + 1
  {
  }

  lemma StepIsCounted(s: State, t: State)
    requires Reachable(Program(), s) && Program().next(s, t) && !t.fault
    ensures StepsTaken(t) == StepsTaken(s) + 1 && !s.fault
  {
    ReachableInv(s);
    if ProducerNext(s, t) {
      var choice :| ProducerCan(s, choice) && t == ProducerStep(s, choice);
      ProducerStepIsCounted(s, choice);
    } else {
      CustomerStepIsCounted(s);
    }
  }

  lemma {:induction false} RunIsCounted(run: seq<State>, n: nat)
    requires IsRun(Program(), run) && n < |run| && !run[n].fault
    ensures StepsTaken(run[n]) == n
  {
    if n == 0 {
    } else {
      assert Program().next(run[n - 1], run[n - 1 + 1]);
      OnRunReachable(Program(), run, n - 1);
      StepIsCounted(run[n - 1], run[n]);
      RunIsCounted(run, n - 1);
    }
  }

  /** The threads work in lockstep, so nobody starves: after n steps without a fault the number of consumed
      numbers is known up to one, whatever the schedule. */
  lemma NobodyStarves(run: seq<State>, n: nat)
    requires IsRun(Program(), run) && n < |run| && !run[n].fault
    ensures 19 * |ConsumedValues(run[n].log)| - 6 <= n <= 19 * |ConsumedValues(run[n].log)| + 14
  {
    RunIsCounted(run, n);
    OnRunReachable(Program(), run, n);
    ReachableInv(run[n]);
    AlternatesIsFifo(run[n].log);
  }

  // ---- When the heap is safe: exactly when line 68 read NULL ----

  /** The steps left until freed memory is touched, once line 68 has read the node. */
  function StepsToFault(s: State): nat {
    match s.p
    case Print => 16
    case Unlock => 15
    case Post2 => 14
    case Lock => 2
    case StoreData => 1
    case _ =>
      match s.c
      case Wait2 => if s.sem2 == 1 then 13 else 3
      case Acquire => 12
      case ReadHead => 11
      case PrintData => 10
      case ReloadHead => 9
      case LoadNext => 8
      case PopHead => 7
      case FreeTmp => 6
      case Release => 5
      case Post1 => 4
      case LoadTmp => 0
  }

  predicate Faulted(s: State) { s.fault }

  predicate ReadTheNode(s: State) { !s.c.LoadTmp? && s.tmp != Null }

  /** From `s` to `t` the fault has come one step closer, or has happened. */
  predicate Closer(s: State, t: State) {
    && ReadTheNode(t)
    && 0 < StepsToFault(s)
    && (t.fault || StepsToFault(t) == StepsToFault(s) - 1)
    && (StepsToFault(s) == 1 ==> t.fault)
  }

  lemma ProducerApproaches(s: State, choice: Choice)
    requires Inv(s) && ReadTheNode(s) && ProducerCan(s, choice)
    ensures Closer(s, ProducerStep(s, choice))
  {
  }

  lemma CustomerApproaches(s: State)
    requires Inv(s) && ReadTheNode(s) && CustomerCan(s)
    ensures Closer(s, CustomerStep(s))
  {
  }

  lemma FaultApproaches(s: State, t: State)
    requires Inv(s) && ReadTheNode(s) && Program().next(s, t)
    ensures Inv(t) && Closer(s, t)
  {
    StepKeepsInv(s, t);
    if ProducerNext(s, t) {
      var choice :| ProducerCan(s, choice) && t == ProducerStep(s, choice);
      ProducerApproaches(s, choice);
    } else {
      CustomerApproaches(s);
    }
  }

  lemma {:induction false} FaultWithin(run: seq<State>, i: nat)
    requires IsRun(Program(), run) && i < |run| && Inv(run[i]) && ReadTheNode(run[i])
    ensures |run| - 1 <= i + if run[i].fault then 0 else StepsToFault(run[i])
    decreases |run| - i
  {
    if i == |run| - 1 {
    } else {
      assert Program().next(run[i], run[i + 1]);
      FaultApproaches(run[i], run[i + 1]);
      FaultWithin(run, i + 1);
    }
  }

  /** A run in which line 68 read the node ends at most 16 steps later, and it can only end in a fault. */
  lemma {:induction false} ReadingTheNodeIsFatal(run: seq<State>, i: nat)
    requires IsRun(Program(), run) && i < |run| && ReadTheNode(run[i])
    ensures |run| - 1 <= i + 16
    ensures Final(Program(), run[|run| - 1]) <==> run[|run| - 1].fault
  {
    OnRunReachable(Program(), run, i);
    ReachableInv(run[i]);
    FaultWithin(run, i);
    var last := run[|run| - 1];
    OnRunReachable(Program(), run, |run| - 1);
    if !last.fault {
      NoDeadlock(last);
    }
  }

  lemma {:induction false} FaultReachedFrom(s: State)
    requires Reachable(Program(), s) && ReadTheNode(s)
    ensures CanReach(Program(), s, Faulted)
    decreases if s.fault then 0 else StepsToFault(s) + 1
  {
    ReachableInv(s);
    if s.fault {
      CanReachNow(Program(), s, Faulted);
    } else {
      NoDeadlock(s);
      var t :| Program().next(s, t);
      FaultApproaches(s, t);
      StepReachable(Program(), s, t);
      FaultReachedFrom(t);
      CanReachByStep(Program(), s, t, Faulted);
    }
  }

  predicate ReadNull(s: State) { Inv(s) && !s.c.LoadTmp? && s.tmp == Null }

  /** Nothing but line 68 assigns `tmp`. */
  lemma TmpAssignedOnce(s: State, t: State)
    requires !s.c.LoadTmp? && Program().next(s, t)
    ensures !t.c.LoadTmp? && t.tmp == s.tmp
  {
    if ProducerNext(s, t) {
      var choice :| ProducerCan(s, choice) && t == ProducerStep(s, choice);
    }
  }

  lemma ReadNullKept(s: State, t: State)
    requires ReadNull(s) && Program().next(s, t)
    ensures ReadNull(t)
  {
    StepKeepsInv(s, t);
    TmpAssignedOnce(s, t);
  }

  /** The heap is safe from a state on exactly when line 68 read NULL. */
  lemma HeapSafeIffReadNull(s: State)
    requires Reachable(Program(), s) && !s.c.LoadTmp?
    ensures CanReach(Program(), s, Faulted) <==> s.tmp != Null
  {
    if s.tmp != Null {
      FaultReachedFrom(s);
    } else if CanReach(Program(), s, Faulted) {
      var path: seq<State> :| IsPath(Program(), path) && path[0] == s && Faulted(path[|path| - 1]);
      ReachableInv(s);
      forall u, v | ReadNull(u) && Program().next(u, v)
        ensures ReadNull(v)
      {
        ReadNullKept(u, v);
      }
      KeptOnPath(Program(), ReadNull, path);
    }
  }

  /** Producer steps before the customer has moved at all, with one choice for everything that is left open. */
  function Ahead(s: State): State
    requires ProducerCan(s, Choice(4096, Node(0, Null), 42))
  {
    ProducerStep(s, Choice(4096, Node(0, Null), 42))
  }

  lemma AheadReachable(slots: nat, s: State)
    requires Reachable(ProgramWith(slots), s) && ProducerCan(s, Choice(4096, Node(0, Null), 42))
    ensures Reachable(ProgramWith(slots), Ahead(s))
  {
    assert ProducerNext(s, Ahead(s));
    StepReachable(ProgramWith(slots), s, Ahead(s));
  }

  /** Both outcomes of line 68 do occur: it races with line 40. */
  lemma Line68Races()
    ensures exists s :: Reachable(Program(), s) && !s.c.LoadTmp? && s.tmp == Null
    ensures exists s :: Reachable(Program(), s) && !s.c.LoadTmp? && s.tmp != Null
  {
    InitReachable(Program(), START);
    StepReachable(Program(), START, CustomerStep(START));
    assert CustomerStep(START).tmp == Null;
    var s := START;
    var steps := 0;
    while steps < 7
      invariant 0 <= steps <= 7
      invariant Reachable(ProgramWith(1), s) && !s.fault && s.c == LoadTmp
      invariant s.p == [Malloc, Wait1, Lock, StoreData, LoadHead, StoreNext, StoreHead, Print][steps]
      invariant (steps < 2 ==> s.sem1 == 1) && (steps < 3 ==> s.mutex == Free)
      invariant if steps == 0 then s.heap == map[] else s.newNode == At(4096) && Live(s.heap, s.newNode)
      invariant s.p.Print? ==> s.head != Null
    {
      AheadReachable(1, s);
      s, steps := Ahead(s), steps + 1;
    }
    StepReachable(Program(), s, CustomerStep(s));
    assert CustomerStep(s).tmp != Null;
  }

  // ---- Which numbers can be produced: exactly those that line 38 draws ----

  predicate LogDrawn(s: State) { forall k | 0 <= k < |s.log| :: Drawn(s.log[k].value) }

  /** From line 38 to line 42 the node holds a drawn number. */
  predicate NodeDrawn(s: State) {
    !s.fault && (s.p.LoadHead? || s.p.StoreNext? || s.p.StoreHead? || s.p.Print?) ==>
      Live(s.heap, s.newNode) && Drawn(s.heap[s.newNode.addr].data)
  }

  predicate DataOk(s: State) { Inv(s) && LogDrawn(s) && NodeDrawn(s) }

  lemma ProducerKeepsData(s: State, choice: Choice)
    requires DataOk(s) && ProducerCan(s, choice)
    ensures DataOk(ProducerStep(s, choice))
  {
    ProducerKeepsInv(s, choice);
  }

  lemma CustomerKeepsLogDrawn(s: State)
    requires DataOk(s) && CustomerCan(s)
    ensures LogDrawn(CustomerStep(s))
  {
    if s.c.PrintData? {
      assert s.log[|s.log| - 1] == Produced(s.heap[s.newNode.addr].data);
    }
  }

  lemma CustomerKeepsNodeDrawn(s: State)
    requires DataOk(s) && CustomerCan(s)
    ensures NodeDrawn(CustomerStep(s))
  {
  }

  lemma CustomerKeepsData(s: State)
    requires DataOk(s) && CustomerCan(s)
    ensures DataOk(CustomerStep(s))
  {
    CustomerKeepsInv(s);
    CustomerKeepsLogDrawn(s);
    CustomerKeepsNodeDrawn(s);
  }

  lemma ReachableData(s: State)
    requires Reachable(Program(), s)
    ensures DataOk(s)
  {
    forall u, v | DataOk(u) && Program().next(u, v)
      ensures DataOk(v)
    {
      if ProducerNext(u, v) {
        var choice :| ProducerCan(u, choice) && v == ProducerStep(u, choice);
        ProducerKeepsData(u, choice);
      } else {
        CustomerKeepsData(u);
      }
    }
    InductiveHoldsWhenReachable(Program(), DataOk, s);
  }

  /** Between two rounds, line 68 having read NULL. */
  ghost predicate BetweenRounds(s: State) {
    && Reachable(Program(), s) && !s.fault && s.p.Wait1? && s.c.Wait2? && s.tmp == Null && s.sem1 == 1
  }

  /** Line 68 having read NULL, a producer step does not fault and goes to the next statement. */
  lemma ProducerGoesOn(s: State, v: int) returns (t: State)
    requires Reachable(Program(), s) && !s.fault && s.c.Wait2? && s.tmp == Null && Drawn(v)
    requires !s.p.Malloc? && (s.p.Wait1? ==> s.sem1 > 0)
    ensures Reachable(Program(), t) && !t.fault && t.c == s.c && t.tmp == Null
    ensures var round := [Wait1, Lock, StoreData, LoadHead, StoreNext, StoreHead, Print, Unlock, Post2, Wait1];
      forall n | 0 <= n < 9 && s.p == round[n] :: t.p == round[n + 1]
    ensures s.p.StoreData? ==> Live(t.heap, t.newNode) && t.heap[t.newNode.addr].data == v
    ensures (s.p.LoadHead? || s.p.StoreNext? || s.p.StoreHead?) && Live(s.heap, s.newNode) ==>
      Live(t.heap, t.newNode) && t.heap[t.newNode.addr].data == s.heap[s.newNode.addr].data
    ensures s.p.Print? ==> Live(s.heap, s.newNode) && t.log == s.log + [Produced(s.heap[s.newNode.addr].data)]
    ensures !s.p.Print? ==> t.log == s.log
  {
    ReachableInv(s);
    var choice := Choice(0, Node(0, Null), v);
    ProducerKeepsInv(s, choice);
    StepReachable(Program(), s, ProducerStep(s, choice));
    t := ProducerStep(s, choice);
  }

  lemma LogSaysPending(t: State, log: seq<Event>, v: int)
    requires Inv(t) && !t.fault && t.p.Wait1? && t.c.Wait2? && t.log == log + [Produced(v)] && Alternates(log)
    ensures t.sem2 == 1
  {
    assert t.log[..|log|] == log;
  }

  lemma ProduceOne(s: State, v: int) returns (t: State)
    requires BetweenRounds(s) && Drawn(v)
    ensures Reachable(Program(), t) && !t.fault && t.p.Wait1? && t.c.Wait2? && t.tmp == Null && t.sem2 == 1
    ensures t.log == s.log + [Produced(v)]
  {
    ghost var round := [Wait1, Lock, StoreData, LoadHead, StoreNext, StoreHead, Print, Unlock, Post2, Wait1];
    t := s;
    for n := 0 to 9
      invariant Reachable(Program(), t) && !t.fault && t.c.Wait2? && t.tmp == Null && t.p == round[n]
      invariant n == 0 ==> t.sem1 == 1
      invariant 3 <= n <= 6 ==> Live(t.heap, t.newNode) && t.heap[t.newNode.addr].data == v
      invariant t.log == if n <= 6 then s.log else s.log + [Produced(v)]
    {
      t := ProducerGoesOn(t, v);
    }
    ReachableInv(t);
    LogSaysPending(t, s.log, v);
  }

  lemma CustomerGoesOn(s: State) returns (t: State)
    requires Reachable(Program(), s) && !s.fault && s.p.Wait1? && s.tmp == Null
    requires !s.c.LoadTmp? && (s.c.Wait2? ==> s.sem2 > 0)
    ensures Reachable(Program(), t) && !t.fault && t.p == s.p && t.tmp == Null
    ensures var round := [Wait2, Acquire, ReadHead, PrintData, ReloadHead, LoadNext, PopHead, FreeTmp, Release, Post1,
                          Wait2];
      forall n | 0 <= n < 10 && s.c == round[n] :: t.c == round[n + 1]
    ensures if s.c.PrintData? then exists v :: t.log == s.log + [Consumed(v)] else t.log == s.log
    ensures t.c.Wait2? ==> t.sem1 == 1
  {
    ReachableInv(s);
    CustomerKeepsInv(s);
    StepReachable(Program(), s, CustomerStep(s));
    t := CustomerStep(s);
  }

  lemma ConsumeOne(s: State) returns (t: State)
    requires Reachable(Program(), s) && !s.fault && s.p.Wait1? && s.c.Wait2? && s.tmp == Null && s.sem2 == 1
    ensures BetweenRounds(t)
    ensures exists v :: t.log == s.log + [Consumed(v)]
  {
    ghost var round := [Wait2, Acquire, ReadHead, PrintData, ReloadHead, LoadNext, PopHead, FreeTmp, Release, Post1,
                        Wait2];
    t := s;
    for n := 0 to 10
      invariant Reachable(Program(), t) && !t.fault && t.p.Wait1? && t.tmp == Null && t.c == round[n]
      invariant (n == 0 ==> t.sem2 == 1) && (n == 10 ==> t.sem1 == 1)
      invariant if n <= 3 then t.log == s.log else exists v :: t.log == s.log + [Consumed(v)]
    {
      t := CustomerGoesOn(t);
    }
  }

  lemma FirstBetweenRounds() returns (s: State)
    ensures BetweenRounds(s) && s.log == []
  {
    InitReachable(Program(), START);
    var t := CustomerStep(START);
    StepReachable(Program(), START, t);
    s := Ahead(t);
    AheadReachable(1, t);
  }

  lemma ProduceAll(values: seq<int>) returns (s: State)
    requires forall v | v in values :: Drawn(v)
    ensures Reachable(Program(), s) && ProducedValues(s.log) == values
  {
    s := FirstBetweenRounds();
    for n := 0 to |values|
      invariant BetweenRounds(s) && ProducedValues(s.log) == values[..n]
    {
      var t := ProduceOne(s, values[n]);
      var u := ConsumeOne(t);
      var w :| u.log == t.log + [Consumed(w)];
      ProducedAppend(s.log, values[n], w);
      assert values[..n + 1] == values[..n] + [values[n]];
      s := u;
    }
    assert values[..|values|] == values;
  }

  /** The numbers that can be produced, in this order, are exactly the sequences of numbers from 1 to 100: what malloc
      has left in the node is never printed, and every number drawn is. */
  lemma ProducibleIff(values: seq<int>)
    ensures (exists s :: Reachable(Program(), s) && ProducedValues(s.log) == values)
            <==> forall v | v in values :: 1 <= v <= 100
  {
    if forall v | v in values :: 1 <= v <= 100 {
      assert forall v | v in values :: Drawn(v);
      var s := ProduceAll(values);
    }
    if s :| Reachable(Program(), s) && ProducedValues(s.log) == values {
      ReachableData(s);
      ProducedDrawn(s.log);
      assert forall v | v in values :: Drawn(v);
    }
  }

  // ---- Why one slot: the node of line 20 is linked to itself exactly with more ----

  /** The linked node is its own successor. */
  predicate SelfLinked(s: State) {
    Live(s.heap, s.newNode) && s.head == s.newNode && s.heap[s.newNode.addr].next == s.newNode
  }

  /** No finite chain hangs from head. */
  ghost predicate Endless(s: State) {
    forall chain :: !Linked(s.heap, s.head, chain)
  }

  /** With no slot the producer never passes line 24. */
  predicate Idle(s: State) {
    s.sem1 == s.sem2 == 0 && (s.p.Malloc? || s.p.Wait1?) && (s.c.LoadTmp? || s.c.Wait2?) && s.head == Null
  }

  lemma NoSlotIsIdle(s: State)
    requires Reachable(ProgramWith(0), s)
    ensures Idle(s)
  {
    forall u, v | Idle(u) && ProgramWith(0).next(u, v)
      ensures Idle(v)
    {
      if ProducerNext(u, v) {
        var choice :| ProducerCan(u, choice) && v == ProducerStep(u, choice);
      }
    }
    InductiveHoldsWhenReachable(ProgramWith(0), Idle, s);
  }

  lemma FirstRound(slots: nat) returns (s: State)
    requires slots > 0
    ensures Reachable(ProgramWith(slots), s) && !s.fault && s.p.Wait1? && s.sem1 == slots - 1
    ensures s.mutex == Free && s.head == s.newNode == At(4096) && Live(s.heap, s.newNode)
  {
    s := StartWith(slots);
    InitReachable(ProgramWith(slots), s);
    var steps := 0;
    while steps < 10
      invariant 0 <= steps <= 10
      invariant Reachable(ProgramWith(slots), s) && !s.fault
      invariant s.p == [Malloc, Wait1, Lock, StoreData, LoadHead, StoreNext, StoreHead, Print, Unlock, Post2,
                        Wait1][steps]
      invariant s.sem1 == if steps < 2 then slots else slots - 1
      invariant s.mutex == if s.p.Locked() then ByProducer else Free
      invariant if steps == 0 then s.heap == map[] else s.newNode == At(4096) && Live(s.heap, s.newNode)
      invariant steps >= 7 ==> s.head == s.newNode
    {
      AheadReachable(slots, s);
      s, steps := Ahead(s), steps + 1;
    }
  }

  /** Two slots let the producer go round twice: in the second round line 39 reads the head that line 40 has set to
      the same node. */
  lemma TwoSlotsLinkTheNodeToItself(slots: nat) returns (s: State)
    requires slots > 1
    ensures Reachable(ProgramWith(slots), s) && SelfLinked(s)
  {
    s := FirstRound(slots);
    var steps := 0;
    while steps < 5
      invariant 0 <= steps <= 5
      invariant Reachable(ProgramWith(slots), s) && !s.fault && (steps == 0 ==> s.sem1 > 0)
      invariant s.p == [Wait1, Lock, StoreData, LoadHead, StoreNext, StoreHead][steps]
      invariant (steps < 2 ==> s.mutex == Free) && s.head == s.newNode && Live(s.heap, s.newNode)
      invariant steps >= 4 ==> s.pReg == s.newNode
      invariant steps == 5 ==> s.heap[s.newNode.addr].next == s.newNode
    {
      AheadReachable(slots, s);
      s, steps := Ahead(s), steps + 1;
    }
  }

  lemma OneSlotListEnds(slots: nat, s: State)
    requires slots <= 1 && Reachable(ProgramWith(slots), s)
    ensures !SelfLinked(s) && !Endless(s)
  {
    if slots == 0 {
      NoSlotIsIdle(s);
      assert Linked(s.heap, s.head, []);
    } else {
      ReachableInv(s);
      if s.fault {
        assert Linked(s.heap, s.head, []);
      } else {
        var chain := TokenFixesList(s);
      }
    }
  }

  /** The single slot is what keeps the single node safe: the node can be linked to itself, and the list can be
      without an end, if and only if sem1 starts above 1. */
  lemma SelfLinkIffMoreSlots(slots: nat)
    ensures (exists s :: Reachable(ProgramWith(slots), s) && SelfLinked(s)) <==> slots > 1
    ensures (exists s :: Reachable(ProgramWith(slots), s) && Endless(s)) <==> slots > 1
  {
    if slots > 1 {
      var s := TwoSlotsLinkTheNodeToItself(slots);
      assert Endless(s);
    } else {
      forall s | Reachable(ProgramWith(slots), s)
        ensures !SelfLinked(s) && !Endless(s)
      {
        OneSlotListEnds(slots, s);
      }
    }
  }

  // ---- The program in place ----

  /** One scheduling decision. */
  datatype Turn = ProducerTurn(choice: Choice) | CustomerTurn

  /** The globals of the program and the locals of its two threads, updated one statement at a time. */
  class Process {
    var p: ProducerPc
    var newNode: Ptr
    var pReg: Ptr
    var c: CustomerPc
    var tmp: Ptr
    var cReg: Ptr
    var head: Ptr
    var sem1: nat
    var sem2: nat
    var mutex: Owner
    var heap: Heap
    var log: seq<Event>
    var fault: bool

    function Now(): State
      reads this
    {
      State(p, newNode, pReg, c, tmp, cReg, head, sem1, sem2, mutex, heap, log, fault)
    }

    constructor ()
      ensures Now() == START
    {
      p, newNode, pReg := Malloc, Null, Null;
      c, tmp, cReg := LoadTmp, Null, Null;
      head, sem1, sem2, mutex := Null, 1, 0, Free;
      heap, log, fault := map[], [], false;
    }

    /** Runs the producer's next statement, unless the producer is blocked. */
    method Produce(choice: Choice)
      modifies this
      ensures Now() == if ProducerCan(old(Now()), choice) then ProducerStep(old(Now()), choice) else old(Now())
    {
      if !ProducerCan(Now(), choice) {
        return;
      }
      match p
      case Malloc =>
        newNode, p := At(choice.addr), Wait1;
        heap := heap[choice.addr := choice.garbage];
      case Wait1 => sem1, p := sem1 - 1, Lock;
      case Lock => mutex, p := ByProducer, StoreData;
      case StoreData =>
        if Live(heap, newNode) {
          heap := heap[newNode.addr := heap[newNode.addr].(data := choice.value)];
          p := LoadHead;
        } else {
          fault := true;
        }
      case LoadHead => pReg, p := head, StoreNext;
      case StoreNext =>
        if Live(heap, newNode) {
          heap := heap[newNode.addr := heap[newNode.addr].(next := pReg)];
          p := StoreHead;
        } else {
          fault := true;
        }
      case StoreHead => head, p := newNode, Print;
      case Print =>
        if Live(heap, newNode) {
          log := log + [Produced(heap[newNode.addr].data)];
          p := Unlock;
        } else {
          fault := true;
        }
      case Unlock => mutex, p := Free, Post2;
      case Post2 => sem2, p := sem2 + 1, Wait1;
    }

    /** Runs the customer's next statement, unless the customer is blocked. */
    method Consume()
      modifies this
      ensures Now() == if CustomerCan(old(Now())) then CustomerStep(old(Now())) else old(Now())
    {
      if !CustomerCan(Now()) {
        return;
      }
      match c
      case LoadTmp => tmp, c := head, Wait2;
      case Wait2 => sem2, c := sem2 - 1, Acquire;
      case Acquire => mutex, c := ByCustomer, ReadHead;
      case ReadHead => cReg, c := head, PrintData;
      case PrintData =>
        if Live(heap, cReg) {
          log := log + [Consumed(heap[cReg.addr].data)];
          c := ReloadHead;
        } else {
          fault := true;
        }
      case ReloadHead => cReg, c := head, LoadNext;
      case LoadNext =>
        if Live(heap, cReg) {
          cReg, c := heap[cReg.addr].next, PopHead;
        } else {
          fault := true;
        }
      case PopHead => head, c := cReg, FreeTmp;
      case FreeTmp =>
        if tmp == Null {
          c := Release;
        } else if Live(heap, tmp) {
          heap, c := heap - {tmp.addr}, Release;
        } else {
          fault := true;
        }
      case Release => mutex, c := Free, Post1;
      case Post1 => sem1, c := sem1 + 1, Wait2;
    }

    /** Runs any schedule from a reachable state: a fault happens only if line 68 read the node, and the
        numbers come out in the order in which they went in. */
    method Run(schedule: seq<Turn>)
      requires Reachable(Program(), Now())
      modifies this
      ensures Reachable(Program(), Now())
      ensures fault ==> tmp != Null
      ensures ConsumedValues(log) <= ProducedValues(log)
    {
      for i := 0 to |schedule|
        invariant Reachable(Program(), Now())
      {
        ghost var before := Now();
        match schedule[i]
        case ProducerTurn(choice) =>
          Produce(choice);
          if ProducerCan(before, choice) {
            StepReachable(Program(), before, Now());
          }
        case CustomerTurn =>
          Consume();
          if CustomerCan(before) {
            StepReachable(Program(), before, Now());
          }
      }
      ReachableInv(Now());
      AlternatesIsFifo(log);
    }
  }
}
