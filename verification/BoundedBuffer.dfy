/** The semaphore protocol of 09_Day09/06_semaphore_sync_lock for N slots and any number of producers and
    customers, each item in a node of its own: line 20 moves into the producer's loop, and the customer
    reads `tmp = head` inside its critical section. The accesses to the list are those of LockedStack. */
module BoundedBuffer {
  import opened Runs
  import opened Counting
  import opened HeapStack
  import opened StackLog
  import opened LockedStack

  datatype ProducerPc =
    | Alloc   // line 20
    | Wait1   // line 24
    | Lock    // line 31
    | Push    // lines 38-42
    | Unlock  // line 44
    | Post2   // line 53

  datatype CustomerPc =
    | Wait2    // line 71
    | Acquire  // line 78
    | Pop      // lines 85-88
    | Release  // line 90
    | Post1    // line 98

  datatype State = State(ps: seq<ProducerPc>, cs: seq<CustomerPc>, sem1: nat, sem2: nat, stack: Stack)

  predicate ProducerCan(s: State, i: nat, choice: Choice) {
    && i < |s.ps|
    && s.stack.fault == NoFault
    && match s.ps[i]
       case Alloc => PushCan(s.stack, i, choice)
       case Wait1 => s.sem1 > 0
       case Lock => s.stack.mutex == Free
       case Push => PushCan(s.stack, i, choice)
       case Unlock => true
       case Post2 => true
  }

  function ProducerStep(s: State, i: nat, choice: Choice): State
    requires ProducerCan(s, i, choice)
  {
    match s.ps[i]
    case Alloc => s.(stack := PushStep(s.stack, i, choice), ps := s.ps[i := Wait1])
    case Wait1 => s.(sem1 := s.sem1 - 1, ps := s.ps[i := Lock])
    case Lock => s.(stack := s.stack.(mutex := ByPusher(i)), ps := s.ps[i := Push])
    case Push =>
      s.(stack := PushStep(s.stack, i, choice),
         ps := if s.stack.pushers[i].stage.Print? then s.ps[i := Unlock] else s.ps)
    case Unlock => s.(stack := s.stack.(mutex := Free), ps := s.ps[i := Post2])
    case Post2 => s.(sem2 := s.sem2 + 1, ps := s.ps[i := Alloc])
  }

  predicate CustomerCan(s: State, j: nat) {
    && j < |s.cs|
    && s.stack.fault == NoFault
    && match s.cs[j]
       case Wait2 => s.sem2 > 0
       case Acquire => s.stack.mutex == Free
       case Pop => PopCan(s.stack, j)
       case Release => true
       case Post1 => true
  }

  function CustomerStep(s: State, j: nat): State
    requires CustomerCan(s, j)
  {
    match s.cs[j]
    case Wait2 => s.(sem2 := s.sem2 - 1, cs := s.cs[j := Acquire])
    case Acquire => s.(stack := s.stack.(mutex := ByPopper(j)), cs := s.cs[j := Pop])
    case Pop =>
      s.(stack := PopStep(s.stack, j),
         cs := if s.stack.poppers[j].stage.FreeTemp? then s.cs[j := Release] else s.cs)
    case Release => s.(stack := s.stack.(mutex := Free), cs := s.cs[j := Post1])
    case Post1 => s.(sem1 := s.sem1 + 1, cs := s.cs[j := Wait2])
  }

  /** sem_init: `slots` free slots, none filled. */
  function Start(slots: nat, producers: nat, customers: nat): State {
    State(seq(producers, _ => Alloc), seq(customers, _ => Wait2), slots, 0,
          Stack(seq(producers, _ => Pusher(Malloc, Null, Null)), seq(customers, _ => Popper(ReadHead, Null, Null)),
                Free, Null, map[], [], NoFault, []))
  }

  ghost predicate ProducerNext(s: State, t: State) {
    exists i, choice :: ProducerCan(s, i, choice) && t == ProducerStep(s, i, choice)
  }

  ghost predicate CustomerNext(s: State, t: State) {
    exists j :: CustomerCan(s, j) && t == CustomerStep(s, j)
  }

  ghost function Program(slots: nat, producers: nat, customers: nat): System<State> {
    System(s => s == Start(slots, producers, customers), (s, t) => ProducerNext(s, t) || CustomerNext(s, t))
  }

  // ---- Where the tokens and the nodes are ----

  /** A producer's position: its own statement and, inside the critical section, the statement there. */
  datatype ProducerAt = ProducerAt(pc: ProducerPc, stage: PushStage)

  datatype CustomerAt = CustomerAt(pc: CustomerPc, stage: PopStage)

  ghost predicate Threads(s: State, producers: nat, customers: nat) {
    |s.ps| == |s.stack.pushers| == producers && |s.cs| == |s.stack.poppers| == customers
  }

  ghost function Producers(s: State): (at: seq<ProducerAt>)
    requires |s.ps| == |s.stack.pushers|
  {
    seq(|s.ps|, i requires 0 <= i < |s.ps| => ProducerAt(s.ps[i], s.stack.pushers[i].stage))
  }

  ghost function Customers(s: State): (at: seq<CustomerAt>)
    requires |s.cs| == |s.stack.poppers|
  {
    seq(|s.cs|, j requires 0 <= j < |s.cs| => CustomerAt(s.cs[j], s.stack.poppers[j].stage))
  }

  /** 1 for a producer between its sem_wait(&sem1) and its sem_post(&sem2). */
  function Filling(p: ProducerAt): nat {
    if p.pc.Alloc? || p.pc.Wait1? then 0 else 1
  }

  /** 1 for a producer that has linked its node but not posted sem2. */
  function Pushed(p: ProducerAt): nat {
    if p.pc.Unlock? || p.pc.Post2? || (p.pc.Push? && p.stage.Print?) then 1 else 0
  }

  /** 1 for a customer between its sem_wait(&sem2) and its sem_post(&sem1). */
  function Draining(c: CustomerAt): nat {
    if c.pc.Wait2? then 0 else 1
  }

  /** 1 for a customer that has passed sem_wait(&sem2) but not unlinked its node. */
  function Claimed(c: CustomerAt): nat {
    if c.pc.Acquire? || (c.pc.Pop? && !c.stage.FreeTemp?) then 1 else 0
  }

  ghost predicate SlotsConserved(s: State, slots: nat)
    requires |s.ps| == |s.stack.pushers| && |s.cs| == |s.stack.poppers|
  {
    s.sem1 + s.sem2 + Sum(Filling, Producers(s)) + Sum(Draining, Customers(s)) == slots
  }

  ghost predicate LengthMatches(s: State)
    requires |s.ps| == |s.stack.pushers| && |s.cs| == |s.stack.poppers|
  {
    |s.stack.chain| == s.sem2 + Sum(Pushed, Producers(s)) + Sum(Claimed, Customers(s))
  }

  predicate ProducerOk(s: State, i: nat)
    requires i < |s.ps| && i < |s.stack.pushers|
  {
    var stage := s.stack.pushers[i].stage;
    && (s.stack.mutex == ByPusher(i) <==> s.ps[i].Push? || s.ps[i].Unlock?)
    && match s.ps[i]
       case Wait1 => stage.StoreData?
       case Lock => stage.StoreData?
       case Push => !stage.Malloc?
       case _ => stage.Malloc?
  }

  predicate CustomerOk(s: State, j: nat)
    requires j < |s.cs| && j < |s.stack.poppers|
  {
    && (s.stack.mutex == ByPopper(j) <==> s.cs[j].Pop? || s.cs[j].Release?)
    && (s.stack.poppers[j].stage.ReadHead? || s.cs[j].Pop?)
  }

  ghost predicate Synced(s: State)
    requires |s.ps| == |s.stack.pushers| && |s.cs| == |s.stack.poppers|
  {
    && (forall i: nat | i < |s.ps| :: ProducerOk(s, i))
    && (forall j: nat | j < |s.cs| :: CustomerOk(s, j))
    && (s.stack.mutex.ByPusher? ==> s.stack.mutex.i < |s.ps|)
    && (s.stack.mutex.ByPopper? ==> s.stack.mutex.j < |s.cs|)
  }

  ghost predicate Inv(s: State, slots: nat, producers: nat, customers: nat) {
    && Threads(s, producers, customers)
    && Synced(s)
    && LockedStack.Inv(s.stack)
    && s.stack.fault == NoFault
    && SlotsConserved(s, slots)
    && LengthMatches(s)
  }

  // ---- Each step keeps the invariant ----

  lemma ProducerKeepsStack(s: State, i: nat, choice: Choice, slots: nat, producers: nat, customers: nat)
    requires Inv(s, slots, producers, customers) && ProducerCan(s, i, choice)
    ensures var t := ProducerStep(s, i, choice); LockedStack.Inv(t.stack) && t.stack.fault == NoFault
  {
    assert ProducerOk(s, i);
    match s.ps[i]
    case Alloc => PushKeepsInv(s.stack, i, choice);
    case Push => PushKeepsInv(s.stack, i, choice);
    case Lock =>
      QuietWhen(s.stack);
      MutexKeepsInv(s.stack, ByPusher(i));
    case Unlock =>
      QuietWhen(s.stack);
      MutexKeepsInv(s.stack, Free);
    case _ =>
  }

  lemma ProducerKeepsSynced(s: State, i: nat, choice: Choice, slots: nat, producers: nat, customers: nat)
    requires Inv(s, slots, producers, customers) && ProducerCan(s, i, choice)
    ensures var t := ProducerStep(s, i, choice); Threads(t, producers, customers) && Synced(t)
  {
    var t := ProducerStep(s, i, choice);
    ProducerKeepsStack(s, i, choice, slots, producers, customers);
    assert ProducerOk(s, i);
    forall k: nat | k < |t.ps|
      ensures ProducerOk(t, k)
    {
      assert ProducerOk(s, k);
    }
    forall j: nat | j < |t.cs|
      ensures CustomerOk(t, j)
    {
      assert CustomerOk(s, j);
    }
  }

  lemma ProducerMovesAlone(s: State, i: nat, choice: Choice, slots: nat, producers: nat, customers: nat)
    requires Threads(s, producers, customers) && ProducerCan(s, i, choice)
    requires Threads(ProducerStep(s, i, choice), producers, customers)
    ensures var t := ProducerStep(s, i, choice);
      && Producers(t) == Producers(s)[i := ProducerAt(t.ps[i], t.stack.pushers[i].stage)]
      && Customers(t) == Customers(s)
  {
  }

  lemma ProducerKeepsCounts(s: State, i: nat, choice: Choice, slots: nat, producers: nat, customers: nat)
    requires Inv(s, slots, producers, customers) && ProducerCan(s, i, choice)
    requires Threads(ProducerStep(s, i, choice), producers, customers)
    ensures var t := ProducerStep(s, i, choice); SlotsConserved(t, slots) && LengthMatches(t)
  {
    var t := ProducerStep(s, i, choice);
    assert ProducerOk(s, i) && PusherOk(s.stack, i);
    var at := ProducerAt(t.ps[i], t.stack.pushers[i].stage);
    ProducerMovesAlone(s, i, choice, slots, producers, customers);
    SumUpdate(Filling, Producers(s), i, at);
    SumUpdate(Pushed, Producers(s), i, at);
  }

  lemma CustomerKeepsStack(s: State, j: nat, slots: nat, producers: nat, customers: nat)
    requires Inv(s, slots, producers, customers) && CustomerCan(s, j)
    ensures var t := CustomerStep(s, j); LockedStack.Inv(t.stack) && t.stack.fault == NoFault
  {
    assert CustomerOk(s, j);
    match s.cs[j]
    case Pop =>
      assert Customers(s)[j] == CustomerAt(Pop, s.stack.poppers[j].stage);
      SumAtLeast(Claimed, Customers(s), j);
      PopKeepsInv(s.stack, j);
    case Acquire =>
      QuietWhen(s.stack);
      MutexKeepsInv(s.stack, ByPopper(j));
    case Release =>
      QuietWhen(s.stack);
      MutexKeepsInv(s.stack, Free);
    case _ =>
  }

  lemma CustomerKeepsSynced(s: State, j: nat, slots: nat, producers: nat, customers: nat)
    requires Inv(s, slots, producers, customers) && CustomerCan(s, j)
    ensures var t := CustomerStep(s, j); Threads(t, producers, customers) && Synced(t)
  {
    var t := CustomerStep(s, j);
    CustomerKeepsStack(s, j, slots, producers, customers);
    assert CustomerOk(s, j);
    forall i: nat | i < |t.ps|
      ensures ProducerOk(t, i)
    {
      assert ProducerOk(s, i);
    }
    forall k: nat | k < |t.cs|
      ensures CustomerOk(t, k)
    {
      assert CustomerOk(s, k);
    }
  }

  lemma CustomerMovesAlone(s: State, j: nat, slots: nat, producers: nat, customers: nat)
    requires Threads(s, producers, customers) && CustomerCan(s, j)
    requires Threads(CustomerStep(s, j), producers, customers)
    ensures var t := CustomerStep(s, j);
      && Customers(t) == Customers(s)[j := CustomerAt(t.cs[j], t.stack.poppers[j].stage)]
      && Producers(t) == Producers(s)
  {
  }

  lemma CustomerKeepsCounts(s: State, j: nat, slots: nat, producers: nat, customers: nat)
    requires Inv(s, slots, producers, customers) && CustomerCan(s, j)
    requires Threads(CustomerStep(s, j), producers, customers)
    ensures var t := CustomerStep(s, j); SlotsConserved(t, slots) && LengthMatches(t)
  {
    var t := CustomerStep(s, j);
    assert CustomerOk(s, j) && PopperOk(s.stack, j);
    var at := CustomerAt(t.cs[j], t.stack.poppers[j].stage);
    CustomerMovesAlone(s, j, slots, producers, customers);
    SumUpdate(Draining, Customers(s), j, at);
    SumUpdate(Claimed, Customers(s), j, at);
  }

  lemma StepKeepsInv(s: State, t: State, slots: nat, producers: nat, customers: nat)
    requires Inv(s, slots, producers, customers) && Program(slots, producers, customers).next(s, t)
    ensures Inv(t, slots, producers, customers)
  {
    if ProducerNext(s, t) {
      var i, choice :| ProducerCan(s, i, choice) && t == ProducerStep(s, i, choice);
      ProducerKeepsStack(s, i, choice, slots, producers, customers);
      ProducerKeepsSynced(s, i, choice, slots, producers, customers);
      ProducerKeepsCounts(s, i, choice, slots, producers, customers);
    } else {
      var j :| CustomerCan(s, j) && t == CustomerStep(s, j);
      CustomerKeepsStack(s, j, slots, producers, customers);
      CustomerKeepsSynced(s, j, slots, producers, customers);
      CustomerKeepsCounts(s, j, slots, producers, customers);
    }
  }

  lemma {:induction false} StartInv(slots: nat, producers: nat, customers: nat)
    ensures Inv(Start(slots, producers, customers), slots, producers, customers)
  {
    var s := Start(slots, producers, customers);
    assert forall i: nat | i < producers :: ProducerOk(s, i) && PusherOk(s.stack, i);
    assert forall j: nat | j < customers :: CustomerOk(s, j) && PopperOk(s.stack, j);
    SumZero(Filling, Producers(s));
    SumZero(Pushed, Producers(s));
    SumZero(Draining, Customers(s));
    SumZero(Claimed, Customers(s));
  }

  lemma ReachableInv(s: State, slots: nat, producers: nat, customers: nat)
    requires Reachable(Program(slots, producers, customers), s)
    ensures Inv(s, slots, producers, customers)
  {
    var program := Program(slots, producers, customers);
    var inv := (t: State) => Inv(t, slots, producers, customers);
    StartInv(slots, producers, customers);
    forall u, v | inv(u) && program.next(u, v)
      ensures inv(v)
    {
      StepKeepsInv(u, v, slots, producers, customers);
    }
    InductiveHoldsWhenReachable(program, inv, s);
  }

  // ---- Every reachable state ----

  /** Slots are conserved, the list is acyclic and its length is read off sem2 and the threads' positions;
      it never exceeds the number of slots. */
  lemma SlotsAndLength(s: State, slots: nat, producers: nat, customers: nat)
    requires Reachable(Program(slots, producers, customers), s)
    ensures Threads(s, producers, customers) && SlotsConserved(s, slots) && LengthMatches(s)
    ensures Linked(s.stack.heap, s.stack.head, s.stack.chain)
    ensures |s.stack.chain| <= slots
  {
    ReachableInv(s, slots, producers, customers);
    SumLeq(Pushed, Filling, Producers(s));
    SumLeq(Claimed, Draining, Customers(s));
  }

  /** No access is to NULL or to freed memory, nothing is freed twice, and every allocated node is in exactly
      one place. A customer that has passed sem_wait(&sem2) always finds a node to take. */
  lemma MemorySafe(s: State, slots: nat, producers: nat, customers: nat, a: nat)
    requires Reachable(Program(slots, producers, customers), s)
    ensures s.stack.fault == NoFault
    ensures a in s.stack.heap <==> exists place :: IsAt(s.stack, a, place)
    ensures forall place, other :: IsAt(s.stack, a, place) && IsAt(s.stack, a, other) ==> place == other
    ensures Threads(s, producers, customers)
    ensures forall j | 0 <= j < customers :: Claimed(Customers(s)[j]) == 1 ==> s.stack.head != Null
  {
    ReachableInv(s, slots, producers, customers);
    NodeInOnePlace(s.stack, a);
    forall j | 0 <= j < customers && Claimed(Customers(s)[j]) == 1
      ensures s.stack.head != Null
    {
      SumAtLeast(Claimed, Customers(s), j);
    }
  }

  /** A producer between lines 31 and 44. */
  predicate ProducerInside(s: State, i: nat) {
    i < |s.ps| && (s.ps[i].Push? || s.ps[i].Unlock?)
  }

  /** A customer between lines 78 and 90. */
  predicate CustomerInside(s: State, j: nat) {
    j < |s.cs| && (s.cs[j].Pop? || s.cs[j].Release?)
  }

  /** All accesses to the list lie inside the critical sections, and at most one thread is inside: the mutex is free
      when nobody is, and otherwise names the one that is. */
  lemma MutualExclusion(s: State, slots: nat, producers: nat, customers: nat)
    requires Reachable(Program(slots, producers, customers), s)
    ensures forall i, k :: ProducerInside(s, i) && ProducerInside(s, k) ==> i == k
    ensures forall j, l :: CustomerInside(s, j) && CustomerInside(s, l) ==> j == l
    ensures forall i, j :: !(ProducerInside(s, i) && CustomerInside(s, j))
    ensures s.stack.mutex == Free
            <==> (forall i :: !ProducerInside(s, i)) && (forall j :: !CustomerInside(s, j))
    ensures Threads(s, producers, customers)
    ensures forall i | 0 <= i < producers :: s.stack.pushers[i].NeedsMutex() ==> ProducerInside(s, i)
    ensures forall j | 0 <= j < customers :: s.stack.poppers[j].NeedsMutex() ==> CustomerInside(s, j)
  {
    ReachableInv(s, slots, producers, customers);
    forall i: nat | i < producers
      ensures ProducerInside(s, i) <==> s.stack.mutex == ByPusher(i)
      ensures s.stack.pushers[i].NeedsMutex() ==> ProducerInside(s, i)
    {
      assert ProducerOk(s, i);
    }
    forall j: nat | j < customers
      ensures CustomerInside(s, j) <==> s.stack.mutex == ByPopper(j)
      ensures s.stack.poppers[j].NeedsMutex() ==> CustomerInside(s, j)
    {
      assert CustomerOk(s, j);
    }
  }

  /** The printed lines determine what is left; the list holds exactly that, up to the one node that is linked but
      not printed, or printed but not unlinked. The produced numbers are the consumed ones plus those left. */
  lemma NothingLost(s: State, slots: nat, producers: nat, customers: nat) returns (left: seq<int>)
    requires Reachable(Program(slots, producers, customers), s)
    ensures LockedStack.Inv(s.stack) && (LogBehind(s.stack) ==> Contents(s.stack) != [])
    ensures left == if LogBehind(s.stack) then Contents(s.stack)[1..] else Contents(s.stack)
    ensures Replays(s.stack.log, left) && forall other :: Replays(s.stack.log, other) ==> other == left
    ensures multiset(ProducedValues(s.stack.log)) == multiset(ConsumedValues(s.stack.log)) + multiset(left)
  {
    ReachableInv(s, slots, producers, customers);
    left := LogIsStackHistory(s.stack);
  }

  lemma ProducerMoves(s: State, slots: nat, producers: nat, customers: nat, i: nat, choice: Choice)
    requires ProducerCan(s, i, choice)
    ensures !Final(Program(slots, producers, customers), s)
  {
    assert Program(slots, producers, customers).next(s, ProducerStep(s, i, choice));
  }

  lemma CustomerMoves(s: State, slots: nat, producers: nat, customers: nat, j: nat)
    requires CustomerCan(s, j)
    ensures !Final(Program(slots, producers, customers), s)
  {
    assert Program(slots, producers, customers).next(s, CustomerStep(s, j));
  }

  /** With a slot, a producer and a customer there is no deadlock. */
  lemma NoDeadlock(s: State, slots: nat, producers: nat, customers: nat)
    requires Reachable(Program(slots, producers, customers), s)
    requires slots > 0 && producers > 0 && customers > 0
    ensures !Final(Program(slots, producers, customers), s)
  {
    ReachableInv(s, slots, producers, customers);
    var addr := FreshAddress(s.stack.heap);
    var choice := Choice(addr, Node(0, Null), 1);
    match s.stack.mutex
    case ByPusher(i) =>
      assert ProducerOk(s, i);
      ProducerMoves(s, slots, producers, customers, i, choice);
    case ByPopper(j) =>
      assert CustomerOk(s, j);
      CustomerMoves(s, slots, producers, customers, j);
    case Free =>
      assert ProducerOk(s, 0) && CustomerOk(s, 0);
      if s.sem1 > 0 || !s.ps[0].Wait1? {
        ProducerMoves(s, slots, producers, customers, 0, choice);
      } else if s.sem2 > 0 || !s.cs[0].Wait2? {
        CustomerMoves(s, slots, producers, customers, 0);
      } else if Sum(Filling, Producers(s)) > 0 {
        var i := SumPositive(Filling, Producers(s));
        assert ProducerOk(s, i);
        ProducerMoves(s, slots, producers, customers, i, choice);
      } else {
        var j := SumPositive(Draining, Customers(s));
        assert CustomerOk(s, j);
        CustomerMoves(s, slots, producers, customers, j);
      }
  }

  /** The steps that a producer has before it is back at line 24. */
  function StepsToWait(p: ProducerAt): nat {
    match p.pc
    case Wait1 => 0
    case Alloc => 1
    case Post2 => 2
    case Unlock => 3
    case Push =>
      (match p.stage
       case Print => 4
       case StoreHead => 5
       case StoreNext => 6
       case LoadHead => 7
       case _ => 8)
    case Lock => 9
  }

  /** The steps that the producers have without the customers: each free slot is good for one round. */
  ghost function ProducerFuel(s: State): nat
    requires |s.ps| == |s.stack.pushers|
  {
    10 * s.sem1 + Sum(StepsToWait, Producers(s))
  }

  lemma ProducerNearsWait(s: State, i: nat, choice: Choice)
    requires |s.ps| == |s.stack.pushers| && ProducerCan(s, i, choice) && ProducerOk(s, i)
    requires ProducerStep(s, i, choice).stack.fault == NoFault
    ensures var t := ProducerStep(s, i, choice);
      && |t.ps| == |t.stack.pushers| == |s.ps|
      && 10 * t.sem1 + StepsToWait(ProducerAt(t.ps[i], t.stack.pushers[i].stage))
         < 10 * s.sem1 + StepsToWait(ProducerAt(s.ps[i], s.stack.pushers[i].stage))
  {
  }

  lemma ProducerBurnsFuel(s: State, i: nat, choice: Choice, slots: nat, producers: nat, customers: nat)
    requires Inv(s, slots, producers, customers) && ProducerCan(s, i, choice)
    requires Inv(ProducerStep(s, i, choice), slots, producers, customers)
    ensures ProducerFuel(ProducerStep(s, i, choice)) < ProducerFuel(s)
  {
    var t := ProducerStep(s, i, choice);
    assert ProducerOk(s, i);
    ProducerNearsWait(s, i, choice);
    ProducerMovesAlone(s, i, choice, slots, producers, customers);
    SumUpdate(StepsToWait, Producers(s), i, ProducerAt(t.ps[i], t.stack.pushers[i].stage));
  }

  lemma CustomersWait(s: State, slots: nat, producers: nat, customers: nat, j: nat)
    requires Inv(s, slots, producers, customers) && (slots == 0 || customers == 0)
    ensures !CustomerCan(s, j)
  {
    if j < |s.cs| {
      SumAtLeast(Draining, Customers(s), j);
    }
  }

  /** Without customers, or without slots, the producers come to a stop. */
  lemma {:induction false} ProducersStop(s: State, slots: nat, producers: nat, customers: nat) returns (t: State)
    requires Reachable(Program(slots, producers, customers), s) && (slots == 0 || customers == 0)
    requires Inv(s, slots, producers, customers)
    ensures Reachable(Program(slots, producers, customers), t) && Final(Program(slots, producers, customers), t)
    decreases ProducerFuel(s)
  {
    var program := Program(slots, producers, customers);
    if Final(program, s) {
      t := s;
    } else {
      var u :| program.next(s, u);
      if CustomerNext(s, u) {
        var j :| CustomerCan(s, j) && u == CustomerStep(s, j);
        CustomersWait(s, slots, producers, customers, j);
      }
      var i, choice :| ProducerCan(s, i, choice) && u == ProducerStep(s, i, choice);
      StepReachable(program, s, u);
      ReachableInv(u, slots, producers, customers);
      ProducerBurnsFuel(s, i, choice, slots, producers, customers);
      t := ProducersStop(u, slots, producers, customers);
    }
  }

  /** The program cannot come to a stop if and only if it has a slot, a producer and a customer. */
  lemma NoDeadlockIff(slots: nat, producers: nat, customers: nat)
    ensures (forall s :: Reachable(Program(slots, producers, customers), s) ==>
                           !Final(Program(slots, producers, customers), s))
            <==> slots > 0 && producers > 0 && customers > 0
  {
    if slots > 0 && producers > 0 && customers > 0 {
      forall s | Reachable(Program(slots, producers, customers), s)
        ensures !Final(Program(slots, producers, customers), s)
      {
        NoDeadlock(s, slots, producers, customers);
      }
    } else {
      var s := Start(slots, producers, customers);
      InitReachable(Program(slots, producers, customers), s);
      if producers == 0 {
        assert Final(Program(slots, producers, customers), s);
      } else {
        StartInv(slots, producers, customers);
        var t := ProducersStop(s, slots, producers, customers);
      }
    }
  }

  // ---- Who can move, and what all the moves add up to ----

  ghost predicate SomebodyInside(s: State) {
    (exists i :: ProducerInside(s, i)) || (exists j :: CustomerInside(s, j))
  }

  /** A thread is kept from moving only by a semaphore at 0 or by a thread inside the critical section. */
  lemma BlockedIff(s: State, slots: nat, producers: nat, customers: nat, i: nat, j: nat)
    requires Reachable(Program(slots, producers, customers), s) && i < producers && j < customers
    ensures Threads(s, producers, customers)
    ensures (forall choice :: !ProducerCan(s, i, choice))
            <==> (s.ps[i].Wait1? && s.sem1 == 0) || (s.ps[i].Lock? && SomebodyInside(s))
    ensures !CustomerCan(s, j)
            <==> (s.cs[j].Wait2? && s.sem2 == 0) || (s.cs[j].Acquire? && SomebodyInside(s))
  {
    ReachableInv(s, slots, producers, customers);
    MutualExclusion(s, slots, producers, customers);
    assert ProducerOk(s, i) && CustomerOk(s, j);
    var addr := FreshAddress(s.stack.heap);
    var choice := Choice(addr, Node(0, Null), 1);
    assert !ProducerCan(s, i, choice)
      <==> (s.ps[i].Wait1? && s.sem1 == 0) || (s.ps[i].Lock? && s.stack.mutex != Free);
  }

  /** The steps of its round that a producer has taken, if it has not printed yet. */
  function ProducerAhead(p: ProducerAt): nat {
    match p.pc
    case Alloc => 0
    case Wait1 => 1
    case Lock => 2
    case Push =>
      (match p.stage
       case StoreData => 3
       case LoadHead => 4
       case StoreNext => 5
       case StoreHead => 6
       case Print => 7
       case Malloc => 0)
    case _ => 0
  }

  /** The steps that a producer that has printed is short of the end of its round. */
  function ProducerBack(p: ProducerAt): nat {
    if p.pc.Unlock? then 2 else if p.pc.Post2? then 1 else 0
  }

  function CustomerAhead(c: CustomerAt): nat {
    match c.pc
    case Acquire => 1
    case Pop => if c.stage.ReadHead? then 2 else if c.stage.PrintData? then 3 else 0
    case _ => 0
  }

  function CustomerBack(c: CustomerAt): nat {
    match c.pc
    case Pop =>
      (match c.stage
       case SetTemp => 7
       case ReloadHead => 6
       case LoadNext => 5
       case PopHead => 4
       case FreeTemp => 3
       case _ => 0)
    case Release => 2
    case Post1 => 1
    case _ => 0
  }

  /** The steps that lead to a state: ten for each number produced, eleven for each consumed, and those under way. */
  ghost function StepsTaken(s: State): int
    requires |s.ps| == |s.stack.pushers| && |s.cs| == |s.stack.poppers|
  {
    10 * |ProducedValues(s.stack.log)| + 11 * |ConsumedValues(s.stack.log)|
    + Sum(ProducerAhead, Producers(s)) - Sum(ProducerBack, Producers(s))
    + Sum(CustomerAhead, Customers(s)) - Sum(CustomerBack, Customers(s))
  }

  predicate Printing(p: ProducerAt) { p.pc.Push? && p.stage.Print? }

  predicate Taking(c: CustomerAt) { c.pc.Pop? && c.stage.PrintData? }

  lemma ProducerPlaceMoves(s: State, i: nat, choice: Choice)
    requires |s.ps| == |s.stack.pushers| && ProducerCan(s, i, choice) && ProducerOk(s, i)
    requires ProducerStep(s, i, choice).stack.fault == NoFault
    ensures var t := ProducerStep(s, i, choice);
      && |t.ps| == |t.stack.pushers| == |s.ps|
      && var p, q := ProducerAt(s.ps[i], s.stack.pushers[i].stage), ProducerAt(t.ps[i], t.stack.pushers[i].stage);
         ProducerAhead(q) - ProducerBack(q) + (if Printing(p) then 10 else 0)
         == ProducerAhead(p) - ProducerBack(p) + 1
  {
  }

  lemma ProducerLogGrows(s: State, i: nat, choice: Choice)
    requires LockedStack.Inv(s.stack) && i < |s.stack.pushers| && ProducerCan(s, i, choice) && ProducerOk(s, i)
    ensures var t, p := ProducerStep(s, i, choice), ProducerAt(s.ps[i], s.stack.pushers[i].stage);
      && |ProducedValues(t.stack.log)| == |ProducedValues(s.stack.log)| + (if Printing(p) then 1 else 0)
      && |ConsumedValues(t.stack.log)| == |ConsumedValues(s.stack.log)|
  {
    if s.ps[i].Alloc? || s.ps[i].Push? {
      PushEffect(s.stack, i, choice);
      if s.stack.pushers[i].stage.Print? {
        LogGrows(s.stack.log, PushStep(s.stack, i, choice).log[|s.stack.log|]);
      }
    }
  }

  lemma ProducerStepIsWork(s: State, i: nat, choice: Choice, slots: nat, producers: nat, customers: nat)
    requires Inv(s, slots, producers, customers) && ProducerCan(s, i, choice)
    requires Inv(ProducerStep(s, i, choice), slots, producers, customers)
    ensures StepsTaken(ProducerStep(s, i, choice)) == StepsTaken(s) + 1
  {
    var t := ProducerStep(s, i, choice);
    assert ProducerOk(s, i);
    ProducerMovesAlone(s, i, choice, slots, producers, customers);
    ProducerPlaceMoves(s, i, choice);
    ProducerLogGrows(s, i, choice);
    SumUpdate(ProducerAhead, Producers(s), i, ProducerAt(t.ps[i], t.stack.pushers[i].stage));
    SumUpdate(ProducerBack, Producers(s), i, ProducerAt(t.ps[i], t.stack.pushers[i].stage));
  }

  lemma CustomerPlaceMoves(s: State, j: nat)
    requires |s.cs| == |s.stack.poppers| && CustomerCan(s, j) && CustomerOk(s, j)
    requires CustomerStep(s, j).stack.fault == NoFault
    ensures var t := CustomerStep(s, j);
      && |t.cs| == |t.stack.poppers| == |s.cs|
      && var c, e := CustomerAt(s.cs[j], s.stack.poppers[j].stage), CustomerAt(t.cs[j], t.stack.poppers[j].stage);
         CustomerAhead(e) - CustomerBack(e) + (if Taking(c) then 11 else 0)
         == CustomerAhead(c) - CustomerBack(c) + 1
  {
  }

  lemma CustomerLogGrows(s: State, j: nat)
    requires LockedStack.Inv(s.stack) && j < |s.stack.poppers| && CustomerCan(s, j) && CustomerOk(s, j)
    requires s.cs[j].Pop? && s.stack.poppers[j].stage.PrintData? ==> s.stack.chain != []
    ensures var t, c := CustomerStep(s, j), CustomerAt(s.cs[j], s.stack.poppers[j].stage);
      && |ConsumedValues(t.stack.log)| == |ConsumedValues(s.stack.log)| + (if Taking(c) then 1 else 0)
      && |ProducedValues(t.stack.log)| == |ProducedValues(s.stack.log)|
  {
    if s.cs[j].Pop? {
      PopEffect(s.stack, j);
      if s.stack.poppers[j].stage.PrintData? {
        LogGrows(s.stack.log, PopStep(s.stack, j).log[|s.stack.log|]);
      }
    }
  }

  lemma CustomerStepIsWork(s: State, j: nat, slots: nat, producers: nat, customers: nat)
    requires Inv(s, slots, producers, customers) && CustomerCan(s, j)
    requires Inv(CustomerStep(s, j), slots, producers, customers)
    ensures StepsTaken(CustomerStep(s, j)) == StepsTaken(s) + 1
  {
    var t := CustomerStep(s, j);
    assert CustomerOk(s, j);
    SumAtLeast(Claimed, Customers(s), j);
    CustomerMovesAlone(s, j, slots, producers, customers);
    CustomerPlaceMoves(s, j);
    CustomerLogGrows(s, j);
    SumUpdate(CustomerAhead, Customers(s), j, CustomerAt(t.cs[j], t.stack.poppers[j].stage));
    SumUpdate(CustomerBack, Customers(s), j, CustomerAt(t.cs[j], t.stack.poppers[j].stage));
  }

  lemma {:induction false} StepsAreTaken(run: seq<State>, n: nat, slots: nat, producers: nat, customers: nat)
    requires IsRun(Program(slots, producers, customers), run) && n < |run|
    ensures Threads(run[n], producers, customers) && n == StepsTaken(run[n])
  {
    var program := Program(slots, producers, customers);
    OnRunReachable(program, run, n);
    ReachableInv(run[n], slots, producers, customers);
    if n == 0 {
      SumZero(ProducerAhead, Producers(run[0]));
      SumZero(ProducerBack, Producers(run[0]));
      SumZero(CustomerAhead, Customers(run[0]));
      SumZero(CustomerBack, Customers(run[0]));
    } else {
      StepsAreTaken(run, n - 1, slots, producers, customers);
      OnRunReachable(program, run, n - 1);
      ReachableInv(run[n - 1], slots, producers, customers);
      assert program.next(run[n - 1], run[n - 1 + 1]);
      if ProducerNext(run[n - 1], run[n]) {
        var i: nat, choice :| ProducerCan(run[n - 1], i, choice) && run[n] == ProducerStep(run[n - 1], i, choice);
        ProducerStepIsWork(run[n - 1], i, choice, slots, producers, customers);
      } else {
        var j: nat :| CustomerCan(run[n - 1], j) && run[n] == CustomerStep(run[n - 1], j);
        CustomerStepIsWork(run[n - 1], j, slots, producers, customers);
      }
    }
  }

  /** Every step is work: on every run, n steps make ten for each number produced and eleven for each consumed, up to
      one round of each thread; and the customers are at most the slots behind. */
  lemma EveryStepIsWork(run: seq<State>, n: nat, slots: nat, producers: nat, customers: nat)
    requires IsRun(Program(slots, producers, customers), run) && n < |run|
    ensures var made, used := |ProducedValues(run[n].stack.log)|, |ConsumedValues(run[n].stack.log)|;
      && 10 * made + 11 * used - 2 * producers - 7 * customers <= n
      && n <= 10 * made + 11 * used + 7 * producers + 3 * customers
      && used <= made <= used + slots
  {
    StepsAreTaken(run, n, slots, producers, customers);
    SumBounded(ProducerAhead, Producers(run[n]), 7);
    SumBounded(ProducerBack, Producers(run[n]), 2);
    SumBounded(CustomerAhead, Customers(run[n]), 3);
    SumBounded(CustomerBack, Customers(run[n]), 7);
    OnRunReachable(Program(slots, producers, customers), run, n);
    var s := run[n];
    var left := NothingLost(s, slots, producers, customers);
    SlotsAndLength(s, slots, producers, customers);
    assert |multiset(ProducedValues(s.stack.log))| == |ProducedValues(s.stack.log)|;
    assert |multiset(ConsumedValues(s.stack.log)) + multiset(left)| == |ConsumedValues(s.stack.log)| + |left|;
  }

  // ---- Which numbers can be produced: exactly those that line 38 draws ----

  lemma ProducerKeepsData(s: State, i: nat, choice: Choice, slots: nat, producers: nat, customers: nat)
    requires Inv(s, slots, producers, customers) && ProducerCan(s, i, choice) && DataOk(s.stack)
    ensures DataOk(ProducerStep(s, i, choice).stack)
  {
    assert ProducerOk(s, i);
    if s.ps[i].Alloc? || s.ps[i].Push? {
      PushKeepsData(s.stack, i, choice);
    } else {
      DataUntouched(s.stack, ProducerStep(s, i, choice).stack);
    }
  }

  lemma CustomerKeepsData(s: State, j: nat, slots: nat, producers: nat, customers: nat)
    requires Inv(s, slots, producers, customers) && CustomerCan(s, j) && DataOk(s.stack)
    ensures DataOk(CustomerStep(s, j).stack)
  {
    assert CustomerOk(s, j);
    if s.cs[j].Pop? {
      PopKeepsData(s.stack, j);
    } else {
      DataUntouched(s.stack, CustomerStep(s, j).stack);
    }
  }

  lemma ReachableData(s: State, slots: nat, producers: nat, customers: nat)
    requires Reachable(Program(slots, producers, customers), s)
    ensures DataOk(s.stack)
  {
    var inv := (t: State) => Inv(t, slots, producers, customers) && DataOk(t.stack);
    StartInv(slots, producers, customers);
    forall u, v | inv(u) && Program(slots, producers, customers).next(u, v)
      ensures inv(v)
    {
      StepKeepsInv(u, v, slots, producers, customers);
      if ProducerNext(u, v) {
        var i: nat, choice :| ProducerCan(u, i, choice) && v == ProducerStep(u, i, choice);
        ProducerKeepsData(u, i, choice, slots, producers, customers);
      } else {
        var j: nat :| CustomerCan(u, j) && v == CustomerStep(u, j);
        CustomerKeepsData(u, j, slots, producers, customers);
      }
    }
    InductiveHoldsWhenReachable(Program(slots, producers, customers), inv, s);
  }

  /** The statements of a producer's round, and those of a customer's. */
  function ProducerRound(): (round: seq<ProducerAt>)
    ensures |round| == 11
  {
    [ProducerAt(Alloc, Malloc), ProducerAt(Wait1, StoreData), ProducerAt(Lock, StoreData),
     ProducerAt(Push, StoreData), ProducerAt(Push, LoadHead), ProducerAt(Push, StoreNext), ProducerAt(Push, StoreHead),
     ProducerAt(Push, Print), ProducerAt(Unlock, Malloc), ProducerAt(Post2, Malloc), ProducerAt(Alloc, Malloc)]
  }

  function CustomerRound(): (round: seq<CustomerAt>)
    ensures |round| == 12
  {
    [CustomerAt(Wait2, ReadHead), CustomerAt(Acquire, ReadHead), CustomerAt(Pop, ReadHead), CustomerAt(Pop, PrintData),
     CustomerAt(Pop, SetTemp), CustomerAt(Pop, ReloadHead), CustomerAt(Pop, LoadNext), CustomerAt(Pop, PopHead),
     CustomerAt(Pop, FreeTemp), CustomerAt(Release, ReadHead), CustomerAt(Post1, ReadHead),
     CustomerAt(Wait2, ReadHead)]
  }

  /** The first producer and the first customer stand at the beginning of their rounds, and the others are out of
      the way. */
  ghost predicate BetweenRounds(s: State, slots: nat, producers: nat, customers: nat) {
    && Reachable(Program(slots, producers, customers), s) && Threads(s, producers, customers)
    && producers > 0 && customers > 0 && s.ps[0].Alloc? && s.cs[0].Wait2?
    && s.stack.mutex == Free && s.sem1 > 0
  }

  ghost predicate ProducerStands(s: State, n: nat)
    requires n < 11
  {
    |s.ps| > 0 && |s.stack.pushers| > 0 && ProducerAt(s.ps[0], s.stack.pushers[0].stage) == ProducerRound()[n]
  }

  lemma ProducerPlaceNext(s: State, n: nat, choice: Choice)
    requires n < 10 && ProducerStands(s, n) && ProducerCan(s, 0, choice)
    requires s.ps[0].Alloc? || s.ps[0].Push? ==>
      var t := PushStep(s.stack, 0, choice);
      |t.pushers| == |s.stack.pushers| && t.pushers[0].stage == PushStageAfter(s.stack.pushers[0].stage)
      && t.mutex == s.stack.mutex
    ensures var t := ProducerStep(s, 0, choice);
      && ProducerStands(t, n + 1) && t.cs == s.cs
      && (n != 1 ==> t.sem1 == s.sem1) && t.sem2 == (if n == 9 then s.sem2 + 1 else s.sem2)
      && (n < 2 || n == 9 ==> t.stack.mutex == s.stack.mutex) && (n == 8 ==> t.stack.mutex == Free)
  {
  }

  lemma ProducerDataNext(s: State, n: nat, choice: Choice)
    requires LockedStack.Inv(s.stack) && n < 10 && ProducerStands(s, n) && ProducerCan(s, 0, choice)
    requires ProducerOk(s, 0)
    ensures var t := ProducerStep(s, 0, choice);
      && (n == 3 ==> NodeHolds(t.stack, choice.value))
      && (forall v | 4 <= n <= 6 && NodeHolds(s.stack, v) :: NodeHolds(t.stack, v))
      && (forall v | n == 7 && NodeHolds(s.stack, v) :: t.stack.log == s.stack.log + [Produced(v)])
      && (n != 7 ==> t.stack.log == s.stack.log)
  {
    if s.ps[0].Alloc? || s.ps[0].Push? {
      PushEffect(s.stack, 0, choice);
    }
  }

  lemma ProducerGoesOn(s: State, n: nat, v: int, slots: nat, producers: nat, customers: nat) returns (t: State)
    requires Reachable(Program(slots, producers, customers), s) && n < 10 && ProducerStands(s, n) && Drawn(v)
    requires (n == 1 ==> s.sem1 > 0) && (n == 2 ==> s.stack.mutex == Free)
    ensures Reachable(Program(slots, producers, customers), t) && ProducerStands(t, n + 1)
    ensures t.cs == s.cs
    ensures n != 1 ==> t.sem1 == s.sem1
    ensures t.sem2 == if n == 9 then s.sem2 + 1 else s.sem2
    ensures n < 2 || n == 9 ==> t.stack.mutex == s.stack.mutex
    ensures n == 8 ==> t.stack.mutex == Free
    ensures n == 3 ==> NodeHolds(t.stack, v)
    ensures 4 <= n <= 6 && NodeHolds(s.stack, v) ==> NodeHolds(t.stack, v)
    ensures n == 7 && NodeHolds(s.stack, v) ==> t.stack.log == s.stack.log + [Produced(v)]
    ensures n != 7 ==> t.stack.log == s.stack.log
  {
    ReachableInv(s, slots, producers, customers);
    assert ProducerOk(s, 0);
    var addr := FreshAddress(s.stack.heap);
    var choice := Choice(addr, Node(0, Null), v);
    assert ProducerCan(s, 0, choice);
    if s.ps[0].Alloc? || s.ps[0].Push? {
      PushEffect(s.stack, 0, choice);
    }
    ProducerPlaceNext(s, n, choice);
    ProducerDataNext(s, n, choice);
    t := ProducerStep(s, 0, choice);
    assert ProducerNext(s, t);
    StepReachable(Program(slots, producers, customers), s, t);
  }

  lemma ProduceOne(s: State, v: int, slots: nat, producers: nat, customers: nat) returns (t: State)
    requires BetweenRounds(s, slots, producers, customers) && Drawn(v)
    ensures Reachable(Program(slots, producers, customers), t) && t.cs == s.cs && t.sem2 > 0
    ensures ProducerStands(t, 0) && t.stack.mutex == Free && t.stack.log == s.stack.log + [Produced(v)]
  {
    ReachableInv(s, slots, producers, customers);
    assert ProducerOk(s, 0);
    t := s;
    for n := 0 to 10
      invariant Reachable(Program(slots, producers, customers), t) && ProducerStands(t, n) && t.cs == s.cs
      invariant n < 2 ==> t.sem1 > 0
      invariant n <= 2 || n >= 9 ==> t.stack.mutex == Free
      invariant 4 <= n <= 7 ==> NodeHolds(t.stack, v)
      invariant t.stack.log == if n <= 7 then s.stack.log else s.stack.log + [Produced(v)]
      invariant n == 10 ==> t.sem2 > 0
    {
      t := ProducerGoesOn(t, n, v, slots, producers, customers);
    }
  }

  ghost predicate CustomerStands(s: State, n: nat)
    requires n < 12
  {
    |s.cs| > 0 && |s.stack.poppers| > 0 && CustomerAt(s.cs[0], s.stack.poppers[0].stage) == CustomerRound()[n]
  }

  lemma CustomerPlaceNext(s: State, n: nat)
    requires n < 11 && CustomerStands(s, n) && CustomerCan(s, 0)
    requires s.cs[0].Pop? ==>
      var t := PopStep(s.stack, 0);
      && |t.poppers| == |s.stack.poppers| && t.poppers[0].stage == PopStageAfter(s.stack.poppers[0].stage)
      && t.pushers == s.stack.pushers
    ensures var t := CustomerStep(s, 0);
      && CustomerStands(t, n + 1) && t.ps == s.ps && t.stack.pushers == s.stack.pushers
      && (n == 10 ==> t.sem1 > 0) && (n == 0 || n == 10 ==> t.stack.mutex == s.stack.mutex)
      && (n == 9 ==> t.stack.mutex == Free)
      && t.stack.log == (if s.cs[0].Pop? then PopStep(s.stack, 0).log else s.stack.log)
  {
  }

  lemma CustomerGoesOn(s: State, n: nat, slots: nat, producers: nat, customers: nat) returns (t: State)
    requires Reachable(Program(slots, producers, customers), s) && n < 11 && CustomerStands(s, n)
    requires (n == 0 ==> s.sem2 > 0) && (n == 1 ==> s.stack.mutex == Free)
    ensures Reachable(Program(slots, producers, customers), t) && CustomerStands(t, n + 1)
    ensures t.ps == s.ps && t.stack.pushers == s.stack.pushers
    ensures n == 10 ==> t.sem1 > 0
    ensures n == 0 || n == 10 ==> t.stack.mutex == s.stack.mutex
    ensures n == 9 ==> t.stack.mutex == Free
    ensures if n == 3 then exists w :: t.stack.log == s.stack.log + [Consumed(w)] else t.stack.log == s.stack.log
  {
    ReachableInv(s, slots, producers, customers);
    assert CustomerOk(s, 0) && CustomerCan(s, 0);
    SumAtLeast(Claimed, Customers(s), 0);
    if s.cs[0].Pop? {
      PopEffect(s.stack, 0);
    }
    CustomerPlaceNext(s, n);
    t := CustomerStep(s, 0);
    assert CustomerNext(s, t);
    StepReachable(Program(slots, producers, customers), s, t);
  }

  lemma ConsumeOne(s: State, slots: nat, producers: nat, customers: nat) returns (t: State)
    requires Reachable(Program(slots, producers, customers), s) && customers > 0
    requires ProducerStands(s, 0) && |s.cs| > 0 && s.cs[0].Wait2? && s.stack.mutex == Free && s.sem2 > 0
    ensures BetweenRounds(t, slots, producers, customers)
    ensures exists w :: t.stack.log == s.stack.log + [Consumed(w)]
  {
    ReachableInv(s, slots, producers, customers);
    assert CustomerOk(s, 0);
    t := s;
    for n := 0 to 11
      invariant Reachable(Program(slots, producers, customers), t) && CustomerStands(t, n)
      invariant t.ps == s.ps && t.stack.pushers == s.stack.pushers
      invariant n == 0 ==> t.sem2 > 0
      invariant n == 11 ==> t.sem1 > 0
      invariant n <= 1 || n >= 10 ==> t.stack.mutex == Free
      invariant if n <= 3 then t.stack.log == s.stack.log
                else exists w :: t.stack.log == s.stack.log + [Consumed(w)]
    {
      t := CustomerGoesOn(t, n, slots, producers, customers);
    }
    ReachableInv(t, slots, producers, customers);
  }

  lemma ProduceAll(values: seq<int>, slots: nat, producers: nat, customers: nat) returns (s: State)
    requires slots > 0 && producers > 0 && customers > 0 && forall v | v in values :: Drawn(v)
    ensures Reachable(Program(slots, producers, customers), s) && ProducedValues(s.stack.log) == values
  {
    s := Start(slots, producers, customers);
    InitReachable(Program(slots, producers, customers), s);
    for n := 0 to |values|
      invariant BetweenRounds(s, slots, producers, customers) && ProducedValues(s.stack.log) == values[..n]
    {
      var t := ProduceOne(s, values[n], slots, producers, customers);
      var u := ConsumeOne(t, slots, producers, customers);
      var w :| u.stack.log == t.stack.log + [Consumed(w)];
      ProducedAppend(s.stack.log, values[n], w);
      assert values[..n + 1] == values[..n] + [values[n]];
      s := u;
    }
    assert values[..|values|] == values;
  }

  /** The numbers that can be produced, in this order, are exactly the sequences of numbers from 1 to 100. */
  lemma ProducibleIff(values: seq<int>, slots: nat, producers: nat, customers: nat)
    requires slots > 0 && producers > 0 && customers > 0
    ensures (exists s :: Reachable(Program(slots, producers, customers), s) && ProducedValues(s.stack.log) == values)
            <==> forall v | v in values :: 1 <= v <= 100
  {
    if forall v | v in values :: 1 <= v <= 100 {
      assert forall v | v in values :: Drawn(v);
      var s := ProduceAll(values, slots, producers, customers);
    }
    if s :| Reachable(Program(slots, producers, customers), s) && ProducedValues(s.stack.log) == values {
      ReachableData(s, slots, producers, customers);
      ProducedDrawn(s.stack.log);
      assert forall v | v in values :: Drawn(v);
    }
  }

  // ---- The program in place ----

  datatype Turn = ProducerTurn(i: nat, choice: Choice) | CustomerTurn(j: nat)

  /** The semaphores, the shared memory and the next statements of the threads, updated one statement at a time. */
  class Process {
    const memory: Memory
    var ps: seq<ProducerPc>
    var cs: seq<CustomerPc>
    var sem1: nat
    var sem2: nat

    function Now(): State
      reads this, memory
    {
      State(ps, cs, sem1, sem2, memory.Now())
    }

    constructor (slots: nat, producers: nat, customers: nat)
      ensures fresh(memory) && Now() == Start(slots, producers, customers)
    {
      memory := new Memory(producers, customers);
      ps := seq(producers, _ => Alloc);
      cs := seq(customers, _ => Wait2);
      sem1, sem2 := slots, 0;
    }

    /** Runs the next statement of producer `i`, unless it is blocked. */
    method Produce(i: nat, choice: Choice)
      modifies this, memory
      ensures Now() == if ProducerCan(old(Now()), i, choice) then ProducerStep(old(Now()), i, choice) else old(Now())
    {
      if !ProducerCan(Now(), i, choice) {
        return;
      }
      match ps[i]
      case Alloc =>
        memory.Push(i, choice);
        ps := ps[i := Wait1];
      case Wait1 => sem1, ps := sem1 - 1, ps[i := Lock];
      case Lock =>
        memory.mutex := ByPusher(i);
        ps := ps[i := Push];
      case Push =>
        var last := memory.pushers[i].stage.Print?;
        memory.Push(i, choice);
        if last {
          ps := ps[i := Unlock];
        }
      case Unlock =>
        memory.mutex := Free;
        ps := ps[i := Post2];
      case Post2 => sem2, ps := sem2 + 1, ps[i := Alloc];
    }

    /** Runs the next statement of customer `j`, unless it is blocked. */
    method Consume(j: nat)
      modifies this, memory
      ensures Now() == if CustomerCan(old(Now()), j) then CustomerStep(old(Now()), j) else old(Now())
    {
      if !CustomerCan(Now(), j) {
        return;
      }
      match cs[j]
      case Wait2 => sem2, cs := sem2 - 1, cs[j := Acquire];
      case Acquire =>
        memory.mutex := ByPopper(j);
        cs := cs[j := Pop];
      case Pop =>
        var last := memory.poppers[j].stage.FreeTemp?;
        memory.Pop(j);
        if last {
          cs := cs[j := Release];
        }
      case Release =>
        memory.mutex := Free;
        cs := cs[j := Post1];
      case Post1 => sem1, cs := sem1 + 1, cs[j := Wait2];
    }

    /** Runs any schedule from the start: no fault, never more nodes than slots, and nothing lost. */
    method Run(slots: nat, producers: nat, customers: nat, schedule: seq<Turn>)
      requires Now() == Start(slots, producers, customers)
      modifies this, memory
      ensures Reachable(Program(slots, producers, customers), Now())
      ensures memory.fault == NoFault && |memory.chain| <= slots
      ensures LockedStack.Inv(memory.Now()) && (LogBehind(memory.Now()) ==> Contents(memory.Now()) != [])
      ensures var contents := Contents(memory.Now());
        var left := if LogBehind(memory.Now()) then contents[1..] else contents;
        && Replays(memory.log, left)
        && multiset(ProducedValues(memory.log)) == multiset(ConsumedValues(memory.log)) + multiset(left)
    {
      ghost var program := Program(slots, producers, customers);
      InitReachable(program, Now());
      for k := 0 to |schedule|
        invariant Reachable(program, Now())
      {
        ghost var before := Now();
        match schedule[k]
        case ProducerTurn(i, choice) =>
          Produce(i, choice);
          if ProducerCan(before, i, choice) {
            StepReachable(program, before, Now());
          }
        case CustomerTurn(j) =>
          Consume(j);
          if CustomerCan(before, j) {
            StepReachable(program, before, Now());
          }
      }
      SlotsAndLength(Now(), slots, producers, customers);
      MemorySafe(Now(), slots, producers, customers, 0);
      ghost var left := NothingLost(Now(), slots, producers, customers);
    }
  }
}
