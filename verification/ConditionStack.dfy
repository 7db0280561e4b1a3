/** 09_Day09/04_cond: a producer pushes nodes on a shared list and signals a condition variable; a customer
    waits on it when it finds the list empty. The model has any number of both. The accesses to the list are those of
    LockedStack.
    The program as written tests `NULL == head` once (line 68) and signals after unlocking (line 47);
    `Design` also covers its three repairs, so that what each choice costs can be stated.
    Waiting follows POSIX.1-2017, System Interfaces, pthread_cond_wait and pthread_cond_signal: waiting
    releases the mutex and blocks in one step, a signal unblocks at least one waiting thread if there is any,
    an unblocked thread takes the mutex again before it returns, and it may also wake up for no reason. */
module ConditionStack {
  import opened Runs
  import opened HeapStack
  import opened StackLog
  import opened LockedStack

  datatype Design = Design(
    retest: bool,        // line 68 tests again after every wakeup (while instead of if)
    signalInside: bool,  // line 47 comes before line 40
    spurious: bool,      // a wait may return without a signal
    mallocMayFail: bool, // line 21 may return NULL
    producers: nat,      // the program has one
    customers: nat       // the program has one
  )

  const AS_WRITTEN: Design := Design(false, false, true, true, 1, 1)

  datatype ProducerPc =
    | Alloc    // lines 20-22
    | Lock     // line 27
    | Push     // lines 34-38
    | Unlock   // line 40
    | Signal   // line 47
    | Stopped  // line 25 or 50

  datatype CustomerPc =
    | Acquire  // line 61
    | Test     // line 68
    | Wait     // line 71, on entry
    | Blocked  // line 71, waiting for a signal
    | Woken    // line 71, taking the mutex again
    | Pop      // lines 79-84
    | Release  // line 86

  datatype State = State(ps: seq<ProducerPc>, cs: seq<CustomerPc>, stack: Stack)

  /** What a producer does not decide: what malloc returns, whether it fails, whom a signal unblocks. */
  datatype ProducerChoice = ProducerChoice(node: Choice, mallocFails: bool, woken: set<nat>)

  predicate MayWake(s: State, woken: set<nat>) {
    && (forall j | j in woken :: j < |s.cs| && s.cs[j].Blocked?)
    && ((forall j | 0 <= j < |s.cs| :: !s.cs[j].Blocked?) || woken != {})
  }

  predicate ProducerCan(d: Design, s: State, i: nat, choice: ProducerChoice) {
    && i < |s.ps|
    && s.stack.fault == NoFault
    && match s.ps[i]
       case Alloc => if choice.mallocFails then d.mallocMayFail else PushCan(s.stack, i, choice.node)
       case Lock => s.stack.mutex == Free
       case Push => PushCan(s.stack, i, choice.node)
       case Unlock => true
       case Signal => MayWake(s, choice.woken)
       case Stopped => false
  }

  function ProducerStep(d: Design, s: State, i: nat, choice: ProducerChoice): State
    requires ProducerCan(d, s, i, choice)
  {
    match s.ps[i]
    case Alloc =>
      if choice.mallocFails then s.(ps := s.ps[i := Stopped])
      else s.(stack := PushStep(s.stack, i, choice.node), ps := s.ps[i := Lock])
    case Lock => s.(stack := s.stack.(mutex := ByPusher(i)), ps := s.ps[i := Push])
    case Push =>
      s.(stack := PushStep(s.stack, i, choice.node),
         ps := if s.stack.pushers[i].stage.Print? then s.ps[i := AfterPush(d)] else s.ps)
    case Unlock =>
      s.(stack := s.stack.(mutex := Free), ps := s.ps[i := if d.signalInside then Alloc else Signal])
    case Signal =>
      s.(cs := Wake(s.cs, choice.woken), ps := s.ps[i := if d.signalInside then Unlock else Alloc])
  }

  function AfterPush(d: Design): ProducerPc { if d.signalInside then Signal else Unlock }

  function Wake(cs: seq<CustomerPc>, woken: set<nat>): (after: seq<CustomerPc>)
    ensures |after| == |cs|
  {
    seq(|cs|, j requires 0 <= j < |cs| => if j in woken then Woken else cs[j])
  }

  predicate CustomerCan(d: Design, s: State, j: nat) {
    && j < |s.cs|
    && s.stack.fault == NoFault
    && match s.cs[j]
       case Acquire => s.stack.mutex == Free
       case Blocked => d.spurious
       case Woken => s.stack.mutex == Free
       case Pop => PopCan(s.stack, j)
       case _ => true
  }

  function CustomerStep(d: Design, s: State, j: nat): State
    requires CustomerCan(d, s, j)
  {
    match s.cs[j]
    case Acquire => s.(stack := s.stack.(mutex := ByPopper(j)), cs := s.cs[j := Test])
    case Test => s.(cs := s.cs[j := if s.stack.head == Null then Wait else Pop])
    case Wait => s.(stack := s.stack.(mutex := Free), cs := s.cs[j := Blocked])
    case Blocked => s.(cs := s.cs[j := Woken])
    case Woken =>
      s.(stack := s.stack.(mutex := ByPopper(j)), cs := s.cs[j := if d.retest then Test else Pop])
    case Pop =>
      s.(stack := PopStep(s.stack, j),
         cs := if s.stack.poppers[j].stage.FreeTemp? then s.cs[j := Release] else s.cs)
    case Release => s.(stack := s.stack.(mutex := Free), cs := s.cs[j := Acquire])
  }

  function Start(d: Design): State {
    State(seq(d.producers, _ => Alloc), seq(d.customers, _ => Acquire),
          Stack(seq(d.producers, _ => Pusher(Malloc, Null, Null)),
                seq(d.customers, _ => Popper(ReadHead, Null, Null)),
                Free, Null, map[], [], NoFault, []))
  }

  ghost predicate ProducerNext(d: Design, s: State, t: State) {
    exists i, choice :: ProducerCan(d, s, i, choice) && t == ProducerStep(d, s, i, choice)
  }

  ghost predicate CustomerNext(d: Design, s: State, t: State) {
    exists j :: CustomerCan(d, s, j) && t == CustomerStep(d, s, j)
  }

  ghost function Program(d: Design): System<State> {
    System(s => s == Start(d), (s, t) => ProducerNext(d, s, t) || CustomerNext(d, s, t))
  }

  // ---- The invariant ----

  /** The designs in which a customer at line 79 never sees NULL. */
  predicate Safe(d: Design) {
    d.retest || (!d.spurious && (d.producers == 0 || (d.signalInside && d.customers <= 1)))
  }

  /** Producer `i` has linked a node at line 36 and has not signalled since. */
  predicate SignalDueBy(d: Design, s: State, i: nat) {
    && i < |s.ps| && i < |s.stack.pushers|
    && (|| (s.ps[i].Push? && s.stack.pushers[i].stage.Print?)
        || (s.ps[i].Unlock? && !d.signalInside)
        || s.ps[i].Signal?)
  }

  ghost predicate SignalDue(d: Design, s: State) {
    exists i :: SignalDueBy(d, s, i)
  }

  predicate ProducerOk(d: Design, s: State, i: nat)
    requires i < |s.ps| && i < |s.stack.pushers|
  {
    var stage := s.stack.pushers[i].stage;
    && (s.stack.mutex == ByPusher(i) <==> s.ps[i].Push? || (d.signalInside && s.ps[i].Signal?) || s.ps[i].Unlock?)
    && (d.signalInside && s.ps[i].Signal? ==> s.stack.chain != [])
    && (s.ps[i].Stopped? ==> d.mallocMayFail)
    && match s.ps[i]
       case Lock => stage.StoreData?
       case Push => !stage.Malloc?
       case _ => stage.Malloc?
  }

  predicate CustomerOk(d: Design, s: State, j: nat)
    requires j < |s.cs| && j < |s.stack.poppers|
  {
    var stage := s.stack.poppers[j].stage;
    && (s.stack.mutex == ByPopper(j) <==> s.cs[j].Test? || s.cs[j].Wait? || s.cs[j].Pop? || s.cs[j].Release?)
    && (stage.ReadHead? || s.cs[j].Pop?)
    && (s.cs[j].Wait? ==> s.stack.chain == [])
    && (Safe(d) && s.cs[j].Pop? && (stage.ReadHead? || stage.PrintData?) ==> s.stack.chain != [])
    && (Safe(d) && !d.retest && s.cs[j].Woken? ==> s.stack.chain != [] && d.producers > 0)
  }

  /** Data is never left beside customers that all sleep: a signal is due or somebody is awake. */
  ghost predicate NobodyStranded(d: Design, s: State) {
    d.customers > 0 && s.stack.chain != [] && !SignalDue(d, s) ==>
      exists j :: 0 <= j < |s.cs| && !s.cs[j].Blocked?
  }

  ghost predicate Threads(d: Design, s: State) {
    |s.ps| == |s.stack.pushers| == d.producers && |s.cs| == |s.stack.poppers| == d.customers
  }

  ghost predicate Synced(d: Design, s: State)
    requires Threads(d, s)
  {
    && (forall i: nat | i < |s.ps| :: ProducerOk(d, s, i))
    && (forall j: nat | j < |s.cs| :: CustomerOk(d, s, j))
    && (s.stack.mutex.ByPusher? ==> s.stack.mutex.i < |s.ps|)
    && (s.stack.mutex.ByPopper? ==> s.stack.mutex.j < |s.cs|)
  }

  ghost predicate Inv(d: Design, s: State) {
    && Threads(d, s)
    && Synced(d, s)
    && LockedStack.Inv(s.stack)
    && NobodyStranded(d, s)
    && (Safe(d) || d.customers == 0 ==> s.stack.fault == NoFault)
  }

  lemma StartInv(d: Design)
    ensures Inv(d, Start(d))
  {
    var s := Start(d);
    assert forall i: nat | i < d.producers :: ProducerOk(d, s, i) && PusherOk(s.stack, i);
    assert forall j: nat | j < d.customers :: CustomerOk(d, s, j) && PopperOk(s.stack, j);
  }

  lemma ProducerKeepsStack(d: Design, s: State, i: nat, choice: ProducerChoice)
    requires Inv(d, s) && ProducerCan(d, s, i, choice)
    ensures var t := ProducerStep(d, s, i, choice); LockedStack.Inv(t.stack) && t.stack.fault == NoFault
  {
    assert ProducerOk(d, s, i);
    match s.ps[i]
    case Alloc =>
      if !choice.mallocFails {
        PushKeepsInv(s.stack, i, choice.node);
      }
    case Push => PushKeepsInv(s.stack, i, choice.node);
    case Lock =>
      QuietWhen(s.stack);
      MutexKeepsInv(s.stack, ByPusher(i));
    case Unlock =>
      QuietWhen(s.stack);
      MutexKeepsInv(s.stack, Free);
    case _ =>
  }

  lemma ProducerKeepsProducers(d: Design, s: State, i: nat, choice: ProducerChoice)
    requires Inv(d, s) && ProducerCan(d, s, i, choice)
    requires ProducerStep(d, s, i, choice).stack.fault == NoFault
    ensures var t := ProducerStep(d, s, i, choice);
      Threads(d, t) && forall k: nat | k < |t.ps| :: ProducerOk(d, t, k)
  {
    var t := ProducerStep(d, s, i, choice);
    assert ProducerOk(d, s, i) && PusherOk(s.stack, i);
    forall k: nat | k < |t.ps|
      ensures ProducerOk(d, t, k)
    {
      assert ProducerOk(d, s, k);
    }
  }

  lemma ProducerKeepsCustomers(d: Design, s: State, i: nat, choice: ProducerChoice)
    requires Inv(d, s) && ProducerCan(d, s, i, choice)
    requires Threads(d, ProducerStep(d, s, i, choice))
    requires LockedStack.Inv(ProducerStep(d, s, i, choice).stack)
    ensures var t := ProducerStep(d, s, i, choice); forall j: nat | j < |t.cs| :: CustomerOk(d, t, j)
  {
    var t := ProducerStep(d, s, i, choice);
    assert ProducerOk(d, s, i) && PusherOk(t.stack, i);
    forall j: nat | j < |t.cs|
      ensures CustomerOk(d, t, j)
    {
      assert CustomerOk(d, s, j);
    }
  }

  lemma SignalWakes(s: State, woken: set<nat>)
    requires MayWake(s, woken) && |s.cs| > 0
    ensures exists j :: 0 <= j < |s.cs| && !Wake(s.cs, woken)[j].Blocked?
  {
    if woken == {} {
      assert !Wake(s.cs, woken)[0].Blocked?;
    } else {
      var j :| j in woken;
      assert !Wake(s.cs, woken)[j].Blocked?;
    }
  }

  /** Nothing but the signal ends its being due, and a node is linked only by a producer that owes one. */
  lemma SignalStaysDue(d: Design, s: State, i: nat, choice: ProducerChoice)
    requires Threads(d, s) && ProducerCan(d, s, i, choice) && ProducerOk(d, s, i) && !s.ps[i].Signal?
    requires ProducerStep(d, s, i, choice).stack.fault == NoFault
    ensures var t := ProducerStep(d, s, i, choice);
      && t.cs == s.cs
      && (forall k :: SignalDueBy(d, s, k) ==> SignalDueBy(d, t, k))
      && (t.stack.chain == s.stack.chain || SignalDueBy(d, t, i))
  {
  }

  lemma ProducerStrandsNobody(d: Design, s: State, i: nat, choice: ProducerChoice)
    requires Inv(d, s) && ProducerCan(d, s, i, choice)
    requires ProducerStep(d, s, i, choice).stack.fault == NoFault
    ensures NobodyStranded(d, ProducerStep(d, s, i, choice))
  {
    if !s.ps[i].Signal? {
      assert ProducerOk(d, s, i);
      SignalStaysDue(d, s, i, choice);
    } else if d.customers > 0 {
      SignalWakes(s, choice.woken);
    }
  }

  lemma ProducerKeepsInv(d: Design, s: State, i: nat, choice: ProducerChoice)
    requires Inv(d, s) && ProducerCan(d, s, i, choice)
    ensures Inv(d, ProducerStep(d, s, i, choice))
  {
    ProducerKeepsStack(d, s, i, choice);
    ProducerKeepsProducers(d, s, i, choice);
    ProducerKeepsCustomers(d, s, i, choice);
    ProducerStrandsNobody(d, s, i, choice);
  }

  lemma CustomerKeepsStack(d: Design, s: State, j: nat)
    requires Inv(d, s) && CustomerCan(d, s, j)
    ensures var t := CustomerStep(d, s, j); LockedStack.Inv(t.stack) && (Safe(d) ==> t.stack.fault == NoFault)
  {
    assert CustomerOk(d, s, j);
    match s.cs[j]
    case Pop => PopKeepsInv(s.stack, j);
    case Acquire =>
      QuietWhen(s.stack);
      MutexKeepsInv(s.stack, ByPopper(j));
    case Woken =>
      QuietWhen(s.stack);
      MutexKeepsInv(s.stack, ByPopper(j));
    case Wait =>
      QuietWhen(s.stack);
      MutexKeepsInv(s.stack, Free);
    case Release =>
      QuietWhen(s.stack);
      MutexKeepsInv(s.stack, Free);
    case _ =>
  }

  lemma CustomerKeepsProducers(d: Design, s: State, j: nat)
    requires Inv(d, s) && CustomerCan(d, s, j)
    ensures var t := CustomerStep(d, s, j); Threads(d, t) && forall i: nat | i < |t.ps| :: ProducerOk(d, t, i)
  {
    var t := CustomerStep(d, s, j);
    assert CustomerOk(d, s, j);
    forall i: nat | i < |t.ps|
      ensures ProducerOk(d, t, i)
    {
      assert ProducerOk(d, s, i);
    }
  }

  lemma CustomerKeepsCustomers(d: Design, s: State, j: nat)
    requires Inv(d, s) && CustomerCan(d, s, j)
    ensures var t := CustomerStep(d, s, j); Threads(d, t) && forall k: nat | k < |t.cs| :: CustomerOk(d, t, k)
  {
    var t := CustomerStep(d, s, j);
    assert CustomerOk(d, s, j) && PopperOk(s.stack, j);
    forall k: nat | k < |t.cs|
      ensures CustomerOk(d, t, k)
    {
      assert CustomerOk(d, s, k);
    }
  }

  lemma CustomerStrandsNobody(d: Design, s: State, j: nat)
    requires Inv(d, s) && CustomerCan(d, s, j)
    ensures NobodyStranded(d, CustomerStep(d, s, j))
  {
    var t := CustomerStep(d, s, j);
    assert CustomerOk(d, s, j);
    assert forall i: nat :: SignalDueBy(d, s, i) == SignalDueBy(d, t, i);
    assert t.cs[j].Blocked? || exists k :: 0 <= k < |t.cs| && !t.cs[k].Blocked?;
  }

  lemma CustomerKeepsInv(d: Design, s: State, j: nat)
    requires Inv(d, s) && CustomerCan(d, s, j)
    ensures Inv(d, CustomerStep(d, s, j))
  {
    CustomerKeepsStack(d, s, j);
    CustomerKeepsProducers(d, s, j);
    CustomerKeepsCustomers(d, s, j);
    CustomerStrandsNobody(d, s, j);
    assert CustomerOk(d, s, j);
  }

  lemma ReachableInv(d: Design, s: State)
    requires Reachable(Program(d), s)
    ensures Inv(d, s)
  {
    var inv := (t: State) => Inv(d, t);
    StartInv(d);
    forall u, v | inv(u) && Program(d).next(u, v)
      ensures inv(v)
    {
      if ProducerNext(d, u, v) {
        var i: nat, choice :| ProducerCan(d, u, i, choice) && v == ProducerStep(d, u, i, choice);
        ProducerKeepsInv(d, u, i, choice);
      } else {
        var j :| CustomerCan(d, u, j) && v == CustomerStep(d, u, j);
        CustomerKeepsInv(d, u, j);
      }
    }
    InductiveHoldsWhenReachable(Program(d), inv, s);
  }

  // ---- Every reachable state, in every design ----

  /** A producer that holds the mutex: between lines 27 and 40. */
  predicate ProducerInside(d: Design, s: State, i: nat) {
    i < |s.ps| && (s.ps[i].Push? || s.ps[i].Unlock? || (d.signalInside && s.ps[i].Signal?))
  }

  /** A customer that holds the mutex: between lines 61 and 86, except while it waits. */
  predicate CustomerInside(s: State, j: nat) {
    j < |s.cs| && (s.cs[j].Test? || s.cs[j].Wait? || s.cs[j].Pop? || s.cs[j].Release?)
  }

  /** All accesses to the list lie inside the critical sections, and at most one thread is inside. */
  lemma MutualExclusion(d: Design, s: State)
    requires Reachable(Program(d), s)
    ensures forall i, k :: ProducerInside(d, s, i) && ProducerInside(d, s, k) ==> i == k
    ensures forall j, l :: CustomerInside(s, j) && CustomerInside(s, l) ==> j == l
    ensures forall i, j :: !(ProducerInside(d, s, i) && CustomerInside(s, j))
    ensures s.stack.mutex == Free
            <==> (forall i :: !ProducerInside(d, s, i)) && (forall j :: !CustomerInside(s, j))
    ensures Threads(d, s)
    ensures forall i | 0 <= i < |s.ps| :: s.stack.pushers[i].NeedsMutex() ==> ProducerInside(d, s, i)
    ensures forall j | 0 <= j < |s.cs| :: s.stack.poppers[j].NeedsMutex() ==> CustomerInside(s, j)
  {
    ReachableInv(d, s);
    forall i: nat | i < |s.ps|
      ensures ProducerInside(d, s, i) <==> s.stack.mutex == ByPusher(i)
      ensures s.stack.pushers[i].NeedsMutex() ==> ProducerInside(d, s, i)
    {
      assert ProducerOk(d, s, i);
    }
    forall j: nat | j < |s.cs|
      ensures CustomerInside(s, j) <==> s.stack.mutex == ByPopper(j)
      ensures s.stack.poppers[j].NeedsMutex() ==> CustomerInside(s, j)
    {
      assert CustomerOk(d, s, j);
    }
  }

  /** No wakeup is lost: while all customers wait beside a non-empty list, some producer has linked a node and its
      signal is still to come. As written, with one producer and one customer, this is the producer. */
  lemma NoLostWakeup(d: Design, s: State)
    requires Reachable(Program(d), s)
    ensures Threads(d, s)
    ensures d.customers > 0 && s.stack.head != Null && (forall j | 0 <= j < |s.cs| :: s.cs[j].Blocked?) ==>
      SignalDue(d, s)
    ensures d.producers == d.customers == 1 && s.cs[0].Blocked? && s.stack.head != Null ==> SignalDueBy(d, s, 0)
  {
    ReachableInv(d, s);
  }

  /** Nothing can go on but by a wakeup for no reason. */
  ghost predicate Stuck(d: Design, s: State) {
    Final(Program(d.(spurious := false)), s)
  }

  lemma CustomerMoves(d: Design, s: State, j: nat)
    requires Inv(d, s) && s.stack.fault == NoFault && j < |s.cs| && !s.cs[j].Blocked?
    requires s.stack.mutex == Free || s.stack.mutex == ByPopper(j)
    ensures !Stuck(d, s)
  {
    assert CustomerOk(d, s, j);
    var steady := d.(spurious := false);
    assert CustomerCan(steady, s, j);
    assert Program(steady).next(s, CustomerStep(steady, s, j));
  }

  /** What a producer needs to go on: a free address, a number, and somebody to wake if somebody waits. */
  lemma ProducerChoices(s: State) returns (choice: ProducerChoice)
    ensures choice.node.addr !in s.stack.heap && choice.node.value == 1
    ensures !choice.mallocFails && MayWake(s, choice.woken)
  {
    var addr := FreshAddress(s.stack.heap);
    var blocked := set j: nat | j < |s.cs| && s.cs[j].Blocked?;
    choice := ProducerChoice(Choice(addr, Node(0, Null), 1), false, blocked);
    assert (forall j | 0 <= j < |s.cs| :: !s.cs[j].Blocked?) || blocked != {} by {
      if j: nat :| j < |s.cs| && s.cs[j].Blocked? {
        assert j in blocked;
      }
    }
  }

  lemma ProducerMovesUnlessStopped(d: Design, s: State, i: nat)
    requires Inv(d, s) && s.stack.fault == NoFault && i < |s.ps| && !s.ps[i].Stopped?
    requires s.ps[i].Lock? ==> s.stack.mutex == Free
    ensures !Stuck(d, s)
  {
    var choice := ProducerChoices(s);
    var steady := d.(spurious := false);
    assert ProducerCan(steady, s, i, choice);
    assert Program(steady).next(s, ProducerStep(steady, s, i, choice));
  }

  /** The program gets stuck only at a NULL dereference, or when malloc has failed for every producer and every
      customer waits for data that does not exist. */
  lemma StopsOnlyWithoutData(d: Design, s: State)
    requires Reachable(Program(d), s) && Stuck(d, s)
    ensures || s.stack.fault != NoFault
            || (&& (forall i | 0 <= i < |s.ps| :: s.ps[i].Stopped?)
                && (forall j | 0 <= j < |s.cs| :: s.cs[j].Blocked?)
                && (d.customers > 0 ==> s.stack.head == Null))
  {
    ReachableInv(d, s);
    if s.stack.fault == NoFault {
      match s.stack.mutex
      case Free =>
        if i :| 0 <= i < |s.ps| && !s.ps[i].Stopped? {
          ProducerMovesUnlessStopped(d, s, i);
        }
        if j :| 0 <= j < |s.cs| && !s.cs[j].Blocked? {
          CustomerMoves(d, s, j);
        }
      case ByPusher(i) =>
        assert ProducerOk(d, s, i);
        ProducerMovesUnlessStopped(d, s, i);
      case ByPopper(j) =>
        assert CustomerOk(d, s, j);
        CustomerMoves(d, s, j);
    }
  }

  /** No producer ends as long as malloc gives it memory: line 50 is not reached. */
  lemma NoProducerEnds(d: Design, s: State, i: nat)
    requires Reachable(Program(d), s) && !d.mallocMayFail && i < |s.ps|
    ensures !s.ps[i].Stopped?
  {
    ReachableInv(d, s);
    assert ProducerOk(d, s, i);
  }

  ghost predicate SomebodyInside(d: Design, s: State) {
    (exists i :: ProducerInside(d, s, i)) || (exists j :: CustomerInside(s, j))
  }

  /** What keeps a thread from moving: another one inside the critical section, or a wait without a signal; and a
      producer has ended for good if malloc failed. */
  lemma BlockedIff(d: Design, s: State, i: nat, j: nat)
    requires Reachable(Program(d), s) && s.stack.fault == NoFault && i < d.producers && j < d.customers
    ensures Threads(d, s)
    ensures (forall choice :: !ProducerCan(d, s, i, choice))
            <==> s.ps[i].Stopped? || (s.ps[i].Lock? && SomebodyInside(d, s))
    ensures !CustomerCan(d, s, j)
            <==> ((s.cs[j].Acquire? || s.cs[j].Woken?) && SomebodyInside(d, s)) || (s.cs[j].Blocked? && !d.spurious)
  {
    ReachableInv(d, s);
    MutualExclusion(d, s);
    assert ProducerOk(d, s, i) && CustomerOk(d, s, j);
    var choice := ProducerChoices(s);
    assert !ProducerCan(d, s, i, choice) <==> s.ps[i].Stopped? || (s.ps[i].Lock? && s.stack.mutex != Free);
  }

  /** Up to a NULL dereference, no node is used after it is freed or freed twice, each allocated node is in
      exactly one place, and the printed lines are the history of a last-in first-out stack that determines the
      contents of the list, up to the one node between its line and its link. */
  lemma OwnershipConserved(d: Design, s: State, a: nat) returns (left: seq<int>)
    requires Reachable(Program(d), s)
    ensures s.stack.fault != BadAccess
    ensures Linked(s.stack.heap, s.stack.head, s.stack.chain)
    ensures a in s.stack.heap <==> exists place :: IsAt(s.stack, a, place)
    ensures forall place, other :: IsAt(s.stack, a, place) && IsAt(s.stack, a, other) ==> place == other
    ensures Replays(s.stack.log, left) && forall other :: Replays(s.stack.log, other) ==> other == left
    ensures LockedStack.Inv(s.stack) && (LogBehind(s.stack) ==> Contents(s.stack) != [])
    ensures left == if LogBehind(s.stack) then Contents(s.stack)[1..] else Contents(s.stack)
    ensures multiset(ProducedValues(s.stack.log)) == multiset(ConsumedValues(s.stack.log)) + multiset(left)
  {
    ReachableInv(d, s);
    NodeInOnePlace(s.stack, a);
    left := LogIsStackHistory(s.stack);
  }

  // ---- When line 79 can see NULL ----

  /** A reachable state without a fault, and the steps that lead on from it. */
  ghost predicate Alive(d: Design, s: State) {
    Reachable(Program(d), s) && s.stack.fault == NoFault
  }

  lemma ProducerAdvances(d: Design, s: State, i: nat, choice: ProducerChoice)
    requires Alive(d, s) && ProducerCan(d, s, i, choice)
    ensures Alive(d, ProducerStep(d, s, i, choice)) && Inv(d, ProducerStep(d, s, i, choice))
  {
    ReachableInv(d, s);
    ProducerKeepsStack(d, s, i, choice);
    assert Program(d).next(s, ProducerStep(d, s, i, choice));
    StepReachable(Program(d), s, ProducerStep(d, s, i, choice));
    ProducerKeepsInv(d, s, i, choice);
  }

  lemma CustomerAdvances(d: Design, s: State, j: nat)
    requires Alive(d, s) && CustomerCan(d, s, j)
    ensures Reachable(Program(d), CustomerStep(d, s, j)) && Inv(d, CustomerStep(d, s, j))
  {
    ReachableInv(d, s);
    assert Program(d).next(s, CustomerStep(d, s, j));
    StepReachable(Program(d), s, CustomerStep(d, s, j));
    CustomerKeepsInv(d, s, j);
  }

  /** The first producer works on its node while the others have not moved. */
  lemma PushAdvances(d: Design, s: State, choice: ProducerChoice)
    requires Alive(d, s) && d.producers == |s.ps| > 0
    requires (s.ps[0].Alloc? || s.ps[0].Lock? ==> s.stack.mutex == Free) && !s.ps[0].Unlock? && !s.ps[0].Signal?
    requires !s.ps[0].Stopped? && !choice.mallocFails && 1 <= choice.node.value <= 100
    requires s.ps[0].Alloc? ==> choice.node.addr !in s.stack.heap
    ensures |s.stack.pushers| == |s.ps| && ProducerCan(d, s, 0, choice)
    ensures var t := ProducerStep(d, s, 0, choice); var p, stage := s.ps[0], s.stack.pushers[0].stage;
      && Alive(d, t) && |t.stack.pushers| == |t.ps| == |s.ps| && t.cs == s.cs && t.stack.poppers == s.stack.poppers
      && t.ps[0] == (if p.Alloc? then Lock else if p.Lock? || !stage.Print? then Push else AfterPush(d))
      && t.stack.pushers[0].stage == (if p.Lock? then stage else PushStageAfter(stage))
      && t.stack.mutex == (if p.Alloc? then Free else ByPusher(0))
      && |t.stack.chain| == |s.stack.chain| + (if p.Push? && stage.StoreHead? then 1 else 0)
    ensures var t, v := ProducerStep(d, s, 0, choice), choice.node.value;
      var p, stage := s.ps[0], s.stack.pushers[0].stage;
      && (p.Push? && stage.StoreData? ==> NodeHolds(t.stack, v))
      && (p.Push? && (stage.LoadHead? || stage.StoreNext? || stage.StoreHead?) && NodeHolds(s.stack, v) ==>
            NodeHolds(t.stack, v))
      && (p.Push? && stage.Print? && NodeHolds(s.stack, v) ==> t.stack.log == s.stack.log + [Produced(v)])
      && (!(p.Push? && stage.Print?) ==> t.stack.log == s.stack.log)
  {
    ReachableInv(d, s);
    assert ProducerOk(d, s, 0) && PusherOk(s.stack, 0);
    if s.ps[0].Alloc? || s.ps[0].Push? {
      PushEffect(s.stack, 0, choice.node);
    }
    ProducerAdvances(d, s, 0, choice);
  }

  /** From an empty list the first producer goes from malloc to the end of line 38. */
  lemma ProducerDelivers(d: Design, s: State, v: int) returns (t: State)
    requires Alive(d, s) && d.producers == |s.ps| > 0 && s.ps[0].Alloc? && 1 <= v <= 100
    requires s.stack.mutex == Free && s.stack.chain == []
    ensures Alive(d, t) && |t.ps| == |s.ps| && t.ps[0] == AfterPush(d)
    ensures t.cs == s.cs && t.stack.poppers == s.stack.poppers && |t.stack.chain| == 1
    ensures t.stack.log == s.stack.log + [Produced(v)]
  {
    ReachableInv(d, s);
    assert ProducerOk(d, s, 0);
    var addr := FreshAddress(s.stack.heap);
    var choice := ProducerChoice(Choice(addr, Node(0, Null), v), false, {});
    t := s;
    var steps := 0;
    while steps < 7
      invariant 0 <= steps <= 7
      invariant Alive(d, t) && |t.stack.pushers| == |t.ps| == |s.ps|
      invariant t.ps[0] == if steps == 0 then Alloc else if steps == 1 then Lock
                           else if steps < 7 then Push else AfterPush(d)
      invariant t.stack.pushers[0].stage
             == [Malloc, StoreData, StoreData, LoadHead, StoreNext, StoreHead, Print, Malloc][steps]
      invariant t.stack.mutex == if steps < 2 then Free else ByPusher(0)
      invariant t.cs == s.cs && t.stack.poppers == s.stack.poppers
      invariant |t.stack.chain| == if steps < 6 then 0 else 1
      invariant 3 <= steps <= 6 ==> NodeHolds(t.stack, v)
      invariant t.stack.log == if steps <= 6 then s.stack.log else s.stack.log + [Produced(v)]
      invariant steps == 0 ==> t == s
    {
      PushAdvances(d, t, choice);
      t, steps := ProducerStep(d, t, 0, choice), steps + 1;
    }
  }

  lemma PopAdvances(d: Design, s: State, j: nat)
    requires Alive(d, s) && j < |s.cs| == |s.stack.poppers| && s.cs[j].Pop? && s.stack.mutex == ByPopper(j)
    requires s.stack.poppers[j].stage.PrintData? ==> s.stack.chain != []
    ensures CustomerCan(d, s, j)
    ensures var t := CustomerStep(d, s, j);
      && Alive(d, t) && |t.stack.poppers| == |s.stack.poppers|
      && t.ps == s.ps && t.stack.pushers == s.stack.pushers && t.stack.mutex == s.stack.mutex
      && t.cs == (if s.stack.poppers[j].stage.FreeTemp? then s.cs[j := Release] else s.cs)
      && t.stack.poppers[j].stage == PopStageAfter(s.stack.poppers[j].stage)
      && t.stack.chain == (if s.stack.poppers[j].stage.PopHead? && s.stack.chain != [] then s.stack.chain[1..]
                           else s.stack.chain)
      && (if s.stack.poppers[j].stage.PrintData? then exists w :: t.stack.log == s.stack.log + [Consumed(w)]
          else t.stack.log == s.stack.log)
  {
    ReachableInv(d, s);
    PopEffect(s.stack, j);
    CustomerAdvances(d, s, j);
  }

  /** A customer that has found one node prints it, unlinks it and frees it ... */
  lemma CustomerPops(d: Design, s: State, j: nat) returns (t: State)
    requires Alive(d, s) && j < |s.cs| == |s.stack.poppers| && s.cs[j].Pop? && s.stack.poppers[j].stage.ReadHead?
    requires s.stack.mutex == ByPopper(j) && |s.stack.chain| == 1
    ensures Alive(d, t) && t.ps == s.ps && t.cs == s.cs[j := Release] && t.stack.pushers == s.stack.pushers
    ensures |t.stack.poppers| == |s.stack.poppers| && t.stack.chain == []
    ensures exists w :: t.stack.log == s.stack.log + [Consumed(w)]
  {
    t := s;
    var steps := 0;
    while steps < 7
      invariant 0 <= steps <= 7
      invariant Alive(d, t) && t.ps == s.ps && t.stack.pushers == s.stack.pushers
      invariant t.cs == if steps < 7 then s.cs else s.cs[j := Release]
      invariant |t.stack.poppers| == |s.stack.poppers|
      invariant t.stack.poppers[j].stage
             == [ReadHead, PrintData, SetTemp, ReloadHead, LoadNext, PopHead, FreeTemp, ReadHead][steps]
      invariant t.stack.mutex == ByPopper(j)
      invariant |t.stack.chain| == if steps < 6 then 1 else 0
      invariant if steps <= 1 then t.stack.log == s.stack.log
                else exists w :: t.stack.log == s.stack.log + [Consumed(w)]
    {
      PopAdvances(d, t, j);
      t, steps := CustomerStep(d, t, j), steps + 1;
    }
  }

  /** ... and then unlocks and comes back to line 61. */
  lemma CustomerTakes(d: Design, s: State, j: nat) returns (t: State)
    requires Alive(d, s) && j < |s.cs| == |s.stack.poppers| && s.cs[j].Pop? && s.stack.poppers[j].stage.ReadHead?
    requires s.stack.mutex == ByPopper(j) && |s.stack.chain| == 1
    ensures Alive(d, t) && t.ps == s.ps && t.cs == s.cs[j := Acquire] && |t.stack.poppers| == |s.stack.poppers|
    ensures t.stack.mutex == Free && t.stack.chain == []
    ensures t.stack.pushers == s.stack.pushers
    ensures exists w :: t.stack.log == s.stack.log + [Consumed(w)]
  {
    var u := CustomerPops(d, s, j);
    CustomerAdvances(d, u, j);
    t := CustomerStep(d, u, j);
  }

  /** A customer that finds a node locks, tests and is about to print it. */
  lemma CustomerFinds(d: Design, s: State, j: nat) returns (t: State)
    requires Alive(d, s) && j < |s.cs| && s.cs[j].Acquire? && s.stack.mutex == Free && s.stack.chain != []
    ensures Alive(d, t) && |s.stack.poppers| == |s.cs| && s.stack.poppers[j].stage.ReadHead?
    ensures t == s.(stack := s.stack.(mutex := ByPopper(j)), cs := s.cs[j := Pop])
  {
    ReachableInv(d, s);
    assert CustomerOk(d, s, j);
    CustomerAdvances(d, s, j);
    var t1 := CustomerStep(d, s, j);
    CustomerAdvances(d, t1, j);
    t := CustomerStep(d, t1, j);
  }

  /** A customer that finds the list empty goes to sleep. */
  lemma CustomerWaits(d: Design, s: State, j: nat) returns (t: State)
    requires Alive(d, s) && j < |s.cs| && s.cs[j].Acquire? && s.stack.mutex == Free && s.stack.chain == []
    ensures Alive(d, t) && t == s.(cs := s.cs[j := Blocked])
  {
    ReachableInv(d, s);
    CustomerAdvances(d, s, j);
    var t1 := CustomerStep(d, s, j);
    CustomerAdvances(d, t1, j);
    var t2 := CustomerStep(d, t1, j);
    CustomerAdvances(d, t2, j);
    t := CustomerStep(d, t2, j);
  }

  /** Without the second test, a customer that wakes up to an empty list dereferences NULL at line 79. */
  lemma WokenToEmptyListFaults(d: Design, s: State, j: nat) returns (t: State)
    requires Alive(d, s) && !d.retest && j < |s.cs| && s.cs[j].Woken? && s.stack.mutex == Free && s.stack.chain == []
    ensures Reachable(Program(d), t) && t.stack.fault == NullDeref
  {
    ReachableInv(d, s);
    assert CustomerOk(d, s, j);
    CustomerAdvances(d, s, j);
    var t1 := CustomerStep(d, s, j);
    CustomerAdvances(d, t1, j);
    var t2 := CustomerStep(d, t1, j);
    CustomerAdvances(d, t2, j);
    t := CustomerStep(d, t2, j);
  }

  /** The order of lines 40 and 47: the customer takes the node before the signal is sent, waits, and is then
      woken by that stale signal. */
  lemma StaleSignalFaults(d: Design) returns (t: State)
    requires !d.retest && !d.signalInside && d.producers > 0 && d.customers > 0
    ensures Reachable(Program(d), t) && t.stack.fault == NullDeref
  {
    InitReachable(Program(d), Start(d));
    var choice := ProducerChoice(Choice(0, Node(0, Null), 1), false, {0});
    var s1 := ProducerDelivers(d, Start(d), 1);
    ReachableInv(d, s1);
    ProducerAdvances(d, s1, 0, choice);
    var s2 := ProducerStep(d, s1, 0, choice);
    var s3 := CustomerFinds(d, s2, 0);
    var s4 := CustomerTakes(d, s3, 0);
    var s5 := CustomerWaits(d, s4, 0);
    ProducerAdvances(d, s5, 0, choice);
    var s6 := ProducerStep(d, s5, 0, choice);
    t := WokenToEmptyListFaults(d, s6, 0);
  }

  lemma SpuriousWakeupFaults(d: Design) returns (t: State)
    requires !d.retest && d.spurious && d.customers > 0
    ensures Reachable(Program(d), t) && t.stack.fault == NullDeref
  {
    InitReachable(Program(d), Start(d));
    var s1 := CustomerWaits(d, Start(d), 0);
    CustomerAdvances(d, s1, 0);
    var s2 := CustomerStep(d, s1, 0);
    t := WokenToEmptyListFaults(d, s2, 0);
  }

  /** The first producer wakes the first customer, and no other, before it unlocks. */
  lemma SignalAndUnlock(d: Design, s: State) returns (t: State)
    requires Alive(d, s) && d.signalInside && |s.ps| > 0 && s.ps[0].Signal? && |s.cs| > 0 && s.cs[0].Blocked?
    ensures Alive(d, t) && t.cs == s.cs[0 := Woken]
    ensures t.stack == s.stack.(mutex := Free)
  {
    var choice := ProducerChoice(Choice(0, Node(0, Null), 1), false, {0});
    ProducerAdvances(d, s, 0, choice);
    var u := ProducerStep(d, s, 0, choice);
    ProducerAdvances(d, u, 0, choice);
    t := ProducerStep(d, u, 0, choice);
  }

  /** Even with the signal inside the lock, a second customer can take the node before the woken one runs. */
  lemma SecondCustomerFaults(d: Design) returns (t: State)
    requires !d.retest && d.signalInside && d.producers > 0 && d.customers > 1
    ensures Reachable(Program(d), t) && t.stack.fault == NullDeref
  {
    InitReachable(Program(d), Start(d));
    var s1 := CustomerWaits(d, Start(d), 0);
    var s2 := ProducerDelivers(d, s1, 1);
    var s3 := SignalAndUnlock(d, s2);
    var s4 := CustomerFinds(d, s3, 1);
    var s5 := CustomerTakes(d, s4, 1);
    t := WokenToEmptyListFaults(d, s5, 0);
  }

  /** No run dereferences NULL (or faults in any other way). */
  ghost predicate NullSafe(d: Design) {
    forall s :: Reachable(Program(d), s) ==> s.stack.fault == NoFault
  }

  /** Line 79 never sees NULL exactly in the designs that test again after waking, or whose waits never return without
      a signal that is sent inside the lock for a single customer; or if nobody signals at all, or nobody waits. */
  lemma NullSafeIff(d: Design)
    ensures NullSafe(d) <==> Safe(d) || d.customers == 0
  {
    if Safe(d) || d.customers == 0 {
      forall s | Reachable(Program(d), s)
        ensures s.stack.fault == NoFault
      {
        ReachableInv(d, s);
      }
    } else {
      var t: State;
      if d.spurious {
        t := SpuriousWakeupFaults(d);
      } else if !d.signalInside {
        t := StaleSignalFaults(d);
      } else {
        t := SecondCustomerFaults(d);
      }
      assert Reachable(Program(d), t) && t.stack.fault != NoFault;
    }
  }

  /** The program as written, with any number of producers, can dereference NULL, with and without spurious wakeups;
      either repair alone makes it safe for its one customer, the second only if waits never return without a signal. */
  lemma RepairsOfTheProgram(producers: nat, spurious: bool)
    requires producers > 0
    ensures var written := AS_WRITTEN.(producers := producers, spurious := spurious);
      && !NullSafe(written)
      && NullSafe(written.(retest := true))
      && (NullSafe(written.(signalInside := true)) <==> !spurious)
  {
    var written := AS_WRITTEN.(producers := producers, spurious := spurious);
    NullSafeIff(written);
    NullSafeIff(written.(retest := true));
    NullSafeIff(written.(signalInside := true));
  }

  // ---- It stops for want of memory only ----

  lemma ProducersEnd(d: Design) returns (s: State)
    requires d.producers > 0 ==> d.mallocMayFail
    ensures Alive(d, s) && Threads(d, s) && s.stack == Start(d).stack && s.cs == Start(d).cs
    ensures forall i | 0 <= i < |s.ps| :: s.ps[i].Stopped?
  {
    s := Start(d);
    InitReachable(Program(d), s);
    for n := 0 to d.producers
      invariant Alive(d, s) && |s.ps| == d.producers && s.stack == Start(d).stack && s.cs == Start(d).cs
      invariant forall i | 0 <= i < d.producers :: s.ps[i] == if i < n then Stopped else Alloc
    {
      var choice := ProducerChoice(Choice(0, Node(0, Null), 1), true, {});
      ProducerAdvances(d, s, n, choice);
      s := ProducerStep(d, s, n, choice);
    }
  }

  lemma CustomersWait(d: Design, s: State) returns (t: State)
    requires Alive(d, s) && Threads(d, s) && s.stack == Start(d).stack && s.cs == Start(d).cs
    ensures Alive(d, t) && t.ps == s.ps && t.stack == s.stack && |t.cs| == |s.cs|
    ensures forall j | 0 <= j < |t.cs| :: t.cs[j].Blocked?
  {
    t := s;
    for n := 0 to |s.cs|
      invariant Alive(d, t) && t.ps == s.ps && t.stack == s.stack && |t.cs| == |s.cs|
      invariant forall j | 0 <= j < |t.cs| :: t.cs[j] == if j < n then Blocked else Acquire
    {
      t := CustomerWaits(d, t, n);
    }
  }

  lemma StuckWhenAllWait(d: Design, s: State)
    requires forall i | 0 <= i < |s.ps| :: s.ps[i].Stopped?
    requires forall j | 0 <= j < |s.cs| :: s.cs[j].Blocked?
    ensures Stuck(d, s)
  {
  }

  lemma NeverStuck(d: Design, s: State)
    requires Reachable(Program(d), s) && s.stack.fault == NoFault && !d.mallocMayFail && d.producers > 0
    ensures !Stuck(d, s)
  {
    ReachableInv(d, s);
    match s.stack.mutex
    case Free =>
      NoProducerEnds(d, s, 0);
      ProducerMovesUnlessStopped(d, s, 0);
    case ByPusher(i) =>
      assert ProducerOk(d, s, i);
      ProducerMovesUnlessStopped(d, s, i);
    case ByPopper(j) =>
      assert CustomerOk(d, s, j);
      CustomerMoves(d, s, j);
  }

  /** Short of a NULL dereference, the program can get stuck if and only if malloc can fail, or there is no producer. */
  lemma StuckIff(d: Design)
    ensures (exists s :: Reachable(Program(d), s) && Stuck(d, s) && s.stack.fault == NoFault)
            <==> d.mallocMayFail || d.producers == 0
  {
    if d.mallocMayFail || d.producers == 0 {
      var s := ProducersEnd(d);
      var t := CustomersWait(d, s);
      StuckWhenAllWait(d, t);
    } else {
      forall s | Reachable(Program(d), s) && s.stack.fault == NoFault
        ensures !Stuck(d, s)
      {
        NeverStuck(d, s);
      }
    }
  }

  // ---- Which numbers can be produced: exactly those that line 34 draws ----

  lemma ProducerKeepsData(d: Design, s: State, i: nat, choice: ProducerChoice)
    requires Inv(d, s) && ProducerCan(d, s, i, choice) && DataOk(s.stack)
    ensures DataOk(ProducerStep(d, s, i, choice).stack)
  {
    assert ProducerOk(d, s, i);
    if (s.ps[i].Alloc? && !choice.mallocFails) || s.ps[i].Push? {
      PushKeepsData(s.stack, i, choice.node);
    } else {
      DataUntouched(s.stack, ProducerStep(d, s, i, choice).stack);
    }
  }

  lemma CustomerKeepsData(d: Design, s: State, j: nat)
    requires Inv(d, s) && CustomerCan(d, s, j) && DataOk(s.stack)
    ensures DataOk(CustomerStep(d, s, j).stack)
  {
    assert CustomerOk(d, s, j);
    if s.cs[j].Pop? {
      PopKeepsData(s.stack, j);
    } else {
      DataUntouched(s.stack, CustomerStep(d, s, j).stack);
    }
  }

  lemma ReachableData(d: Design, s: State)
    requires Reachable(Program(d), s)
    ensures DataOk(s.stack)
  {
    var inv := (t: State) => Inv(d, t) && DataOk(t.stack);
    StartInv(d);
    forall u, v | inv(u) && Program(d).next(u, v)
      ensures inv(v)
    {
      if ProducerNext(d, u, v) {
        var i: nat, choice :| ProducerCan(d, u, i, choice) && v == ProducerStep(d, u, i, choice);
        ProducerKeepsInv(d, u, i, choice);
        ProducerKeepsData(d, u, i, choice);
      } else {
        var j: nat :| CustomerCan(d, u, j) && v == CustomerStep(d, u, j);
        CustomerKeepsInv(d, u, j);
        CustomerKeepsData(d, u, j);
      }
    }
    InductiveHoldsWhenReachable(Program(d), inv, s);
  }

  /** The first producer and the first customer stand at the beginning of their loops, the list is empty, and nobody
      waits. */
  ghost predicate BetweenRounds(d: Design, s: State) {
    && Alive(d, s) && Threads(d, s) && d.producers > 0 && d.customers > 0
    && s.ps[0].Alloc? && s.stack.mutex == Free && s.stack.chain == []
    && forall j | 0 <= j < |s.cs| :: s.cs[j].Acquire?
  }

  /** The producer unlocks and signals to nobody, in the order of the design. */
  lemma ProducerComesBack(d: Design, s: State) returns (t: State)
    requires Alive(d, s) && |s.ps| > 0 && s.ps[0] == AfterPush(d) && forall j | 0 <= j < |s.cs| :: !s.cs[j].Blocked?
    ensures Alive(d, t) && |t.ps| == |s.ps| && t.ps[0].Alloc? && t.cs == s.cs
    ensures t.stack == s.stack.(mutex := Free)
  {
    var choice := ProducerChoice(Choice(0, Node(0, Null), 1), false, {});
    ProducerAdvances(d, s, 0, choice);
    var u := ProducerStep(d, s, 0, choice);
    assert u.cs == s.cs;
    ProducerAdvances(d, u, 0, choice);
    t := ProducerStep(d, u, 0, choice);
    assert t.cs == s.cs;
  }

  lemma OneRound(d: Design, s: State, v: int) returns (t: State)
    requires BetweenRounds(d, s) && Drawn(v)
    ensures BetweenRounds(d, t) && ProducedValues(t.stack.log) == ProducedValues(s.stack.log) + [v]
  {
    var s1 := ProducerDelivers(d, s, v);
    var s2 := ProducerComesBack(d, s1);
    var s3 := CustomerFinds(d, s2, 0);
    t := CustomerTakes(d, s3, 0);
    var w :| t.stack.log == s3.stack.log + [Consumed(w)];
    ProducedAppend(s.stack.log, v, w);
    ReachableInv(d, t);
  }

  lemma StartBetweenRounds(d: Design)
    requires d.producers > 0 && d.customers > 0
    ensures BetweenRounds(d, Start(d)) && Start(d).stack.log == []
  {
    InitReachable(Program(d), Start(d));
  }

  lemma ProduceAll(d: Design, values: seq<int>) returns (s: State)
    requires d.producers > 0 && d.customers > 0 && forall v | v in values :: Drawn(v)
    ensures Alive(d, s) && ProducedValues(s.stack.log) == values
  {
    StartBetweenRounds(d);
    s := Start(d);
    for n := 0 to |values|
      invariant BetweenRounds(d, s) && ProducedValues(s.stack.log) == values[..n]
    {
      s := OneRound(d, s, values[n]);
      assert values[..n + 1] == values[..n] + [values[n]];
    }
    assert values[..|values|] == values;
  }

  /** In every design, the numbers that can be produced, in this order, are exactly the sequences of numbers from 1 to
      100: the producers go round as often as one likes. */
  lemma ProducibleIff(d: Design, values: seq<int>)
    requires d.producers > 0 && d.customers > 0
    ensures (exists s :: Reachable(Program(d), s) && ProducedValues(s.stack.log) == values)
            <==> forall v | v in values :: 1 <= v <= 100
  {
    if forall v | v in values :: 1 <= v <= 100 {
      assert forall v | v in values :: Drawn(v);
      var s := ProduceAll(d, values);
    }
    if s :| Reachable(Program(d), s) && ProducedValues(s.stack.log) == values {
      ReachableData(d, s);
      ProducedDrawn(s.stack.log);
      assert forall v | v in values :: Drawn(v);
    }
  }

  // ---- The program in place ----

  datatype Turn = ProducerTurn(i: nat, choice: ProducerChoice) | CustomerTurn(j: nat)

  /** The shared memory and the next statements of the threads, updated one statement at a time. */
  class Process {
    const d: Design
    const memory: Memory
    var ps: seq<ProducerPc>
    var cs: seq<CustomerPc>

    function Now(): State
      reads this, memory
    {
      State(ps, cs, memory.Now())
    }

    constructor (d: Design)
      ensures this.d == d && fresh(memory) && Now() == Start(d)
    {
      this.d := d;
      memory := new Memory(d.producers, d.customers);
      ps := seq(d.producers, _ => Alloc);
      cs := seq(d.customers, _ => Acquire);
    }

    /** Runs the next statement of producer `i`, unless it is blocked or has stopped. */
    method Produce(i: nat, choice: ProducerChoice)
      modifies this, memory
      ensures Now() == if ProducerCan(d, old(Now()), i, choice) then ProducerStep(d, old(Now()), i, choice)
                       else old(Now())
    {
      if !ProducerCan(d, Now(), i, choice) {
        return;
      }
      match ps[i]
      case Alloc =>
        if choice.mallocFails {
          ps := ps[i := Stopped];
        } else {
          memory.Push(i, choice.node);
          ps := ps[i := Lock];
        }
      case Lock =>
        memory.mutex := ByPusher(i);
        ps := ps[i := Push];
      case Push =>
        var last := memory.pushers[i].stage.Print?;
        memory.Push(i, choice.node);
        if last {
          ps := ps[i := AfterPush(d)];
        }
      case Unlock =>
        memory.mutex := Free;
        ps := ps[i := if d.signalInside then Alloc else Signal];
      case Signal =>
        cs := Wake(cs, choice.woken);
        ps := ps[i := if d.signalInside then Unlock else Alloc];
    }

    /** Runs the next statement of customer `j`, unless it is blocked. */
    method Consume(j: nat)
      modifies this, memory
      ensures Now() == if CustomerCan(d, old(Now()), j) then CustomerStep(d, old(Now()), j) else old(Now())
    {
      if !CustomerCan(d, Now(), j) {
        return;
      }
      match cs[j]
      case Acquire =>
        memory.mutex := ByPopper(j);
        cs := cs[j := Test];
      case Test => cs := cs[j := if memory.head == Null then Wait else Pop];
      case Wait =>
        memory.mutex := Free;
        cs := cs[j := Blocked];
      case Blocked => cs := cs[j := Woken];
      case Woken =>
        memory.mutex := ByPopper(j);
        cs := cs[j := if d.retest then Test else Pop];
      case Pop =>
        var last := memory.poppers[j].stage.FreeTemp?;
        memory.Pop(j);
        if last {
          cs := cs[j := Release];
        }
      case Release =>
        memory.mutex := Free;
        cs := cs[j := Acquire];
    }

    /** Runs any schedule from the start. */
    method Run(schedule: seq<Turn>)
      requires Now() == Start(d)
      modifies this, memory
      ensures Reachable(Program(d), Now())
      ensures memory.fault != BadAccess && (Safe(d) ==> memory.fault == NoFault)
      ensures |cs| == d.customers
      ensures d.customers > 0 && (forall j | 0 <= j < |cs| :: cs[j].Blocked?) && memory.head != Null ==>
        SignalDue(d, Now())
    {
      InitReachable(Program(d), Now());
      for k := 0 to |schedule|
        invariant Reachable(Program(d), Now())
      {
        ghost var before := Now();
        match schedule[k]
        case ProducerTurn(i, choice) =>
          Produce(i, choice);
          if ProducerCan(d, before, i, choice) {
            StepReachable(Program(d), before, Now());
          }
        case CustomerTurn(j) =>
          Consume(j);
          if CustomerCan(d, before, j) {
            StepReachable(Program(d), before, Now());
          }
      }
      ReachableInv(d, Now());
    }
  }
}
