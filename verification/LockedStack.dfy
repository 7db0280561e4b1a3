/** The critical sections that the producer/consumer programs share: a heap list used as a stack under one
    mutex, by any number of pushing and popping threads. Each shared read or write is a step.
    The programs around it decide who may take the mutex and when. */
module LockedStack {
  import opened HeapStack
  import opened StackLog

  /** The next statement of a pushing thread (lines of 09_Day09/04_cond/cond.c). */
  datatype PushStage =
    | Malloc     // line 21
    | StoreData  // line 34
    | LoadHead   // line 35, the read of head
    | StoreNext  // line 35, the write of new_node->next
    | StoreHead  // line 36
    | Print      // line 38

  datatype Pusher = Pusher(stage: PushStage, node: Ptr, reg: Ptr) {
    /** The thread alone knows the node: allocated and not yet linked. */
    predicate Owns() { stage.StoreData? || stage.LoadHead? || stage.StoreNext? || stage.StoreHead? }

    predicate NeedsMutex() { stage.LoadHead? || stage.StoreNext? || stage.StoreHead? || stage.Print? }
  }

  /** The next statement of a popping thread (lines of 09_Day09/04_cond/cond.c). */
  datatype PopStage =
    | ReadHead    // line 79, the read of head
    | PrintData   // line 79, the read of head->data
    | SetTemp     // line 81
    | ReloadHead  // line 82, the read of head
    | LoadNext    // line 82, the read of head->next
    | PopHead     // line 82, the write of head
    | FreeTemp    // line 84

  datatype Popper = Popper(stage: PopStage, temp: Ptr, reg: Ptr) {
    predicate Owns() { stage.FreeTemp? }

    predicate NeedsMutex() { !stage.ReadHead? }

    /** Has printed the number on top but not unlinked its node yet. */
    predicate Popping() { stage.SetTemp? || stage.ReloadHead? || stage.LoadNext? || stage.PopHead? }
  }

  datatype Owner = Free | ByPusher(i: nat) | ByPopper(j: nat)

  /** NullDeref: NULL was dereferenced. BadAccess: freed memory was accessed, or freed again. */
  datatype Fault = NoFault | NullDeref | BadAccess

  datatype Stack = Stack(
    pushers: seq<Pusher>, poppers: seq<Popper>,
    mutex: Owner, head: Ptr, heap: Heap,
    log: seq<Event>,  // the printed lines
    fault: Fault,
    chain: seq<nat>   // the linked nodes, first to last: written by the steps, never read by them
  )

  /** What the program does not decide: the address and contents malloc returns, the random number. */
  datatype Choice = Choice(addr: nat, garbage: Node, value: int)

  /** `p` faults when dereferenced; how. */
  function FaultOf(heap: Heap, p: Ptr): Fault {
    if p == Null then NullDeref else if p.addr in heap then NoFault else BadAccess
  }

  predicate PushCan(s: Stack, i: nat, choice: Choice) {
    && i < |s.pushers|
    && s.fault == NoFault
    && match s.pushers[i].stage
       case Malloc => choice.addr !in s.heap
       case StoreData => 1 <= choice.value <= 100
       case _ => true
  }

  function PushStep(s: Stack, i: nat, choice: Choice): Stack
    requires PushCan(s, i, choice)
  {
    var p := s.pushers[i];
    match p.stage
    case Malloc =>
      s.(pushers := s.pushers[i := Pusher(StoreData, At(choice.addr), Null)],
         heap := s.heap[choice.addr := choice.garbage])
    case StoreData =>
      var fault := FaultOf(s.heap, p.node);
      if fault != NoFault then s.(fault := fault)
      else s.(pushers := s.pushers[i := p.(stage := LoadHead)],
              heap := s.heap[p.node.addr := s.heap[p.node.addr].(data := choice.value)])
    case LoadHead =>
      s.(pushers := s.pushers[i := p.(stage := StoreNext, reg := s.head)])
    case StoreNext =>
      var fault := FaultOf(s.heap, p.node);
      if fault != NoFault then s.(fault := fault)
      else s.(pushers := s.pushers[i := p.(stage := StoreHead)],
              heap := s.heap[p.node.addr := s.heap[p.node.addr].(next := p.reg)])
    case StoreHead =>
      s.(pushers := s.pushers[i := p.(stage := Print)], head := p.node,
         chain := (if p.node == Null then [] else [p.node.addr]) + s.chain)
    case Print =>
      var fault := FaultOf(s.heap, p.node);
      if fault != NoFault then s.(fault := fault)
      else s.(pushers := s.pushers[i := p.(stage := Malloc)],
              log := s.log + [Produced(s.heap[p.node.addr].data)])
  }

  predicate PopCan(s: Stack, j: nat) {
    j < |s.poppers| && s.fault == NoFault
  }

  function PopStep(s: Stack, j: nat): Stack
    requires PopCan(s, j)
  {
    var c := s.poppers[j];
    match c.stage
    case ReadHead =>
      s.(poppers := s.poppers[j := c.(stage := PrintData, reg := s.head)])
    case PrintData =>
      var fault := FaultOf(s.heap, c.reg);
      if fault != NoFault then s.(fault := fault)
      else s.(poppers := s.poppers[j := c.(stage := SetTemp)],
              log := s.log + [Consumed(s.heap[c.reg.addr].data)])
    case SetTemp =>
      s.(poppers := s.poppers[j := c.(stage := ReloadHead, temp := s.head)])
    case ReloadHead =>
      s.(poppers := s.poppers[j := c.(stage := LoadNext, reg := s.head)])
    case LoadNext =>
      var fault := FaultOf(s.heap, c.reg);
      if fault != NoFault then s.(fault := fault)
      else s.(poppers := s.poppers[j := c.(stage := PopHead, reg := s.heap[c.reg.addr].next)])
    case PopHead =>
      s.(poppers := s.poppers[j := c.(stage := FreeTemp)], head := c.reg,
         chain := if s.chain == [] then [] else s.chain[1..])
    case FreeTemp =>
      var freed := c.temp;
      if freed != Null && freed.addr !in s.heap then s.(fault := BadAccess)
      else s.(poppers := s.poppers[j := c.(stage := ReadHead)],
              heap := if freed == Null then s.heap else s.heap - {freed.addr})
  }

  // ---- The invariant of the critical sections ----

  predicate PusherOk(s: Stack, i: nat)
    requires i < |s.pushers|
  {
    var p := s.pushers[i];
    && (p.NeedsMutex() ==> s.mutex == ByPusher(i))
    && (p.Owns() ==> Live(s.heap, p.node) && p.node.addr !in s.chain)
    && (p.stage.StoreNext? ==> p.reg == s.head)
    && (p.stage.StoreHead? ==> Live(s.heap, p.node) && s.heap[p.node.addr].next == s.head)
    && (p.stage.Print? ==> s.chain != [] && p.node == At(s.chain[0]))
  }

  predicate PopperOk(s: Stack, j: nat)
    requires j < |s.poppers|
  {
    var c := s.poppers[j];
    && (c.NeedsMutex() ==> s.mutex == ByPopper(j))
    && (c.stage.PrintData? || c.stage.LoadNext? ==> c.reg == s.head)
    && (c.Popping() ==> s.chain != [])
    && (c.stage.ReloadHead? || c.stage.LoadNext? || c.stage.PopHead? ==> c.temp == s.head)
    && (c.stage.PopHead? ==> Live(s.heap, s.head) && c.reg == s.heap[s.head.addr].next)
    && (c.Owns() ==> Live(s.heap, c.temp) && c.temp.addr !in s.chain)
  }

  predicate Ok(s: Stack) {
    && (forall i: nat | i < |s.pushers| :: PusherOk(s, i))
    && (forall j: nat | j < |s.poppers| :: PopperOk(s, j))
  }

  predicate PusherOwns(s: Stack, i: nat, a: nat) {
    i < |s.pushers| && s.pushers[i].Owns() && s.pushers[i].node == At(a)
  }

  predicate PopperOwns(s: Stack, j: nat, a: nat) {
    j < |s.poppers| && s.poppers[j].Owns() && s.poppers[j].temp == At(a)
  }

  /** No two threads hold the same node privately. */
  ghost predicate Exclusive(s: Stack) {
    && (forall i, k, a :: PusherOwns(s, i, a) && PusherOwns(s, k, a) ==> i == k)
    && (forall i, j, a :: !(PusherOwns(s, i, a) && PopperOwns(s, j, a)))
  }

  /** Every allocated node is linked or held by a thread. */
  ghost predicate NoLeak(s: Stack) {
    forall a | a in s.heap ::
      a in s.chain || (exists i :: PusherOwns(s, i, a)) || (exists j :: PopperOwns(s, j, a))
  }

  /** The log is one step behind the list: a push is linked but not printed, or a pop is printed but not unlinked. */
  predicate LogBehind(s: Stack) {
    match s.mutex
    case ByPusher(i) => i < |s.pushers| && s.pushers[i].stage.Print?
    case ByPopper(j) => j < |s.poppers| && s.poppers[j].Popping()
    case Free => false
  }

  ghost predicate LogMatches(s: Stack)
    requires Linked(s.heap, s.head, s.chain)
  {
    LinkedLive(s.heap, s.head, s.chain);
    var values := Values(s.heap, s.chain);
    if LogBehind(s) then values != [] && Replays(s.log, values[1..]) else Replays(s.log, values)
  }

  ghost predicate Inv(s: Stack) {
    && Linked(s.heap, s.head, s.chain)
    && Ok(s)
    && Exclusive(s)
    && NoLeak(s)
    && LogMatches(s)
    && s.fault != BadAccess
  }

  // ---- Each step keeps it, if the thread holds the mutex ----

  /** What the programs have to ensure: all accesses but malloc are made with the mutex held. */
  predicate PusherHolds(s: Stack, i: nat) {
    i < |s.pushers| && (s.pushers[i].stage.Malloc? || s.mutex == ByPusher(i))
  }

  lemma PushKeepsLinked(s: Stack, i: nat, choice: Choice)
    requires Inv(s) && PushCan(s, i, choice) && PusherHolds(s, i)
    ensures var t := PushStep(s, i, choice); Linked(t.heap, t.head, t.chain) && Ok(t) && t.fault == NoFault
  {
    var t := PushStep(s, i, choice);
    assert PusherOk(s, i);
    LinkedLive(s.heap, s.head, s.chain);
    LinkedFrame(s.heap, t.heap, s.head, s.chain);
    if s.pushers[i].stage.StoreHead? {
      assert t.chain[1..] == s.chain;
    }
    forall k: nat | k < |t.pushers|
      ensures PusherOk(t, k)
    {
      assert PusherOk(s, k);
      if s.pushers[i].Owns() && k != i {
        var a := s.pushers[i].node.addr;
        assert PusherOwns(s, i, a) && !PusherOwns(s, k, a);
      }
    }
    forall j: nat | j < |t.poppers|
      ensures PopperOk(t, j)
    {
      assert PopperOk(s, j);
      if s.pushers[i].Owns() {
        var a := s.pushers[i].node.addr;
        assert PusherOwns(s, i, a) && !PopperOwns(s, j, a);
      }
    }
  }

  lemma PushOwners(s: Stack, i: nat, choice: Choice)
    requires Inv(s) && PushCan(s, i, choice) && PusherHolds(s, i)
    ensures var t := PushStep(s, i, choice);
      && (forall k, a :: k != i ==> PusherOwns(t, k, a) == PusherOwns(s, k, a))
      && (forall j, a :: PopperOwns(t, j, a) == PopperOwns(s, j, a))
      && (forall a :: PusherOwns(t, i, a) ==> PusherOwns(s, i, a) || (a !in s.heap && a in t.heap))
  {
    assert PusherOk(s, i);
  }

  lemma OwnersLive(s: Stack)
    requires Ok(s)
    ensures forall i, a :: PusherOwns(s, i, a) ==> a in s.heap && a !in s.chain
    ensures forall j, a :: PopperOwns(s, j, a) ==> a in s.heap && a !in s.chain
  {
    forall i, a | PusherOwns(s, i, a)
      ensures a in s.heap && a !in s.chain
    {
      assert PusherOk(s, i);
    }
    forall j, a | PopperOwns(s, j, a)
      ensures a in s.heap && a !in s.chain
    {
      assert PopperOk(s, j);
    }
  }

  lemma PushKeepsExclusive(s: Stack, i: nat, choice: Choice)
    requires Inv(s) && PushCan(s, i, choice) && PusherHolds(s, i)
    ensures Exclusive(PushStep(s, i, choice))
  {
    PushOwners(s, i, choice);
    OwnersLive(s);
  }

  lemma PushKeepsNoLeak(s: Stack, i: nat, choice: Choice)
    requires Inv(s) && PushCan(s, i, choice) && PusherHolds(s, i)
    ensures NoLeak(PushStep(s, i, choice))
  {
    var t := PushStep(s, i, choice);
    PushOwners(s, i, choice);
    assert PusherOk(s, i);
    forall a | a in t.heap
      ensures a in t.chain || (exists k :: PusherOwns(t, k, a)) || (exists j :: PopperOwns(t, j, a))
    {
      if a !in s.heap || PusherOwns(s, i, a) {
        assert PusherOwns(t, i, a) || a in t.chain;
      } else if a in s.chain {
        assert a in t.chain;
      } else if k :| PusherOwns(s, k, a) {
        assert PusherOwns(t, k, a);
      } else {
        var j :| PopperOwns(s, j, a);
        assert PopperOwns(t, j, a);
      }
    }
  }

  lemma PushKeepsLog(s: Stack, i: nat, choice: Choice)
    requires Inv(s) && PushCan(s, i, choice) && PusherHolds(s, i)
    requires var t := PushStep(s, i, choice); Linked(t.heap, t.head, t.chain)
    ensures LogMatches(PushStep(s, i, choice))
  {
    var t := PushStep(s, i, choice);
    assert PusherOk(s, i);
    LinkedLive(s.heap, s.head, s.chain);
    LinkedFrame(s.heap, t.heap, s.head, s.chain);
    var values := Values(s.heap, s.chain);
    match s.pushers[i].stage
    case StoreHead =>
      assert t.chain[1..] == s.chain;
      assert Values(t.heap, t.chain)[1..] == values;
    case Print =>
      ReplayPush(s.log, values[1..], values[0]);
      assert [values[0]] + values[1..] == values;
    case _ =>
      assert LogBehind(t) == LogBehind(s);
  }

  lemma PushKeepsInv(s: Stack, i: nat, choice: Choice)
    requires Inv(s) && PushCan(s, i, choice) && PusherHolds(s, i)
    ensures Inv(PushStep(s, i, choice)) && PushStep(s, i, choice).fault == NoFault
  {
    PushKeepsLinked(s, i, choice);
    PushKeepsExclusive(s, i, choice);
    PushKeepsNoLeak(s, i, choice);
    PushKeepsLog(s, i, choice);
  }

  /** A pop can fault in one way only: line 79 meets an empty list. */
  lemma PopKeepsLinked(s: Stack, j: nat)
    requires Inv(s) && PopCan(s, j) && s.mutex == ByPopper(j)
    ensures var t := PopStep(s, j); Linked(t.heap, t.head, t.chain) && Ok(t)
    ensures PopStep(s, j).fault == if s.poppers[j].stage.PrintData? && s.chain == [] then NullDeref else NoFault
  {
    var t := PopStep(s, j);
    assert PopperOk(s, j);
    LinkedLive(s.heap, s.head, s.chain);
    if s.poppers[j].stage.FreeTemp? {
      LinkedFrame(s.heap, t.heap, s.head, s.chain);
    }
    forall i: nat | i < |t.pushers|
      ensures PusherOk(t, i)
    {
      assert PusherOk(s, i);
      if s.poppers[j].Owns() {
        var a := s.poppers[j].temp.addr;
        assert PopperOwns(s, j, a) && !PusherOwns(s, i, a);
      }
    }
    forall k: nat | k < |t.poppers|
      ensures PopperOk(t, k)
    {
      assert PopperOk(s, k);
    }
  }

  lemma PopKeepsOwnership(s: Stack, j: nat)
    requires Inv(s) && PopCan(s, j) && s.mutex == ByPopper(j)
    ensures var t := PopStep(s, j); Exclusive(t) && NoLeak(t)
  {
    var t := PopStep(s, j);
    assert PopperOk(s, j);
    OwnersLive(s);
    forall i, a
      ensures PusherOwns(t, i, a) == PusherOwns(s, i, a)
    {
    }
    forall k: nat, a | k < |s.poppers| && k != j
      ensures PopperOwns(t, k, a) == PopperOwns(s, k, a)
    {
    }
    forall k, a | PopperOwns(s, k, a)
      ensures k == j
    {
      assert PopperOk(s, k);
    }
    forall a | a in t.heap
      ensures a in t.chain || (exists i :: PusherOwns(t, i, a)) || (exists k :: PopperOwns(t, k, a))
    {
      if a in s.chain {
        assert a in t.chain || PopperOwns(t, j, a);
      } else if i :| PusherOwns(s, i, a) {
        assert PusherOwns(t, i, a);
      } else {
        assert false;
      }
    }
  }

  lemma PopKeepsLog(s: Stack, j: nat)
    requires Inv(s) && PopCan(s, j) && s.mutex == ByPopper(j)
    requires var t := PopStep(s, j); Linked(t.heap, t.head, t.chain)
    ensures LogMatches(PopStep(s, j))
  {
    var t := PopStep(s, j);
    assert PopperOk(s, j);
    LinkedLive(s.heap, s.head, s.chain);
    var values := Values(s.heap, s.chain);
    match s.poppers[j].stage
    case PrintData =>
      if s.chain != [] {
        ReplayPop(s.log, values, values[0]);
      }
    case PopHead =>
      assert Values(t.heap, t.chain) == values[1..];
    case FreeTemp =>
      LinkedFrame(s.heap, t.heap, s.head, s.chain);
    case _ =>
      assert LogBehind(t) == LogBehind(s);
  }

  lemma PopKeepsInv(s: Stack, j: nat)
    requires Inv(s) && PopCan(s, j) && s.mutex == ByPopper(j)
    ensures Inv(PopStep(s, j))
    ensures PopStep(s, j).fault == if s.poppers[j].stage.PrintData? && s.chain == [] then NullDeref else NoFault
  {
    PopKeepsLinked(s, j);
    PopKeepsOwnership(s, j);
    PopKeepsLog(s, j);
  }

  /** No thread is in the middle of its accesses to the list. */
  predicate Quiet(s: Stack) {
    && (forall i | 0 <= i < |s.pushers| :: !s.pushers[i].NeedsMutex())
    && (forall j | 0 <= j < |s.poppers| :: !s.poppers[j].NeedsMutex())
  }

  lemma QuietWhen(s: Stack)
    requires Ok(s)
    requires s.mutex.ByPusher? ==> s.mutex.i < |s.pushers| && !s.pushers[s.mutex.i].NeedsMutex()
    requires s.mutex.ByPopper? ==> s.mutex.j < |s.poppers| && !s.poppers[s.mutex.j].NeedsMutex()
    ensures Quiet(s)
  {
    forall i | 0 <= i < |s.pushers|
      ensures !s.pushers[i].NeedsMutex()
    {
      assert PusherOk(s, i);
    }
    forall j | 0 <= j < |s.poppers|
      ensures !s.poppers[j].NeedsMutex()
    {
      assert PopperOk(s, j);
    }
  }

  lemma OwnersUntouched(s: Stack, t: Stack)
    requires s.pushers == t.pushers && s.poppers == t.poppers
    ensures forall i, a :: PusherOwns(t, i, a) == PusherOwns(s, i, a)
    ensures forall j, a :: PopperOwns(t, j, a) == PopperOwns(s, j, a)
  {
  }

  /** Taking and releasing the mutex keeps the invariant. */
  lemma MutexKeepsInv(s: Stack, owner: Owner)
    requires Inv(s) && Quiet(s)
    ensures Inv(s.(mutex := owner))
  {
    var t := s.(mutex := owner);
    forall i: nat | i < |t.pushers|
      ensures PusherOk(t, i)
    {
      assert PusherOk(s, i);
    }
    forall j: nat | j < |t.poppers|
      ensures PopperOk(t, j)
    {
      assert PopperOk(s, j);
    }
    OwnersUntouched(s, t);
    assert !LogBehind(s) && !LogBehind(t);
  }

  // ---- What the invariant says about the heap and the log ----

  /** Where an allocated node is. */
  datatype Place = InList | WithPusher(i: nat) | WithPopper(j: nat)

  predicate IsAt(s: Stack, a: nat, place: Place) {
    match place
    case InList => a in s.chain
    case WithPusher(i) => PusherOwns(s, i, a)
    case WithPopper(j) => PopperOwns(s, j, a)
  }

  /** Every allocated node is in exactly one place, and every place holds only allocated nodes: nothing is
      leaked, nothing is shared, and freed nodes are in no place. */
  lemma NodeInOnePlace(s: Stack, a: nat)
    requires Inv(s)
    ensures a in s.heap <==> exists place :: IsAt(s, a, place)
    ensures forall place, other :: IsAt(s, a, place) && IsAt(s, a, other) ==> place == other
  {
    OwnersLive(s);
    LinkedLive(s.heap, s.head, s.chain);
    if a in s.heap {
      if a in s.chain {
        assert IsAt(s, a, InList);
      } else if i :| PusherOwns(s, i, a) {
        assert IsAt(s, a, WithPusher(i));
      } else {
        var j :| PopperOwns(s, j, a);
        assert IsAt(s, a, WithPopper(j));
      }
    }
    forall place, other | IsAt(s, a, place) && IsAt(s, a, other)
      ensures place == other
    {
      if place.WithPopper? && other.WithPopper? {
        assert PopperOk(s, place.j) && PopperOk(s, other.j);
      }
    }
  }

  /** The numbers in the list when the printed lines and the list agree, first node first. */
  ghost function Contents(s: Stack): (values: seq<int>)
    requires Inv(s)
    ensures |values| == |s.chain|
  {
    LinkedLive(s.heap, s.head, s.chain);
    Values(s.heap, s.chain)
  }

  /** The log is a correct history of a last-in first-out stack; it determines what is left, and the list holds that,
      up to the one node that a thread inside the critical section has linked but not printed, or printed but
      not unlinked. The numbers printed as produced are those printed as consumed plus those that history leaves. */
  lemma LogIsStackHistory(s: Stack) returns (left: seq<int>)
    requires Inv(s)
    ensures LogBehind(s) ==> Contents(s) != []
    ensures left == if LogBehind(s) then Contents(s)[1..] else Contents(s)
    ensures Replays(s.log, left)
    ensures multiset(ProducedValues(s.log)) == multiset(ConsumedValues(s.log)) + multiset(left)
    ensures forall other :: Replays(s.log, other) ==> other == left
  {
    left := if LogBehind(s) then Contents(s)[1..] else Contents(s);
    ReplayConserves(s.log, left);
    forall other | Replays(s.log, other)
      ensures other == left
    {
      ReplayUnique(s.log, left, other);
    }
  }

  // ---- What the printed numbers are ----

  /** A pusher that has passed line 34 holds a drawn number. */
  predicate PusherDrawn(s: Stack, i: nat) {
    && i < |s.pushers|
    && var p := s.pushers[i];
       p.stage.LoadHead? || p.stage.StoreNext? || p.stage.StoreHead? ==>
         Live(s.heap, p.node) && Drawn(s.heap[p.node.addr].data)
  }

  /** Printed and listed are drawn numbers only. */
  predicate DataOk(s: Stack) {
    && (forall k | 0 <= k < |s.log| :: Drawn(s.log[k].value))
    && (forall a | a in s.chain :: a in s.heap && Drawn(s.heap[a].data))
    && (forall i: nat | i < |s.pushers| :: PusherDrawn(s, i))
  }

  lemma PushKeepsData(s: Stack, i: nat, choice: Choice)
    requires Inv(s) && PushCan(s, i, choice) && PusherHolds(s, i) && DataOk(s)
    ensures DataOk(PushStep(s, i, choice))
  {
    var t := PushStep(s, i, choice);
    assert PusherOk(s, i) && PusherDrawn(s, i);
    forall k: nat | k < |t.pushers|
      ensures PusherDrawn(t, k)
    {
      assert PusherOk(s, k) && PusherDrawn(s, k);
      if s.pushers[i].Owns() && k != i {
        var a := s.pushers[i].node.addr;
        assert PusherOwns(s, i, a) && !PusherOwns(s, k, a);
      }
    }
  }

  lemma PopKeepsData(s: Stack, j: nat)
    requires Inv(s) && PopCan(s, j) && s.mutex == ByPopper(j) && DataOk(s)
    ensures DataOk(PopStep(s, j))
  {
    var t := PopStep(s, j);
    assert PopperOk(s, j);
    assert s.chain != [] ==> s.head == At(s.chain[0]) && s.chain[0] in s.chain;
    forall k: nat | k < |t.pushers|
      ensures PusherDrawn(t, k)
    {
      assert PusherOk(s, k) && PusherDrawn(s, k);
      if s.poppers[j].Owns() {
        var a := s.poppers[j].temp.addr;
        assert PopperOwns(s, j, a) && !PusherOwns(s, k, a);
      }
    }
  }

  lemma DataUntouched(s: Stack, t: Stack)
    requires DataOk(s) && t == s.(mutex := t.mutex)
    ensures DataOk(t)
  {
    forall i: nat | i < |t.pushers|
      ensures PusherDrawn(t, i)
    {
      assert PusherDrawn(s, i);
    }
  }

  function PushStageAfter(stage: PushStage): PushStage {
    match stage
    case Malloc => StoreData
    case StoreData => LoadHead
    case LoadHead => StoreNext
    case StoreNext => StoreHead
    case StoreHead => Print
    case Print => Malloc
  }

  function PopStageAfter(stage: PopStage): PopStage {
    match stage
    case ReadHead => PrintData
    case PrintData => SetTemp
    case SetTemp => ReloadHead
    case ReloadHead => LoadNext
    case LoadNext => PopHead
    case PopHead => FreeTemp
    case FreeTemp => ReadHead
  }

  /** The first pusher has a node with the number `v`. */
  predicate NodeHolds(s: Stack, v: int) {
    |s.pushers| > 0 && Live(s.heap, s.pushers[0].node) && s.heap[s.pushers[0].node.addr].data == v
  }

  /** What one access of a push does for the list and the log. */
  lemma PushEffect(s: Stack, i: nat, choice: Choice)
    requires Inv(s) && PushCan(s, i, choice) && PusherHolds(s, i)
    ensures var t := PushStep(s, i, choice);
      && t.fault == NoFault && t.mutex == s.mutex && t.poppers == s.poppers && |t.pushers| == |s.pushers|
      && t.pushers[i].stage == PushStageAfter(s.pushers[i].stage)
      && |t.chain| == |s.chain| + (if s.pushers[i].stage.StoreHead? then 1 else 0)
    ensures var t, p := PushStep(s, i, choice), s.pushers[i]; var q := t.pushers[i];
      && (p.stage.StoreData? ==> Live(t.heap, q.node) && t.heap[q.node.addr].data == choice.value)
      && (p.stage.LoadHead? || p.stage.StoreNext? || p.stage.StoreHead? ==>
            && q.node == p.node && Live(s.heap, p.node) && Live(t.heap, p.node)
            && t.heap[p.node.addr].data == s.heap[p.node.addr].data)
      && (if p.stage.Print? then Live(s.heap, p.node) && t.log == s.log + [Produced(s.heap[p.node.addr].data)]
          else t.log == s.log)
  {
    assert PusherOk(s, i);
    LinkedLive(s.heap, s.head, s.chain);
  }

  /** What one access of a pop that finds a node does for the list and the log. */
  lemma PopEffect(s: Stack, j: nat)
    requires Inv(s) && PopCan(s, j) && s.mutex == ByPopper(j)
    requires s.poppers[j].stage.PrintData? ==> s.chain != []
    ensures var t := PopStep(s, j);
      && t.fault == NoFault && t.mutex == s.mutex && t.pushers == s.pushers && |t.poppers| == |s.poppers|
      && t.poppers[j].stage == PopStageAfter(s.poppers[j].stage)
      && t.chain == (if s.poppers[j].stage.PopHead? && s.chain != [] then s.chain[1..] else s.chain)
    ensures if s.poppers[j].stage.PrintData? then exists v :: PopStep(s, j).log == s.log + [Consumed(v)]
            else PopStep(s, j).log == s.log
  {
    PopKeepsInv(s, j);
    assert PopperOk(s, j);
  }

  // ---- The accesses in place ----

  /** The list head, the heap, the mutex and the threads' registers, updated one access at a time. */
  class Memory {
    var pushers: seq<Pusher>
    var poppers: seq<Popper>
    var mutex: Owner
    var head: Ptr
    var heap: Heap
    var log: seq<Event>
    var fault: Fault
    var chain: seq<nat>

    function Now(): Stack
      reads this
    {
      Stack(pushers, poppers, mutex, head, heap, log, fault, chain)
    }

    constructor (pushing: nat, popping: nat)
      ensures Now() == Stack(seq(pushing, _ => Pusher(Malloc, Null, Null)),
                             seq(popping, _ => Popper(ReadHead, Null, Null)),
                             Free, Null, map[], [], NoFault, [])
    {
      pushers := seq(pushing, _ => Pusher(Malloc, Null, Null));
      poppers := seq(popping, _ => Popper(ReadHead, Null, Null));
      mutex, head, heap := Free, Null, map[];
      log, fault, chain := [], NoFault, [];
    }

    method Push(i: nat, choice: Choice)
      requires PushCan(Now(), i, choice)
      modifies this
      ensures Now() == PushStep(old(Now()), i, choice)
    {
      var p := pushers[i];
      match p.stage
      case Malloc =>
        heap := heap[choice.addr := choice.garbage];
        pushers := pushers[i := Pusher(StoreData, At(choice.addr), Null)];
      case StoreData =>
        fault := FaultOf(heap, p.node);
        if fault == NoFault {
          heap := heap[p.node.addr := heap[p.node.addr].(data := choice.value)];
          pushers := pushers[i := p.(stage := LoadHead)];
        }
      case LoadHead => pushers := pushers[i := p.(stage := StoreNext, reg := head)];
      case StoreNext =>
        fault := FaultOf(heap, p.node);
        if fault == NoFault {
          heap := heap[p.node.addr := heap[p.node.addr].(next := p.reg)];
          pushers := pushers[i := p.(stage := StoreHead)];
        }
      case StoreHead =>
        head := p.node;
        chain := (if p.node == Null then [] else [p.node.addr]) + chain;
        pushers := pushers[i := p.(stage := Print)];
      case Print =>
        fault := FaultOf(heap, p.node);
        if fault == NoFault {
          log := log + [Produced(heap[p.node.addr].data)];
          pushers := pushers[i := p.(stage := Malloc)];
        }
    }

    method Pop(j: nat)
      requires PopCan(Now(), j)
      modifies this
      ensures Now() == PopStep(old(Now()), j)
    {
      var c := poppers[j];
      match c.stage
      case ReadHead => poppers := poppers[j := c.(stage := PrintData, reg := head)];
      case PrintData =>
        fault := FaultOf(heap, c.reg);
        if fault == NoFault {
          log := log + [Consumed(heap[c.reg.addr].data)];
          poppers := poppers[j := c.(stage := SetTemp)];
        }
      case SetTemp => poppers := poppers[j := c.(stage := ReloadHead, temp := head)];
      case ReloadHead => poppers := poppers[j := c.(stage := LoadNext, reg := head)];
      case LoadNext =>
        fault := FaultOf(heap, c.reg);
        if fault == NoFault {
          poppers := poppers[j := c.(stage := PopHead, reg := heap[c.reg.addr].next)];
        }
      case PopHead =>
        head := c.reg;
        chain := if chain == [] then [] else chain[1..];
        poppers := poppers[j := c.(stage := FreeTemp)];
      case FreeTemp =>
        if c.temp != Null && c.temp.addr !in heap {
          fault := BadAccess;
        } else {
          heap := if c.temp == Null then heap else heap - {c.temp.addr};
          poppers := poppers[j := c.(stage := ReadHead)];
        }
    }
  }
}
