/** The singly linked heap list that the producer/consumer programs share: explicit addresses,
    nodes that can be freed, and the list hanging from `head` read back as a chain of addresses.
    Also the log the programs print, replayed against an abstract stack. */
module HeapStack {

  datatype Ptr = Null | At(addr: nat)

  datatype Node = Node(data: int, next: Ptr)

  /** The allocated nodes. An access outside the domain touches freed or foreign memory. */
  type Heap = map<nat, Node>

  predicate Live(heap: Heap, p: Ptr) {
    p.At? && p.addr in heap
  }

  /** From `head`, the `next` links visit exactly the addresses of `chain`, all live, none twice, and end in NULL. */
  ghost predicate Linked(heap: Heap, head: Ptr, chain: seq<nat>)
    decreases chain
  {
    if chain == [] then
      head == Null
    else
      && head == At(chain[0])
      && chain[0] in heap
      && chain[0] !in chain[1..]
      && Linked(heap, heap[chain[0]].next, chain[1..])
  }

  ghost function Values(heap: Heap, chain: seq<nat>): (values: seq<int>)
    requires forall a :: a in chain ==> a in heap
    ensures |values| == |chain|
  {
    if chain == [] then [] else [heap[chain[0]].data] + Values(heap, chain[1..])
  }

  lemma {:induction false} LinkedLive(heap: Heap, head: Ptr, chain: seq<nat>)
    requires Linked(heap, head, chain)
    ensures forall a :: a in chain ==> a in heap
    decreases chain
  {
    if chain == [] {
    } else {
      LinkedLive(heap, heap[chain[0]].next, chain[1..]);
    }
  }

  /** A heap that agrees on the chain carries the same chain and the same values. */
  lemma {:induction false} LinkedFrame(heap: Heap, other: Heap, head: Ptr, chain: seq<nat>)
    requires Linked(heap, head, chain)
    requires forall a :: a in chain ==> a in other && (a in heap ==> other[a] == heap[a])
    ensures Linked(other, head, chain)
    ensures forall a :: a in chain ==> a in heap
    ensures Values(other, chain) == Values(heap, chain)
    decreases chain
  {
    if chain == [] {
    } else {
      LinkedFrame(heap, other, heap[chain[0]].next, chain[1..]);
    }
  }

  /** The links determine the chain: a linked list is acyclic and can be read in one way only. */
  lemma {:induction false} LinkedUnique(heap: Heap, head: Ptr, chain: seq<nat>, other: seq<nat>)
    requires Linked(heap, head, chain) && Linked(heap, head, other)
    ensures chain == other
    decreases chain
  {
    if chain == [] {
    } else {
      LinkedUnique(heap, heap[chain[0]].next, chain[1..], other[1..]);
      assert chain == [chain[0]] + chain[1..];
      assert other == [other[0]] + other[1..];
    }
  }

  lemma {:induction false} UnusedAbove(used: set<nat>) returns (bound: nat)
    ensures forall a | a in used :: a < bound
    decreases used
  {
    if used == {} {
      bound := 0;
    } else {
      var a :| a in used;
      var rest := UnusedAbove(used - {a});
      bound := if a < rest then rest else a + 1;
      assert forall b | b in used :: b == a || b in used - {a};
    }
  }

  /** `malloc` can always return an address that is not in use. */
  lemma FreshAddress(heap: Heap) returns (addr: nat)
    ensures addr !in heap
  {
    addr := UnusedAbove(heap.Keys);
  }
}

/** The lines printed by the producers and customers, and what they say about the shared list. */
module StackLog {

  datatype Event = Produced(value: int) | Consumed(value: int)

  /** The log is a correct history of an abstract stack that ends with the contents `stack`, top first:
      a Produced event pushes its value, a Consumed event pops exactly the value on top. */
  predicate Replays(log: seq<Event>, stack: seq<int>)
    decreases |log|
  {
    if log == [] then
      stack == []
    else
      match log[|log| - 1]
      case Produced(v) => stack != [] && stack[0] == v && Replays(log[..|log| - 1], stack[1..])
      case Consumed(v) => Replays(log[..|log| - 1], [v] + stack)
  }

  function ProducedValues(log: seq<Event>): seq<int> {
    if log == [] then []
    else
      var front := ProducedValues(log[..|log| - 1]);
      if log[|log| - 1].Produced? then front + [log[|log| - 1].value] else front
  }

  function ConsumedValues(log: seq<Event>): seq<int> {
    if log == [] then []
    else
      var front := ConsumedValues(log[..|log| - 1]);
      if log[|log| - 1].Consumed? then front + [log[|log| - 1].value] else front
  }

  lemma ReplayPush(log: seq<Event>, stack: seq<int>, v: int)
    requires Replays(log, stack)
    ensures Replays(log + [Produced(v)], [v] + stack)
  {
    assert (log + [Produced(v)])[..|log|] == log;
    assert ([v] + stack)[1..] == stack;
  }

  lemma ReplayPop(log: seq<Event>, stack: seq<int>, v: int)
    requires Replays(log, stack) && stack != [] && stack[0] == v
    ensures Replays(log + [Consumed(v)], stack[1..])
  {
    assert (log + [Consumed(v)])[..|log|] == log;
    assert [v] + stack[1..] == stack;
  }

  /** Nothing is lost or invented: what was produced is what was consumed plus what is still stacked. */
  lemma {:induction false} ReplayConserves(log: seq<Event>, stack: seq<int>)
    requires Replays(log, stack)
    ensures multiset(ProducedValues(log)) == multiset(ConsumedValues(log)) + multiset(stack)
    decreases |log|
  {
    if log == [] {
    } else {
      var front := log[..|log| - 1];
      match log[|log| - 1]
      case Produced(v) =>
        ReplayConserves(front, stack[1..]);
        assert stack == [v] + stack[1..];
      case Consumed(v) =>
        ReplayConserves(front, [v] + stack);
    }
  }

  /** A log has at most one final stack. */
  lemma {:induction false} ReplayUnique(log: seq<Event>, stack: seq<int>, other: seq<int>)
    requires Replays(log, stack) && Replays(log, other)
    ensures stack == other
    decreases |log|
  {
    if log == [] {
    } else {
      var front := log[..|log| - 1];
      match log[|log| - 1]
      case Produced(v) =>
        ReplayUnique(front, stack[1..], other[1..]);
        assert stack == [v] + stack[1..] && other == [v] + other[1..];
      case Consumed(v) =>
        ReplayUnique(front, [v] + stack, [v] + other);
        assert stack == ([v] + stack)[1..] && other == ([v] + other)[1..];
    }
  }

  /** What random() % 100 + 1 gives. */
  predicate Drawn(v: int) { 1 <= v <= 100 }

  lemma {:induction false} ProducedDrawn(log: seq<Event>)
    requires forall k | 0 <= k < |log| :: Drawn(log[k].value)
    ensures forall v | v in ProducedValues(log) :: Drawn(v)
  {
    if log != [] {
      ProducedDrawn(log[..|log| - 1]);
    }
  }

  lemma ProducedAppend(log: seq<Event>, v: int, w: int)
    ensures ProducedValues(log + [Produced(v)] + [Consumed(w)]) == ProducedValues(log) + [v]
  {
    assert (log + [Produced(v)] + [Consumed(w)])[..|log| + 1] == log + [Produced(v)];
    assert (log + [Produced(v)])[..|log|] == log;
  }

  lemma LogGrows(log: seq<Event>, e: Event)
    ensures ProducedValues(log + [e]) == ProducedValues(log) + (if e.Produced? then [e.value] else [])
    ensures ConsumedValues(log + [e]) == ConsumedValues(log) + (if e.Consumed? then [e.value] else [])
  {
    assert (log + [e])[..|log|] == log;
  }
}
