/** The intrusive list of revision/node.c: nodes embedded in the caller's data, a head node embedded in the
    list manager, and a cached size. NULL arguments and out-of-range positions are handled as the code does;
    where it would dereference NULL the method stops and says so. */
module LinkedList {

  /** What happened to a call. */
  datatype Outcome =
    | Done
    | Rejected   // the guard printed a message and returned
    | NullDeref  // NULL was dereferenced: the program crashes

  class Node {
    var next: Node?

    constructor ()
      ensures next == null
    {
      next := null;
    }
  }

  predicate Distinct<T(==)>(s: seq<T>) {
    forall i, j | 0 <= i < j < |s| :: s[i] != s[j]
  }

  /** From `from`, the links visit exactly `nodes`, in order, and end in NULL. */
  ghost predicate Chain(from: Node, nodes: seq<Node>)
    reads from, nodes
  {
    && from.next == (if nodes == [] then null else nodes[0])
    && (forall i {:trigger nodes[i].next} | 0 <= i < |nodes| ::
          nodes[i].next == if i + 1 < |nodes| then nodes[i + 1] else null)
  }

  class ListManager {
    const head: Node
    var size: int
    ghost var nodes: seq<Node>  // the nodes of the list, first to last

    /** The links form an acyclic chain of distinct nodes, and the cached size does not fall short of its length.
        It can exceed it: see PushBack. */
    ghost predicate Linked()
      reads this, head, nodes
    {
      && |nodes| <= size
      && head !in nodes
      && Distinct(nodes)
      && Chain(head, nodes)
    }

    /** The cached size is the length of the chain. */
    ghost predicate Valid()
      reads this, head, nodes
    {
      Linked() && size == |nodes|
    }

    /** ListInit (lines 3-11). */
    constructor ()
      ensures Valid() && nodes == []
      ensures fresh(head)
    {
      head := new Node();
      size := 0;
      nodes := [];
    }
  }

  /** Inside a set of nodes whose links never leave it and are never NULL, no chain ends. */
  lemma ClosedSetHasNoEnd(loop: set<Node>, from: Node, nodes: seq<Node>)
    requires from.next != null && from.next in loop
    requires forall n | n in loop :: n.next != null && n.next in loop
    ensures !Chain(from, nodes)
  {
    if Chain(from, nodes) {
      var i := 0;
      while i < |nodes| - 1
        invariant 0 <= i < |nodes|
        invariant nodes[i] in loop
      {
        assert nodes[i].next == nodes[i + 1];
        i := i + 1;
      }
    }
  }

  /** AddNode (lines 13-25): prepends. The code does not check that the node is new to the list, and it must be:
      inserting a node that is already linked (or the head node itself) leaves a list that never ends. */
  method AddNode(list: ListManager?, data: Node?) returns (outcome: Outcome)
    requires list != null ==> list.Linked()
    modifies if list != null && data != null then {list, list.head, data} else {}
    ensures outcome == if list == null || data == null then Rejected else Done
    ensures outcome == Rejected && list != null ==> unchanged(list) && unchanged(list.head)
    ensures outcome == Done ==> list.size == old(list.size) + 1
    ensures outcome == Done && data !in old(list.nodes) && data != list.head ==>
      list.Linked() && list.nodes == [data] + old(list.nodes)
    ensures outcome == Done && (data in old(list.nodes) || data == list.head) ==>
      forall nodes :: !Chain(list.head, nodes)
  {
    if list == null || data == null {
      return Rejected;
    }
    ghost var before := list.nodes;
    data.next := list.head.next;
    list.head.next := data;
    list.size := list.size + 1;
    list.nodes := [data] + list.nodes;
    if data in before {
      ghost var k :| 0 <= k < |before| && before[k] == data;
      ghost var loop := set i | 0 <= i <= k :: before[i];
      forall n | n in loop
        ensures n.next != null && n.next in loop
      {
        var i :| 0 <= i <= k && before[i] == n;
        assert n.next == before[if i < k then i + 1 else 0];
      }
      assert before[k] in loop;
      forall nodes {
        ClosedSetHasNoEnd(loop, list.head, nodes);
      }
    } else if data == list.head {
      forall nodes {
        ClosedSetHasNoEnd({data}, list.head, nodes);
      }
    }
    return Done;
  }

  /** The node reached from the head node in `k` links. */
  ghost function NodeAt(list: ListManager, k: nat): Node
    requires k <= |list.nodes|
    reads list
  {
    if k == 0 then list.head else list.nodes[k - 1]
  }

  /** The walk shared by DelNode (lines 55-59) and PushBack (lines 85-89): follow `steps` links from the head
      node, where a negative count never reaches 0. NULL means that the walk dereferenced NULL or ended there. */
  method Walk(list: ListManager, steps: int) returns (iter: Node?)
    requires list.Linked()
    ensures iter == if 0 <= steps <= |list.nodes| then NodeAt(list, steps) else null
  {
    iter := list.head;
    var left := steps;
    ghost var k := 0;
    while left != 0
      invariant 0 <= k <= |list.nodes| + 1 && left == steps - k
      invariant steps >= 0 ==> k <= steps
      invariant iter == if k <= |list.nodes| then NodeAt(list, k) else null
      decreases |list.nodes| + 1 - k
    {
      if iter == null {
        return;
      }
      iter := iter.next;
      left := left - 1;
      k := k + 1;
    }
  }

  function RemoveAt<T>(s: seq<T>, k: nat): (r: seq<T>)
    requires k < |s|
    ensures |r| == |s| - 1
    ensures forall i | 0 <= i < |r| :: r[i] == if i < k then s[i] else s[i + 1]
  {
    s[..k] + s[k + 1..]
  }

  /** DelNode (lines 44-64): removes the node at position `pos`, counted from 1, and detaches it. The guard
      rejects positions beyond the size, but not those before the beginning: for those the walk never meets 0
      and runs off the end of the list. */
  method DelNode(list: ListManager?, pos: int) returns (outcome: Outcome)
    requires list != null ==> list.Linked()
    modifies if list != null then {list, list.head} + (set n | n in list.nodes) else {}
    ensures outcome == Rejected <==> list == null || pos > old(list.size)
    ensures outcome == NullDeref <==> list != null && pos <= old(list.size) && (pos < 1 || pos > old(|list.nodes|))
    ensures outcome != Done && list != null ==> unchanged(list) && unchanged(list.head) && unchanged(old(list.nodes))
    ensures outcome == Done ==>
      && list.Linked() && list.size == old(list.size) - 1
      && list.nodes == RemoveAt(old(list.nodes), pos - 1)
      && old(list.nodes[pos - 1]).next == null
  {
    if list == null || pos > list.size {
      return Rejected;
    }
    var iter := Walk(list, pos - 1);
    if iter == null || iter.next == null {
      return NullDeref;
    }
    Unlink(list, pos, iter);
    return Done;
  }

  lemma RemoveKeepsDistinct<T>(s: seq<T>, k: nat)
    requires k < |s| && Distinct(s)
    ensures Distinct(RemoveAt(s, k))
    ensures forall x :: x in RemoveAt(s, k) ==> x in s && x != s[k]
  {
  }

  /** Lines 60-63. */
  method Unlink(list: ListManager, ghost pos: int, iter: Node)
    requires list.Linked() && 1 <= pos <= |list.nodes| && iter == NodeAt(list, pos - 1)
    modifies list, iter, list.nodes[pos - 1]
    ensures list.Linked() && list.nodes == RemoveAt(old(list.nodes), pos - 1) && list.size == old(list.size) - 1
    ensures old(list.nodes[pos - 1]).next == null
  {
    ghost var before, k := list.nodes, pos - 1;
    var temp := iter.next;
    assert temp == before[k];
    iter.next := iter.next.next;
    temp.next := null;
    list.size := list.size - 1;
    list.nodes := RemoveAt(list.nodes, pos - 1);
    assert Distinct(list.nodes) && list.head !in list.nodes by {
      RemoveKeepsDistinct(before, k);
    }
    forall i | 0 <= i < |list.nodes|
      ensures list.nodes[i].next == if i + 1 < |list.nodes| then list.nodes[i + 1] else null
    {
      var m := if i < k then i else i + 1;
      assert list.nodes[i] == before[m] && before[m] != before[k];
      assert old(before[m].next) == if m + 1 < |before| then before[m + 1] else null;
      assert old(before[k].next) == if k + 1 < |before| then before[k + 1] else null;
      if m + 1 == k {
        assert iter == before[m];
      } else {
        assert iter != before[m];
      }
    }
  }

  /** GetSize (lines 66-76). */
  method GetSize(list: ListManager?) returns (size: int)
    requires list != null ==> list.Linked()
    ensures size == if list == null then 0 else list.size
    ensures list != null ==> (size == |list.nodes| <==> list.Valid())
  {
    if list == null {
      return 0;
    } else {
      return list.size;
    }
  }

  /** The nodes up to and including `data`. */
  function UpTo(nodes: seq<Node>, data: Node): seq<Node> {
    if nodes == [] then []
    else if nodes[0] == data then [data]
    else [nodes[0]] + UpTo(nodes[1..], data)
  }

  lemma {:induction false} UpToIndex(nodes: seq<Node>, data: Node, k: nat)
    requires k < |nodes| && nodes[k] == data && Distinct(nodes)
    ensures UpTo(nodes, data) == nodes[..k + 1]
  {
    if k > 0 {
      assert nodes[0] != nodes[k];
      assert Distinct(nodes[1..]) && nodes[1..][k - 1] == data;
      UpToIndex(nodes[1..], data, k - 1);
      assert nodes[..k + 1] == [nodes[0]] + nodes[1..][..k];
    }
  }

  /** What hangs from the head node after `data` has been linked behind the last node and detached from what followed
      it: a node that was in the list before cuts the list off behind itself, and the head node cuts off all of it. */
  function Appended(nodes: seq<Node>, head: Node, data: Node): seq<Node> {
    if data == head then [] else if data in nodes then UpTo(nodes, data) else nodes + [data]
  }

  /** PushBack (lines 78-94): appends. Neither argument is checked, and neither is that the node is new to the list:
      with a node that is already linked the list is cut off behind it while the size grows, and from then on every
      PushBack runs off the end of the list. */
  method PushBack(list: ListManager?, data: Node?) returns (outcome: Outcome)
    requires list != null ==> list.Linked()
    modifies if list == null then {} else {list, NodeAt(list, |list.nodes|)} + if data == null then {} else {data}
    ensures outcome == if list == null || data == null || old(list.size > |list.nodes|) then NullDeref else Done
    ensures list != null ==> list.Linked()
    ensures outcome == NullDeref && list != null ==> unchanged(list) && list.head.next == old(list.head.next)
    ensures outcome == Done ==>
      list.size == old(list.size) + 1 && list.nodes == Appended(old(list.nodes), list.head, data)
    ensures outcome == Done ==> (list.Valid() <==> data !in old(list.nodes) && data != list.head)
    ensures outcome == Done ==>
      forall k | 0 <= k < |old(list.nodes)| && old(list.nodes)[k] == data :: list.nodes == old(list.nodes)[..k + 1]
  {
    if list == null {
      return NullDeref;
    }
    var iter := Walk(list, list.size);
    if iter == null {
      return NullDeref;
    }
    assert iter == NodeAt(list, |list.nodes|) && iter.next == null;
    ghost var before := list.nodes;
    iter.next := data;
    if data == null {
      return NullDeref;
    }
    data.next := null;
    list.size := list.size + 1;
    list.nodes := Appended(before, list.head, data);
    if data in before && data != list.head {
      ghost var k :| 0 <= k < |before| && before[k] == data;
      UpToIndex(before, data, k);
    }
    return Done;
  }

  /** Pop (lines 96-99): removes the last node; on an empty list, or where the size is not that of the list, it
      crashes. */
  method Pop(list: ListManager?) returns (outcome: Outcome)
    requires list != null ==> list.Linked()
    modifies if list != null then {list, list.head} + (set n | n in list.nodes) else {}
    ensures outcome == if list != null && old(list.nodes != [] && list.Valid()) then Done else NullDeref
    ensures outcome == NullDeref && list != null ==> unchanged(list) && unchanged(list.head) && unchanged(list.nodes)
    ensures outcome == Done ==>
      && list.Valid()
      && list.nodes == old(list.nodes)[..|old(list.nodes)| - 1]
      && old(list.nodes[|list.nodes| - 1]).next == null
  {
    if list == null {
      return NullDeref;
    }
    outcome := DelNode(list, list.size);
  }

  /** Traversal (lines 27-42): ends on every acyclic list and calls the callback once for each node, in list order:
      `worlds` are the states of the rest of the world before the first call and after each. `W` is everything a
      callback may change but the links: the users' data and the output. */
  method Traversal<W>(list: ListManager?, callback: (W, Node) -> W, world: W) returns (after: W, ghost worlds: seq<W>)
    requires list != null ==> list.Linked()
    ensures list == null ==> after == world && worlds == [world]
    ensures list != null ==>
      && |worlds| == |list.nodes| + 1 && worlds[0] == world && after == worlds[|list.nodes|]
      && forall i | 0 <= i < |list.nodes| :: worlds[i + 1] == callback(worlds[i], list.nodes[i])
  {
    after, worlds := world, [world];
    if list == null {
      return;
    }
    var iter := list.head.next;
    ghost var k := 0;
    while iter != null
      invariant 0 <= k <= |list.nodes|
      invariant iter == if k < |list.nodes| then list.nodes[k] else null
      invariant |worlds| == k + 1 && worlds[0] == world && after == worlds[k]
      invariant forall i | 0 <= i < k :: worlds[i + 1] == callback(worlds[i], list.nodes[i])
      decreases |list.nodes| - k
    {
      after := callback(after, iter);
      iter := iter.next;
      k, worlds := k + 1, worlds + [after];
    }
  }

  /** A callback that notes its node is called with exactly the nodes of the list, first to last. */
  method Visited(list: ListManager?) returns (visited: seq<Node>)
    requires list != null ==> list.Linked()
    ensures visited == if list == null then [] else list.nodes
  {
    ghost var worlds;
    visited, worlds := Traversal(list, (seen: seq<Node>, node: Node) => seen + [node], []);
    if list != null {
      ghost var k := 0;
      while k < |list.nodes|
        invariant 0 <= k <= |list.nodes| && worlds[k] == list.nodes[..k]
      {
        assert worlds[k + 1] == worlds[k] + [list.nodes[k]];
        k := k + 1;
      }
      assert list.nodes[..k] == list.nodes;
    }
  }

  // ---- Sequences of operations ----

  datatype Operation =
    | Add(node: Node?)
    | Del(pos: int)
    | Append(node: Node?)
    | DropLast

  /** Whether a sequence of operations goes on. Looped: AddNode has closed the links to a ring. */
  datatype Ending = Fine | Crashed | Looped

  /** A list as its users see it: its nodes and the size it reports. */
  datatype Listing = Listing(nodes: seq<Node>, size: int)

  function Step(l: Listing, head: Node, op: Operation): (Listing, Ending) {
    match op
    case Add(node) =>
      if node == null then (l, Fine)
      else if node in l.nodes || node == head then (l, Looped)
      else (Listing([node] + l.nodes, l.size + 1), Fine)
    case Del(pos) =>
      if pos > l.size then (l, Fine)
      else if pos < 1 || pos > |l.nodes| then (l, Crashed)
      else (Listing(RemoveAt(l.nodes, pos - 1), l.size - 1), Fine)
    case Append(node) =>
      if node == null || l.size > |l.nodes| then (l, Crashed)
      else (Listing(Appended(l.nodes, head, node), l.size + 1), Fine)
    case DropLast =>
      if l.nodes == [] || l.size > |l.nodes| then (l, Crashed)
      else (Listing(l.nodes[..|l.nodes| - 1], l.size - 1), Fine)
  }

  /** The operations up to the first that does not end well. */
  function Play(l: Listing, head: Node, ops: seq<Operation>): (Listing, Ending)
    decreases |ops|
  {
    if ops == [] then (l, Fine)
    else
      var (next, ending) := Step(l, head, ops[0]);
      if ending == Fine then Play(next, head, ops[1..]) else (next, ending)
  }

  /** A size that has run ahead of the list stays ahead: nothing repairs what PushBack of a linked node has done. */
  lemma {:induction false} NeverRepaired(l: Listing, head: Node, ops: seq<Operation>)
    requires |l.nodes| < l.size
    ensures var after := Play(l, head, ops).0; after.size - |after.nodes| == l.size - |l.nodes|
    decreases |ops|
  {
    if ops != [] {
      var (next, ending) := Step(l, head, ops[0]);
      if ending == Fine {
        NeverRepaired(next, head, ops[1..]);
      }
    }
  }

  /** PushBack of a node that is in the list already. */
  predicate Relinks(l: Listing, head: Node, op: Operation) {
    op.Append? && op.node != null && (op.node in l.nodes || op.node == head) && l.size == |l.nodes|
  }

  lemma {:induction false} UpToIsShorter(nodes: seq<Node>, data: Node)
    ensures |UpTo(nodes, data)| <= |nodes|
  {
    if nodes != [] {
      UpToIsShorter(nodes[1..], data);
    }
  }

  lemma RelinkedIsShorter(l: Listing, head: Node, op: Operation)
    requires Relinks(l, head, op)
    ensures var (next, ending) := Step(l, head, op); ending == Fine && |next.nodes| < next.size
  {
    UpToIsShorter(l.nodes, op.node);
  }

  /** The reported size is the length of the list until a node of the list, or its head node, is appended. */
  lemma {:induction false} SizeIsLengthUnlessRelinked(l: Listing, head: Node, ops: seq<Operation>)
    requires l.size == |l.nodes|
    ensures var after := Play(l, head, ops).0;
      after.size == |after.nodes| <==>
      forall i | 0 <= i < |ops| && Play(l, head, ops[..i]).1 == Fine ::
        !Relinks(Play(l, head, ops[..i]).0, head, ops[i])
    decreases |ops|
  {
    if ops != [] {
      var (next, ending) := Step(l, head, ops[0]);
      assert Play(l, head, ops[..0]) == (l, Fine);
      forall i | 0 < i <= |ops|
        ensures Play(l, head, ops[..i])
             == if ending == Fine then Play(next, head, ops[1..][..i - 1]) else (next, ending)
      {
        assert ops[..i][0] == ops[0] && ops[..i][1..] == ops[1..][..i - 1];
      }
      if Relinks(l, head, ops[0]) {
        RelinkedIsShorter(l, head, ops[0]);
        NeverRepaired(next, head, ops[1..]);
      } else if ending == Fine {
        SizeIsLengthUnlessRelinked(next, head, ops[1..]);
        assert forall i | 0 < i < |ops| :: ops[i] == ops[1..][i - 1];
      }
    }
  }

  function NodeOf(op: Operation): set<Node> {
    if (op.Add? || op.Append?) && op.node != null then {op.node} else {}
  }

  function NodesOf(ops: seq<Operation>): set<Node> {
    set i, n | 0 <= i < |ops| && n in NodeOf(ops[i]) :: n
  }

  /** What `list` is to its users. */
  ghost function Now(list: ListManager): Listing
    reads list
  {
    Listing(list.nodes, list.size)
  }

  method Perform(list: ListManager, op: Operation) returns (outcome: Outcome)
    requires list.Linked()
    modifies list, list.head, list.nodes, NodeOf(op)
    ensures var (after, ending) := Step(old(Now(list)), list.head, op);
      && (outcome == NullDeref <==> ending == Crashed)
      && (ending != Looped ==> list.Linked() && Now(list) == after)
      && (ending == Looped ==> forall nodes :: !Chain(list.head, nodes))
  {
    match op
    case Add(node) => outcome := AddNode(list, node);
    case Del(pos) => outcome := DelNode(list, pos);
    case Append(node) =>
      ghost var last := NodeAt(list, |list.nodes|);
      assert last == list.head || last in list.nodes;
      outcome := PushBack(list, node);
    case DropLast => outcome := Pop(list);
  }

  lemma {:induction false} UpToNodes(nodes: seq<Node>, data: Node)
    ensures forall n :: n in UpTo(nodes, data) ==> n in nodes || n == data
  {
    if nodes != [] {
      UpToNodes(nodes[1..], data);
    }
  }

  lemma StepNodes(l: Listing, head: Node, op: Operation)
    ensures forall n :: n in Step(l, head, op).0.nodes ==> n in l.nodes || n in NodeOf(op)
  {
    if op.Append? && op.node != null {
      UpToNodes(l.nodes, op.node);
    }
  }

  /** Any sequence of operations, with any arguments, does to the list what it does to a listing, up to the first crash
      or the first AddNode of a linked node. It crashes exactly when the listing says so, and such an AddNode leaves
      links that never end. `nodes` are the nodes of the list at the beginning. Nothing outside the list and the
      inserted nodes is touched. */
  method RunAll(list: ListManager, nodes: seq<Node>, ops: seq<Operation>) returns (ending: Ending)
    requires list.Linked() && list.nodes == nodes
    modifies list, list.head, list.nodes, NodesOf(ops)
    ensures ending == Play(old(Now(list)), list.head, ops).1
    ensures ending != Looped ==> list.Linked() && Now(list) == Play(old(Now(list)), list.head, ops).0
    ensures ending == Looped ==> forall chain :: !Chain(list.head, chain)
  {
    var i, listing := 0, Listing(nodes, list.size);
    while i < |ops|
      invariant 0 <= i <= |ops| && list.Linked() && Now(list) == listing
      invariant Play(old(Now(list)), list.head, ops) == Play(listing, list.head, ops[i..])
      invariant forall n | n in list.nodes :: n in old(list.nodes) || n in NodesOf(ops)
    {
      assert ops[i..][0] == ops[i] && ops[i..][1..] == ops[i + 1..];
      assert NodeOf(ops[i]) <= NodesOf(ops);
      var outcome := Perform(list, ops[i]);
      StepNodes(listing, list.head, ops[i]);
      listing, ending := Step(listing, list.head, ops[i]).0, Step(listing, list.head, ops[i]).1;
      if ending != Fine {
        return;
      }
      i := i + 1;
    }
    ending := Fine;
  }

  // ---- Operations that undo each other, and lists that do not share nodes ----

  /** The links are determined by the nodes: two valid lists of the same nodes have the same links. */
  twostate lemma SameNodesSameLinks(list: ListManager)
    requires old(list.Valid()) && list.Valid() && list.nodes == old(list.nodes)
    ensures list.head.next == old(list.head.next) && list.size == old(list.size)
    ensures forall n :: n in list.nodes ==> n.next == old(n.next)
  {
    forall n | n in list.nodes
      ensures n.next == old(n.next)
    {
      var i :| 0 <= i < |list.nodes| && list.nodes[i] == n;
      assert old(list.nodes)[i] == n;
    }
  }

  /** Pop undoes PushBack, link by link, and gives the node back detached. */
  method PushBackThenPop(list: ListManager, data: Node)
    requires list.Valid() && data !in list.nodes && data != list.head
    modifies list, list.head, list.nodes, data
    ensures list.Valid() && list.nodes == old(list.nodes) && data.next == null
    ensures list.head.next == old(list.head.next)
    ensures forall n :: n in list.nodes ==> n.next == old(n.next)
  {
    var _ := PushBack(list, data);
    var _ := Pop(list);
    SameNodesSameLinks(list);
  }

  /** DelNode(1) undoes AddNode, link by link, and gives the node back detached. */
  method AddNodeThenDelFirst(list: ListManager, data: Node)
    requires list.Valid() && data !in list.nodes && data != list.head
    modifies list, list.head, list.nodes, data
    ensures list.Valid() && list.nodes == old(list.nodes) && data.next == null
    ensures list.head.next == old(list.head.next)
    ensures forall n :: n in list.nodes ==> n.next == old(n.next)
  {
    var _ := AddNode(list, data);
    var _ := DelNode(list, 1);
    SameNodesSameLinks(list);
  }

  /** Two lists that share no node. */
  ghost predicate Apart(list: ListManager, other: ListManager)
    reads list, other
  {
    && list != other && list.head != other.head
    && list.head !in other.nodes && other.head !in list.nodes
    && forall n :: n in list.nodes ==> n !in other.nodes
  }

  /** Deleting from one list leaves a list apart from it as it is. */
  method DelBeside(list: ListManager, pos: int, other: ListManager)
    requires list.Valid() && other.Valid() && Apart(list, other) && 1 <= pos <= |list.nodes|
    modifies list, list.head, list.nodes
    ensures list.Valid() && list.nodes == RemoveAt(old(list.nodes), pos - 1)
    ensures old(list.nodes[pos - 1]).next == null && old(list.nodes[pos - 1]) !in list.nodes
    ensures other.Valid() && unchanged(other) && Apart(list, other)
  {
    RemoveKeepsDistinct(list.nodes, pos - 1);
    var _ := DelNode(list, pos);
    assert other.Valid();
  }

  method AppendBeside(list: ListManager, data: Node, other: ListManager)
    requires list.Valid() && other.Valid() && Apart(list, other)
    requires data !in list.nodes && data !in other.nodes && data != list.head && data != other.head
    modifies list, list.head, list.nodes, data
    ensures list.Valid() && list.nodes == old(list.nodes) + [data]
    ensures other.Valid() && unchanged(other) && Apart(list, other)
  {
    ghost var last := NodeAt(list, |list.nodes|);
    assert last == list.head || last in list.nodes;
    var _ := PushBack(list, data);
    assert other.Valid();
  }

  /** A deleted node can be inserted again, also into another list: here at the end of `to`. The two lists
      stay apart, and both stay acyclic. */
  method MoveBetween(from: ListManager, pos: int, moved: Node, to: ListManager)
    requires from.Valid() && to.Valid() && Apart(from, to)
    requires 1 <= pos <= |from.nodes| && from.nodes[pos - 1] == moved
    modifies from, from.head, from.nodes, to, to.head, to.nodes
    ensures from.Valid() && from.nodes == RemoveAt(old(from.nodes), pos - 1)
    ensures to.Valid() && to.nodes == old(to.nodes) + [moved]
    ensures Apart(from, to)
  {
    DelBeside(from, pos, to);
    AppendBeside(to, moved, from);
  }

  /** The demonstration of link_list.c: four insertions (lines 27-30) ... */
  method AddFour(data1: Node, data2: Node, data3: Node, data4: Node) returns (list: ListManager)
    requires Distinct([data1, data2, data3, data4])
    modifies data1, data2, data3, data4
    ensures list.Valid() && list.nodes == [data4, data3, data2, data1]
    ensures fresh(list) && fresh(list.head)
  {
    var all := [data1, data2, data3, data4];
    assert all[0] != all[1] && all[0] != all[2] && all[0] != all[3];
    assert all[1] != all[2] && all[1] != all[3] && all[2] != all[3];
    list := new ListManager();
    var _ := AddNode(list, data1);
    var _ := AddNode(list, data2);
    var _ := AddNode(list, data3);
    var _ := AddNode(list, data4);
    assert list.nodes == [data4, data3, data2, data1];
  }

  /** ... then the second element is deleted (line 35), appended again (line 39), and popped (line 43). */
  method Test01(data1: Node, data2: Node, data3: Node, data4: Node) returns (list: ListManager)
    requires Distinct([data1, data2, data3, data4])
    modifies data1, data2, data3, data4
    ensures list.Valid() && list.nodes == [data4, data2, data1]
    ensures data3.next == null
  {
    list := AddFour(data1, data2, data3, data4);
    RemoveKeepsDistinct(list.nodes, 1);
    var _ := DelNode(list, 2);
    assert list.nodes == [data4, data2, data1];
    var _ := PushBack(list, data3);
    assert list.nodes == [data4, data2, data1, data3];
    var _ := Pop(list);
  }
}
