/** The forking chat server of 02_Day11/99_tcp_chatroom/server.c: the parent accepts connections into a table of 128
    entries and forks a child for each; a child reads from its own client and writes every message to every
    connection in the copy of the table it was forked with. */
module ChatRoom {
  import opened Runs
  import opened Interleaving

  const SIZE: nat := 128

  /** Line 190: the loop that looks for the own entry stops at 5, not at SIZE. */
  const PURGE_BOUND: nat := 5

  datatype ChildPc =
    | Reading                               // line 155
    | Writing(text: string, slot: nat)      // lines 172-188, at fd_list[slot]
    | Purging(slot: nat)                    // lines 190-199, at fd_list[slot]
    | Exited                                // lines 200-201
    | ReadFailed                            // line 159
    | WriteFailed(text: string, slot: nat)  // line 181 or 185: left while writing `text` to fd_list[slot]
  {
    predicate Left() { Exited? || ReadFailed? || WriteFailed? }
  }

  /** A child: its client, its copy of the table, its next statement, and the messages that read() has returned to
      it, without the one that says quit. */
  datatype Child = Child(peer: int, table: seq<int>, pc: ChildPc, said: seq<string>)

  /** One write to a connection. */
  datatype Packet = Packet(sender: nat, text: string)

  /** The parent's table, its index `i`, whether it still accepts, its children in the order of their forks,
      and everything written to each connection. A descriptor means the same connection in every process,
      since the parent never closes one. `overrun`: line 135 has stored behind the end of the table. */
  datatype State = State(
    table: seq<int>, i: nat, accepting: bool, overrun: bool,
    children: seq<Child>, wire: map<int, seq<Packet>>
  )

  datatype Accepted =
    | Connection(fd: int, forked: bool)
    | Interrupted  // EINTR or ECONNABORTED: line 126
    | Broken       // line 130

  datatype Input =
    | Error
    | Eof
    | Message(text: string)

  /** The descriptor is new and not 0, which the code takes for an empty entry. */
  predicate AcceptCan(s: State, a: Accepted) {
    && s.accepting
    && (a.Connection? ==> a.fd > 0 && a.fd !in s.wire)
  }

  /** The code does not check that the table has room. What a store behind its end does is not defined: the parent goes
      no further then, and only the children that it has forked do. */
  function AcceptStep(s: State, a: Accepted): State
    requires AcceptCan(s, a)
  {
    match a
    case Interrupted => s
    case Broken => s.(accepting := false)
    case Connection(fd, forked) =>
      if s.i >= |s.table| then s.(accepting := false, overrun := true) else
      var t := s.(table := s.table[s.i := fd], i := s.i + 1, wire := s.wire[fd := []]);
      if forked then t.(children := s.children + [Child(fd, t.table, Reading, [])]) else t.(accepting := false)
  }

  /** strncmp(buffer, "quit", 4) == 0, line 165. */
  predicate IsQuit(text: string) { "quit" <= text }

  predicate ChildCan(s: State, k: nat) {
    k < |s.children| && !s.children[k].pc.Left()
  }

  /** The next statement of child `k`; `input` is what read() returns, `written` whether a write succeeds.
      Writing an empty message writes 0 bytes, which line 183 treats as the end. A descriptor that was never
      accepted cannot be written to; no table ever holds one. */
  function ChildStep(s: State, k: nat, input: Input, written: bool): State
    requires ChildCan(s, k)
  {
    var c := s.children[k];
    match c.pc
    case Reading =>
      s.(children := s.children[k :=
        match input
        case Error => c.(pc := ReadFailed)
        case Eof => c.(pc := Purging(0))
        case Message(text) =>
          if IsQuit(text) then c.(pc := Purging(0)) else c.(pc := Writing(text, 0), said := c.said + [text])])
    case Writing(text, slot) =>
      if slot >= |c.table| then
        s.(children := s.children[k := c.(pc := Reading)])
      else if c.table[slot] == 0 then
        s.(children := s.children[k := c.(pc := Writing(text, slot + 1))])
      else if text == "" || !written || c.table[slot] !in s.wire then
        s.(children := s.children[k := c.(pc := WriteFailed(text, slot))])
      else
        s.(children := s.children[k := c.(pc := Writing(text, slot + 1))],
           wire := s.wire[c.table[slot] := s.wire[c.table[slot]] + [Packet(k, text)]])
    case Purging(slot) =>
      if slot >= PURGE_BOUND then s.(children := s.children[k := c.(pc := Exited)])
      else s.(children := s.children[k := c.(pc := Purging(slot + 1), table := PurgeSlot(c.table, slot, c.peer))])
  }

  /** Lines 193-198. */
  function PurgeSlot(table: seq<int>, slot: nat, peer: int): seq<int> {
    if slot < |table| && table[slot] == peer then table[slot := 0] else table
  }

  /** Line 106. */
  function Start(): State {
    State(seq(SIZE, _ => 0), 0, true, false, [], map[])
  }

  ghost predicate AcceptNext(s: State, t: State) {
    exists a :: AcceptCan(s, a) && t == AcceptStep(s, a)
  }

  ghost predicate ChildNext(s: State, t: State) {
    exists k, input, written :: ChildCan(s, k) && t == ChildStep(s, k, input, written)
  }

  ghost function Program(): System<State> {
    System((s: State) => s == Start(),
           (s: State, t: State) => AcceptNext(s, t) || ChildNext(s, t))
  }

  // ---- The tables ----

  /** The table that holds the first `n` connections of `table` and nothing else. */
  function FirstOnly(table: seq<int>, n: nat): (first: seq<int>)
    ensures |first| == |table|
  {
    seq(|table|, m requires 0 <= m < |table| => if m < n then table[m] else 0)
  }

  /** `table` after the purge of `peer` from the slots below `slot`. */
  function Purged(table: seq<int>, slot: nat, peer: int): (after: seq<int>)
    ensures |after| == |table|
  {
    seq(|table|, m requires 0 <= m < |table| => if m < slot && m < PURGE_BOUND && table[m] == peer then 0 else table[m])
  }

  /** The first `i` entries are the accepted connections, all different; the others are 0. */
  predicate TableOk(s: State) {
    && |s.table| == SIZE && s.i <= SIZE
    && (s.overrun ==> s.i == SIZE)
    && (forall m | 0 <= m < SIZE :: if m < s.i then s.table[m] > 0 && s.table[m] in s.wire else s.table[m] == 0)
    && (forall m, n | 0 <= m < n < s.i :: s.table[m] != s.table[n])
  }

  /** The message that is being written is the last one that was read. */
  predicate SaidOk(c: Child) {
    c.pc.Writing? || c.pc.WriteFailed? ==> c.said != [] && c.pc.text == c.said[|c.said| - 1]
  }

  /** Child `k` serves the k-th connection (counted from 0), with the first k + 1 connections in its table,
      less what its purge has removed. */
  predicate ChildOk(s: State, k: nat)
    requires k < |s.children| && |s.children| <= s.i <= |s.table|
  {
    var c := s.children[k];
    && c.peer == s.table[k]
    && SaidOk(c)
    && c.table == (match c.pc
                   case Purging(slot) => Purged(FirstOnly(s.table, k + 1), slot, c.peer)
                   case Exited => Purged(FirstOnly(s.table, k + 1), PURGE_BOUND, c.peer)
                   case _ => FirstOnly(s.table, k + 1))
  }

  // ---- The streams ----

  /** The child has not written its last message to slot `j` of its table: it has still to do it, or has failed at
      that slot or before. */
  predicate Owes(c: Child, j: nat) {
    (c.pc.Writing? || c.pc.WriteFailed?) && c.pc.slot <= j
  }

  /** The messages of a child that have been written to slot `j` of its table. */
  function Delivered(c: Child, j: nat): seq<string> {
    if Owes(c, j) && c.said != [] then c.said[..|c.said| - 1] else c.said
  }

  function Texts(stream: seq<Packet>): (texts: seq<string>)
    ensures |texts| == |stream|
  {
    seq(|stream|, m requires 0 <= m < |stream| => stream[m].text)
  }

  function Senders(stream: seq<Packet>): (senders: seq<nat>)
    ensures |senders| == |stream|
  {
    seq(|stream|, m requires 0 <= m < |stream| => stream[m].sender)
  }

  /** What connection `j` has received from child `k`. */
  function Received(stream: seq<Packet>, k: nat): seq<string> {
    Project(Texts(stream), Senders(stream), k)
  }

  lemma ReceivedAppend(stream: seq<Packet>, sender: nat, text: string, k: nat)
    ensures Received(stream + [Packet(sender, text)], k)
         == if k == sender then Received(stream, k) + [text] else Received(stream, k)
  {
    assert Texts(stream + [Packet(sender, text)]) == Texts(stream) + [text];
    assert Senders(stream + [Packet(sender, text)]) == Senders(stream) + [sender];
    ProjectAppend(Texts(stream), Senders(stream), text, sender, k);
  }

  /** The stream of connection `j` holds exactly what the children from the j-th on have delivered to it, each
      in order, and nothing from the others. */
  predicate StreamMatches(stream: seq<Packet>, children: seq<Child>, j: nat) {
    && (forall m | 0 <= m < |stream| :: stream[m].sender < |children|)
    && (forall k: nat | k < |children| :: Received(stream, k) == if k < j then [] else Delivered(children[k], j))
  }

  predicate StreamOk(s: State, j: nat)
    requires j < |s.table| && s.table[j] in s.wire
  {
    StreamMatches(s.wire[s.table[j]], s.children, j)
  }

  ghost predicate Inv(s: State) {
    && TableOk(s)
    && |s.children| <= s.i && (s.accepting ==> |s.children| == s.i)
    && (forall k: nat | k < |s.children| :: ChildOk(s, k))
    && (forall j: nat | j < s.i :: StreamOk(s, j))
    && (forall fd | fd in s.wire :: exists j :: 0 <= j < s.i && s.table[j] == fd)
  }

  lemma {:induction false} NothingFromStrangers(stream: seq<Packet>, k: nat)
    requires forall m | 0 <= m < |stream| :: stream[m].sender != k
    ensures Received(stream, k) == []
  {
    if stream == [] {
    } else {
      var n := |stream| - 1;
      NothingFromStrangers(stream[..n], k);
      ReceivedAppend(stream[..n], stream[n].sender, stream[n].text, k);
      assert stream == stream[..n] + [Packet(stream[n].sender, stream[n].text)];
    }
  }

  lemma AcceptKeepsTable(s: State, a: Accepted)
    requires Inv(s) && AcceptCan(s, a)
    ensures TableOk(AcceptStep(s, a))
  {
  }

  lemma AcceptKeepsWires(s: State, a: Accepted)
    requires Inv(s) && AcceptCan(s, a)
    ensures var t := AcceptStep(s, a);
      t.i <= |t.table| && forall fd | fd in t.wire :: exists j :: 0 <= j < t.i && t.table[j] == fd
  {
    var t := AcceptStep(s, a);
    forall fd | fd in t.wire
      ensures exists j :: 0 <= j < t.i && t.table[j] == fd
    {
      if fd in s.wire {
        var j :| 0 <= j < s.i && s.table[j] == fd;
        assert t.table[j] == fd;
      } else {
        assert t.table[s.i] == fd;
      }
    }
  }

  lemma AcceptKeepsChildren(s: State, a: Accepted)
    requires Inv(s) && AcceptCan(s, a)
    requires TableOk(AcceptStep(s, a))
    ensures var t := AcceptStep(s, a);
      && |t.children| <= t.i && (t.accepting ==> |t.children| == t.i)
      && (forall k: nat | k < |t.children| :: ChildOk(t, k))
  {
    var t := AcceptStep(s, a);
    forall k: nat | k < |t.children|
      ensures ChildOk(t, k)
    {
      if k < |s.children| {
        assert ChildOk(s, k);
        assert FirstOnly(t.table, k + 1) == FirstOnly(s.table, k + 1);
      } else {
        assert FirstOnly(t.table, k + 1) == t.table;
      }
    }
  }

  lemma AcceptKeepsStreams(s: State, a: Accepted)
    requires Inv(s) && AcceptCan(s, a)
    requires TableOk(AcceptStep(s, a))
    ensures var t := AcceptStep(s, a); forall j: nat | j < t.i :: StreamOk(t, j)
  {
    var t := AcceptStep(s, a);
    forall j: nat | j < t.i
      ensures StreamOk(t, j)
    {
      if j < s.i {
        assert StreamOk(s, j);
        assert t.wire[t.table[j]] == s.wire[s.table[j]];
        NothingFromStrangers(s.wire[s.table[j]], |s.children|);
      } else {
        assert t.wire[t.table[j]] == [];
      }
    }
  }

  lemma AcceptKeepsInv(s: State, a: Accepted)
    requires Inv(s) && AcceptCan(s, a)
    ensures Inv(AcceptStep(s, a))
  {
    AcceptKeepsTable(s, a);
    AcceptKeepsWires(s, a);
    AcceptKeepsChildren(s, a);
    AcceptKeepsStreams(s, a);
  }

  lemma ChildKeepsAccepted(s: State, k: nat, input: Input, written: bool)
    requires ChildCan(s, k)
    ensures var t := ChildStep(s, k, input, written);
      && t.table == s.table && t.i == s.i && t.accepting == s.accepting && t.overrun == s.overrun
      && t.wire.Keys == s.wire.Keys && |t.children| == |s.children|
      && forall m | 0 <= m < |s.children| && m != k :: t.children[m] == s.children[m]
  {
  }

  /** The purge works through the slots one at a time. */
  lemma PurgeAdvances(s: State, k: nat)
    requires k < |s.children| <= s.i <= |s.table| && ChildOk(s, k)
    ensures var c, first := s.children[k], FirstOnly(s.table, k + 1);
      match c.pc
      case Reading => c.table == Purged(first, 0, c.peer)
      case Purging(slot) =>
        if slot >= PURGE_BOUND then c.table == Purged(first, PURGE_BOUND, c.peer)
        else PurgeSlot(c.table, slot, c.peer) == Purged(first, slot + 1, c.peer)
      case _ => true
  {
  }

  lemma OwnTableKept(s: State, k: nat, input: Input, written: bool)
    requires ChildCan(s, k) && |s.children| <= s.i <= |s.table| && ChildOk(s, k)
    ensures var c, first := ChildStep(s, k, input, written).children[k], FirstOnly(s.table, k + 1);
      c.table == match c.pc
                 case Purging(slot) => Purged(first, slot, c.peer)
                 case Exited => Purged(first, PURGE_BOUND, c.peer)
                 case _ => first
  {
    PurgeAdvances(s, k);
  }

  lemma OwnTextKept(s: State, k: nat, input: Input, written: bool)
    requires ChildCan(s, k) && SaidOk(s.children[k])
    ensures var c := ChildStep(s, k, input, written).children[k]; SaidOk(c) && c.peer == s.children[k].peer
  {
  }

  lemma ChildKeepsTables(s: State, k: nat, input: Input, written: bool)
    requires Inv(s) && ChildCan(s, k)
    ensures var t := ChildStep(s, k, input, written);
      && t.table == s.table && t.i == s.i && t.accepting == s.accepting && t.wire.Keys == s.wire.Keys
      && |t.children| == |s.children|
      && (forall m: nat | m < |t.children| :: ChildOk(t, m))
  {
    var t := ChildStep(s, k, input, written);
    ChildKeepsAccepted(s, k, input, written);
    forall m: nat | m < |t.children|
      ensures ChildOk(t, m)
    {
      assert ChildOk(s, m);
      if m == k {
        OwnTableKept(s, k, input, written);
        OwnTextKept(s, k, input, written);
      }
    }
  }

  /** What a step of child `k` writes, if it writes at all. */
  predicate Writes(s: State, k: nat, written: bool)
    requires ChildCan(s, k)
  {
    var c := s.children[k];
    && c.pc.Writing? && c.pc.slot < |c.table| && c.table[c.pc.slot] != 0
    && c.pc.text != "" && written && c.table[c.pc.slot] in s.wire
  }

  /** A child that has not begun its purge holds all connections up to its own. */
  lemma HoldsEarlier(s: State, k: nat, j: nat)
    requires Inv(s) && j <= k < |s.children| && s.children[k].pc.Writing?
    ensures j < |s.children[k].table| && s.children[k].table[j] != 0
  {
    assert ChildOk(s, k);
  }

  /** A step that writes nothing delivers nothing. */
  lemma QuietStepDelivers(s: State, k: nat, input: Input, written: bool, j: nat)
    requires ChildCan(s, k) && !Writes(s, k, written)
    requires s.children[k].pc.Writing? ==> j < |s.children[k].table| && s.children[k].table[j] != 0
    ensures Delivered(ChildStep(s, k, input, written).children[k], j) == Delivered(s.children[k], j)
  {
  }

  lemma OtherStreamKept(stream: seq<Packet>, children: seq<Child>, j: nat, k: nat, c: Child)
    requires StreamMatches(stream, children, j) && k < |children|
    requires k >= j ==> Delivered(c, j) == Delivered(children[k], j)
    ensures StreamMatches(stream, children[k := c], j)
  {
  }

  lemma OwnStreamGrows(stream: seq<Packet>, children: seq<Child>, j: nat, k: nat, c: Child, text: string)
    requires StreamMatches(stream, children, j) && j <= k < |children|
    requires Delivered(c, j) == Delivered(children[k], j) + [text]
    ensures StreamMatches(stream + [Packet(k, text)], children[k := c], j)
  {
    forall m: nat | m < |children|
      ensures Received(stream + [Packet(k, text)], m) == if m < j then [] else Delivered(children[k := c][m], j)
    {
      ReceivedAppend(stream, k, text, m);
    }
  }

  /** A write to slot `slot` reaches connection `slot`, and only that one. */
  lemma WriteKeepsStream(s: State, k: nat, input: Input, written: bool, j: nat)
    requires Inv(s) && ChildCan(s, k) && Writes(s, k, written) && j < s.i
    requires ChildStep(s, k, input, written).wire.Keys == s.wire.Keys
    ensures StreamOk(ChildStep(s, k, input, written), j)
  {
    assert ChildOk(s, k) && StreamOk(s, j);
    var c, t := s.children[k], ChildStep(s, k, input, written);
    var slot := c.pc.slot;
    assert c.table[slot] == s.table[slot] && slot <= k;
    if j == slot {
      OwnStreamGrows(s.wire[s.table[j]], s.children, j, k, t.children[k], c.pc.text);
    } else {
      assert s.table[j] != s.table[slot];
      OtherStreamKept(s.wire[s.table[j]], s.children, j, k, t.children[k]);
    }
  }

  lemma ChildKeepsStreams(s: State, k: nat, input: Input, written: bool)
    requires Inv(s) && ChildCan(s, k)
    requires ChildStep(s, k, input, written).wire.Keys == s.wire.Keys
    ensures var t := ChildStep(s, k, input, written); forall j: nat | j < t.i :: StreamOk(t, j)
  {
    var t := ChildStep(s, k, input, written);
    forall j: nat | j < t.i
      ensures StreamOk(t, j)
    {
      assert StreamOk(s, j);
      if Writes(s, k, written) {
        WriteKeepsStream(s, k, input, written, j);
      } else {
        if k >= j {
          if s.children[k].pc.Writing? {
            HoldsEarlier(s, k, j);
          }
          QuietStepDelivers(s, k, input, written, j);
        }
        OtherStreamKept(s.wire[s.table[j]], s.children, j, k, t.children[k]);
      }
    }
  }

  lemma ChildKeepsInv(s: State, k: nat, input: Input, written: bool)
    requires Inv(s) && ChildCan(s, k)
    ensures Inv(ChildStep(s, k, input, written))
  {
    ChildKeepsTables(s, k, input, written);
    ChildKeepsStreams(s, k, input, written);
  }

  lemma StartInv()
    ensures Inv(Start())
  {
  }

  lemma StepKeepsInv(s: State, t: State)
    requires Inv(s) && Program().next(s, t)
    ensures Inv(t)
  {
    if AcceptNext(s, t) {
      var a :| AcceptCan(s, a) && t == AcceptStep(s, a);
      AcceptKeepsInv(s, a);
    } else {
      var k: nat, input, written :| ChildCan(s, k) && t == ChildStep(s, k, input, written);
      ChildKeepsInv(s, k, input, written);
    }
  }

  lemma ReachableInv(s: State)
    requires Reachable(Program(), s)
    ensures Inv(s)
  {
    StartInv();
    forall u, v | Inv(u) && Program().next(u, v)
      ensures Inv(v)
    {
      StepKeepsInv(u, v);
    }
    InductiveHoldsWhenReachable(Program(), Inv, s);
  }

  // ---- Every reachable state ----

  /** Until it leaves its loop, the child of the k-th accepted client (counted from 0) serves that client and
      holds exactly the first k + 1 accepted connections. */
  lemma SnapshotIsAcceptOrder(s: State, k: nat)
    requires Reachable(Program(), s) && k < |s.children|
    requires !s.children[k].pc.Purging? && !s.children[k].pc.Exited?
    ensures k < s.i <= 128 && |s.table| == |s.children[k].table| == 128
    ensures s.children[k].peer == s.table[k]
    ensures forall m | 0 <= m < 128 :: s.children[k].table[m] == if m <= k then s.table[m] else 0
    ensures forall m | 0 <= m <= k :: s.children[k].table[m] != 0
  {
    ReachableInv(s);
    assert ChildOk(s, k);
  }

  /** The exit purge looks at the first five entries only: it removes the child's own connection from its table
      exactly if the client was one of the first five, and it never removes another. */
  lemma PurgeFindsOwnEntryIff(s: State, k: nat)
    requires Reachable(Program(), s) && k < |s.children| && s.children[k].pc.Exited?
    ensures k < s.i <= SIZE && |s.table| == |s.children[k].table| == SIZE
    ensures s.children[k].peer !in s.children[k].table <==> k < 5
    ensures forall m | 0 <= m < k :: s.children[k].table[m] == s.table[m]
  {
    ReachableInv(s);
    assert ChildOk(s, k);
    if k >= PURGE_BOUND {
      assert s.children[k].table[k] == s.children[k].peer;
    }
  }

  function StreamsOn(children: seq<Child>, j: nat): (streams: seq<seq<string>>)
    ensures |streams| == |children|
  {
    seq(|children|, k requires 0 <= k < |children| => if k < j then [] else Delivered(children[k], j))
  }

  lemma WireInterleaves(stream: seq<Packet>, children: seq<Child>, j: nat)
    requires StreamMatches(stream, children, j)
    ensures Interleaves(Texts(stream), StreamsOn(children, j))
  {
    var tags := Senders(stream);
    forall k: nat | k < |children|
      ensures Project(Texts(stream), tags, k) == StreamsOn(children, j)[k]
    {
      assert Received(stream, k) == StreamsOn(children, j)[k];
    }
  }

  /** Whole-run delivery is decided by the accept order: what has been written to the j-th connection is an
      interleaving, message by message, of what read() has returned for the clients from the j-th on, each client's
      messages in order; only a last message on its way, or the one whose write failed, may be missing. Clients
      accepted earlier are never heard on it. */
  lemma DeliveryIsInterleaving(s: State, j: nat) returns (streams: seq<seq<string>>)
    requires Reachable(Program(), s) && j < s.i
    ensures s.i <= |s.table| && s.table[j] in s.wire
    ensures Interleaves(Texts(s.wire[s.table[j]]), streams)
    ensures |streams| == |s.children|
    ensures forall k | 0 <= k < |streams| && k < j :: streams[k] == []
    ensures forall k | j <= k < |streams| ::
      if Owes(s.children[k], j) then s.children[k].said == streams[k] + [s.children[k].pc.text]
      else s.children[k].said == streams[k]
  {
    ReachableInv(s);
    assert StreamOk(s, j);
    WireInterleaves(s.wire[s.table[j]], s.children, j);
    streams := StreamsOn(s.children, j);
    forall k | 0 <= k < |streams|
      ensures SaidOk(s.children[k])
    {
      assert ChildOk(s, k);
    }
  }

  /** A client is heard alike on all the connections its child holds: the later connection has received the same
      messages as the earlier one, or all but the last. */
  lemma SameOnEveryConnection(s: State, j: nat, later: nat, k: nat)
    requires Reachable(Program(), s) && j <= later <= k < |s.children|
    ensures k < s.i <= |s.table| && s.table[j] in s.wire && s.table[later] in s.wire
    ensures var first, second := Received(s.wire[s.table[j]], k), Received(s.wire[s.table[later]], k);
      second <= first && |first| <= |second| + 1
  {
    ReachableInv(s);
    assert StreamOk(s, j) && StreamOk(s, later);
  }

  /** A reachable state in which `n` clients have connected. */
  lemma AcceptMany(n: nat) returns (s: State)
    requires n <= SIZE
    ensures Reachable(Program(), s) && s.accepting && s.i == |s.children| == n
    ensures n > 0 ==> s.children[n - 1].pc.Reading?
    ensures n + 1 !in s.wire
  {
    s := Start();
    InitReachable(Program(), s);
    for m := 0 to n
      invariant Reachable(Program(), s) && s.accepting && s.i == |s.children| == m && |s.table| == SIZE
      invariant m > 0 ==> s.children[m - 1].pc.Reading?
      invariant forall fd | fd in s.wire :: fd <= m
    {
      var a := Connection(m + 1, true);
      assert AcceptNext(s, AcceptStep(s, a));
      StepReachable(Program(), s, AcceptStep(s, a));
      s := AcceptStep(s, a);
    }
  }

  lemma ChildAdvances(s: State, k: nat, input: Input, written: bool)
    requires Reachable(Program(), s) && ChildCan(s, k)
    ensures Reachable(Program(), ChildStep(s, k, input, written))
  {
    assert ChildNext(s, ChildStep(s, k, input, written));
    StepReachable(Program(), s, ChildStep(s, k, input, written));
  }

  /** Every client of the table can leave, the sixth and all later ones without being purged. */
  lemma EveryPlaceCanLeave(k: nat) returns (s: State)
    requires k < 128
    ensures Reachable(Program(), s) && k < |s.children| && s.children[k].pc.Exited?
    ensures s.children[k].peer in s.children[k].table <==> k >= 5
  {
    s := AcceptMany(k + 1);
    ChildAdvances(s, k, Eof, true);
    s := ChildStep(s, k, Eof, true);
    for slot := 0 to PURGE_BOUND
      invariant Reachable(Program(), s) && k < |s.children| && s.children[k].pc == Purging(slot)
    {
      ChildAdvances(s, k, Eof, true);
      s := ChildStep(s, k, Eof, true);
    }
    ChildAdvances(s, k, Eof, true);
    s := ChildStep(s, k, Eof, true);
    PurgeFindsOwnEntryIff(s, k);
  }

  /** The parent goes on after every accept(), but for a broken one, a fork that fails, and the 129th connection. */
  lemma GoesOnAccepting(s: State, a: Accepted)
    requires Reachable(Program(), s) && AcceptCan(s, a)
    ensures AcceptStep(s, a).accepting <==> a.Interrupted? || (a.Connection? && a.forked && s.i < 128)
    ensures a.Connection? && a.forked && s.i < 128 ==>
      var t := AcceptStep(s, a);
      && t.i == s.i + 1 == |t.children| && |t.table| == 128 && t.table == s.table[s.i := a.fd]
      && t.children[s.i] == Child(a.fd, t.table, Reading, []) && t.children[..s.i] == s.children
      && t.wire == s.wire[a.fd := []]
  {
    ReachableInv(s);
  }

  /** The table is overrun only by a connection that comes when all its entries are taken, by whichever clients, gone or
      not; and that can happen. */
  lemma OverrunIsThe129th()
    ensures forall s :: Reachable(Program(), s) && s.overrun ==>
      |s.table| == s.i == 128 && forall m | 0 <= m < 128 :: s.table[m] != 0
    ensures exists s :: Reachable(Program(), s) && s.overrun
  {
    forall s | Reachable(Program(), s) && s.overrun
      ensures |s.table| == s.i == SIZE && forall m | 0 <= m < SIZE :: s.table[m] != 0
    {
      ReachableInv(s);
    }
    var s := AcceptMany(SIZE);
    ReachableInv(s);
    var a := Connection(SIZE + 1, true);
    assert AcceptNext(s, AcceptStep(s, a));
    StepReachable(Program(), s, AcceptStep(s, a));
    assert AcceptStep(s, a).overrun;
  }

  lemma StepKeepsAccepted(s: State, t: State)
    requires s.i <= |s.table| && Program().next(s, t)
    ensures t.i <= |t.table| && s.table[..s.i] <= t.table[..t.i]
  {
    if AcceptNext(s, t) {
      var a :| AcceptCan(s, a) && t == AcceptStep(s, a);
      if a.Connection? && s.i < |s.table| {
        assert t.table[..t.i] == s.table[..s.i] + [a.fd];
      } else {
        assert t.table == s.table && t.i == s.i;
      }
    } else {
      var k, input, written :| ChildCan(s, k) && t == ChildStep(s, k, input, written);
      ChildKeepsAccepted(s, k, input, written);
    }
  }

  /** An accepted connection stays in the parent's table for good, also when its client has left: every later
      child still writes to it. */
  lemma {:induction false} AcceptedForGood(run: seq<State>, m: nat, n: nat)
    requires IsRun(Program(), run) && m <= n < |run|
    ensures run[m].i <= |run[m].table| && run[n].i <= |run[n].table|
    ensures run[m].table[..run[m].i] <= run[n].table[..run[n].i]
  {
    if n == 0 {
    } else {
      var s, t := run[n - 1], run[n];
      AcceptedForGood(run, if m < n then m else n - 1, n - 1);
      assert Program().next(run[n - 1], run[n - 1 + 1]);
      StepKeepsAccepted(s, t);
    }
  }

  // ---- A process and its table, in place ----

  /** What a child's broadcast ended with. */
  datatype Broadcasted = Everywhere | FailedAt(slot: nat)

  /** How a child's loop ends: the client quits or closes, read() or a write fails, or it still waits for input. */
  datatype Served = ByClient | ReadError | WriteError(slot: nat) | Waiting

  /** The messages before the input that ends the loop. */
  function Said(inputs: seq<Input>): (said: seq<string>)
    ensures |said| <= |inputs|
  {
    if inputs == [] || !inputs[0].Message? || IsQuit(inputs[0].text) then [] else [inputs[0].text] + Said(inputs[1..])
  }

  /** `said` are all the messages before the input that ended the loop, or those up to a failed write. */
  predicate EndsAs(inputs: seq<Input>, said: seq<string>, end: Served) {
    match end
    case WriteError(_) => said != [] && said <= Said(inputs)
    case Waiting => said == Said(inputs) && |said| == |inputs|
    case ReadError => said == Said(inputs) && |said| < |inputs| && inputs[|said|].Error?
    case ByClient => said == Said(inputs) && |said| < |inputs| && !inputs[|said|].Error?
  }

  /** Each non-zero slot was sent all that was said, in order, without the last message from a failed write on. */
  predicate SentTo(table: seq<int>, texts: seq<string>, slots: seq<nat>, said: seq<string>, end: Served)
    requires |slots| == |texts|
  {
    forall n: nat | n < |table| ::
      Project(texts, slots, n) == if table[n] == 0 then []
                                  else if end.WriteError? && end.slot <= n && said != [] then said[..|said| - 1]
                                  else said
  }

  /** The n-th message has gone to every connection in the table below `slot`. */
  predicate AllWritten(table: seq<int>, text: string, n: nat, writes: (nat, nat) -> bool, slot: nat) {
    forall m: nat | m < slot && m < |table| && table[m] != 0 :: text != "" && writes(n, m)
  }

  /** Every message has gone to every connection, except the last one from a failed write on. */
  predicate WritesMatch(table: seq<int>, said: seq<string>, end: Served, writes: (nat, nat) -> bool) {
    && (forall n: nat | n < |said| - (if end.WriteError? then 1 else 0) ::
          AllWritten(table, said[n], n, writes, |table|))
    && (end.WriteError? ==>
          && said != [] && end.slot < |table| && table[end.slot] != 0
          && (said[|said| - 1] == "" || !writes(|said| - 1, end.slot))
          && AllWritten(table, said[|said| - 1], |said| - 1, writes, end.slot))
  }

  lemma NotFurther(inputs: seq<Input>, table: seq<int>, writes: (nat, nat) -> bool,
                   said: seq<string>, end: Served, other: seq<string>, otherEnd: Served)
    requires EndsAs(inputs, said, end) && WritesMatch(table, said, end, writes)
    requires EndsAs(inputs, other, otherEnd) && WritesMatch(table, other, otherEnd, writes)
    ensures other <= said
  {
    if end.WriteError? {
      var n := |said| - 1;
      assert !AllWritten(table, said[n], n, writes, |table|);
      assert n < |other| ==> other[n] == Said(inputs)[n] == said[n];
    }
  }

  /** The inputs and the results of the writes decide what is said and how the loop ends. */
  lemma ServedUnique(inputs: seq<Input>, table: seq<int>, writes: (nat, nat) -> bool,
                     said: seq<string>, end: Served, other: seq<string>, otherEnd: Served)
    requires EndsAs(inputs, said, end) && WritesMatch(table, said, end, writes)
    requires EndsAs(inputs, other, otherEnd) && WritesMatch(table, other, otherEnd, writes)
    ensures said == other && end == otherEnd
  {
    NotFurther(inputs, table, writes, said, end, other, otherEnd);
    NotFurther(inputs, table, writes, other, otherEnd, said, end);
    assert end.WriteError? ==> !AllWritten(table, said[|said| - 1], |said| - 1, writes, |table|);
    assert otherEnd.WriteError? ==> !AllWritten(table, other[|other| - 1], |other| - 1, writes, |table|);
  }

  /** What counts as said: everything up to the first input that is an error, the end, or begins with "quit". */
  lemma {:induction false} SaidUpToQuit(inputs: seq<Input>)
    ensures forall n | 0 <= n < |Said(inputs)| ::
      inputs[n] == Message(Said(inputs)[n]) && !(|inputs[n].text| >= 4 && inputs[n].text[..4] == "quit")
    ensures var n := |Said(inputs)|;
      n < |inputs| && inputs[n].Message? ==> |inputs[n].text| >= 4 && inputs[n].text[..4] == "quit"
  {
    if inputs != [] {
      SaidUpToQuit(inputs[1..]);
      if inputs[0].Message? && IsQuit(inputs[0].text) {
        assert inputs[0].text[..4] == "quit";
      }
    }
  }

  lemma {:induction false} ProjectBlock(texts: seq<string>, slots: seq<nat>, text: string, block: seq<nat>, n: nat)
    requires |texts| == |slots|
    requires forall a, b | 0 <= a < b < |block| :: block[a] < block[b]
    ensures |texts + seq(|block|, _ => text)| == |slots + block|
    ensures Project(texts + seq(|block|, _ => text), slots + block, n)
         == Project(texts, slots, n) + if n in block then [text] else []
  {
    if block == [] {
      assert texts + seq(|block|, _ => text) == texts && slots + block == slots;
    } else {
      var k := |block| - 1;
      ProjectBlock(texts, slots, text, block[..k], n);
      ProjectAppend(texts + seq(k, _ => text), slots + block[..k], text, block[k], n);
      assert texts + seq(|block|, _ => text) == texts + seq(k, _ => text) + [text];
      assert slots + block == slots + block[..k] + [block[k]];
      assert n in block <==> n in block[..k] || n == block[k];
    }
  }

  lemma {:induction false} SaidAt(inputs: seq<Input>, k: nat)
    requires k < |inputs|
    requires forall m | 0 <= m < k :: inputs[m].Message? && !IsQuit(inputs[m].text)
    ensures k <= |Said(inputs)|
    ensures if inputs[k].Message? && !IsQuit(inputs[k].text)
            then k < |Said(inputs)| && Said(inputs)[k] == inputs[k].text
            else |Said(inputs)| == k
  {
    if k > 0 {
      SaidAt(inputs[1..], k - 1);
    }
  }

  // ---- The child's loop as steps of the system ----

  /** What a child that has not left its loop holds: the first k + 1 connections, all of them open and different. */
  predicate HoldsFirst(s: State, k: nat) {
    && k < |s.children| && k < s.i <= |s.table| == |s.children[k].table|
    && (forall m | 0 <= m < |s.table| :: s.children[k].table[m] == if m <= k then s.table[m] else 0)
    && (forall m | 0 <= m < s.i :: s.table[m] != 0 && s.table[m] in s.wire)
    && (forall m, n | 0 <= m < n < s.i :: s.table[m] != s.table[n])
  }

  lemma ReadingHoldsFirst(s: State, k: nat)
    requires Reachable(Program(), s) && k < |s.children| && s.children[k].pc.Reading?
    ensures HoldsFirst(s, k) && |s.table| == SIZE && s.children[k].peer == s.table[k]
  {
    SnapshotIsAcceptOrder(s, k);
    ReachableInv(s);
  }

  /** Nothing but child `k` and the contents of the wires has changed. */
  predicate OnlyChild(s: State, t: State, k: nat) {
    && t.table == s.table && t.i == s.i && t.accepting == s.accepting && t.overrun == s.overrun
    && t.wire.Keys == s.wire.Keys && |t.children| == |s.children|
    && forall m | 0 <= m < |s.children| && m != k :: t.children[m] == s.children[m]
  }

  /** Child `k` has written `text` to connection `j` if that is one of its own below `slot`. */
  predicate WroteBelow(s: State, t: State, k: nat, text: string, slot: nat, j: nat) {
    && j < |s.table| && s.table[j] in s.wire && s.table[j] in t.wire
    && t.wire[s.table[j]] == s.wire[s.table[j]] + if j <= k && j < slot then [Packet(k, text)] else []
  }

  /** Child `k` of `s` has read `text` and written it to the connections below `slot`. */
  predicate Midway(s: State, t: State, k: nat, text: string, slot: nat) {
    && k < |s.children| && OnlyChild(s, t, k)
    && t.children[k] == s.children[k].(pc := Writing(text, slot), said := s.children[k].said + [text])
    && forall j: nat | j < s.i :: WroteBelow(s, t, k, text, slot, j)
  }

  lemma MidwayNext(s: State, t: State, k: nat, text: string, slot: nat)
    requires HoldsFirst(s, k) && Midway(s, t, k, text, slot) && slot < |s.table|
    requires slot <= k ==> text != ""
    ensures ChildCan(t, k) && Midway(s, ChildStep(t, k, Eof, true), k, text, slot + 1)
  {
    var u, next := ChildStep(t, k, Eof, true), slot + 1;
    forall j: nat | j < s.i
      ensures WroteBelow(s, u, k, text, next, j)
    {
      assert WroteBelow(s, t, k, text, slot, j);
      assert slot <= k && j != slot ==> s.table[j] != s.table[slot];
    }
  }

  function EndOf(outcome: Broadcasted): nat { if outcome.FailedAt? then outcome.slot else SIZE }

  /** The broadcast went as far as the results of the writes let it. */
  predicate OutcomeOk(table: seq<int>, text: string, n: nat, writes: (nat, nat) -> bool, outcome: Broadcasted) {
    && |table| == SIZE && AllWritten(table, text, n, writes, EndOf(outcome))
    && (outcome.FailedAt? ==>
          outcome.slot < SIZE && table[outcome.slot] != 0 && (text == "" || !writes(n, outcome.slot)))
  }

  lemma WriteFails(s: State, t: State, k: nat, text: string, slot: nat) returns (u: State)
    requires HoldsFirst(s, k) && Reachable(Program(), t) && Midway(s, t, k, text, slot) && slot <= k
    ensures Reachable(Program(), u) && OnlyChild(s, u, k)
    ensures u.children[k] == t.children[k].(pc := WriteFailed(text, slot))
    ensures forall j: nat | j < s.i :: WroteBelow(s, u, k, text, slot, j)
  {
    ChildAdvances(t, k, Eof, false);
    u := ChildStep(t, k, Eof, false);
    forall j: nat | j < s.i
      ensures WroteBelow(s, u, k, text, slot, j)
    {
      assert WroteBelow(s, t, k, text, slot, j);
    }
  }

  lemma AllSlotsDone(s: State, t: State, k: nat, text: string) returns (u: State)
    requires HoldsFirst(s, k) && Reachable(Program(), t) && Midway(s, t, k, text, SIZE) && |s.table| == SIZE
    ensures Reachable(Program(), u) && OnlyChild(s, u, k)
    ensures u.children[k] == t.children[k].(pc := Reading)
    ensures forall j: nat | j < s.i :: WroteBelow(s, u, k, text, SIZE, j)
  {
    ChildAdvances(t, k, Eof, true);
    u := ChildStep(t, k, Eof, true);
    forall j: nat | j < s.i
      ensures WroteBelow(s, u, k, text, SIZE, j)
    {
      assert WroteBelow(s, t, k, text, SIZE, j);
    }
  }

  lemma MidwayStart(s: State, k: nat, text: string) returns (t: State)
    requires Reachable(Program(), s) && HoldsFirst(s, k) && s.children[k].pc.Reading? && !IsQuit(text)
    ensures Reachable(Program(), t) && Midway(s, t, k, text, 0)
  {
    ChildAdvances(s, k, Message(text), true);
    t := ChildStep(s, k, Message(text), true);
  }

  /** How the n-th message of child `k` is sent: the loop of lines 172-188 as steps. `writes` are the results of
      write(). */
  lemma BroadcastSteps(s: State, k: nat, text: string, n: nat, writes: (nat, nat) -> bool)
      returns (t: State, outcome: Broadcasted)
    requires Reachable(Program(), s) && k < |s.children| && s.children[k].pc.Reading? && !IsQuit(text)
    ensures Reachable(Program(), t) && OnlyChild(s, t, k)
    ensures var pc := if outcome.FailedAt? then WriteFailed(text, outcome.slot) else Reading;
      t.children[k] == s.children[k].(pc := pc, said := s.children[k].said + [text])
    ensures forall j: nat | j < s.i :: WroteBelow(s, t, k, text, EndOf(outcome), j)
    ensures OutcomeOk(s.children[k].table, text, n, writes, outcome)
  {
    ReadingHoldsFirst(s, k);
    t := MidwayStart(s, k, text);
    var slot := 0;
    while slot < SIZE
      invariant 0 <= slot <= SIZE && Reachable(Program(), t) && Midway(s, t, k, text, slot)
      invariant AllWritten(s.children[k].table, text, n, writes, slot)
    {
      if slot <= k && (text == "" || !writes(n, slot)) {
        t := WriteFails(s, t, k, text, slot);
        outcome := FailedAt(slot);
        return;
      }
      MidwayNext(s, t, k, text, slot);
      ChildAdvances(t, k, Eof, true);
      t, slot := ChildStep(t, k, Eof, true), slot + 1;
    }
    t := AllSlotsDone(s, t, k, text);
    outcome := Everywhere;
  }

  /** A message gets through: the child of any client that has said something other than "quit" can write it to every
      connection accepted up to the client's own, once, and then reads again; no other connection gets it. */
  lemma MessageReachesAll(s: State, k: nat, text: string) returns (t: State)
    requires Reachable(Program(), s) && k < |s.children| && s.children[k].pc.Reading?
    requires text != "" && !(|text| >= 4 && text[..4] == "quit")
    ensures Reachable(Program(), t) && OnlyChild(s, t, k)
    ensures t.children[k] == s.children[k].(said := s.children[k].said + [text])
    ensures k < s.i <= |s.table| && forall j | 0 <= j < s.i :: s.table[j] in s.wire
    ensures forall j | 0 <= j < s.i ::
      t.wire[s.table[j]] == s.wire[s.table[j]] + if j <= k then [Packet(k, text)] else []
  {
    ReadingHoldsFirst(s, k);
    var outcome;
    t, outcome := BroadcastSteps(s, k, text, 0, (_, _) => true);
    forall j: nat | j < s.i
      ensures t.wire[s.table[j]] == s.wire[s.table[j]] + if j <= k then [Packet(k, text)] else []
    {
      assert WroteBelow(s, t, k, text, SIZE, j);
    }
  }

  /** An empty message is never written: the child gives up at the first connection, whatever write() returns. */
  lemma EmptyMessageEnds(s: State, k: nat, input: Input, written: bool)
    requires Reachable(Program(), s) && k < |s.children| && s.children[k].pc == Writing("", 0)
    ensures ChildStep(s, k, input, written)
         == s.(children := s.children[k := s.children[k].(pc := WriteFailed("", 0))])
  {
    ReachableInv(s);
    assert ChildOk(s, k);
    assert s.children[k].table[0] == s.table[0] != 0;
  }

  function Packets(k: nat, texts: seq<string>): (packets: seq<Packet>)
    ensures |packets| == |texts|
  {
    seq(|texts|, m requires 0 <= m < |texts| => Packet(k, texts[m]))
  }

  /** Child `k` has written what it has said to connection `j` if that is one of its own. */
  predicate WroteAll(s: State, t: State, k: nat, said: seq<string>, end: Served, j: nat) {
    && j < |s.table| && s.table[j] in s.wire && s.table[j] in t.wire
    && t.wire[s.table[j]] == s.wire[s.table[j]] + Packets(k,
         if j > k then [] else if end.WriteError? && end.slot <= j && said != [] then said[..|said| - 1] else said)
  }

  function PcAfter(said: seq<string>, end: Served): ChildPc {
    match end
    case ByClient => Exited
    case ReadError => ReadFailed
    case Waiting => Reading
    case WriteError(slot) => WriteFailed(if said == [] then "" else said[|said| - 1], slot)
  }

  lemma PacketsAppend(k: nat, texts: seq<string>, text: string)
    ensures Packets(k, texts + [text]) == Packets(k, texts) + [Packet(k, text)]
  {
  }

  function EndBy(outcome: Broadcasted): Served { if outcome.FailedAt? then WriteError(outcome.slot) else Waiting }

  /** One more message: `u` is what `t` has come to by it. */
  lemma WroteOneMore(s: State, t: State, u: State, k: nat, said: seq<string>, text: string, outcome: Broadcasted)
    requires k < SIZE && t.table == s.table && t.i == s.i
    requires forall j: nat | j < s.i :: WroteAll(s, t, k, said, Waiting, j)
    requires forall j: nat | j < t.i :: WroteBelow(t, u, k, text, EndOf(outcome), j)
    ensures forall j: nat | j < s.i :: WroteAll(s, u, k, said + [text], EndBy(outcome), j)
  {
    forall j: nat | j < s.i
      ensures WroteAll(s, u, k, said + [text], EndBy(outcome), j)
    {
      assert WroteAll(s, t, k, said, Waiting, j) && WroteBelow(t, u, k, text, EndOf(outcome), j);
      PacketsAppend(k, said, text);
      assert (said + [text])[..|said|] == said;
    }
  }

  lemma MatchOneMore(table: seq<int>, said: seq<string>, text: string, writes: (nat, nat) -> bool, outcome: Broadcasted)
    requires WritesMatch(table, said, Waiting, writes) && OutcomeOk(table, text, |said|, writes, outcome)
    ensures WritesMatch(table, said + [text], EndBy(outcome), writes)
  {
    forall n: nat | n < |said|
      ensures AllWritten(table, (said + [text])[n], n, writes, |table|)
    {
      assert AllWritten(table, said[n], n, writes, |table|);
    }
  }

  /** Lines 190-201 as steps. */
  lemma PurgeSteps(s: State, k: nat) returns (t: State)
    requires Reachable(Program(), s) && k < |s.children| && s.children[k].pc == Purging(0)
    ensures Reachable(Program(), t) && OnlyChild(s, t, k) && t.wire == s.wire && t.children[k].pc.Exited?
    ensures t.children[k].said == s.children[k].said
  {
    t := s;
    for slot := 0 to PURGE_BOUND
      invariant Reachable(Program(), t) && OnlyChild(s, t, k) && t.wire == s.wire
      invariant t.children[k].pc == Purging(slot) && t.children[k].said == s.children[k].said
    {
      ChildAdvances(t, k, Eof, true);
      t := ChildStep(t, k, Eof, true);
    }
    ChildAdvances(t, k, Eof, true);
    t := ChildStep(t, k, Eof, true);
  }

  /** The input that ends the loop. */
  lemma LastInput(s: State, k: nat, input: Input) returns (t: State, end: Served)
    requires Reachable(Program(), s) && k < |s.children| && s.children[k].pc.Reading?
    requires input.Message? ==> IsQuit(input.text)
    ensures Reachable(Program(), t) && OnlyChild(s, t, k) && t.wire == s.wire
    ensures end == if input.Error? then ReadError else ByClient
    ensures t.children[k].pc == PcAfter([], end) && t.children[k].said == s.children[k].said
  {
    ChildAdvances(s, k, input, true);
    t := ChildStep(s, k, input, true);
    if input.Error? {
      end := ReadError;
    } else {
      t := PurgeSteps(t, k);
      end := ByClient;
    }
  }

  /** From `s` to `t` nothing has happened but that child `k` has said `said` and come to `end`. */
  ghost predicate ServedTo(s: State, t: State, k: nat, said: seq<string>, end: Served, writes: (nat, nat) -> bool) {
    && Reachable(Program(), t) && k < |s.children| && OnlyChild(s, t, k)
    && t.children[k].said == s.children[k].said + said && t.children[k].pc == PcAfter(said, end)
    && (end.Waiting? ==> t.children[k].table == s.children[k].table && t.children[k].peer == s.children[k].peer)
    && WritesMatch(s.children[k].table, said, end, writes)
    && forall j: nat | j < s.i :: WroteAll(s, t, k, said, end, j)
  }

  /** The inputs read so far are messages, and none of them says quit. */
  predicate Unended(inputs: seq<Input>, said: seq<string>) {
    && |said| <= |inputs| && said <= Said(inputs)
    && forall m | 0 <= m < |said| :: inputs[m].Message? && !IsQuit(inputs[m].text)
  }

  lemma SaidAll(inputs: seq<Input>, said: seq<string>)
    requires Unended(inputs, said) && |said| == |inputs|
    ensures EndsAs(inputs, said, Waiting)
  {
  }

  lemma OneMoreSaid(s: State, t: State, k: nat, text: string, said: seq<string>, writes: (nat, nat) -> bool)
      returns (u: State, end: Served)
    requires Reachable(Program(), s) && HoldsFirst(s, k) && |s.table| == SIZE
    requires ServedTo(s, t, k, said, Waiting, writes) && !IsQuit(text)
    ensures ServedTo(s, u, k, said + [text], end, writes) && (end.Waiting? || end.WriteError?)
  {
    var outcome;
    u, outcome := BroadcastSteps(t, k, text, |said|, writes);
    WroteOneMore(s, t, u, k, said, text, outcome);
    MatchOneMore(s.children[k].table, said, text, writes, outcome);
    end := EndBy(outcome);
    assert s.children[k].said + said + [text] == s.children[k].said + (said + [text]);
  }

  lemma LastSaid(s: State, t: State, k: nat, input: Input, said: seq<string>, writes: (nat, nat) -> bool)
      returns (u: State, end: Served)
    requires ServedTo(s, t, k, said, Waiting, writes) && (input.Message? ==> IsQuit(input.text))
    ensures ServedTo(s, u, k, said, end, writes) && end == if input.Error? then ReadError else ByClient
  {
    u, end := LastInput(t, k, input);
    forall j: nat | j < s.i
      ensures WroteAll(s, u, k, said, end, j)
    {
      assert WroteAll(s, t, k, said, Waiting, j);
    }
  }

  lemma ServeOne(s: State, t: State, k: nat, inputs: seq<Input>, said: seq<string>, writes: (nat, nat) -> bool)
      returns (u: State, more: seq<string>, end: Served)
    requires Reachable(Program(), s) && HoldsFirst(s, k) && |s.table| == SIZE
    requires ServedTo(s, t, k, said, Waiting, writes) && Unended(inputs, said) && |said| < |inputs|
    ensures ServedTo(s, u, k, more, end, writes)
    ensures if end.Waiting? then |more| == |said| + 1 && Unended(inputs, more) else EndsAs(inputs, more, end)
  {
    var input := inputs[|said|];
    SaidAt(inputs, |said|);
    if input.Message? && !IsQuit(input.text) {
      u, end := OneMoreSaid(s, t, k, input.text, said, writes);
      more := said + [input.text];
    } else {
      u, end := LastSaid(s, t, k, input, said, writes);
      more := said;
    }
  }

  /** The child's loop as steps, for any inputs and any results of the writes: it comes to the state that they decide,
      with everything that was said before the end on every wire of its own, in order. */
  lemma ServeSteps(s: State, k: nat, inputs: seq<Input>, writes: (nat, nat) -> bool)
      returns (t: State, said: seq<string>, end: Served)
    requires Reachable(Program(), s) && k < |s.children| && s.children[k].pc.Reading?
    ensures EndsAs(inputs, said, end) && ServedTo(s, t, k, said, end, writes)
  {
    ReadingHoldsFirst(s, k);
    t, said, end := s, [], Waiting;
    forall j: nat | j < s.i
      ensures WroteAll(s, t, k, said, end, j)
    {
      assert Packets(k, []) == [];
    }
    while end.Waiting? && |said| < |inputs|
      invariant ServedTo(s, t, k, said, end, writes)
      invariant if end.Waiting? then Unended(inputs, said) else EndsAs(inputs, said, end)
      decreases end.Waiting?, |inputs| - |said|
    {
      t, said, end := ServeOne(s, t, k, inputs, said, writes);
    }
    if end.Waiting? {
      SaidAll(inputs, said);
    }
  }

  class Process {
    const fdList: array<int>
    var i: nat
    var peerfd: int

    /** Line 106. */
    constructor ()
      ensures fresh(fdList) && fdList[..] == Start().table && i == 0
    {
      fdList := new int[SIZE](_ => 0);
      i, peerfd := 0, -1;
      new;
      assert fdList[..] == Start().table;
    }

    /** A forked copy: the child's table is its own. */
    constructor Copy(parent: Process)
      ensures fresh(fdList) && fdList[..] == parent.fdList[..] && i == parent.i && peerfd == parent.peerfd
    {
      var table := parent.fdList;
      fdList := new int[table.Length](n requires 0 <= n < table.Length reads table => table[n]);
      i, peerfd := parent.i, parent.peerfd;
      new;
      assert fdList[..] == parent.fdList[..];
    }

    /** Lines 112-137 for a connection; false stands for the store behind the end of the table. */
    method Accept(fd: int) returns (stored: bool)
      modifies this, fdList
      ensures stored <==> old(i) < fdList.Length
      ensures peerfd == fd && i == if stored then old(i) + 1 else old(i)
      ensures fdList[..] == if stored then old(fdList[..])[old(i) := fd] else old(fdList[..])
    {
      peerfd := fd;
      if i >= fdList.Length {
        return false;
      }
      fdList[i] := fd;
      i := i + 1;
      return true;
    }

    /** Lines 172-188: writes to every connection in the table, in order, until a write fails; writing an empty
        message fails at the first. `written` lists the slots written to. */
    method Broadcast(text: string, writes: nat -> bool) returns (outcome: Broadcasted, written: seq<nat>)
      ensures outcome.FailedAt? ==> outcome.slot < fdList.Length && fdList[outcome.slot] != 0
                                    && (text == "" || !writes(outcome.slot))
      ensures forall n, m | 0 <= n < m < |written| :: written[n] < written[m]
      ensures var end := if outcome.FailedAt? then outcome.slot else fdList.Length;
        forall n: nat :: n in written <==> n < end && fdList[n] != 0
      ensures forall n | n in written :: text != "" && writes(n)
    {
      written := [];
      var slot := 0;
      while slot < fdList.Length
        invariant 0 <= slot <= fdList.Length
        invariant forall n, m | 0 <= n < m < |written| :: written[n] < written[m]
        invariant forall n: nat :: n in written <==> n < slot && fdList[n] != 0
        invariant forall n | n in written :: text != "" && writes(n)
      {
        if fdList[slot] != 0 {
          if text == "" || !writes(slot) {
            return FailedAt(slot), written;
          }
          forall n | 0 <= n < |written|
            ensures written[n] < slot
          {
            assert written[n] in written;
          }
          written := written + [slot];
        }
        slot := slot + 1;
      }
      return Everywhere, written;
    }

    /** Lines 190-199. */
    method Purge()
      requires fdList.Length == SIZE
      modifies fdList
      ensures fdList[..] == Purged(old(fdList[..]), PURGE_BOUND, peerfd)
    {
      var slot := 0;
      while slot < PURGE_BOUND
        invariant 0 <= slot <= PURGE_BOUND
        invariant forall n | 0 <= n < SIZE ::
          fdList[n] == if n < slot && old(fdList[n]) == peerfd then 0 else old(fdList[n])
      {
        if peerfd == fdList[slot] {
          fdList[slot] := 0;
        }
        slot := slot + 1;
      }
      assert fdList[..] == Purged(old(fdList[..]), PURGE_BOUND, peerfd);
    }

    /** Lines 152-199: the child of `peerfd` reads and broadcasts until its client quits, and then purges.
        `texts[m]` is written to `slots[m]`; `writes(n, slot)` says whether the write of the n-th message to that
        slot succeeds. */
    method Serve(inputs: seq<Input>, writes: (nat, nat) -> bool)
        returns (said: seq<string>, end: Served, texts: seq<string>, slots: seq<nat>)
      requires fdList.Length == SIZE
      modifies fdList
      ensures EndsAs(inputs, said, end)
      ensures |slots| == |texts| && SentTo(old(fdList[..]), texts, slots, said, end)
      ensures WritesMatch(old(fdList[..]), said, end, writes)
      ensures fdList[..] == if end.ByClient? then Purged(old(fdList[..]), PURGE_BOUND, peerfd) else old(fdList[..])
    {
      said, texts, slots := [], [], [];
      while |said| < |inputs|
        invariant |said| <= |inputs| && |said| <= |Said(inputs)| && said == Said(inputs)[..|said|]
        invariant forall m | 0 <= m < |said| :: inputs[m].Message? && !IsQuit(inputs[m].text)
        invariant |slots| == |texts| && SentTo(fdList[..], texts, slots, said, Waiting)
        invariant WritesMatch(fdList[..], said, Waiting, writes)
        invariant fdList[..] == old(fdList[..])
        decreases |inputs| - |said|
      {
        SaidAt(inputs, |said|);
        var input := inputs[|said|];
        if input.Error? {
          return said, ReadError, texts, slots;
        } else if input.Eof? || IsQuit(input.text) {
          Purge();
          return said, ByClient, texts, slots;
        }
        var n := |said|;
        var outcome, written := Broadcast(input.text, (slot: nat) => writes(n, slot));
        forall slot: nat | slot < fdList.Length
          ensures Project(texts + seq(|written|, _ => input.text), slots + written, slot)
               == Project(texts, slots, slot) + if slot in written then [input.text] else []
        {
          ProjectBlock(texts, slots, input.text, written, slot);
        }
        texts, slots := texts + seq(|written|, _ => input.text), slots + written;
        said := said + [input.text];
        if outcome.FailedAt? {
          return said, WriteError(outcome.slot), texts, slots;
        }
      }
      end := Waiting;
    }
  }

  /** One connection served from accept to exit: whatever the client says and however its child ends, the child's
      purge does not reach the parent's table, where the connection stays. There is no child if the table was full. */
  method ForkServePurge(parent: Process, fd: int, inputs: seq<Input>, writes: (nat, nat) -> bool)
      returns (child: Process?, said: seq<string>, end: Served, texts: seq<string>, slots: seq<nat>)
    requires parent.fdList.Length == SIZE
    modifies parent, parent.fdList
    ensures child != null <==> old(parent.i) < SIZE
    ensures child == null ==> parent.fdList[..] == old(parent.fdList[..])
    ensures child != null ==>
      && parent.fdList[..] == old(parent.fdList[..])[old(parent.i) := fd]
      && EndsAs(inputs, said, end)
      && |slots| == |texts| && SentTo(parent.fdList[..], texts, slots, said, end)
      && WritesMatch(parent.fdList[..], said, end, writes)
      && child.fdList[..] == if end.ByClient? then Purged(parent.fdList[..], PURGE_BOUND, fd) else parent.fdList[..]
  {
    child, said, end, texts, slots := null, [], Waiting, [], [];
    var stored := parent.Accept(fd);
    if stored {
      var forked := new Process.Copy(parent);
      said, end, texts, slots := forked.Serve(inputs, writes);
      child := forked;
    }
  }
}
