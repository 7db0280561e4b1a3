/** The select() loop of 03_Day12/03_select_svr_multi_access/server.c: one process serves all its clients with a
    saved descriptor set, a snapshot of the ready ones per round, and a high-water mark that changes while the
    scan that it bounds is running. */
module SelectServer {
  import opened Runs

  /** What select() returns (line 75): an error, a timeout, or what it leaves in the snapshot. */
  datatype Selected = Failure | Timeout | Ready(fds: set<int>)

  /** What the kernel decides in one round: select(), accept(), and recv() and send() for each descriptor. */
  datatype Kernel = Kernel(selected: Selected, accepted: int, recv: int -> int, send: int -> int)

  /** The variables of main, and what has happened so far: the descriptors ever opened, and those dropped. */
  datatype Server = Server(
    sockfd: int, savefds: set<int>, maxfd: int, running: bool,
    everOpen: set<int>, dropped: set<int>
  )

  /** The descriptors whose recv or send fails (lines 112 and 131). */
  function Failing(fds: set<int>, k: Kernel): set<int> {
    set fd | fd in fds && (k.recv(fd) <= 0 || k.send(fd) <= 0)
  }

  /** The kernel's promises: select() leaves in the snapshot only descriptors that were in it, at least one of them
      below maxfd; those from maxfd on are not its business, and it may leave them set. An accepted descriptor is new:
      the server never closes a client, so it is one that was never handed out before. */
  ghost predicate Possible(s: Server, k: Kernel) {
    && (k.selected.Ready? ==> k.selected.fds <= s.savefds && exists fd :: fd in k.selected.fds && fd < s.maxfd)
    && (k.accepted == -1 || (k.accepted > s.sockfd && k.accepted !in s.everOpen))
  }

  /** Accepts a connection in this round. */
  predicate Accepts(s: Server, k: Kernel) {
    k.selected.Ready? && s.sockfd in k.selected.fds && k.accepted != -1
  }

  /** Leaves the loop in this round (lines 79 and 95). */
  predicate Breaks(s: Server, k: Kernel) {
    k.selected.Failure? || (k.selected.Ready? && s.sockfd in k.selected.fds && k.accepted == -1)
  }

  /** maxfd when the scan begins (line 101). */
  function Top(s: Server, k: Kernel): int {
    if Accepts(s, k) && k.accepted >= s.maxfd then k.accepted + 1 else s.maxfd
  }

  function Added(s: Server, k: Kernel): set<int> {
    if Accepts(s, k) then {k.accepted} else {}
  }

  /** The clients served in this round: the scan goes from sockfd to the maxfd that an accept may just have raised. */
  function Served(s: Server, k: Kernel): set<int> {
    if Breaks(s, k) || !k.selected.Ready? then {} else set fd | fd in k.selected.fds && s.sockfd < fd < Top(s, k)
  }

  /** The round as one step on sets: serve every ready client, drop the failed ones, add the new one. */
  function Round(s: Server, k: Kernel): Server {
    if Breaks(s, k) then s.(running := false)
    else
      var failed := Failing(Served(s, k), k);
      s.(savefds := s.savefds + Added(s, k) - failed,
         maxfd := if Top(s, k) - 1 in failed then Top(s, k) - 1 else Top(s, k),
         everOpen := s.everOpen + Added(s, k),
         dropped := s.dropped + failed)
  }

  /** Lines 66-68: line 66 clears the snapshot, so line 67 adds the socket to whatever `savefds` held before. */
  function Start(sockfd: int, garbage: set<int>): Server {
    Server(sockfd, garbage + {sockfd}, sockfd + 1, true, {sockfd}, {})
  }

  ghost function Program(sockfd: int, garbage: set<int>): System<Server> {
    System((s: Server) => s == Start(sockfd, garbage),
           (s: Server, t: Server) => s.running && exists k :: Possible(s, k) && t == Round(s, k))
  }

  /** The listening socket stays saved, and every saved descriptor is at least the socket and below maxfd. */
  ghost predicate HighWater(s: Server) {
    && s.sockfd in s.savefds
    && forall fd | fd in s.savefds :: s.sockfd <= fd < s.maxfd
  }

  /** The saved set is exactly what was opened and has not failed. */
  ghost predicate Inv(s: Server) {
    && HighWater(s)
    && s.savefds == s.everOpen - s.dropped
    && s.dropped <= s.everOpen
  }

  lemma RoundKeepsInv(s: Server, k: Kernel)
    requires Inv(s) && Possible(s, k)
    ensures Inv(Round(s, k)) && Round(s, k).sockfd == s.sockfd
  {
    var t := Round(s, k);
    var failed := Failing(Served(s, k), k);
    forall fd | fd in failed
      ensures fd in s.savefds && fd != s.sockfd
    {
      assert fd in k.selected.fds;
    }
    assert forall fd | fd in t.savefds :: s.sockfd <= fd < t.maxfd;
  }

  /** Over every run that starts from a cleared set, across accepts and failures in any order: the socket stays
      saved, every saved descriptor lies in [sockfd, maxfd), and a client is saved from its accept until its own recv
      or send fails. */
  lemma HighWaterAlways(sockfd: int, garbage: set<int>, s: Server)
    requires garbage <= {sockfd} && Reachable(Program(sockfd, garbage), s)
    ensures HighWater(s) && s.sockfd == sockfd
    ensures s.savefds == s.everOpen - s.dropped && sockfd !in s.dropped
  {
    var inv := (t: Server) => Inv(t) && t.sockfd == sockfd;
    assert garbage + {sockfd} == {sockfd};
    forall u, v | inv(u) && Program(sockfd, garbage).next(u, v)
      ensures inv(v)
    {
      var k :| Possible(u, k) && v == Round(u, k);
      RoundKeepsInv(u, k);
    }
    InductiveHoldsWhenReachable(Program(sockfd, garbage), inv, s);
  }

  /** A round in which a client connects and nothing else happens. */
  lemma AcceptOne(sockfd: nat, garbage: set<int>, s: Server, fd: int) returns (t: Server)
    requires Reachable(Program(sockfd, garbage), s) && s.running
    requires s.sockfd == sockfd < s.maxfd <= fd && fd !in s.everOpen && sockfd in s.savefds
    ensures Reachable(Program(sockfd, garbage), t)
    ensures t == s.(savefds := s.savefds + {fd}, maxfd := fd + 1, everOpen := s.everOpen + {fd})
  {
    var k := Kernel(Ready({sockfd}), fd, (fd: int) => 1, (fd: int) => 1);
    t := Round(s, k);
    assert Possible(s, k);
    StepReachable(Program(sockfd, garbage), s, t);
    assert Failing(Served(s, k), k) == {};
  }

  /** The rounds until the loop is left or the kernel's answers run out. */
  function PlayAll(s: Server, kernels: seq<Kernel>): Server
    decreases |kernels|
  {
    if kernels == [] || !s.running then s else PlayAll(Round(s, kernels[0]), kernels[1..])
  }

  ghost predicate AllPossible(s: Server, kernels: seq<Kernel>)
    decreases |kernels|
  {
    kernels != [] && s.running ==>
      Possible(s, kernels[0]) && AllPossible(Round(s, kernels[0]), kernels[1..])
  }

  lemma PrefixPlays(s: Server, kernels: seq<Kernel>, i: nat)
    requires i < |kernels| && s.running
    ensures PlayAll(s, kernels[..i + 1]) == PlayAll(Round(s, kernels[0]), kernels[1..][..i])
  {
    assert kernels[..i + 1][0] == kernels[0] && kernels[..i + 1][1..] == kernels[1..][..i];
  }

  // ---- What the kernel's answers decide over a whole play ----

  /** A timeout (lines 81-84) leaves everything as it is; the two ways out leave the loop and change nothing else. */
  lemma IdleAndLastRounds(s: Server, k: Kernel)
    ensures k.selected.Timeout? ==> Round(s, k) == s
    ensures k.selected.Failure? || (k.selected.Ready? && s.sockfd in k.selected.fds && k.accepted == -1) ==>
      Round(s, k) == s.(running := false)
  {
    if k.selected.Timeout? {
      assert Added(s, k) == {} && Failing({}, k) == {};
    }
  }

  /** The server goes on for ever but for two things: a select() that fails, and an accept() that fails. */
  lemma {:induction false} RunningIff(s: Server, kernels: seq<Kernel>)
    requires s.running
    ensures PlayAll(s, kernels).sockfd == s.sockfd
    ensures PlayAll(s, kernels).running <==>
      forall i | 0 <= i < |kernels| ::
        && !kernels[i].selected.Failure?
        && !(kernels[i].selected.Ready? && s.sockfd in kernels[i].selected.fds && kernels[i].accepted == -1)
    decreases |kernels|
  {
    if kernels != [] {
      var t := Round(s, kernels[0]);
      IdleAndLastRounds(s, kernels[0]);
      if t.running {
        RunningIff(t, kernels[1..]);
        assert forall i | 0 < i < |kernels| :: kernels[i] == kernels[1..][i - 1];
      }
    }
  }

  /** The round accepts `fd`. */
  predicate AcceptsFd(sockfd: int, k: Kernel, fd: int) {
    k.selected.Ready? && sockfd in k.selected.fds && k.accepted == fd && fd != -1
  }

  /** The round gets to serve `fd`, and its recv or send fails. */
  predicate LosesFd(sockfd: int, k: Kernel, fd: int) {
    && k.selected.Ready? && fd in k.selected.fds && !(sockfd in k.selected.fds && k.accepted == -1)
    && (k.recv(fd) <= 0 || k.send(fd) <= 0)
  }

  /** A round of the kind is carried out. */
  ghost predicate Happens(s: Server, kernels: seq<Kernel>, kind: Kernel -> bool) {
    exists i: nat :: i < |kernels| && PlayAll(s, kernels[..i]).running && kind(kernels[i])
  }

  lemma HappensNext(s: Server, kernels: seq<Kernel>, kind: Kernel -> bool)
    requires kernels != [] && s.running
    ensures Happens(s, kernels, kind) <==> kind(kernels[0]) || Happens(Round(s, kernels[0]), kernels[1..], kind)
  {
    var t, rest := Round(s, kernels[0]), kernels[1..];
    assert PlayAll(s, kernels[..0]) == s;
    if i: nat :| i < |kernels| && PlayAll(s, kernels[..i]).running && kind(kernels[i]) {
      if i > 0 {
        PrefixPlays(s, kernels, i - 1);
        assert PlayAll(t, rest[..i - 1]).running && kind(rest[i - 1]);
      }
    }
    if i: nat :| i < |rest| && PlayAll(t, rest[..i]).running && kind(rest[i]) {
      PrefixPlays(s, kernels, i);
      assert PlayAll(s, kernels[..i + 1]).running && kind(kernels[i + 1]);
    }
  }

  lemma RoundSavesIff(s: Server, k: Kernel, fd: int)
    requires Inv(s) && Possible(s, k) && fd != s.sockfd
    ensures fd in Round(s, k).savefds
       <==> (fd in s.savefds || AcceptsFd(s.sockfd, k, fd)) && !LosesFd(s.sockfd, k, fd)
    ensures AcceptsFd(s.sockfd, k, fd) ==> fd !in s.everOpen
    ensures LosesFd(s.sockfd, k, fd) ==> fd in s.everOpen
  {
  }

  lemma {:induction false} NeverTwice(s: Server, kernels: seq<Kernel>, fd: int)
    requires Inv(s) && AllPossible(s, kernels) && fd in s.everOpen && fd != s.sockfd
    ensures !Happens(s, kernels, k => AcceptsFd(s.sockfd, k, fd))
    decreases |kernels|
  {
    if kernels != [] && s.running {
      HappensNext(s, kernels, k => AcceptsFd(s.sockfd, k, fd));
      RoundSavesIff(s, kernels[0], fd);
      RoundKeepsInv(s, kernels[0]);
      NeverTwice(Round(s, kernels[0]), kernels[1..], fd);
    } else if kernels != [] {
      assert forall i: nat | i < |kernels| :: PlayAll(s, kernels[..i]) == s;
    }
  }

  /** Over whole runs: a client is in the saved set if and only if it was there or has been accepted, and no round has
      lost it. */
  lemma {:induction false} ClientSavedIff(s: Server, kernels: seq<Kernel>, fd: int)
    requires Inv(s) && AllPossible(s, kernels) && fd != s.sockfd
    ensures fd in PlayAll(s, kernels).savefds
       <==> && (fd in s.savefds || Happens(s, kernels, k => AcceptsFd(s.sockfd, k, fd)))
            && !Happens(s, kernels, k => LosesFd(s.sockfd, k, fd))
    decreases |kernels|
  {
    if kernels != [] && s.running {
      HappensNext(s, kernels, k => AcceptsFd(s.sockfd, k, fd));
      HappensNext(s, kernels, k => LosesFd(s.sockfd, k, fd));
      RoundSavesIff(s, kernels[0], fd);
      RoundKeepsInv(s, kernels[0]);
      ClientSavedIff(Round(s, kernels[0]), kernels[1..], fd);
      if LosesFd(s.sockfd, kernels[0], fd) {
        NeverTwice(Round(s, kernels[0]), kernels[1..], fd);
      }
    } else if kernels != [] {
      assert forall i: nat | i < |kernels| :: PlayAll(s, kernels[..i]) == s;
    }
  }

  // ---- When maxfd is one above the highest saved descriptor ----

  /** What lines 101, 117-120 and 136-139 aim at; under the high-water invariant it makes maxfd exact. */
  predicate Tight(s: Server) {
    s.maxfd - 1 in s.savefds
  }

  /** The round leaves the loop, or the highest client does not fail, or the one right below is saved and does not. */
  predicate KeepsTop(s: Server, k: Kernel) {
    var top, failed := Top(s, k), Failing(Served(s, k), k);
    Breaks(s, k) || top - 1 !in failed || (top - 2 in s.savefds + Added(s, k) && top - 2 !in failed)
  }

  /** A round keeps maxfd tight exactly under KeepsTop. Once it is not tight, only a client accepted at maxfd - 1 or
      above makes it so again; without one it never falls, whoever leaves. */
  lemma RoundTightIff(s: Server, k: Kernel)
    requires Inv(s) && Possible(s, k)
    ensures Tight(s) ==> (Tight(Round(s, k)) <==> KeepsTop(s, k))
    ensures !Tight(s) ==>
      && (Tight(Round(s, k)) <==> !Breaks(s, k) && Accepts(s, k) && k.accepted >= s.maxfd - 1)
      && Round(s, k).maxfd >= s.maxfd
    ensures Inv(Round(s, k))
  {
    RoundKeepsInv(s, k);
  }

  /** maxfd is tight after every round of a play. */
  ghost predicate TightThroughout(s: Server, kernels: seq<Kernel>) {
    forall i: nat | i <= |kernels| :: Tight(PlayAll(s, kernels[..i]))
  }

  /** Every round that is carried out keeps the top. */
  ghost predicate KeepsTopThroughout(s: Server, kernels: seq<Kernel>) {
    forall i: nat | i < |kernels| ::
      PlayAll(s, kernels[..i]).running ==> KeepsTop(PlayAll(s, kernels[..i]), kernels[i])
  }

  lemma TightThroughoutNext(s: Server, kernels: seq<Kernel>)
    requires kernels != [] && s.running
    ensures TightThroughout(s, kernels) <==> Tight(s) && TightThroughout(Round(s, kernels[0]), kernels[1..])
  {
    var t, rest := Round(s, kernels[0]), kernels[1..];
    if TightThroughout(s, kernels) {
      assert PlayAll(s, kernels[..0]) == s;
      forall i: nat | i <= |rest|
        ensures Tight(PlayAll(t, rest[..i]))
      {
        PrefixPlays(s, kernels, i);
        assert Tight(PlayAll(s, kernels[..i + 1]));
      }
    }
    if Tight(s) && TightThroughout(t, rest) {
      forall i: nat | i <= |kernels|
        ensures Tight(PlayAll(s, kernels[..i]))
      {
        if i > 0 {
          PrefixPlays(s, kernels, i - 1);
          assert Tight(PlayAll(t, rest[..i - 1]));
        }
      }
    }
  }

  lemma KeepsTopThroughoutNext(s: Server, kernels: seq<Kernel>)
    requires kernels != [] && s.running
    ensures KeepsTopThroughout(s, kernels)
       <==> KeepsTop(s, kernels[0]) && KeepsTopThroughout(Round(s, kernels[0]), kernels[1..])
  {
    var t, rest := Round(s, kernels[0]), kernels[1..];
    if KeepsTopThroughout(s, kernels) {
      assert PlayAll(s, kernels[..0]) == s;
      forall i: nat | i < |rest|
        ensures PlayAll(t, rest[..i]).running ==> KeepsTop(PlayAll(t, rest[..i]), rest[i])
      {
        PrefixPlays(s, kernels, i);
        assert PlayAll(s, kernels[..i + 1]).running ==> KeepsTop(PlayAll(s, kernels[..i + 1]), kernels[i + 1]);
      }
    }
    if KeepsTop(s, kernels[0]) && KeepsTopThroughout(t, rest) {
      forall i: nat | i < |kernels|
        ensures PlayAll(s, kernels[..i]).running ==> KeepsTop(PlayAll(s, kernels[..i]), kernels[i])
      {
        if i > 0 {
          PrefixPlays(s, kernels, i - 1);
          assert PlayAll(t, rest[..i - 1]).running ==> KeepsTop(PlayAll(t, rest[..i - 1]), rest[i - 1]);
        }
      }
    }
  }

  /** Over whole runs: from a tight state, as the start is, maxfd stays one above the highest saved descriptor through
      all rounds if and only if each of them keeps the top. */
  lemma {:induction false} TightIffTopsKept(s: Server, kernels: seq<Kernel>)
    requires Inv(s) && Tight(s) && AllPossible(s, kernels)
    ensures TightThroughout(s, kernels) <==> KeepsTopThroughout(s, kernels)
    decreases |kernels|
  {
    if kernels == [] || !s.running {
      forall i: nat | i <= |kernels|
        ensures PlayAll(s, kernels[..i]) == s
      {
      }
    } else {
      TightThroughoutNext(s, kernels);
      KeepsTopThroughoutNext(s, kernels);
      RoundTightIff(s, kernels[0]);
      var t := Round(s, kernels[0]);
      if Tight(t) {
        RoundKeepsInv(s, kernels[0]);
        TightIffTopsKept(t, kernels[1..]);
      } else {
        assert PlayAll(t, kernels[1..][..0]) == t;
      }
    }
  }

  lemma StartIsTight(sockfd: int, garbage: set<int>)
    requires garbage <= {sockfd}
    ensures Inv(Start(sockfd, garbage)) && Tight(Start(sockfd, garbage))
  {
    assert garbage + {sockfd} == {sockfd};
  }

  /** maxfd is sound but not always tight: two clients accepted and dropped in one round leave it one too high. */
  lemma NotAlwaysTight(sockfd: nat) returns (s: Server)
    ensures Reachable(Program(sockfd, {}), s) && s.running
    ensures s.savefds == {sockfd} && s.maxfd == sockfd + 2 && !Tight(s)
  {
    var s0 := Start(sockfd, {});
    InitReachable(Program(sockfd, {}), s0);
    var s1 := AcceptOne(sockfd, {}, s0, sockfd + 1);
    var s2 := AcceptOne(sockfd, {}, s1, sockfd + 2);
    var k := Kernel(Ready({sockfd + 1, sockfd + 2}), -1, (fd: int) => 0, (fd: int) => 1);
    s := Round(s2, k);
    assert Possible(s2, k);
    StepReachable(Program(sockfd, {}), s2, s);
    assert Served(s2, k) == {sockfd + 1, sockfd + 2};
    assert Failing(Served(s2, k), k) == {sockfd + 1, sockfd + 2};
    assert s.savefds == {sockfd};
  }

  // ---- What line 66 leaves in the saved set ----

  /** The high-water invariant holds over all runs if and only if there was nothing to clear. */
  lemma HighWaterIffCleared(sockfd: int, garbage: set<int>)
    ensures (forall s :: Reachable(Program(sockfd, garbage), s) ==> HighWater(s)) <==> garbage <= {sockfd}
  {
    if garbage <= {sockfd} {
      forall s | Reachable(Program(sockfd, garbage), s)
        ensures HighWater(s)
      {
        HighWaterAlways(sockfd, garbage, s);
      }
    }
    if forall s :: Reachable(Program(sockfd, garbage), s) ==> HighWater(s) {
      var s := Start(sockfd, garbage);
      InitReachable(Program(sockfd, garbage), s);
      forall fd | fd in garbage
        ensures fd in {sockfd}
      {
        assert fd in s.savefds;
      }
    }
  }

  /** A descriptor left below sockfd is saved for good: select() may report it in any round, but the scan starts
      above it, so it is never served and never dropped. */
  lemma LowGarbageStays(sockfd: int, garbage: set<int>, s: Server)
    requires Reachable(Program(sockfd, garbage), s)
    ensures s.sockfd == sockfd
    ensures forall fd | fd in garbage && fd < sockfd :: fd in s.savefds && fd !in s.dropped
    ensures forall k :: Served(s, k) !! (set fd | fd in garbage && fd < sockfd)
  {
    var keep := (t: Server) =>
      t.sockfd == sockfd && forall fd | fd in garbage && fd < sockfd :: fd in t.savefds && fd !in t.dropped;
    InductiveHoldsWhenReachable(Program(sockfd, garbage), keep, s);
  }

  lemma Highest(fds: set<int>, one: int) returns (top: int)
    requires one in fds
    ensures top in fds && forall fd | fd in fds :: fd <= top
  {
    if higher: int :| higher in fds && higher > one {
      top := Highest(fds - {one}, higher);
      assert fds == fds - {one} + {one};
    } else {
      top := one;
    }
  }

  /** The invariant can come back, if and only if nothing was left below sockfd: an accepted descriptor at the
      height of the rest puts all of it under maxfd. */
  lemma HighWaterComesBackIff(sockfd: nat, garbage: set<int>)
    ensures (exists s :: Reachable(Program(sockfd, garbage), s) && HighWater(s))
            <==> forall fd | fd in garbage :: fd >= sockfd
  {
    if fd :| fd in garbage && fd < sockfd {
      forall s | Reachable(Program(sockfd, garbage), s)
        ensures !HighWater(s)
      {
        LowGarbageStays(sockfd, garbage, s);
      }
    } else {
      var s := Start(sockfd, garbage);
      InitReachable(Program(sockfd, garbage), s);
      if fd :| fd in garbage && fd > sockfd {
        var top := Highest(garbage, fd);
        var t := AcceptOne(sockfd, garbage, s, top);
        assert HighWater(t);
      } else {
        assert HighWater(s);
      }
    }
  }

  /** `calls` lists the members of `fds`, each once, in ascending order. */
  ghost predicate Lists(calls: seq<int>, fds: set<int>) {
    && (forall i, j | 0 <= i < j < |calls| :: calls[i] < calls[j])
    && (forall fd :: fd in calls <==> fd in fds)
  }

  lemma ListsAppend(calls: seq<int>, fds: set<int>, fd: int)
    requires Lists(calls, fds) && forall other | other in fds :: other < fd
    ensures Lists(calls + [fd], fds + {fd})
  {
    forall i | 0 <= i < |calls|
      ensures calls[i] < fd
    {
      assert calls[i] in calls;
    }
  }

  /** The clients among `fds` that the scan has passed when it stands at `i`. */
  function Passed(fds: set<int>, sockfd: int, i: int): set<int> {
    set fd | fd in fds && sockfd < fd < i
  }

  lemma PassedNext(fds: set<int>, sockfd: int, i: int, k: Kernel)
    requires sockfd < i
    ensures var before, after := Passed(fds, sockfd, i), Passed(fds, sockfd, i + 1);
      && after == before + (if i in fds then {i} else {})
      && Delivering(after, k) == Delivering(before, k) + (if i in fds && k.recv(i) > 0 then {i} else {})
      && Failing(after, k) == Failing(before, k) + (if i in fds && (k.recv(i) <= 0 || k.send(i) <= 0) then {i} else {})
  {
  }

  /** The clients that delivered something. */
  function Delivering(fds: set<int>, k: Kernel): set<int> {
    set fd | fd in fds && k.recv(fd) > 0
  }

  lemma FailingNext(fds: set<int>, sockfd: int, i: int, k: Kernel)
    requires sockfd < i
    ensures Failing(Passed(fds, sockfd, i + 1), k) == Failing(Passed(fds, sockfd, i), k)
         + (if i in fds && (k.recv(i) <= 0 || k.send(i) <= 0) then {i} else {})
    ensures i !in Failing(Passed(fds, sockfd, i), k)
  {
  }

  /** The lists of calls when the scan has passed `i`. */
  lemma ListsNext(received: seq<int>, sent: seq<int>, fds: set<int>, sockfd: int, i: int, k: Kernel)
    requires sockfd < i
    requires Lists(received, Passed(fds, sockfd, i)) && Lists(sent, Delivering(Passed(fds, sockfd, i), k))
    ensures Lists(if i in fds then received + [i] else received, Passed(fds, sockfd, i + 1))
    ensures Lists(if i in fds && k.recv(i) > 0 then sent + [i] else sent, Delivering(Passed(fds, sockfd, i + 1), k))
  {
    PassedNext(fds, sockfd, i, k);
    if i in fds {
      ListsAppend(received, Passed(fds, sockfd, i), i);
      if k.recv(i) > 0 {
        ListsAppend(sent, Delivering(Passed(fds, sockfd, i), k), i);
      }
    }
  }

  class Process {
    const sockfd: int
    var savefds: set<int>
    var readfds: set<int>
    var maxfd: int
    var running: bool
    ghost var everOpen: set<int>
    ghost var dropped: set<int>

    ghost function Now(): Server
      reads this
    {
      Server(sockfd, savefds, maxfd, running, everOpen, dropped)
    }

    /** `garbage` is what the uninitialised saved set holds. */
    constructor (sockfd: int, garbage: set<int>)
      ensures Now() == Start(sockfd, garbage)
    {
      this.sockfd := sockfd;
      readfds := {};
      savefds := garbage + {sockfd};
      maxfd := sockfd + 1;
      running := true;
      everOpen, dropped := {sockfd}, {};
    }

    /** Lines 110-142: receive from one client and answer it, or drop it. */
    method ServeClient(i: int, k: Kernel) returns (delivered: bool)
      modifies this`savefds, this`maxfd
      ensures delivered <==> k.recv(i) > 0
      ensures var fails := k.recv(i) <= 0 || k.send(i) <= 0;
        && savefds == old(savefds) - (if fails then {i} else {})
        && maxfd == if fails && i == old(maxfd) - 1 then old(maxfd) - 1 else old(maxfd)
    {
      if k.recv(i) <= 0 {
        savefds := savefds - {i};
        if i == maxfd - 1 {
          maxfd := maxfd - 1;
        }
        return false;
      }
      if k.send(i) <= 0 {
        savefds := savefds - {i};
        if i == maxfd - 1 {
          maxfd := maxfd - 1;
        }
      }
      return true;
    }

    /** Where the scan that began with `saved` and `top` stands at `i`: `maxfd` drops only at its last descriptor. */
    ghost predicate ScannedTo(saved: set<int>, top: int, i: int, k: Kernel)
      reads this
    {
      var failed := Failing(Passed(readfds, sockfd, i), k);
      savefds == saved - failed && maxfd == if i == top && top - 1 in failed then top - 1 else top
    }

    /** Lines 107-143 for one descriptor. */
    method Visit(i: int, k: Kernel, ghost saved: set<int>, ghost top: int) returns (received: bool, sent: bool)
      requires sockfd < i < maxfd && ScannedTo(saved, top, i, k)
      modifies this`savefds, this`maxfd
      ensures ScannedTo(saved, top, i + 1, k)
      ensures (received <==> i in readfds) && (sent <==> i in readfds && k.recv(i) > 0)
    {
      FailingNext(readfds, sockfd, i, k);
      received, sent := i in readfds, false;
      if received {
        sent := ServeClient(i, k);
      }
    }

    /** The scan of lines 105-144. `maxfd` may drop under it, but only when the scan is at its last descriptor:
        recv is called exactly once for each client of the snapshot, in ascending order, send exactly once for
        each that delivered something, and exactly the failing ones are dropped. */
    method Scan(k: Kernel) returns (received: seq<int>, sent: seq<int>)
      requires sockfd < maxfd
      modifies this`savefds, this`maxfd
      ensures var clients := Passed(readfds, sockfd, old(maxfd));
        && Lists(received, clients)
        && Lists(sent, Delivering(clients, k))
        && savefds == old(savefds) - Failing(clients, k)
        && maxfd == if old(maxfd) - 1 in Failing(clients, k) then old(maxfd) - 1 else old(maxfd)
    {
      received, sent := [], [];
      ghost var saved, top := savefds, maxfd;
      var i := sockfd + 1;
      assert Passed(readfds, sockfd, i) == {};
      while i < maxfd
        invariant sockfd < i <= top && ScannedTo(saved, top, i, k)
        invariant Lists(received, Passed(readfds, sockfd, i)) && Lists(sent, Delivering(Passed(readfds, sockfd, i), k))
        decreases top - i
      {
        ListsNext(received, sent, readfds, sockfd, i, k);
        var got, answered := Visit(i, k, saved, top);
        if got {
          received := received + [i];
        }
        if answered {
          sent := sent + [i];
        }
        i := i + 1;
      }
    }

    /** One round, lines 72-145, in place: it does what the round on sets does, also when line 66 has left something
        in the saved set. Exactly the ready clients are served, and the client accepted in this round is not among
        them. */
    method PlayRound(k: Kernel) returns (received: seq<int>, sent: seq<int>)
      requires running && sockfd < maxfd && Possible(Now(), k)
      modifies this
      ensures Now() == Round(old(Now()), k) && sockfd < maxfd
      ensures Lists(received, Served(old(Now()), k))
      ensures Lists(sent, Delivering(Served(old(Now()), k), k))
      ensures old(Inv(Now())) ==> Inv(Now()) && (Accepts(old(Now()), k) ==> k.accepted !in received)
    {
      received, sent := [], [];
      if Inv(Now()) {
        RoundKeepsInv(Now(), k);
      }
      ghost var before := Now();
      readfds := savefds;
      match k.selected
      case Failure => running := false;
      case Timeout =>
        assert Failing({}, k) == {};
      case Ready(fds) =>
        readfds := fds;
        if sockfd in readfds {
          if k.accepted == -1 {
            running := false;
            return;
          }
          savefds := savefds + {k.accepted};
          maxfd := if k.accepted >= maxfd then k.accepted + 1 else maxfd;
          everOpen := everOpen + {k.accepted};
        }
        assert Passed(readfds, sockfd, maxfd) == Served(before, k);
        received, sent := Scan(k);
        dropped := dropped + Failing(Served(before, k), k);
    }

    /** The loop of lines 70-146: any number of rounds; they keep the high-water invariant. */
    method Serve(kernels: seq<Kernel>)
      requires running && sockfd < maxfd
      requires AllPossible(Now(), kernels)
      modifies this
      ensures Now() == PlayAll(old(Now()), kernels)
      ensures old(Inv(Now())) ==> HighWater(Now())
    {
      ghost var start := Now();
      var i := 0;
      while i < |kernels| && running
        invariant 0 <= i <= |kernels| && sockfd < maxfd && (Inv(start) ==> Inv(Now()))
        invariant PlayAll(start, kernels) == PlayAll(Now(), kernels[i..]) && AllPossible(Now(), kernels[i..])
      {
        var received, sent := PlayRound(kernels[i]);
        assert kernels[i..][1..] == kernels[i + 1..];
        i := i + 1;
      }
    }
  }
}
