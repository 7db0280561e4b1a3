# Verified models of the Linux exercises

A Dafny 4.11 model of the concurrent programs, the heap list, the servers and the file copy of the
repository, with proofs of what they keep over all their runs. `dafny verify dfyconfig.toml` checks it all.

| file | program |
|---|---|
| OneSlotBuffer.dfy | the semaphore producer/customer as it is written: one slot, one node, `tmp` read once |
| BoundedBuffer.dfy | the same semaphore protocol for N slots, any number of threads and a node per item |
| ConditionStack.dfy | the condition-variable producer/customer, as written and in its three repairs |
| LockedStack.dfy, HeapStack.dfy | the list accesses shared by the two: an explicit heap with malloc and free, the printed log |
| LinkedList.dfy | the intrusive list of revision/node.c, on heap objects |
| SelectServer.dfy | the select() server: saved set, snapshot, high-water mark |
| ChatRoom.dfy | the forking chat server: copies of the connection table, delivery |
| Printers.dfy | the serialised printers |
| ReadWriteLock.dfy, MutexCounter.dfy | the readers/writers and the mutex counter |
| FileCopy.dfy | the chunked file copy |
| Runs.dfy, Counting.dfy, Interleaving.dfy | runs and induction over them, sums over threads, merges of streams |

The concurrent programs are transition systems: each thread has a program counter, every shared read and every
shared write is a step of its own, and `Runs.System` gives the runs. Theorems quantify over all reachable states
or all runs, that is over all schedules and over every choice of malloc, random(), the kernel and the signals.
Beside each transition system of a thread program stands a class `Process` that holds the program's variables and
executes single statements in place; its methods are proved to do exactly the transitions, and its `Run`, the one
that the table lists, executes any schedule.
The list, the scan of the select server, the loops of the chat server and the copy loop are methods on
mutable objects and arrays.

What the model shows about the code:

- `tmp = head` on line 68 of semaphore_sync_lock.c races with the producer. The heap is safe exactly when it read
  NULL; otherwise every schedule faults within 16 steps. The single slot is needed: with more the node can be linked to
  itself.
- cond.c can dereference NULL, also without spurious wakeups, because it signals after unlocking and tests once.
- `DelNode` guards against large positions only: on a valid list it crashes exactly for positions below 1, and `Pop` on
  an empty list. `AddNode` with a linked node makes the list endless; `PushBack` with one cuts the list off while the
  size grows, which no later operation repairs.
- Line 66 of the select server clears the snapshot instead of the saved set. `maxfd` is sound over all runs exactly if
  there was nothing to clear. It stays one above the highest saved descriptor exactly as long as no round drops the
  highest client without the descriptor right below it being saved and staying.
- The exit purge of the chat server looks at five entries instead of 128, and only in the child's copy, so departed
  clients stay in the parent's table; the 129th connection is stored behind it.
- file_copy.c returns 1 after a complete copy too, closes the source twice, and loses bytes on a short write.

## Model

| member | source | states |
|---|---|---|
| OneSlotBuffer.HeapSafeIffReadNull | 01_Linux_System_Programming/09_Day09/06_semaphore_sync_lock/semaphore_sync_lock.c:65-88 | From any reachable state past line 68 a fault (NULL or freed memory accessed, or a second free) can be reached if and only if line 68 read a non-NULL head. |
| OneSlotBuffer.ReadingTheNodeIsFatal | 01_Linux_System_Programming/09_Day09/06_semaphore_sync_lock/semaphore_sync_lock.c:65-104 | A run in which line 68 read the node ends at most 16 steps later, and ends in a fault: no schedule escapes. |
| OneSlotBuffer.Line68Races | 01_Linux_System_Programming/09_Day09/06_semaphore_sync_lock/semaphore_sync_lock.c:40-68 | Both outcomes of line 68 are reachable: it reads `head` outside the lock. |
| OneSlotBuffer.TokenFixesList | 01_Linux_System_Programming/09_Day09/06_semaphore_sync_lock/semaphore_sync_lock.c:22-104 | One token is conserved; the list is acyclic and its length (0 or 1) is read off sem2 and the two program counters; `head` is NULL at lines 39-40, so the one node is never linked to itself, and a live node at lines 85-87. |
| OneSlotBuffer.ConsumedInOrder | 01_Linux_System_Programming/09_Day09/06_semaphore_sync_lock/semaphore_sync_lock.c:24-104 | In every state of every run the consumed numbers are a prefix of the produced ones, at most one behind. |
| OneSlotBuffer.AlternatesIsFifo | 01_Linux_System_Programming/09_Day09/06_semaphore_sync_lock/semaphore_sync_lock.c:42-85 | An alternating log yields the produced values as the consumed ones plus at most the last. |
| OneSlotBuffer.ExactlyOneThreadMoves | 01_Linux_System_Programming/09_Day09/06_semaphore_sync_lock/semaphore_sync_lock.c:24-98 | Once line 68 is passed, exactly one of the two threads can move in every reachable state without a fault. |
| OneSlotBuffer.NoDeadlock | 01_Linux_System_Programming/09_Day09/06_semaphore_sync_lock/semaphore_sync_lock.c:24-98 | No reachable state without a fault is final, and a thread about to lock the mutex finds it free. |
| OneSlotBuffer.NobodyStarves | 01_Linux_System_Programming/09_Day09/06_semaphore_sync_lock/semaphore_sync_lock.c:22-104 | After n steps of any schedule without a fault the number of consumed items is n/19 up to one round: the threads work in lockstep. |
| OneSlotBuffer.ProducibleIff | 01_Linux_System_Programming/09_Day09/06_semaphore_sync_lock/semaphore_sync_lock.c:24-104 | The sequences of numbers that can be produced are exactly those of numbers from 1 to 100: what malloc leaves in the node is never printed, and every number that line 38 draws can come. |
| OneSlotBuffer.SelfLinkIffMoreSlots | 01_Linux_System_Programming/09_Day09/06_semaphore_sync_lock/semaphore_sync_lock.c:20-60 | With any initial value of sem1 (line 116 passes 1): a state in which the one node is linked to itself is reachable if and only if the value is above 1, and so is a state in which no finite chain hangs from `head`. |
| OneSlotBuffer.Process.Run | 01_Linux_System_Programming/09_Day09/06_semaphore_sync_lock/semaphore_sync_lock.c:109-162 | Any schedule, run in place, stays in reachable states: a fault implies that line 68 read the node, and the order is first-in first-out. |
| LockedStack.PushKeepsInv | 01_Linux_System_Programming/09_Day09/04_cond/cond.c:21-38 | Each access of a push (malloc, data, next, head, print), made with the mutex held from line 34 on, keeps the list acyclic, each live node with one owner and the log a stack history, and never faults. |
| LockedStack.PopKeepsInv | 01_Linux_System_Programming/09_Day09/04_cond/cond.c:79-84 | Each access of a pop, made with the mutex held, keeps the same, and faults exactly when line 79 meets an empty list. |
| LockedStack.NodeInOnePlace | 01_Linux_System_Programming/09_Day09/04_cond/cond.c:21-36 | A node is allocated if and only if it is in the list, private to a producer or in a customer's `temp`, and it is in one place only; freed nodes are nowhere. |
| LockedStack.LogIsStackHistory | 01_Linux_System_Programming/09_Day09/04_cond/cond.c:34-84 | The printed lines replay on an abstract last-in first-out stack; they determine what is left on it, and the list holds exactly that, up to the one node that is linked but not printed, or printed but not unlinked; produced = consumed + left as multisets. |
| HeapStack.LinkedUnique | 01_Linux_System_Programming/09_Day09/04_cond/cond.c:3-12 | The links from `head` spell one chain only: the list is acyclic. |
| StackLog.ReplayConserves | 01_Linux_System_Programming/09_Day09/04_cond/cond.c:38-79 | In a stack history the produced values are, as a multiset, the consumed ones plus those left. |
| StackLog.ReplayUnique | 01_Linux_System_Programming/09_Day09/04_cond/cond.c:38-79 | The printed lines leave one stack only. |
| BoundedBuffer.SlotsAndLength | 01_Linux_System_Programming/09_Day09/06_semaphore_sync_lock/semaphore_sync_lock.c:22-59 | N slots, any number of threads: sem1 + sem2 + threads between wait and post = N; list length = sem2 + producers that linked but have not posted + customers that waited but have not unlinked; at most N; acyclic. |
| BoundedBuffer.MemorySafe | 01_Linux_System_Programming/09_Day09/06_semaphore_sync_lock/semaphore_sync_lock.c:69-104 | No access to NULL or freed memory and no double free in any reachable state; every live node has exactly one place; a customer past sem_wait finds a node. |
| BoundedBuffer.MutualExclusion | 01_Linux_System_Programming/09_Day09/06_semaphore_sync_lock/semaphore_sync_lock.c:31-90 | In every reachable state at most one thread is inside lines 31-44 or 78-90, the mutex is free exactly when nobody is, and every access to the list comes from a thread inside: the accesses themselves are not guarded in the model. |
| BoundedBuffer.NothingLost | 01_Linux_System_Programming/09_Day09/06_semaphore_sync_lock/semaphore_sync_lock.c:38-88 | In every reachable state the printed lines determine what is left; the list holds that, with one more node in front exactly between a link and its line or a line and its unlink; produced = consumed + left as multisets. |
| BoundedBuffer.NoDeadlockIff | 01_Linux_System_Programming/09_Day09/06_semaphore_sync_lock/semaphore_sync_lock.c:22-104 | No reachable state is final if and only if there is at least one slot, one producer and one customer. |
| BoundedBuffer.BlockedIff | 01_Linux_System_Programming/09_Day09/06_semaphore_sync_lock/semaphore_sync_lock.c:24-98 | A producer or customer cannot move if and only if it waits at a semaphore that is 0, or locks while a thread is inside the critical section. |
| BoundedBuffer.EveryStepIsWork | 01_Linux_System_Programming/09_Day09/06_semaphore_sync_lock/semaphore_sync_lock.c:22-104 | On every run, n steps make ten for each number produced and eleven for each consumed, up to a constant for each thread; consumed <= produced <= consumed + N. So no schedule keeps the threads busy without passing items. |
| BoundedBuffer.ProducibleIff | 01_Linux_System_Programming/09_Day09/06_semaphore_sync_lock/semaphore_sync_lock.c:22-104 | With a slot, a producer and a customer, the sequences of numbers that can be produced are exactly those of numbers from 1 to 100. |
| BoundedBuffer.Process.Run | 01_Linux_System_Programming/09_Day09/06_semaphore_sync_lock/semaphore_sync_lock.c:109-162 | Any schedule, run in place: no fault, at most N nodes, and nothing lost: the list holds what the printed lines leave, up to the node between its line and its link. |
| ConditionStack.NoLostWakeup | 01_Linux_System_Programming/09_Day09/04_cond/cond.c:27-77 | Any number of producers and customers: while all customers are blocked and the list is not empty, some producer is between its push and its signal; as written, with one of each, it is the producer. |
| ConditionStack.NullSafeIff | 01_Linux_System_Programming/09_Day09/04_cond/cond.c:34-82 | In every design, with any number of producers and customers: no reachable state has a NULL dereference if and only if the test is repeated after wakeups, or waits never return without a signal and there is no producer or the signal is sent inside the lock for at most one customer, or there is no customer. |
| ConditionStack.RepairsOfTheProgram | 01_Linux_System_Programming/09_Day09/04_cond/cond.c:40-82 | The program as written, with one producer or more, is not NULL-safe even without spurious wakeups; repeating the test repairs it; moving the signal inside repairs it exactly without spurious wakeups. |
| ConditionStack.StaleSignalFaults | 01_Linux_System_Programming/09_Day09/04_cond/cond.c:40-79 | With the order of lines 40 and 47 a signal sent after the node is gone wakes the customer on an empty list: a reachable NULL dereference. |
| ConditionStack.SpuriousWakeupFaults | 01_Linux_System_Programming/09_Day09/04_cond/cond.c:68-79 | With the single test of line 68 a spurious wakeup reaches a NULL dereference. |
| ConditionStack.SecondCustomerFaults | 01_Linux_System_Programming/09_Day09/04_cond/cond.c:61-82 | With the signal inside the lock but two customers, the second can take the node first: a reachable NULL dereference. |
| ConditionStack.MutualExclusion | 01_Linux_System_Programming/09_Day09/04_cond/cond.c:27-86 | In every reachable state of every design at most one thread is inside its critical section (a waiting customer is not), the mutex is free exactly when nobody is, and every access to the list comes from a thread inside. |
| ConditionStack.OwnershipConserved | 01_Linux_System_Programming/09_Day09/04_cond/cond.c:21-84 | Up to a NULL dereference, in every reachable state: no use after free, no double free, each live node in one place, list acyclic; the printed lines determine the contents of the list, up to the one node between its line and its link; produced = consumed + left. |
| ConditionStack.BlockedIff | 01_Linux_System_Programming/09_Day09/04_cond/cond.c:18-92 | A producer cannot move if and only if it has stopped, or locks while a thread is inside a critical section; a customer if and only if it takes the mutex (also when woken) while a thread is inside, or waits and wakeups need a signal. |
| ConditionStack.StopsOnlyWithoutData | 01_Linux_System_Programming/09_Day09/04_cond/cond.c:18-92 | A state in which nothing but a wakeup for no reason can happen is a NULL dereference, or every producer has stopped, every customer waits and the list is empty. |
| ConditionStack.StuckIff | 01_Linux_System_Programming/09_Day09/04_cond/cond.c:18-50 | Such a state without a NULL dereference is reachable if and only if malloc can fail or there is no producer. |
| ConditionStack.NoProducerEnds | 01_Linux_System_Programming/09_Day09/04_cond/cond.c:18-50 | As long as malloc does not fail no producer leaves its loop. |
| ConditionStack.ProducibleIff | 01_Linux_System_Programming/09_Day09/04_cond/cond.c:18-92 | In every design with a producer and a customer, the sequences of numbers that can be produced are exactly those of numbers from 1 to 100, of any length. |
| ConditionStack.Process.Run | 01_Linux_System_Programming/09_Day09/04_cond/cond.c:98-130 | Any schedule, run in place, keeps the memory, NULL-safety (in the safe designs) and wakeup claims. |
| LinkedList.ListManager.constructor | 01_Linux_System_Programming/revision/node.c:3-11 | A new list is valid and empty. |
| LinkedList.AddNode | 01_Linux_System_Programming/revision/node.c:13-25 | Prepends a new node; rejects NULL; with a node that is already linked, or the head node, the list never ends (no finite chain). |
| LinkedList.ClosedSetHasNoEnd | 01_Linux_System_Programming/revision/node.c:22-24 | From inside a set of nodes closed under non-NULL links no finite chain reaches NULL. |
| LinkedList.Walk | 01_Linux_System_Programming/revision/node.c:55-59 | Following `steps` links from the head node reaches that node; a negative count, or one beyond the list, runs off the end. |
| LinkedList.DelNode | 01_Linux_System_Programming/revision/node.c:44-64 | Removes index pos-1 and nulls the removed link; rejects exactly NULL and pos > size; otherwise crashes exactly for pos < 1 or pos beyond the list, leaving the list untouched. |
| LinkedList.GetSize | 01_Linux_System_Programming/revision/node.c:66-76 | The cached size, 0 for NULL: the length of the chain exactly as long as the list is valid. |
| LinkedList.PushBack | 01_Linux_System_Programming/revision/node.c:78-94 | Appends a new node. A node that is in the list already cuts the list off behind itself (the head node cuts off all of it) while the size grows by one, so that the list is valid afterwards if and only if the node was new. Crashes exactly on NULL or when the size exceeds the list. |
| LinkedList.UpToIndex | 01_Linux_System_Programming/revision/node.c:85-93 | What such an append leaves is exactly the nodes up to the appended one. |
| LinkedList.Pop | 01_Linux_System_Programming/revision/node.c:96-99 | Drops and detaches the last node; crashes exactly on NULL, on an empty list and when the size exceeds the list. |
| LinkedList.Traversal | 01_Linux_System_Programming/revision/node.c:27-42 | Ends on every acyclic list and calls the callback once per node, in list order: the i-th call takes the rest of the world from its i-th state to the next, with the i-th node. |
| LinkedList.Visited | 01_Linux_System_Programming/revision/node.c:27-42 | A callback that notes its argument has noted exactly the nodes of the list, first to last. |
| LinkedList.RunAll | 01_Linux_System_Programming/revision/node.c:13-99 | Any sequence of operations with any positions and any nodes or NULL has the effect of the same operations on a sequence with a size, up to the first crash or the first AddNode of a linked node; it crashes exactly when that says so, such an AddNode leaves links that never end, and nothing else is touched. |
| LinkedList.NeverRepaired | 01_Linux_System_Programming/revision/node.c:13-99 | Once the size exceeds the list, no sequence of operations changes by how much. |
| LinkedList.SizeIsLengthUnlessRelinked | 01_Linux_System_Programming/revision/node.c:13-99 | After any sequence of operations the size is the length of the list if and only if none of those carried out was a PushBack of a node in the list. |
| LinkedList.PushBackThenPop | 01_Linux_System_Programming/revision/node.c:78-99 | Pop undoes PushBack: same nodes, same links, and the node comes back detached. |
| LinkedList.AddNodeThenDelFirst | 01_Linux_System_Programming/revision/node.c:13-64 | DelNode(1) undoes AddNode: same nodes, same links, and the node comes back detached. |
| LinkedList.DelBeside | 01_Linux_System_Programming/revision/node.c:44-64 | Deleting from one list leaves a list that shares no node with it valid and unchanged. |
| LinkedList.MoveBetween | 01_Linux_System_Programming/revision/node.c:44-94 | A deleted node can be appended to another list; both lists stay valid and share no node. |
| LinkedList.Test01 | 01_Linux_System_Programming/revision/link_list.c:16-46 | The demonstration ends with the nodes data4, data2, data1 linked and data3 detached. |
| SelectServer.Process.Scan | 02_Linux_Net_Programming/03_Day12/03_select_svr_multi_access/server.c:105-144 | The scan under a changing maxfd receives exactly once from each ready client in ascending order, sends once to each that delivered, and drops exactly those whose recv or send failed. |
| SelectServer.Process.PlayRound | 02_Linux_Net_Programming/03_Day12/03_select_svr_multi_access/server.c:72-145 | One round in place equals the round on sets, also with leftovers in the saved set, even above maxfd: saved set = old + accepted - failed; from a clean set the client accepted in this round is not touched. |
| SelectServer.Process.ServeClient | 02_Linux_Net_Programming/03_Day12/03_select_svr_multi_access/server.c:110-142 | One client is dropped exactly when its recv or send fails, and maxfd falls only if it was the highest. |
| SelectServer.Process.Serve | 02_Linux_Net_Programming/03_Day12/03_select_svr_multi_access/server.c:70-146 | Any number of rounds in place equals the same rounds on sets, and they keep the high-water invariant. |
| SelectServer.RunningIff | 02_Linux_Net_Programming/03_Day12/03_select_svr_multi_access/server.c:70-96 | After any rounds the server is running if and only if in none of them select() failed, or accept() failed on a ready sockfd. |
| SelectServer.IdleAndLastRounds | 02_Linux_Net_Programming/03_Day12/03_select_svr_multi_access/server.c:75-96 | A timeout changes nothing; a failing select() or accept() ends the loop and changes nothing else. |
| SelectServer.ClientSavedIff | 02_Linux_Net_Programming/03_Day12/03_select_svr_multi_access/server.c:70-146 | Over any rounds, in terms of the kernel's answers: a client is in the saved set if and only if it was there or has been accepted, and in no round it was ready and its recv or send failed. |
| SelectServer.HighWaterAlways | 02_Linux_Net_Programming/03_Day12/03_select_svr_multi_access/server.c:67-144 | Over all runs from a cleared saved set, sockfd stays saved, every saved descriptor lies in [sockfd, maxfd), and the saved set is exactly what was opened and has not failed. |
| SelectServer.RoundTightIff | 02_Linux_Net_Programming/03_Day12/03_select_svr_multi_access/server.c:98-144 | Lines 117-120 and 136-139 aim at maxfd = highest saved descriptor + 1. A round keeps that if and only if it leaves the loop, or the highest descriptor does not fail, or the one right below is saved and does not fail. Once lost, it comes back exactly with a client accepted at maxfd - 1 or above, and maxfd does not fall. |
| SelectServer.TightIffTopsKept | 02_Linux_Net_Programming/03_Day12/03_select_svr_multi_access/server.c:67-146 | Over any number of rounds from a tight state, as the start is: maxfd is tight after each of them if and only if each of them keeps the top in that sense. |
| SelectServer.NotAlwaysTight | 02_Linux_Net_Programming/03_Day12/03_select_svr_multi_access/server.c:115-139 | The property does fail: two clients that fail in one round lower maxfd once. |
| SelectServer.HighWaterIffCleared | 02_Linux_Net_Programming/03_Day12/03_select_svr_multi_access/server.c:66-146 | Over all runs from whatever the uninitialised `savefds` held: the high-water invariant holds in every reachable state if and only if that was nothing but sockfd. |
| SelectServer.LowGarbageStays | 02_Linux_Net_Programming/03_Day12/03_select_svr_multi_access/server.c:66-144 | A descriptor left below sockfd is in the saved set in every reachable state, is served in no round and never dropped. |
| SelectServer.HighWaterComesBackIff | 02_Linux_Net_Programming/03_Day12/03_select_svr_multi_access/server.c:66-101 | Some run reaches a state where the invariant holds if and only if nothing was left below sockfd. |
| Printers.EveryScheduleInterleaves | 01_Linux_System_Programming/09_Day09/05_semaphore/semaphore.c:6-17 | Any printers and strings: every run has at most 5 steps per character and one per printer; a run that cannot go on has exactly that many and its output interleaves all the strings, each complete and in order. |
| Printers.OutputsAreTheInterleavings | 01_Linux_System_Programming/09_Day09/05_semaphore/semaphore.c:6-17 | The outputs of ended runs are exactly the interleavings of the strings: each of them is printed under some schedule. |
| Printers.MutualExclusion | 01_Linux_System_Programming/09_Day09/05_semaphore/semaphore.c:10-15 | Semaphore value + printers inside the section = 1 in every reachable state. |
| Printers.NoDeadlock | 01_Linux_System_Programming/09_Day09/05_semaphore/semaphore.c:8-16 | Where no printer can move, every printer has exited. |
| Printers.BlockedIff | 01_Linux_System_Programming/09_Day09/05_semaphore/semaphore.c:8-16 | A printer cannot move if and only if it has exited, or waits at the semaphore while a printer is inside. |
| Printers.Process.Run | 01_Linux_System_Programming/09_Day09/05_semaphore/semaphore.c:37-64 | Any schedule run in place that reaches the joins has printed an interleaving of the strings. |
| Interleaving.InterleavingLength | 01_Linux_System_Programming/09_Day09/05_semaphore/semaphore.c:6-17 | An interleaving is exactly as long as its streams together. |
| ChatRoom.DeliveryIsInterleaving | 02_Linux_Net_Programming/02_Day11/99_tcp_chatroom/server.c:108-188 | Over every run, what connection j has received is a message-level interleaving of one stream for each client, in accept order: empty for clients before j; for the others all messages that read() has returned to the child, in order, without the last one exactly while it has still to be written to j or its write has failed there or before. |
| ChatRoom.MessageReachesAll | 02_Linux_Net_Programming/02_Day11/99_tcp_chatroom/server.c:152-189 | From every reachable state in which child k reads: any message that is not empty and does not begin with "quit" can get to each connection accepted up to the client's own, once, and to no other, and the child reads again. |
| ChatRoom.ServeSteps | 02_Linux_Net_Programming/02_Day11/99_tcp_chatroom/server.c:152-201 | The child's whole loop as steps of the system, for any inputs and any results of the writes: it comes to the end that they decide, and each connection of its own has got all that was said, without the last message from a failed write on. |
| ChatRoom.ServedUnique | 02_Linux_Net_Programming/02_Day11/99_tcp_chatroom/server.c:152-201 | The inputs and the results of the writes admit one outcome only, so that the loop in place and the steps of the system agree. |
| ChatRoom.SaidUpToQuit | 02_Linux_Net_Programming/02_Day11/99_tcp_chatroom/server.c:155-168 | Said are the messages before the first input that is an error, the end, or begins with "quit". |
| ChatRoom.EmptyMessageEnds | 02_Linux_Net_Programming/02_Day11/99_tcp_chatroom/server.c:172-186 | An empty message is not written: the child gives up at its first connection. |
| ChatRoom.GoesOnAccepting | 02_Linux_Net_Programming/02_Day11/99_tcp_chatroom/server.c:108-148 | The parent goes on accepting if and only if accept() was interrupted, or a connection came, the fork succeeded and fewer than 128 had come before; then the new child has the table with the new entry. |
| ChatRoom.SnapshotIsAcceptOrder | 02_Linux_Net_Programming/02_Day11/99_tcp_chatroom/server.c:135-177 | Until its exit purge the child of a client holds exactly the connections accepted up to and including its own, in accept order. |
| ChatRoom.PurgeFindsOwnEntryIff | 02_Linux_Net_Programming/02_Day11/99_tcp_chatroom/server.c:190-199 | The purge removes the own entry if and only if the client was among the first five, and never another entry. |
| ChatRoom.EveryPlaceCanLeave | 02_Linux_Net_Programming/02_Day11/99_tcp_chatroom/server.c:108-201 | For each of the 128 places a state is reachable in which its child has exited, with the own entry still in its table from the sixth place on. |
| ChatRoom.SameOnEveryConnection | 02_Linux_Net_Programming/02_Day11/99_tcp_chatroom/server.c:172-188 | In every reachable state, for connections j <= later <= k: what `later` has received from client k is what j has received from it, or that without its last message. |
| ChatRoom.AcceptedForGood | 02_Linux_Net_Programming/02_Day11/99_tcp_chatroom/server.c:135-137 | Along every run the parent's accepted connections only grow: departed clients stay in the table. |
| ChatRoom.OverrunIsThe129th | 02_Linux_Net_Programming/02_Day11/99_tcp_chatroom/server.c:106-137 | Line 135 stores behind the table only when all 128 entries are taken, and that is reachable. |
| ChatRoom.Process.Accept | 02_Linux_Net_Programming/02_Day11/99_tcp_chatroom/server.c:112-139 | Stores the descriptor in the next entry and changes no other; there is no next entry exactly when the table is full. |
| ChatRoom.Process.Broadcast | 02_Linux_Net_Programming/02_Day11/99_tcp_chatroom/server.c:172-188 | Writes to exactly the non-zero entries in order, up to the first failing one. |
| ChatRoom.Process.Purge | 02_Linux_Net_Programming/02_Day11/99_tcp_chatroom/server.c:190-199 | The in-place loop zeroes exactly the entries below 5 that hold the peer. |
| ChatRoom.Process.Serve | 02_Linux_Net_Programming/02_Day11/99_tcp_chatroom/server.c:152-199 | The child's loop over any inputs and write results: every entry of the table is sent all that was said before the end, without the last message from a failed write on; how it ends is determined by the inputs and the first failing write; the purge happens exactly when the client ended it. |
| ChatRoom.ForkServePurge | 02_Linux_Net_Programming/02_Day11/99_tcp_chatroom/server.c:143-201 | The same for one connection from accept to exit with any inputs, if the table has room: the child's purge changes its own table only; the parent's keeps the connection. |
| ReadWriteLock.WriterExcludes | 01_Linux_System_Programming/09_Day09/03_read_write_lock/read_write_lock.c:19-25 | A writer inside its section excludes all readers and all other writers. |
| ReadWriteLock.BlockedIff | 01_Linux_System_Programming/09_Day09/03_read_write_lock/read_write_lock.c:10-21 | A reader cannot move if and only if it locks while a writer is inside, a writer if and only if it locks while anybody is: readers never keep readers out. |
| ReadWriteLock.AllReadersInside | 01_Linux_System_Programming/09_Day09/03_read_write_lock/read_write_lock.c:8-14 | All readers can be inside together. |
| ReadWriteLock.EveryStepIsWork | 01_Linux_System_Programming/09_Day09/03_read_write_lock/read_write_lock.c:8-26 | The steps of every run are three for each value printed and four for each section completed, and those under way. |
| ReadWriteLock.ReadsAreFresh | 01_Linux_System_Programming/09_Day09/03_read_write_lock/read_write_lock.c:6-27 | Along every run a reader prints exactly when it passes line 11, and it prints NUM as it is then: the number of sections completed now, at least those completed in any earlier state. |
| ReadWriteLock.NumCountsSections | 01_Linux_System_Programming/09_Day09/03_read_write_lock/read_write_lock.c:6-27 | Outside writer sections, and at every reader inside, NUM equals the completed sections; what a reader prints never decreases. |
| ReadWriteLock.NoDeadlock | 01_Linux_System_Programming/09_Day09/03_read_write_lock/read_write_lock.c:8-26 | Some thread can always move. |
| ReadWriteLock.Process.Run | 01_Linux_System_Programming/09_Day09/03_read_write_lock/read_write_lock.c:29-61 | Any schedule, run in place, keeps both claims. |
| MutexCounter.NoIncrementLost | 01_Linux_System_Programming/09_Day09/02_mutex_plus/mutex_add.c:7-69 | Any threads and bounds, increment split into load and store: NUM is the number of stored increments, at most the sum of the bounds, and main prints exactly that sum. |
| MutexCounter.EveryScheduleEnds | 01_Linux_System_Programming/09_Day09/02_mutex_plus/mutex_add.c:7-69 | Every run has at most 5 steps per increment, 2 per thread and 1; a run that cannot go on has exactly that many and has printed the sum. |
| MutexCounter.EndsPrinted | 01_Linux_System_Programming/09_Day09/02_mutex_plus/mutex_add.c:57-69 | The only final states are those after line 69: no deadlock. |
| MutexCounter.BlockedIff | 01_Linux_System_Programming/09_Day09/02_mutex_plus/mutex_add.c:9-63 | A thread cannot move if and only if it has exited, or locks while another is between lock and unlock; main if and only if it has printed or the thread it joins has not exited. |
| MutexCounter.TwoMillion | 01_Linux_System_Programming/09_Day09/02_mutex_plus/mutex_add.c:9-69 | The program as written prints 2000000 and NUM never leaves the 32-bit range. |
| MutexCounter.Process.Run | 01_Linux_System_Programming/09_Day09/02_mutex_plus/mutex_add.c:31-69 | Any schedule run in place that gets past the joins has printed the sum of the bounds. |
| FileCopy.CopyLoop | 01_Linux_System_Programming/05_Day05/99_Homework_file_copy/file_copy.c:36-51 | For every answer of the kernel to every read and write the loop ends, and the files are where the turns lead: the written bytes are over the old ones of the destination. |
| FileCopy.CompleteIff | 01_Linux_System_Programming/05_Day05/99_Homework_file_copy/file_copy.c:36-51 | The written bytes are the source if and only if every answer of the kernel is full: until the reads have got everything, each read gets something and the write after it takes all of that. Otherwise fewer bytes are written. The condition is on the answers alone. |
| FileCopy.TurnsOfACopy | 01_Linux_System_Programming/05_Day05/99_Homework_file_copy/file_copy.c:36-51 | With reads and writes that are never short, a source of n bytes is copied completely in exactly (n + 511) / 512 + 1 turns. |
| FileCopy.EndReachedIff | 01_Linux_System_Programming/05_Day05/99_Homework_file_copy/file_copy.c:36-51 | The reading gets to the end of the source if and only if, before that, no read fails and no write moves nothing: short writes do not stop it. |
| FileCopy.ShortWriteLosesBytes | 01_Linux_System_Programming/05_Day05/99_Homework_file_copy/file_copy.c:45-50 | A short write at a concrete place: of three bytes one arrives, though every other answer is full. |
| FileCopy.StopsWithin | 01_Linux_System_Programming/05_Day05/99_Homework_file_copy/file_copy.c:36-51 | The loop is left after at most one turn more than the source has bytes. |
| FileCopy.CopyChunk | 01_Linux_System_Programming/05_Day05/99_Homework_file_copy/file_copy.c:38-50 | One turn moves a prefix of what was read to the destination's position, or nothing. |
| FileCopy.Copy | 01_Linux_System_Programming/05_Day05/99_Homework_file_copy/file_copy.c:5-60 | Both files opened and three arguments: the destination is the written bytes over its old ones, and exactly with full answers those are the source; then it is the source followed by what the old content had beyond it. Otherwise nothing is touched. Through the labels the source is closed twice after a copy and once if the destination cannot be opened, and 1 is returned in every case. |

## Left out

- Printing formats, sleeps, address parsing and `perror` texts; produced numbers, arriving messages, ready sets and
  the results of recv, send, read and write are free inputs.
- Error returns of semaphore, mutex, condition and rwlock calls, and the destruction of locks and semaphores.
- malloc returning NULL in semaphore_sync_lock.c (unchecked there); in cond.c it is modelled.
- 32-bit width: sizes and counters are unbounded; MutexCounter.TwoMillion bounds the one counter that could matter.
- `DelList`, which frees the manager and leaves the nodes as they are.
- LinkedList.RunAll: ends at an AddNode of a linked node, after which there is no list to speak of; what later calls do
  to such a ring is not modelled.
- LinkedList.Traversal: the callback is a function of its node and of everything but the links, the users' data
  included; a callback that changes links or sizes is not modelled.
- BoundedBuffer.SlotsAndLength: is about the N-slot generalisation, in which line 20 and the reading of `tmp` move into
  the loops; the code as written is OneSlotBuffer.
- OneSlotBuffer.HeapSafeIffReadNull: memory is sequentially consistent; the unlocked read of line 68 is one atomic step.
- SelectServer.HighWaterAlways: assumes that accepted descriptors are new and above sockfd (the server never closes a
  client) and below FD_SETSIZE; whether select() fails on a leftover descriptor that is not open is left to the kernel.
- ChatRoom.DeliveryIsInterleaving: assumes that no connection gets descriptor 0 (which the code takes for an empty
  entry), writes that move the whole message or fail, and no signal that ends a process.
- ChatRoom.OverrunIsThe129th: what the store behind the table does is not defined; the parent is taken to go no further.
- Message contents in both servers: newline stripping, fixed buffers, and the server's own console output.
- FileCopy.CopyLoop: the two descriptors are of different files, and nobody else writes to the source meanwhile.
- The closing of descriptors in all programs but file_copy.c.
- The other servers (epoll, UDP, libevent, web), count_files.c, the FIFO and mmap talkers, the MySQL client and the
  single-call demonstrations: they would add thin wrappers, or rest on code that is not in the repository.
