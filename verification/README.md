# Verification of the peer-to-peer file synchroniser

A Dafny model of the parts of this repository whose correctness is hard to see from reading one function: the stop-state
protocol behind `std::jthread`, flooding and gateway failover in the overlay network, the skip-list priority queue, the
finalizing ring buffer that keeps the message history, the file-system sweeper, the framing of a socket's byte stream, and
the deferral of messages while a node is connecting. `dafny verify dfyconfig.toml` checks everything.

## How the model is laid out

**Stop state** (`thirdparty/stop_token.hpp`). `StopWord` is the arithmetic of the 64-bit word. `StopProtocol` is a step
system with any number of threads, callbacks, tokens and sources: one step is one atomic access, code under the spin lock is
one step between taking and releasing the lock, and since a callback is arbitrary client code, calls nest and a thread is a
stack of frames. `StopInvariant`, `StopSteps` and `StopRuns` hold the invariant and its proof, one small lemma for each kind
of step; `StopTheorems` and `StopOutcome` hold the results over all runs, and `StopCalls` says what each call answers, in
which order callbacks run, and that nothing deadlocks. `CallbackList` is the intrusive doubly linked list
on the heap: each critical section that the step system treats as an operation on a sequence is proved there against real
pointers. What the model asks of clients is what the C++ types give: a token, source or callback is used only while it
exists, and a callback object is built once and destroyed once.

**Overlay network** (`src/peer_manager.hpp`, `src/message_manager.cpp`, `src/peer.cpp`). `Routing` and `PeerManager` are one
node. `PeerTree` and `Flood` are a message flooding a tree of nodes under every interleaving of packet deliveries: a packet
covers the part of the tree beyond its link, and delivered nodes plus the covers of the packets in flight always make up the
tree. `Unicast` says exactly who processes a message for one node. `Failover` is a network that changes: joins, deaths, failovers and disconnect notices in every order. `Recovery` says
exactly which deaths leave the survivors one tree, and `FailoverTree` what follows for networks grown by joins and for
broadcasts.

**Skip list** (`thirdparty/lockfree_skiplist_priority_queue.h`). `SkipListNodes` holds the common types,
`MarkableReference` the linearizability of reads and compare-and-swap on a (next, marked) pair, `SkipList` the list run by one
thread as a class whose methods refine a sorted set, `SkipListSteps` and `SkipListRuns` the list under any interleaving of
inserts, removes and removeMins. Three modules say exactly where the concurrent list is not what it should be:
`SkipListSet` which steps lose a node from the set it holds, and that without removeMin none does; `SkipListTheft` what a
removeMin takes out; `SkipListScan` what it claims; `SkipListLevels` which steps link nodes of equal priority.
`SkipListLoss`, `SkipListMiss` and `SkipListTwins` are runs in which these things happen. `SkipListCalls` says what each
insert and remove has done when it returns, and that no call is ever stuck.

**Ring buffer, sweeper, framing, message queue.** `RingBuffer`, `Sweeper`, `Framing` and `MessageQueue` are classes with
loops in the source's shape, each proved against a specification on values whose whole-run properties are lemmas. In
`MessageQueue` a `World` says what a handler finds outside the queue, and messages that a handler sends to the node itself
enter its queue.

## What the code does that its comments do not say

- `circular_buffer_base` (`thirdparty/circular_buffer.hpp`) stores as many elements as the array has slots; iterating an
  empty buffer visits every slot, and so `clear`, and the destructor, finalize slots that hold no element.
- `at` lets the position just past the last element through.
- When a token is dropped and no source is left, the stop state is freed whatever other references exist.
- A modification seen by a fast sweep is reported again by the next total sweep if the main map's time is older too.
- A file that vanishes while a sweep looks at it ends the scan, and the tracked files after it are reported as deleted
  and dropped although they exist.
- A disconnect message queued while a node is connecting is put back ahead of the initial files, and the node never
  finishes connecting, whatever arrives. A failover alone does this: a node that notices a lost peer queues a disconnect for
  itself, and the connect of its new gateway overtakes it. Neither does a node finish that joins a network without files,
  nor one with fewer initial files than their announced total, nor one that has counted as many already.
- A concurrent insert into the skip list can be lost. This needs a removeMin: without one, no insert is lost.
- A removeMin never takes out the node it claimed, because its search skips claimed nodes. If the search finds another node
  of the same priority, even one that nobody has claimed, it takes out that one.
- A removeMin can miss a node that is queued all through its scan, and even find the queue empty: another thread may unlink,
  from an unlinked node on which the scan stands, a claimed node behind which that node has come to stand.
- A higher level of the skip list can link two nodes of equal priority, the newer before the older: this is what an insert
  does whose search met an old node of its priority on that level, but not at the bottom.
- The loop that forgets a departed backup skips the element after each one it erases; it works because no host is a backup
  twice.
- A message for one node is processed by every node that floods it, and only the node next to the destination merely passes
  it on.
- Backup lists are not kept up to date after a failover, so several deaths can isolate a live node. A death is survived
  exactly when every client of the dead node has a surviving backup, or all but one if it was the root.

## Model

| member | source | states |
|---|---|---|
| `StopWord.FieldsReadBack` | thirdparty/stop_token.hpp:292-302 | the packed word fits 64 bits and every field can be read back from it, so no field carries into another while counts stay below 2^31 |
| `StopWord.UpdatesActOnFields` | thirdparty/stop_token.hpp:239-290 | each or and each subtraction on the word, including the wrapped difference 2 - 4, changes exactly the intended fields |
| `StopWord.CountsActOnFields` | thirdparty/stop_token.hpp:50-72 | adding or dropping a token or source reference changes exactly that count |
| `StopWord.FreeTests` | thirdparty/stop_token.hpp:54-72 | when each of the three free tests fires, in terms of the counts |
| `StopWord.TokenDropIsExactIff` | thirdparty/stop_token.hpp:54-60 | the token drop frees exactly at the last reference if and only if a source is left or it is the last reference |
| `StopTheorems.RunKeeps` | thirdparty/stop_token.hpp:74-222 | the protocol invariant holds in every state of every run of any number of threads |
| `StopTheorems.WordPacksFields` | thirdparty/stop_token.hpp:292-302 | in every reachable state the word is stop + 2 locked + 4 (tokens + attached callbacks) + 2^33 sources |
| `StopTheorems.MutualExclusion` | thirdparty/stop_token.hpp:258-274 | at most one call holds the lock, and the lock bit is set exactly while one does |
| `StopTheorems.NoTouchAfterDestruction` | thirdparty/stop_token.hpp:85-127 | no step of any thread touches a callback object that has been destroyed |
| `StopTheorems.DestroyedAlone` | thirdparty/stop_token.hpp:182-222 | when an object is destroyed no other thread deals with it, and a signalling call below that is running it has been told |
| `StopTheorems.GoneForever` | thirdparty/stop_token.hpp:182-222 | a destroyed callback stays destroyed for the rest of the run |
| `StopCalls.ClientSteps` | thirdparty/stop_token.hpp:292-302 | a call starts with nothing read and changes neither the word, the list nor a reference; copies and drops change just the one count |
| `StopCalls.RequestStopAnswers` | thirdparty/stop_token.hpp:241-255 | a request_stop returns false only when a stop has been requested, and then changes nothing; otherwise it wins in one step, being the first, which sets the stop flag and takes the lock |
| `StopCalls.WinnerAnswers` | thirdparty/stop_token.hpp:74-132 | the request_stop that won returns only when the list is empty, and gives the lock back |
| `StopCalls.RunsOnlyAfterStop` | thirdparty/stop_token.hpp:142-162 | in every reachable state a callback that was run, by whomever, was run after a stop had been requested |
| `StopCalls.RegistrationAnswers` | thirdparty/stop_token.hpp:142-180 | a registration runs its callback only after a stop, takes the lock only with a source and no stop, and returns in one of three ways: first in the list, unrun, with a reference of its own or its token's; run once by this thread after a stop; or untouched, as there was neither stop nor source |
| `StopCalls.DestructorAnswers` | thirdparty/stop_token.hpp:182-222 | a destructor gives up one reference, and returns when the callback was never run and is out of the list, or its run is over, or it is this thread that runs it |
| `StopCalls.RunsNewestFirst` | thirdparty/stop_token.hpp:85-94 | of two callbacks in the list the winner takes the one registered earlier only when the later one is no longer there |
| `StopCalls.LastStep` | thirdparty/stop_token.hpp:118-124 | the winner that took the last callback never takes the lock again, and one that left others there does |
| `StopCalls.StuckIffPolling` | thirdparty/stop_token.hpp:241-274 | in every reachable state a call can take a step that changes something, unless it has just read that the lock is taken, or waits for another thread to finish its callback |
| `StopCalls.DeadlockFree` | thirdparty/stop_token.hpp:74-222 | in every reachable state with calls in progress and no thread in client code, some call can take a step that changes something |
| `StopOutcome.EveryCallbackOnce` | thirdparty/stop_token.hpp:85-127 | a callback runs at most once; after the winner returned every accepted callback was unlinked unrun or run exactly once by the winner; one that saw the stop ran once inline |
| `StopOutcome.InlinedNeverListed` | thirdparty/stop_token.hpp:142-162 | a registration that saw the stop or was refused was never in the list |
| `StopOutcome.RefusedMissesNothing` | thirdparty/stop_token.hpp:157-159 | after a refusal for lack of sources no stop is ever requested |
| `StopOutcome.ListOnlyShrinks` | thirdparty/stop_token.hpp:85-132 | once the stop flag is set the list only loses elements |
| `StopOutcome.DrainTerminates` | thirdparty/stop_token.hpp:85-132 | every step of the winner but polling lowers a measure of list and position, polling leaves it as it is, and no step of another thread raises it |
| `StopOutcome.DrainBound` | thirdparty/stop_token.hpp:85-132 | over any stretch of any run before the winner returns, its steps other than polling number at most 14 for each callback in the list, plus 13 |
| `StopOutcome.EmptyForEver` | thirdparty/stop_token.hpp:118-124 | after the lock-free early return the list is empty for the rest of the run |
| `StopOutcome.StepFrees` | thirdparty/stop_token.hpp:54-72 | in any reachable state a step frees the stop state exactly when it drops the last reference, or drops a token reference with no source left |
| `StopOutcome.PrematureFreeIff` | thirdparty/stop_token.hpp:54-60 | a step frees a stop state still in use if and only if it drops a token reference other than the last while no source is left |
| `StopOutcome.FreedExactlyOnce` | thirdparty/stop_token.hpp:54-72 | in runs without such drops the state has been freed exactly once when nothing refers to it, and never before |
| `StopOutcome.FreedByLastSource` | thirdparty/stop_token.hpp:66-72 | if a source outlives all tokens and attached callbacks, the last source drop frees the state, once |
| `StopOutcome.TokensWithoutSource` | thirdparty/stop_token.hpp:54-60 | a run in which two tokens outlive the only source frees the state twice |
| `CallbackList.List.Push` | thirdparty/stop_token.hpp:164-170 | the registration puts the node in front and keeps every link and back link |
| `CallbackList.List.PopFront` | thirdparty/stop_token.hpp:86-94 | the dequeue takes the first node, marks it as unlisted and reports whether more are left |
| `CallbackList.List.Unlink` | thirdparty/stop_token.hpp:185-191 | the deregistration takes out exactly that node if it is listed, and does nothing otherwise |
| `PeerManager.PeerManager.RouteData` | src/peer_manager.hpp:133-170 | a message for this node or the loopback address is processed here and not sent; one for a peer is sent to it once and not processed here; any other is sent once to each peer but the source, and processed here unless this node or the loopback address is the source |
| `PeerManager.PeerManager.Accept` | src/peer_manager.hpp:62-80 | a newcomer's backups are the peers accepted so far, and it becomes the last peer |
| `PeerManager.PeerManager.ProcessLinkLost` | src/message_manager.cpp:340-388 | the lost peer is dropped, and a lost gateway is replaced by the first backup that can be reached, which becomes the first peer |
| `PeerManager.LoseLinkMeans` | src/message_manager.cpp:340-374 | the lost peer leaves the list; a new gateway is the first backup in order that can be reached, stands first among the peers and is no longer a backup; all others keep their order |
| `PeerManager.PeerManager.ProcessDisconnect` | src/message_manager.cpp:396-402 | although the loop skips the element after each one it erases, the departed host is left among the backups if and only if it stood there twice in a row, and every other backup stays |
| `PeerTree.LinkSplits` | src/peer_manager.hpp:133-170 | removing the link between two neighbours splits the nodes of a tree into those beyond either end |
| `PeerTree.TreeIsNet` | src/peer_manager.hpp:62-80 | nodes whose peers are their parent and children form a network with unique next hops |
| `Flood.CoverSplits` | src/peer_manager.hpp:138-142 | what lies beyond a link is the far node together with what lies beyond each of its other links |
| `Flood.BroadcastExactlyOnce` | src/peer_manager.hpp:133-153 | on any tree and under any interleaving a broadcast, or a message for a host that is not there, is processed at most once at every node, exactly once when no packet is left, over n - 1 transmissions, and packets run out |
| `Flood.UnicastExactlyOnce` | src/peer_manager.hpp:150-169 | on any tree and under any interleaving a message for d is processed at d exactly once, no node behind d receives it, and packets run out |
| `Unicast.UnicastProcessors` | src/peer_manager.hpp:133-170 | on any tree and under any interleaving a message from o to d is processed by d and by the nodes on o's side of the last node before d, and by nobody else, once each, over as many transmissions |
| `Unicast.LinkedExactly` | src/peer_manager.hpp:158-164 | a message for a neighbour is transmitted once and processed there and nowhere else |
| `Unicast.LocalOnly` | src/peer_manager.hpp:154-156 | a message for the node itself or for either loopback address is processed there, once, and not transmitted, even if the sender asked not to be included |
| `Failover.RunKeeps` | src/message_manager.cpp:340-402 | over every run of joins, deaths, failovers with any connection failures and notices, links, backups and ranks stay consistent |
| `Failover.NoGatewayCycle` | src/message_manager.cpp:355-374 | gateway pointers among live nodes never form a cycle |
| `Failover.BackupsAreNearby` | src/peer_manager.hpp:62-80 | a live backup is the gateway's gateway or a client the gateway accepted earlier, and live peers are exactly gateway and clients |
| `Failover.NoticeForgets` | src/message_manager.cpp:396-402 | in every reachable state a disconnect notice removes the dead host, and no other, from the backups of the node that receives it |
| `Failover.StaleBackupsIsolate` | src/message_manager.cpp:355-374 | a run of two deaths that isolates a live node whose backups are stale |
| `Recovery.OneTreeIff` | src/message_manager.cpp:355-374 | a network in which all deaths have been noticed is one tree if and only if exactly one live node has no gateway |
| `Recovery.RecoveredIff` | src/message_manager.cpp:355-374 | from every reachable tree network, the death of x and its recovery leave the survivors one tree if and only if every client of x has a surviving backup, or, if x was the root, all clients but exactly one; each client moves to its first surviving backup |
| `Recovery.ManyDeathsIff` | src/message_manager.cpp:340-388 | over any number of deaths and recoveries with joins and notices in between, the network is one tree after every one of them if and only if each death could be survived by the tree it met |
| `FailoverTree.JoinsGrow` | src/peer_manager.hpp:62-80 | in a network grown by joins each node's first peer is its gateway, and its backups are exactly the peers its gateway had before it |
| `FailoverTree.SurvivorsAreOneTree` | src/message_manager.cpp:355-374 | in a network grown by joins every single death is survived: the orphans move to the dead node's gateway, or to its first client if it was the root |
| `FailoverTree.BroadcastAfterRecovery` | src/message_manager.cpp:355-374 | from every reachable tree network, after a death that can be survived and its recovery, a broadcast is again processed exactly once by every survivor |
| `MarkableReference.StepRefines` | thirdparty/lockfree_skiplist_priority_queue.h:87-128 | each step of load, compare and exchange is matched by steps of the atomic operations |
| `MarkableReference.Linearizable` | thirdparty/lockfree_skiplist_priority_queue.h:87-128 | every run of threads that use only CAS and reads is explained by a run in which each call takes effect at one point, with the same results |
| `SkipList.SkipList.constructor` | thirdparty/lockfree_skiplist_priority_queue.h:175-188 | the empty list is well formed at every level and holds no priority |
| `SkipList.SkipList.SearchLevel` | thirdparty/lockfree_skiplist_priority_queue.h:210-235 | one level of the search ends in the gap around the priority, with the dead nodes unlinked and everything else in place; its compare-and-swap cannot fail |
| `SkipList.SkipList.FindNode` | thirdparty/lockfree_skiplist_priority_queue.h:196-239 | preds and succs enclose the priority at every level, dead nodes are off the list, and the result says whether the priority is queued |
| `SkipList.SkipList.Insert` | thirdparty/lockfree_skiplist_priority_queue.h:245-289 | for any level drawn, the priority is added exactly if it was not queued, and every level stays well formed |
| `SkipList.SkipList.Remove` | thirdparty/lockfree_skiplist_priority_queue.h:350-393 | the priority is taken out, the answer is whether it was queued alive, and every level stays well formed |
| `SkipList.SkipList.Mark` | thirdparty/lockfree_skiplist_priority_queue.h:364-383 | all links of the node are marked and no link leads elsewhere |
| `SkipList.SkipList.FindMin` | thirdparty/lockfree_skiplist_priority_queue.h:296-313 | the undeleted node of least priority, wherever deleted flags are set, or none if all are deleted |
| `SkipList.SkipList.FindAndMarkMin` | thirdparty/lockfree_skiplist_priority_queue.h:320-344 | the least node is flagged, and the list is then one that the search cleans of exactly this node |
| `SkipList.SkipList.RemoveMin` | thirdparty/lockfree_skiplist_priority_queue.h:400-413 | the least priority is removed and returned, or INT_MIN if the queue is empty |
| `SkipList.LevelIsSublist` | thirdparty/lockfree_skiplist_priority_queue.h:196-289 | each level is strictly sorted and a sublist of the level below |
| `SkipListSteps.AdvanceKeeps` | thirdparty/lockfree_skiplist_priority_queue.h:196-393 | every step of every call keeps all links in order and the positions of the call valid |
| `SkipListRuns.RunKeeps` | thirdparty/lockfree_skiplist_priority_queue.h:196-413 | the invariant of the concurrent list holds in every state of every run |
| `SkipListRuns.LevelsSorted` | thirdparty/lockfree_skiplist_priority_queue.h:196-289 | in every reachable state each level's chain from the head ends at the tail without repetition, and the bottom chain is strictly increasing |
| `SkipListRuns.ScanBound` | thirdparty/lockfree_skiplist_priority_queue.h:320-344 | under any interference a scan for the minimum makes at most as many hops as it gains in priority, fewer than 2^32 |
| `SkipListRuns.SearchClimbs` | thirdparty/lockfree_skiplist_priority_queue.h:224-228 | under any interference each node findNode steps over comes strictly later in the order of its level |
| `SkipListRuns.ClaimedOnce` | thirdparty/lockfree_skiplist_priority_queue.h:327-331 | no node is claimed by two calls of findAndMarkMin |
| `SkipListRuns.RemovedOnce` | thirdparty/lockfree_skiplist_priority_queue.h:374-388 | no node is removed by two calls that return true, and its bottom link never changes again |
| `SkipListCalls.NeverBlocked` | thirdparty/lockfree_skiplist_priority_queue.h:196-413 | in every reachable state every call in progress can take its next step |
| `SkipListCalls.InsertAnswers` | thirdparty/lockfree_skiplist_priority_queue.h:245-289 | an insert returns either with nothing published, its search having ended at a node of its priority, or with exactly one node published, of its priority and level, and linked at every level up to it |
| `SkipListCalls.RemoveAnswers` | thirdparty/lockfree_skiplist_priority_queue.h:350-393 | a remove returns with nothing taken, as no node of its priority was found or the one found has been marked by another, or with exactly one node taken, which it had found |
| `SkipListCalls.MarksTopDown` | thirdparty/lockfree_skiplist_priority_queue.h:364-383 | when the bottom link of a node is marked all its other links are |
| `SkipListSet.InsertsKept` | thirdparty/lockfree_skiplist_priority_queue.h:196-393 | in every run without removeMin nothing is claimed, and an inserted node stays alive and on the bottom chain until a remove marks it |
| `SkipListSet.LossyIff` | thirdparty/lockfree_skiplist_priority_queue.h:210-261 | in every reachable state a step takes a queued node off the bottom chain, or publishes one that is not on it, if and only if it is a snip past a node behind which a queued node has come to stand, or a publication behind a node that is off the chain |
| `SkipListSet.SnipLosesBehindClaimed` | thirdparty/lockfree_skiplist_priority_queue.h:213-223 | a snip that loses a node goes past a claimed node whose link has moved since it was read |
| `SkipListLoss.InsertCanBeLost` | thirdparty/lockfree_skiplist_priority_queue.h:213-223 | a run without any call of remove after which an inserted, undeleted node is not on the bottom chain |
| `SkipListTheft.NeverItsOwn` | thirdparty/lockfree_skiplist_priority_queue.h:400-407 | in every run, between its claim and its return a removeMin never marks the node it claimed, only another one of the same priority |
| `SkipListTheft.TheftIff` | thirdparty/lockfree_skiplist_priority_queue.h:350-407 | in every run a removeMin takes out a given unclaimed node if and only if its search ends with that node, of the priority it claimed, and it wins the bottom mark before somebody claims the node; it takes out at most one |
| `SkipListLoss.InsertCanBeStolen` | thirdparty/lockfree_skiplist_priority_queue.h:400-407 | a run without any call of remove in which removeMin claims one node and takes out another of the same priority that nobody claimed |
| `SkipListScan.ClaimsSmallest` | thirdparty/lockfree_skiplist_priority_queue.h:320-344 | a removeMin claims a node of priority at most that of every node that is queued all through its scan, reachable when it began, and not cut off by another thread, and does not find the queue empty if there is one |
| `SkipListScan.CutsIff` | thirdparty/lockfree_skiplist_priority_queue.h:213-223 | in every reachable state a step cuts a node off a scan if and only if it is a snip, from a node on the way there, whose new link does not lead there |
| `SkipListScan.CutsBehindClaimed` | thirdparty/lockfree_skiplist_priority_queue.h:213-223 | if the node cut off is queued, the one unlinked was claimed, and its link has moved since it was read |
| `SkipListMiss.MissesQueued` | thirdparty/lockfree_skiplist_priority_queue.h:320-344 | a run in which a removeMin finds the queue empty although a node is queued and reachable from before its scan until after it |
| `SkipListLevels.TwinIff` | thirdparty/lockfree_skiplist_priority_queue.h:245-286 | in every reachable state a step makes a link between nodes of equal priority if and only if it publishes a node whose search ended, on some level from 1 to the node's own, at a node of its priority |
| `SkipListLevels.TwinsAreOlder` | thirdparty/lockfree_skiplist_priority_queue.h:245-286 | in every reachable state a link between nodes of equal priority is above the bottom level and leads to the older node |
| `SkipListTwins.EqualPrioritiesLinked` | thirdparty/lockfree_skiplist_priority_queue.h:245-286 | a run of inserts and one remove after which level 1 links two nodes of equal priority, the newer before the older |
| `RingBuffer.ApplyBalances` | thirdparty/circular_buffer.hpp:324-397 | each operation only moves elements to the finalized, adds what it pushes, and finalizes the slots of an empty buffer that is cleared |
| `RingBuffer.ConservedIff` | thirdparty/circular_buffer.hpp:319-397 | over any run the pushed elements are exactly those held and those finalized, if and only if no clear met an empty buffer |
| `RingBuffer.HistoryKeepsLast` | thirdparty/circular_buffer.hpp:382-388 | pushed at the back, the buffer holds the last elements up to its capacity and has finalized the others in order |
| `RingBuffer.EndsMirror` | thirdparty/circular_buffer.hpp:347-397 | an operation at one end of the reversed buffer gives the reversed result of the operation at the other end, and finalizes the same element |
| `RingBuffer.PushThenPop` | thirdparty/circular_buffer.hpp:347-397 | with room, what is pushed at an end is what is popped there next |
| `RingBuffer.ClearPopsAll` | thirdparty/circular_buffer.hpp:319-329 | clearing a buffer that is not empty is popping all its elements from the front |
| `RingBuffer.FinalizingRing.PushBack` | thirdparty/circular_buffer.hpp:382-388 | appends, and when full finalizes and drops the first element |
| `RingBuffer.FinalizingRing.PushFront` | thirdparty/circular_buffer.hpp:347-357 | prepends, and when full finalizes and drops the last element |
| `RingBuffer.FinalizingRing.PopFront` | thirdparty/circular_buffer.hpp:361-367 | finalizes and drops the first element, if any |
| `RingBuffer.FinalizingRing.PopBack` | thirdparty/circular_buffer.hpp:392-397 | finalizes and drops the last element, if any |
| `RingBuffer.FinalizingRing.Iterate` | thirdparty/circular_buffer.hpp:57-94 | iteration visits exactly the contents in order for every size from 1 to the capacity, and every slot of an empty buffer |
| `RingBuffer.FinalizingRing.Clear` | thirdparty/circular_buffer.hpp:319-329 | finalizes what iteration visits and empties the buffer |
| `RingBuffer.FinalizingRing.At` | thirdparty/circular_buffer.hpp:227-236 | refuses exactly the positions beyond the size, and what the admitted ones read |
| `Sweeper.SweepWalks` | src/file_sweep.hpp:57-148 | the events of a sweep lead each path, in the automaton of file events, from the status of the old maps to that of the new maps |
| `Sweeper.LocksAlternate` | src/file_sweep.hpp:83-133 | in every accepted history locks and unlocks alternate, deletion closing a lock, and so do creations and deletions |
| `Sweeper.TotalSweepRestores` | src/file_sweep.hpp:64-105 | whatever the maps held, a total sweep leaves a path tracked exactly if it was found, with its time, and reports exactly the difference |
| `Sweeper.UnlockedWhenCold` | src/file_sweep.hpp:127-145 | a path found 10.001 seconds old or older leaves the fast map, with an unlock exactly if it was locked or just reported; a younger one is not unlocked, and is locked exactly if it was or has just been reported |
| `Sweeper.FastSweepMeans` | src/file_sweep.hpp:64-145 | a fast sweep reports a modification exactly if the time found is newer than the one it knew, remembers the time found, leaves the main map alone, and deletes a path it does not find from both maps |
| `Sweeper.TotalSweepFast` | src/file_sweep.hpp:79-105 | a total sweep renews the stamp in the fast map exactly for the paths it reports |
| `Sweeper.ReportedTwiceIff` | src/file_sweep.hpp:64-104 | a modification that a fast sweep reports is reported again by the next total sweep, whatever fast sweeps come in between, if and only if the time it finds is newer than the main map's |
| `Sweeper.DeletedWronglyIff` | src/file_sweep.hpp:105-125 | a total sweep reports no enumerated file that still exists as deleted if and only if no existing file after the missing one was tracked |
| `Sweeper.FastDeletedWronglyIff` | src/file_sweep.hpp:105-145 | a fast sweep reports no existing file as deleted if and only if no file after the missing one exists; every file after it is reported and leaves both maps |
| `Sweeper.FilesystemSweeper.Scan` | src/file_sweep.hpp:76-111 | paths are scanned in order up to the first without a modification time, a missing path ends the scan quietly and another error is passed on |
| `Sweeper.FilesystemSweeper.Settle` | src/file_sweep.hpp:116-145 | paths not seen leave both maps with a deletion, and cold ones leave the fast map with an unlock |
| `Sweeper.FilesystemSweeper.Sweep` | src/file_sweep.hpp:57-148 | over every run of sweeps each path's history stays in the event language and fast paths stay tracked; a total sweep that finds all files leaves the main map equal to them |
| `Sweeper.FilesystemSweeper.TotalSweepEveryN` | src/file_sweep.hpp:52-54 | the sweep is total exactly when the counter is a multiple of n, and does to every path what such a sweep does |
| `Framing.BytesRoundTrip` | src/peer.cpp:37-39 | a length written in eight bytes is read back |
| `Framing.AllDelivered` | src/peer.hpp:103-108 | all bytes of the encoding of a list of payloads deliver all the payloads |
| `Framing.Listener.ThreadFunction` | src/peer.cpp:11-86 | for any split into receives, with empty polls and errors in between, the messages handed on are exactly the payloads complete in the bytes read; every read stays in the buffer and makes progress; the loss of the link is reported exactly when it happens |
| `MessageQueue.NothingLost` | src/message_manager.hpp:78-158 | processing a message neither loses nor duplicates any, and adds exactly the messages its handler sends to this node: the disconnect after a lost peer, the unlocks after a disconnect, initial files and locks without a link to the node that asked, and the copy a resend brings back |
| `MessageQueue.DisconnectUnlocks` | src/message_manager.cpp:404-412 | a disconnect that takes effect leaves exactly one unlock in the queue for each managed file |
| `MessageQueue.SyncRequestSends` | src/message_manager.cpp:280-312 | a sync request that takes effect without a link to the node that asked leaves, for each file in order, the file with the number of all, followed by a lock exactly if it is locked, and nothing else |
| `MessageQueue.OthersSend` | src/message_manager.cpp:340-388 | a lost peer leaves the disconnect of that host in the queue, a resend the copy that reaches this node, and all other messages nothing |
| `MessageQueue.CountersMove` | src/message_manager.cpp:262-320 | a message that takes effect is handled, and only a connect and an initial file change the counters, which they reset and count up |
| `MessageQueue.ConnectingDefers` | src/message_manager.hpp:91-157 | while connecting, exactly locks, unlocks, deletions, changes, disconnects and sync requests have no effect but to go back with priorities 5, 5, 6, 6, 3 and 5 |
| `MessageQueue.ArrivalOrder` | src/message_manager.hpp:185-270 | the priority with which each kind of message enters the queue |
| `MessageQueue.LocksFirst` | src/message_manager.hpp:91-157 | a lock that was put back comes out before any deletion or change that was put back |
| `MessageQueue.DrainStep` | src/message_manager.hpp:78-158 | each pop of a draining node lowers the number of entries with priority at most 4, takes no gated message into effect, and finishes or goes on draining |
| `MessageQueue.DrainFinishes` | src/message_manager.cpp:262-277 | a ready node finishes its connection in any order of pops, within as many as there are entries with priority at most 4, with no early effect and no loss |
| `MessageQueue.FinishesIff` | src/message_manager.cpp:262-277 | a connecting node, in whose queue no connect or resend request waits and initial files name one total, finishes in every run of enough pops if and only if no disconnect or lost link is queued and the initial files queued reach, but have not yet exceeded, the total |
| `MessageQueue.DisconnectStalls` | src/message_manager.hpp:138-142 | a disconnect of priority at most 3 in the queue of a connecting node keeps it from ever finishing, whatever else is queued, popped or arrives |
| `MessageQueue.ConnectStallsIff` | src/message_manager.cpp:314-388 | processing a connect stalls the node for good if and only if a disconnect is queued with a priority ahead of the initial files |
| `MessageQueue.FailoverStalls` | src/message_manager.cpp:314-388 | in any run, a node that handles the loss of a peer and later pops a connect, before any disconnect has taken effect, never finishes connecting |
| `MessageQueue.MiscountNeverFinishes` | src/message_manager.cpp:262-277 | without arrivals a node never finishes connecting if no initial file is queued, too few are, or as many as announced have been counted |
| `MessageQueue.MessageManager.ProcessNextMessage` | src/message_manager.hpp:78-158 | some entry of minimal priority is popped and processed as Process says; a disconnect that takes effect leaves one unlock for each file |
| `MessageQueue.MessageManager.ProcessMessage` | src/message_manager.cpp:64-402 | which messages wait for the end of the connection, and what each does to the counters and puts into the node's own queue: the unlocks of a disconnect and the files and locks of a sync request one by one |

## Left out

- Memory orders: all atomic accesses are taken to be sequentially consistent. Spin loops are proved safe, not live, and a
  spurious failure of a weak compare-and-swap counts as another read.
- Thread ids are not reused while a stop state lives, token and source counts stay below 2^31, and callbacks do not throw.
- Allocation failure, and the memory the lock-free structures never free.
- StopTheorems.MutualExclusion: states that list surgery never overlaps; that it is therefore one step of the protocol is how `StopProtocol` is written, with `CallbackList` proving each piece of surgery on the heap.
- SkipList.SkipList.Insert: nodes are indices into an arena held in maps, so pointer aliasing is not modelled; values stored with the priorities are left out; priorities lie strictly between INT_MIN and INT_MAX, which are the sentinels' own.
- SkipList.SkipList.FindAndMarkMin: calls FindMin where the source repeats its loop, since without other threads the exchange always succeeds.
- SkipListRuns.LevelsSorted: does not say that the concurrent list is a linearizable set; SkipListLoss shows that it is not, and SkipListSet which steps are to blame.
- MarkableReference.Linearizable: `set`, which loads and stores without a compare, is used only before a node is shared and is not part of it.
- RingBuffer.FinalizingRing.PushBack: a finalizer's change of the element it is given is not modelled, `emplace_front` and `emplace_back` are the same operations and the iterator `emplace_back` returns is left out, and so are the container constructors and `back` of an empty buffer.
- Sweeper.FilesystemSweeper.Sweep: enumerated paths are duplicate-free, callbacks return, a path is asked for its time once a sweep, and the counter does not wrap; an error other than a missing file ends the program, so no sweep follows one.
- Framing.Listener.ThreadFunction: payloads are at least eight bytes long, as every serialized message is, because a shorter one would leave the buffer too small for the next header; both ends have the same byte order; the request to stop is the end of the list of turns.
- MessageQueue.MessageManager.ProcessNextMessage: any entry of minimal priority may be popped, as the comparison of equal priorities treats enumeration values as bit flags; the history is kept whole here and its bound is module RingBuffer.
- MessageQueue.DrainFinishes: no message arrives while the queue drains.
- MessageQueue.FinishesIff: leaves out queues that hold a connect, which restarts the count, or a resend request, which can bring back any old message.
- MessageQueue.NothingLost: what a handler finds outside the queue is a parameter, an arbitrary `World`; so are the choice of the message a resend request names and whether the copy comes back.
- Recovery.RecoveredIff: connections to live backups succeed during the recovery, and no node joins or dies until every neighbour has noticed; a client whose attempts all fail stays isolated, as Failover.RunKeeps allows.
- Failover.RunKeeps: addresses are unique and valid, links symmetric, a connection attempt and the acceptance with its connect message are one step, ports are ignored, and a node whose last backup failed stays without a gateway.
- PeerManager.PeerManager.RouteData: sockets, locks and retries are left out; sending appends to a history.
- Message hashes and the detection of lost messages, serialization, file contents, lock files and permissions, the command line, signals and the ZeroTier node.
- `thirdparty/span.hpp`, `src/monitor.hpp`, `src/ztnode.hpp` and `thirdparty/jthread.hpp`: thin wrappers; jthread appears only as the client discipline of StopOutcome.FreedByLastSource.
