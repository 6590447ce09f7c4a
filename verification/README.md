# Verified models of the hard parts of a C++ reference repository

The repository is a collection of small C++ components.  This project models the ones that are hard to get
right and proves what they are for, for all inputs, all runs and any number of threads:

- **Concurrent protocols as step machines.**  The lock-free stack with split reference counts
  (`LockFreeStack.dfy`), the queue with separate head and tail locks (`TwoLockQueue.dfy`), the closeable
  condition-variable queue with its workers (`CloseableQueue.dfy`) and the chat server's strands
  (`ChatServer.dfy`); each has a second file `…Runs.dfy` with what follows for every run.  A state holds the
  shared memory and a program counter with the local variables of every thread; a schedule is an arbitrary
  sequence of steps.  Every access to shared memory, every lock operation and every `delete` is one
  sequentially consistent step.  The main results speak about every schedule.
- **Structures rewired in place.**  The treap (`Treap.dfy`), the two tree-to-list conversions (`TreeToList.dfy`),
  the list around a sentinel (`SentinelList.dfy`) and the growing vector (`GrowingVector.dfy`) are classes and
  methods over the heap with `modifies` clauses, each proved against a specification function or a declarative
  predicate.
- **Algorithms.**  Dijkstra with backward marking (`ShortestEdges.dfy`), the priority flood (`RainWater.dfy`),
  0-1 breadth-first search (`MinObstacles.dfy`), pattern search (`PatternSearch.dfy`), run deletion
  (`RunDeletion.dfy`), distinct subsequences (`Subsequences.dfy`), the binary indexed tree (`CountSmaller.dfy`),
  the sparse table (`RangeMinimum.dfy`), cycle detection (`CycleDetection.dfy`) and two interval schedulers
  (`JobScheduling.dfy`) keep their loops and are proved against definitions that
  mention neither queue, stack nor table: shortest walks, least escape levels, all occurrences, the normal form
  of deletion, the set of subsequences, the best selection.

`Histories.dfy` holds what the three linearizable containers share: a log of calls, linearization points and
returns, and its replay on a sequential container.  `WireLines.dfy` says what reading and trimming a line of the
chat server leave of it.  `PriorityQueue.dfy` and `Sorting.dfy` hold the contracts of
the standard priority queue and sort.

Some components of a state (`log`, `chain`, `phase`, `pushed`, `accepted`, …) are history variables: they record
what happened, and no branch of a step depends on them.

## Findings

- The notice about an oversized line is never delivered: `on_read` posts it and then stops the session, so the
  posted handler finds the session stopped and drops it (`ChatServerRuns.OversizeNoticeIsLost`).  One client that
  connects and sends a line of more than 4096 bytes is enough: the notice is posted, and however the run goes on the
  client's session accepts nothing but the welcome (`ChatServerRuns.OversizedClientIsNotTold`).
- `remove_k_chars` with a k below 1 behaves exactly as with k = 2 (`RunDeletion.RemoveKChars`).
- Both job schedulers are right for jobs of length zero as well: the order of ties in the sort matters for
  that (`JobScheduling.ApartIsLater`, `JobScheduling.ApartIsEarlier`).
- `find_shortese_edges` takes distances from 2^30 on for unreachable: a single edge of that weight is the shortest
  path and is not reported (`ShortestEdges.HeavyEdgeIsMissed`), and an edge of a shortest path is missed exactly when
  the shortest distance is that long (`ShortestEdges.MissedOnlyWhenFar`).  This is about mathematical integers.  When
  all weights are below 2^30, every sum the code forms fits in its 32-bit `int` (the precondition of
  `ShortestEdges.Sum`, proved at both additions), so that it is about the code's integers as well.  With heavier
  weights a sum may overflow although the distance is small: from the edges (0, 1, 1), (1, 2, 2147483647) and
  (0, 2, 5), where vertex 2 is 5 away, the search forms 1 + 2147483647.

## Model

| member | source | states |
|---|---|---|
| LockFreeStackRuns.CountsInEveryRun | concurrency/lock_free_stack.cpp:42-68 | In every reachable state, for each linked node external - 1 + internal is the number of threads holding a reference; for an unlinked one the same with the count its popper read, less its own; after the transfer internal alone is that number and positive; a node about to be deleted has no holder |
| LockFreeStackRuns.NeverTouchesFreedMemory | concurrency/lock_free_stack.cpp:128-202 | No run of any number of pushers and poppers dereferences a deleted node or deletes one twice, although addresses may be reused at once (ABA) |
| LockFreeStackRuns.Linearizable | concurrency/lock_free_stack.cpp:97-202 | In every run calls, linearization points and returns alternate per thread with matching results, and the linearization points replayed on a sequential stack end in the values along the chain from `head_` |
| LockFreeStackRuns.EveryRun | concurrency/lock_free_stack.cpp:35-202 | The count accounting and the log invariant hold in every state of every run |
| LockFreeStackRuns.StepKeeps | concurrency/lock_free_stack.cpp:42-202 | One step of any thread, with any scheduling choice, keeps the count accounting, the chain and the ownership of every node |
| LockFreeStackRuns.StepLogs | concurrency/lock_free_stack.cpp:97-202 | One step keeps the log well formed and its replay equal to the chain |
| LockFreeStackRuns.QuiescentOwnsOnlyChain | concurrency/lock_free_stack.cpp:167-195 | Once no operation is running the allocated nodes are exactly those on the chain, with balanced counts: every popped node was deleted |
| LockFreeStackRuns.PopAloneTakesTop | concurrency/lock_free_stack.cpp:128-175 | A pop that nobody interrupts returns the top value, unlinks the top node and deletes it |
| LockFreeStackRuns.PushAlonePuts | concurrency/lock_free_stack.cpp:97-115 | An emplace that nobody interrupts puts its value on top and changes nothing below |
| LockFreeStackRuns.DestructorFreesAll | concurrency/lock_free_stack.cpp:78-83 | The destructor's loop, on a stack at rest, ends with exactly one pop more than there are values: every value is popped, top first, then null is returned, and nothing stays allocated |
| LockFreeStackRuns.PopAloneEmpty | concurrency/lock_free_stack.cpp:128-142 | A pop of an empty stack that nobody interrupts returns null and changes nothing |
| LockFreeStackRuns.ReturnsExplained | concurrency/lock_free_stack.cpp:97-202 | In every run each return of `emplace` or `pop` follows its own call and its own linearization point, which had the same result, with no event of the thread in between |
| LockFreeStackRuns.AloneItEnds | concurrency/lock_free_stack.cpp:42-202 | From every reachable state a thread that runs alone, wherever in its call it is and however stale what it has read, ends it within twelve steps; what had not taken effect takes effect on the stack as it stands: a push puts its value on top, a pop returns the top, or null if there is none |
| TwoLockQueueRuns.EveryRun | concurrency/single_thread_queue.cpp:77-160 | The structural invariant and the log invariant hold in every state of every run |
| TwoLockQueueRuns.StepKeeps | concurrency/single_thread_queue.cpp:77-136 | One step of any thread keeps chain, locks, dummy node and node ownership |
| TwoLockQueueRuns.NeverTouchesFreedMemory | concurrency/single_thread_queue.cpp:82-136 | No run follows a null `head` or touches a freed node |
| TwoLockQueueRuns.HeadReachesTail | concurrency/single_thread_queue.cpp:53-85 | In every reachable state `head` leads over `next` to the dummy at `tail`, every earlier node holds data, and the dummy is empty whenever the tail lock is free |
| TwoLockQueueRuns.NoTwoUseOneNode | concurrency/single_thread_queue.cpp:77-119 | No two threads are ever about to use the same node: comparing `head` with a stale tail keeps poppers off the node a pusher writes |
| TwoLockQueue.FoundKeeps | concurrency/single_thread_queue.cpp:107-118 | A tail read under the head lock that differs from `head`, however stale, leaves a node with data to pop |
| TwoLockQueueRuns.Linearizable | concurrency/single_thread_queue.cpp:87-160 | The linearization points of every run replayed on a sequential queue end in the data from head to tail |
| TwoLockQueueRuns.FirstInFirstOut | concurrency/single_thread_queue.cpp:122-160 | In every run the values pushed are the values popped followed by those still queued |
| TwoLockQueueRuns.ReturnsExplained | concurrency/single_thread_queue.cpp:87-160 | In every run each return of a push or pop follows its own call and its own linearization point, which had the same result |
| TwoLockQueueRuns.ReplayIsFifo | concurrency/single_thread_queue.cpp:122-160 | Any history that replays on the sequential queue pops a prefix of what it pushes, in order |
| TwoLockQueueRuns.WaitGetsSomething | concurrency/single_thread_queue.cpp:87-102 | `wait_and_pop` returns only with a value |
| TwoLockQueueRuns.AloneItEnds | concurrency/single_thread_queue.cpp:77-160 | From every reachable state in which no other thread holds a lock, a thread that runs alone ends its call within twelve steps, taking effect on the queue as it stands, unless it is a `wait_and_pop` that finds the queue empty and sleeps |
| TwoLockQueueRuns.OperationAlone | concurrency/single_thread_queue.cpp:82-160 | In every reachable state with both locks free, an uninterrupted push appends its value and any uninterrupted pop returns the front value; on an empty queue `try_pop` returns nothing and `wait_and_pop` sleeps |
| TwoLockQueueRuns.WokenAlone | concurrency/single_thread_queue.cpp:87-102 | A sleeper woken on a queue that is not empty, and then not interrupted, returns the front value |
| TwoLockQueueRuns.SleepsOnHeadOnly | concurrency/single_thread_queue.cpp:87-91 | In every run a thread falls asleep exactly when it waits and the tail it has read under the head lock is the head |
| TwoLockQueueRuns.SomebodyCanStep | concurrency/single_thread_queue.cpp:77-115 | No deadlock: while a thread is inside a call and not asleep, some such thread can go on |
| TwoLockQueueRuns.QuiescentOwnsOnlyChain | concurrency/single_thread_queue.cpp:138-154 | With no operation running both locks are free and exactly the linked nodes are allocated |
| CloseableQueueRuns.EveryRun | concurrency/thread_queue.cpp:28-81 | Mutual exclusion, wake-up accounting and conservation of values hold in every state of every run |
| CloseableQueueRuns.StepKeeps | concurrency/thread_queue.cpp:28-81 | One step keeps that invariant, with any choice of the sleeper to wake and with spurious wake-ups |
| CloseableQueueRuns.SleepersAreSupplied | concurrency/thread_queue.cpp:28-81 | While anyone sleeps, the queue is no longer than the pending notifications and the woken consumers together, where a consumer counts only if it has slept; and a closed queue has a `notify_all` still to come |
| CloseableQueueRuns.NoLostWakeUp | concurrency/thread_queue.cpp:28-81 | When every thread rests, somebody still asleep means that the queue is empty and not closed |
| CloseableQueueRuns.FirstInFirstOut | concurrency/thread_queue.cpp:28-71 | The values popped are a prefix of those of the accepted pushes, in the order in which both took effect, the rest is queued, and at most one thread is inside the mutex |
| CloseableQueueRuns.Linearizable | concurrency/thread_queue.cpp:28-81 | The linearization points of every run replayed on a sequential closeable queue end in its contents and its being closed |
| CloseableQueueRuns.OperationsMet | concurrency/thread_queue.cpp:28-81 | In every run a push is refused exactly if the queue is closed when it takes effect, and otherwise its value becomes the last; `try_pop` returns nothing exactly if the queue is empty, `wait_and_pop` only if it is also closed; any other pop returns the front value and removes it |
| CloseableQueueRuns.ReturnsExplained | concurrency/thread_queue.cpp:28-81 | In every run each return follows its own call and its own linearization point, which had the same answer |
| CloseableQueueRuns.AloneItEnds | concurrency/thread_queue.cpp:28-81 | From every reachable state in which no other thread holds the mutex, a thread that runs alone ends its call within five steps, unless it is a `wait_and_pop` that finds the queue empty and open and sleeps |
| CloseableQueueRuns.WorkerLeavesWhenDrained | concurrency/thread_queue.cpp:164-184 | In every run a worker stays in its loop until the queue is closed and drained |
| CloseableQueueRuns.WorkerAloneDrains | concurrency/thread_queue.cpp:164-184 | A worker that runs alone from between two calls processes every queued job, in order, and then stops if the queue is closed and sleeps if not |
| CloseableQueueRuns.GivesUpOnlyWhenDrained | concurrency/thread_queue.cpp:56-66 | A `wait_and_pop` without a value found the queue closed and drained, and no push ever succeeds after that |
| CloseableQueueRuns.SomebodyCanStep | concurrency/thread_queue.cpp:28-81 | No deadlock: while a thread does not rest, some thread can go on without a spurious wake-up |
| CloseableQueueRuns.EverythingProcessed | concurrency/thread_queue.cpp:164-184 | When all threads are done and a worker has stopped, every value pushed was handed out or processed exactly once |
| ChatServerRuns.EveryRun | runboost/chat_server.cpp:26-211 | The invariant of room and sessions holds in every state of every run of any number of clients |
| ChatServerRuns.StepKeeps | runboost/chat_server.cpp:53-211 | One handler, one post of a broadcast, one call of `start` or one completion keeps that invariant |
| ChatServerRuns.OneWriteInFlight | runboost/chat_server.cpp:143-157 | Never two writes or two reads of a session at once; a write in flight is of the front of the outbox; an open session writes exactly while its outbox is not empty; sent followed by outbox is accepted |
| ChatServerRuns.ReadingDecides | runboost/chat_server.cpp:99-141 | By the line that was read (the input up to its first newline, without line ends behind it): an error, an oversized line or `/quit` ends the session, anything else reads on; the room is told exactly of the end, of a new name (stripped of white space, under the old one) and of a line that is no command, in these very words |
| ChatServerRuns.OrdinaryLineIsTold | runboost/chat_server.cpp:111-140 | A text that is no command, sent with either line end, is told as name, colon, space, that text and one newline |
| ChatServerRuns.WritingDecides | runboost/chat_server.cpp:143-157 | A completed write stops the session exactly if it failed; otherwise its message is sent and the next one, if any, is written |
| WireLines.OneInputLine | runboost/chat_server.cpp:111-114 | One text is the input up to its first newline without line ends behind it, and reading and trimming give it |
| WireLines.OneStripped | runboost/chat_server.cpp:127-129 | One text is what is left without the white space around it, and trimming gives it |
| WireLines.ServerLineShows | runboost/chat_protocol.hpp:11-24 | A server line is its prefix, the text and one newline |
| ChatServer.HandleOk | runboost/chat_server.cpp:59-170 | Any handler of a session keeps that, keeps its place in the broadcast order, and posts one leave exactly when it stops the session |
| ChatServerRuns.HearsBroadcastOrder | runboost/chat_server.cpp:181-211 | The room's messages a session accepted are a prefix of the broadcast order from its own join announcement on |
| ChatServerRuns.MembersAgree | runboost/chat_server.cpp:202-211 | Any two sessions agree on every message of the broadcast order that both accepted |
| ChatServerRuns.NothingIsMissed | runboost/chat_server.cpp:181-211 | Once room and strand are idle, an open session has accepted every message since its join and a stopped one is no member |
| ChatServerRuns.AnnouncedInOrder | runboost/chat_server.cpp:181-211 | Every text posted to the room is announced once, in the order of the posts, or still waits |
| ChatServerRuns.SettlesDown | runboost/chat_server.cpp:59-211 | From every reachable state the strands alone can run until nothing is left to run |
| ChatServerRuns.EverybodyHears | runboost/chat_server.cpp:59-211 | Every run can go on by its strands alone to a state in which all that was posted is announced and every open session has accepted all of it since its own join |
| ChatServerRuns.JoinsBeforeLeaving | runboost/chat_server.cpp:181-194 | The join takes effect before the leave, at most one of each is pending, and only a stopped session leaves |
| ChatServer.LeaveFindsMember | runboost/chat_server.cpp:188-194 | A leave handler always finds its session among the members, so the announcement is made |
| ChatServerRuns.StoppedStaysSilent | runboost/chat_server.cpp:59-64 | A stopped session never accepts another message |
| ChatServerRuns.OversizeNoticeIsLost | runboost/chat_server.cpp:105-109 | An oversized line posts the notice to the strand, and the session accepts nothing any more, not even that notice |
| ChatServerRuns.OversizedClientIsNotTold | runboost/chat_server.cpp:53-109 | A run of one client and one oversized line in which this happens: the session is open, the notice is posted, and in every continuation the welcome is all that is accepted |
| Treap.Split | algorithms/data/treap.hpp:15-22 | Rewires the items in place into the two trees of `SplitTree` |
| Treap.SplitInorder | algorithms/data/treap.hpp:15-22 | The two inorder sequences together are the old one |
| Treap.SplitOrder | algorithms/data/treap.hpp:15-22 | Search order is kept, keys up to the given one go left and all others right |
| Treap.SplitHeap | algorithms/data/treap.hpp:15-22 | Heap order is kept and no root exceeds the old bound |
| Treap.Merge | algorithms/data/treap.hpp:33-40 | Rewires the items in place into the tree of `MergeTree` |
| Treap.MergeInorder | algorithms/data/treap.hpp:33-40 | The inorder sequence is the concatenation |
| Treap.MergeOrder | algorithms/data/treap.hpp:33-40 | Search order is kept when no left key exceeds a right key |
| Treap.MergeHeap | algorithms/data/treap.hpp:33-40 | Heap order is kept |
| Treap.Insert | algorithms/data/treap.hpp:24-31 | Rewires the items in place into the tree of `InsertTree` |
| Treap.InsertInorder | algorithms/data/treap.hpp:24-31 | The new item is put at one place of the inorder sequence, the rest is unchanged |
| Treap.InsertOrder | algorithms/data/treap.hpp:24-31 | Search order is kept |
| Treap.InsertHeap | algorithms/data/treap.hpp:24-31 | Heap order is kept |
| Treap.Erase | algorithms/data/treap.hpp:42-50 | Rewires the items in place into the tree of `EraseTree` and gives up exactly the item that search finds |
| Treap.FindsPresent | algorithms/data/treap.hpp:42-50 | In a search tree the descent of `erase` meets the key exactly when it is present |
| Treap.EraseInorder | algorithms/data/treap.hpp:42-50 | One item with the key leaves the inorder sequence, the rest is unchanged |
| Treap.EraseOrder | algorithms/data/treap.hpp:42-50 | Search order is kept |
| Treap.EraseHeap | algorithms/data/treap.hpp:42-50 | Heap order is kept |
| Treap.Unite | algorithms/data/treap.hpp:52-60 | Rewires two disjoint treaps in place into the tree of `UniteTree` |
| Treap.UniteItems | algorithms/data/treap.hpp:52-60 | The multiset of items is the sum |
| Treap.UniteOrder | algorithms/data/treap.hpp:52-60 | Search order is kept |
| Treap.UniteHeap | algorithms/data/treap.hpp:52-60 | Heap order is kept |
| Treap.MergeUndoesSplit | algorithms/data/treap.hpp:15-40 | With distinct priorities merge after split gives back the same tree |
| Treap.Canonical | algorithms/data/treap.hpp:6-60 | With distinct keys and priorities two treaps of the same entries are the same tree |
| Treap.BuildKeeps | algorithms/data/treap.hpp:15-60 | Every history of inserts, erases, unions, splits and merges builds a tree in search and heap order |
| Treap.HistoryIndependent | algorithms/data/treap.hpp:15-60 | Any two histories that end in the same entries, with distinct keys and priorities, build the same tree |
| TreeToList.StackBased | algorithms/linked_list/linked_list.cpp:159-187 | Terminates and rewires the tree into a doubly linked list whose right-walk is the old inorder sequence with `left` as its inverse |
| TreeToList.Morris | algorithms/linked_list/linked_list.cpp:189-225 | The same result with threads in place of the stack, so the two versions agree |
| TreeToList.Predecessor | algorithms/linked_list/linked_list.cpp:208-211 | The inner loop ends at the inorder predecessor, with or without the thread that leads back |
| ShortestEdges.Dijkstra | algorithms/graphs/graphs.cpp:410-427 | With positive weights the table holds the least walk lengths from 0, capped at 2^30, and stale entries do no harm |
| ShortestEdges.TraceBack | algorithms/graphs/graphs.cpp:433-449 | The backward pass marks an edge exactly when it lies on a shortest path |
| ShortestEdges.FindShortestEdges | algorithms/graphs/graphs.cpp:399-450 | Edge i is reported if and only if a shortest path from 0 to n - 1 crosses it and the shortest paths are shorter than 2^30; none is when n - 1 is unreachable |
| ShortestEdges.MissedOnlyWhenFar | algorithms/graphs/graphs.cpp:410-432 | An edge that a shortest path crosses is missing from the answer if and only if the shortest distance reaches the code's infinity |
| ShortestEdges.HeavyEdgeIsMissed | algorithms/graphs/graphs.cpp:410-432 | One edge of weight 2^30 is the shortest path and the answer leaves it out |
| ShortestEdges.ShortestIsMarked | algorithms/graphs/graphs.cpp:436-448 | Every edge of every shortest path has been marked when the queue is empty |
| RainWater.TrapRainWater | algorithms/array/array.cpp:162-193 | The sum over all cells of level minus height, where a level is the minimum over all paths to the border of the maximum height on the path |
| RainWater.OneTotal | algorithms/array/array.cpp:162-193 | Levels are unique, so that sum is a single number |
| RainWater.NewLevel | algorithms/array/array.cpp:183-189 | An unvisited neighbour of the lowest queued cell has as its level the greater of its height and that key |
| MinObstacles.MinObstacles | algorithms/graphs/graphs.cpp:111-141 | Terminates on every non-empty grid with the minimum number of obstacles entered over all paths between the corners |
| MinObstacles.FrontIsLeast | algorithms/graphs/graphs.cpp:118-125 | A cell not visited before comes off the deque at its least cost |
| MinObstacles.PushKeeps | algorithms/graphs/graphs.cpp:127-136 | Pushing a free neighbour in front or an obstacle behind keeps the deque ordered with a spread of at most one |
| PatternSearch.SearchForPat | algorithms/strings/strings.cpp:117-164 | For a non-empty pattern exactly all positions of occurrence, in increasing order |
| PatternSearch.Lps | algorithms/strings/strings.cpp:120-140 | Entry i is the length of the longest proper border of the first i + 1 characters |
| PatternSearch.ShiftSkipsNothing | algorithms/strings/strings.cpp:150-158 | No occurrence starts between the old and the new alignment of the pattern |
| RunDeletion.RemoveKChars | algorithms/strings/strings.cpp:80-114 | The result can be reached by deleting blocks of k equal characters, contains no such block, and is what every maximal sequence of deletions ends in |
| RunDeletion.OneNormalForm | algorithms/strings/strings.cpp:80-114 | Deletion is confluent: whatever is cut in whatever order, an irreducible result is the flattened stack |
| RunDeletion.BlockVanishes | algorithms/strings/strings.cpp:86-98 | Feeding a whole block to the stack leaves it as it was |
| Subsequences.CountDistinctSubseq | algorithms/strings/strings.cpp:284-299 | The cardinality of the set of distinct subsequences of a lowercase string |
| Subsequences.AreSubsequences | algorithms/strings/strings.cpp:283-299 | That set holds exactly the strings picked out of s at increasing positions |
| Subsequences.OneMore | algorithms/strings/strings.cpp:290-297 | One character more doubles the number, less the number before the previous occurrence of the character |
| CountSmaller.CountSmaller | algorithms/array/array.cpp:87-122 | For each position the number of strictly smaller elements to its right |
| LowBits.LowBitIsBitwise | algorithms/array/array.cpp:94-101 | For every 32-bit word `k & -k`, with two's complement negation, is the lowest set bit |
| CountSmaller.WalkUp | algorithms/array/array.cpp:91-96 | The entries above x that cover x are those that cover x plus its low bit |
| CountSmaller.Bit.Update | algorithms/array/array.cpp:91-96 | Along the low-bit walk exactly the entries that cover the value are incremented |
| CountSmaller.Bit.Query | algorithms/array/array.cpp:97-104 | The number of values inserted that are at most k |
| JobScheduling.JobSchedulingV1 | algorithms/dp/dp.cpp:261-283 | The maximum total profit over all selections of pairwise non-overlapping jobs, when no job ends before it starts |
| JobScheduling.JobSchedulingV2 | algorithms/dp/dp.cpp:285-301 | The same maximum |
| JobScheduling.TakeOrLeave | algorithms/dp/dp.cpp:273-280 | The better of leaving a job and of taking it with the best of what stays compatible is the best |
| JobScheduling.BestIsUnique | algorithms/dp/dp.cpp:261-301 | There is one best value, so the two programs agree |
| CycleDetection.DetectCycle | algorithms/linked_list/linked_list.cpp:120-133 | Terminates, and finds a cycle exactly when the list never ends |
| CycleDetection.LengthOfLoop | algorithms/linked_list/linked_list.cpp:135-157 | Terminates with 0 for a list that ends and otherwise with the length of its loop: the least number of steps after which any node comes round again |
| CycleDetection.TurnsBounded | algorithms/linked_list/linked_list.cpp:125-131 | On every finite set of nodes there is a number of turns by which fast has fallen off the end or met slow |
| CycleDetection.SameLength | algorithms/linked_list/linked_list.cpp:138-154 | The least period of the node where the two meet is that of every node of the loop |
| RangeMinimum.Rmq.Init | algorithms/data/rmq.hpp:13-21 | Every entry of the table is the leftmost minimum of its block |
| RangeMinimum.Rmq.Index | algorithms/data/rmq.hpp:22-25 | The leftmost position of the minimum of any non-empty range |
| RangeMinimum.Rmq.CmbCovers | algorithms/data/rmq.hpp:10-12 | The better of the leftmost minima of two ranges that overlap or meet is that of their union, ties included |
| SentinelList.LinkBefore | algorithms/linked_list/link.hpp:465-473 | The ring stays a ring, with the node in front of the given one |
| SentinelList.Unlink | algorithms/linked_list/link.hpp:475-478 | The ring stays a ring, without the node |
| SentinelList.List.Insert | algorithms/linked_list/link.hpp:335-341 | The value enters the sequence in front of the iterator, in one new live node |
| SentinelList.List.Erase | algorithms/linked_list/link.hpp:343-357 | The element leaves the sequence, its node dies and no other, and the iterator behind it is returned; erasing the end is reported and changes nothing |
| SentinelList.List.Swap | algorithms/linked_list/link.hpp:390-412 | Two lists exchange their nodes, sequences and allocators, also when one or both are empty and when a list is swapped with itself |
| SentinelList.List.RepairSentinelLinks | algorithms/linked_list/link.hpp:436-444 | Two writes close a displaced chain of nodes to a ring around its new sentinel |
| SentinelList.List.StealNodesFrom | algorithms/linked_list/link.hpp:480-496 | Whatever hung on the receiver, it stands for the other list's nodes afterwards and the other one is empty and in order; no node dies and none of the receiver's old ones is touched |
| SentinelList.List.MoveAssign | algorithms/linked_list/link.hpp:192-206 | The own nodes die, the other list's nodes and allocator are taken over; assigning a list to itself changes nothing |
| SentinelList.List.Clear | algorithms/linked_list/link.hpp:377-388 | One walk round the ring destroys exactly the list's nodes, each once and read before it dies, never the sentinel, and leaves an empty list |
| SentinelList.List.Forward | algorithms/linked_list/link.hpp:89-92 | Following `next` from `begin` to `end` visits the sequence |
| SentinelList.List.Backward | algorithms/linked_list/link.hpp:100-103 | Following `prev` from the end visits it in reverse |
| GrowingVector.Vector.Reserve | containers/vector.hpp:37-70 | Throws only if a call into the allocator or the element type threw, and then commits nothing: size, capacity, storage and (unless a move may throw) values are as before; nothing is leaked or destroyed twice |
| GrowingVector.Vector.EmplaceBack | containers/vector.hpp:73-86 | Appends the value its argument had before the call, also an element of the vector itself, read or moved out; it fails only at the limit, for elements that cannot be relocated, or if a call threw, and then everything is as before, but for what moves that may throw and an argument already moved out have left behind |
| GrowingVector.Vector.GrowAndEmplace | containers/vector.hpp:116-157 | The same when full; the capacity becomes 1 from 0 and otherwise the lesser of twice what it was and the limit |
| GrowingVector.Vector.RelocateTo | containers/vector.hpp:45-59 | Relocates all elements, or, if a call threw, takes back those already constructed |
| GrowingVector.Vector.PopBack | containers/vector.hpp:91-97 | Removes the last element, or reports that there is none |
| GrowingVector.Vector.Dispose | containers/vector.hpp:19-25 | Destroys every element and releases the storage |
| GrowingVector.AppendAll | containers/vector.hpp:73-157 | N appends to an empty vector succeed unless a call throws, the elements cannot be relocated or N exceeds the limit, and relocate fewer than 2 N elements, also where the limit caps the doubling |
| GrowingVector.GrowthIsAmortized | containers/vector.hpp:123-125 | One growth keeps the relocation bound, whether it doubles or is capped |

## Left out

- Weak memory orderings and lock-freedom of the hardware: every atomic operation is one sequentially consistent step.
- Machine integers: numbers are mathematical, but for the infinity of `find_shortese_edges` and the bound on its sums,
  and the 32-bit words of the binary indexed tree.
- Wake-ups of the two-lock queue: `push` changes what is waited for without the head lock, so that a sleeper is woken
  is not claimed; it may wake at any time.  `new_tail` is read as a non-const pointer, and `empty`, declared
  void, is not modelled.  Copying a value out early is a read; what moving leaves behind in the data is not modelled.
- The first class of `concurrency/single_thread_queue.cpp` (lines 7-48): its `tail` is never initialized.
- Reference parameters `pitem&` and `pitem*` results of the treap: a method returns the root that the C++ code
  stores through the reference.  `delete` is the item leaving the tree and being returned.
- Standard containers: sort, priority queue, binary search, set and map are used by their contracts; ties among
  equal keys of the priority queue stay open.
- Sockets, signals, options and identifiers of the chat server: a strand is a queue of handlers, a read or write an
  operation that completes at some time, well or badly; names and addresses are parameters.  The log on the console
  is left out.
- `explicit Vector(initial_capacity)` and unchecked indexing: only the default constructor is modelled.
- GrowingVector.Vector.Reserve: when moving may throw, elements already moved out stay moved out, as in the code;
  their values are then not promised.
- GrowingVector.Vector.EmplaceBack: an argument that was moved out before a later relocation threw stays moved out, as
  in the code.
- Treap.Erase: the key must be present on the search path, because the code follows a null pointer otherwise.
- Allocation failures, copying and throwing constructors of the sentinel list: an insertion always gets its node.  Of
  the move assignment the variant that takes the allocator over is modelled.
- Quickselect, the memoized regular-expression matcher, path counting, the re-rooted distance sums and the
  conflating queue: not modelled.
- Functions that do not do what they set out to do (`remove_invalid_parentheses`, `make_array_increasing`,
  `insert_interval`, `solve_sudoku`), `tensor/`, and the smart pointers, locks around containers, and
  input/output demos: not modelled.
