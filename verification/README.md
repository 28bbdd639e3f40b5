# A verified model of the LCI communication runtime

LCI is a communication runtime: threads send and receive tagged messages through packets, a matching table and
remote memory writes, run non-blocking collectives on top, hand work over through a lock-free queue and keep a cache of
registered memory.  This project models the parts of it whose correctness is not local to one function, and proves what
each promises over all inputs, all runs and all interleavings.

| files | part of the runtime |
|---|---|
| `LcrqConcurrent`, `LcrqOrder`, `LcrqCalls`, `LcrqWords` | the lock-free queue of linked rings, as a transition system over single accesses; the order between operations; what each call has done when it returns |
| `LcrqEmpty`, `LcrqReload`, `LcrqRepair`, `LcrqProgress`, `LcrqQuiet`, `LcrqSequential` | when a dequeue returns nothing, the repair of rings, operations that run alone, the queue at rest, and the queue as an object used one operation at a time |
| `AvlTree`, `AvlNodes` | the AVL tree, as a value and as nodes relinked in place |
| `VmaList`, `VmaDb`, `VmaTable` | the database of registered regions: what inserts and removes do to the list of areas, what the list stands for, and the object that keeps list and tree together |
| `DregCache`, `DregRegister`, `RegistrationCache` | the life cycle of registrations, as runs; hits and misses; and the cache as an object |
| `ColEngine`, `ColSeries`, `ColRequest`, `Allreduce`, `AllreduceValue`, `Barrier`, `BarrierSeries` | the engine of non-blocking collectives, allreduce and barrier |
| `MatchTable`, `ProtoWord`, `Messaging`, `MessageOrder`, `MessageChannel` | matching, the packed protocol word, rendezvous, the order of messages end to end, and the channels that collectives take for granted |
| `RingBuffer`, `PacketPool`, `PacketPlaces` | deques and completion queues, the packet pool, and the places a packet can be in |
| `Network`, `NetworkRuns`, `PacketRoom` | any number of ranks with a device of packets and an endpoint each; what all their runs keep; and messages that do not fit a packet |
| `CompletionQueue`, `PacketHomes` | over the runs of the network, what is in a completion queue and in which order; and which packet a step takes, how it marks it and where it gives it back |
| `Wrappers` | a value that may be missing |

`dafny verify dfyconfig.toml` checks everything.

## Assumptions

* Memory is sequentially consistent.  The lock of the registration cache and the locks of hash buckets, deques and
  completion queues make their bodies atomic.
* The network delivers every packet, in order for each pair of ranks; a buffer handed to a send or receive is left alone
  until it completes, and is large enough for its message.
* Values in the lock-free queue are neither null nor all ones; its indices, and pool and page numbers, do not wrap.
* Registered regions have at least one byte and start at page 1 or above.  Page 0 is the exception the code does not
  handle: `VmaTable.ClosestIsScan` says exactly when the search is right, `VmaTable.PageZeroOutOfOrder` what goes wrong.
* Tags lie in 0..65535 and ranks below 2^31 (`ProtoWord.TagRoundTrip` says what happens to other tags); workers are
  numbered below 272, the rows of the table of pools.
* A packet has room for fewer bytes than packets lie apart (`Config.room` and `Config.packetSize`: 12180 and 12288 as
  configured).  Messages that fit their packets are a condition of the results that need it, not an assumption.
* A program frees each request that it popped from a completion queue once.
* The number of ranks is below 2^30, so that the next power of two is an int.

## Where code and expectation differ

* The queue's own tail pointer never moves: enqueue updates a local copy (`src/lcrq.c:197-206`), so every enqueue walks
  the links from the first ring.  The model does the same.
* The quick test of a dequeue names the queue's head pointer three times (`src/lcrq.c:260-262`), and the pointer is not
  volatile (`src/include/lcrq.h:25-28`).  If it is loaded each time, the test can look at the tail of one ring and at the
  end of another, and return nothing although a completed value is there (`LcrqReload.ReloadingMisses`); if it is loaded
  once, it cannot (`LcrqEmpty.EmptyHandedLoadingOnce`).
* `rotate_once` and `balance` in the code say whether the height changed with opposite senses; the model follows the
  code's use of them.
* The packet keeps its pool in eight signed bits (`src/include/packet.h:23`) although up to 272 pools are allowed
  (`include/lc/pool.h:17`).  `PacketPlaces.FreeDataExact` says exactly which packets come back to a pool,
  `NetworkRuns.LosesPacket` is a run in which one does not, and `NetworkRuns.NoneLost` the number of workers up to which
  all do.
* `lc_send` sends up to `LC_PACKET_SIZE` bytes in one packet (`src/tag.c:12`), and `lc_max_medium` promises as much
  (`src/misc.c:9-12`), but packets lie that far apart with their contexts (`src/include/lc_priv.h:72-78`), so a packet has
  room for the 108 bytes of a context less (`src/include/lc_priv.h:11`), and receives are posted for no more.  A message
  of 12181 to 12288 bytes is copied over the context of the next packet and is not delivered as it was sent.
  `PacketRoom.IntactIffFits` and `MessageOrder.EndToEndExact` say for which sizes a send does what it should,
  `MessageOrder.TooLargeIsCut`, `PacketRoom.NextContextIsData` and `PacketRoom.LosesPacketByCopy` what happens otherwise.
* In each round of a barrier a rank waits for its send before it posts its receive (`src/coll/ibarrier.h:20-24`).  That is
  right for messages of one byte, whose sends complete on their own; `BarrierSeries.WaitingSticks` shows that it would not
  be for sends that wait for their receive, with which allreduce is safe (`AllreduceValue.EveryAllreduceMoves`).
* An endpoint with explicit receives gets a table, but its completion queue is not initialised
  (`src/include/lc_priv.h:96-100`).  The model starts with an empty queue.
* The sender of a long message registers its buffer for the RDMA write (`src/include/server/server_ibv.h:366-367`) and
  never deregisters it; `MessageOrder.DeregisteredOnce` is about the receiver's registration.

## Model

| member | source | states |
|---|---|---|
| `LcrqConcurrent.StepKeepsInv` | src/lcrq.c:194-336 | Every single access of any thread, in enqueue or dequeue, keeps the queue's invariant: rings, chain of rings, places of the threads, logs of completed operations. |
| `LcrqConcurrent.RunKeepsInv` | src/lcrq.c:194-336 | So does every interleaving of any number of threads, for every ring size from one up. |
| `LcrqConcurrent.StorerNotMissed` | src/lcrq.c:240-248 | The index test, the unsafe bit and the `head < t` test together: a cell an enqueuer may store in has not been left by the dequeuer with its ticket. |
| `LcrqConcurrent.SafeMayStore` | src/lcrq.c:240-248 | An empty cell with an index up to t and no unsafe bit was not passed by dequeuer t. |
| `LcrqConcurrent.LateMayStore` | src/lcrq.c:244-247 | If the head was still at or below t, dequeuer t has not come yet, so an unsafe cell may be used too. |
| `LcrqConcurrent.StoreOnlyBeforeDequeuer` | src/lcrq.c:240-248 | In every reachable state an enqueuer's double-word CAS succeeds only if the dequeuer with its ticket has not left the cell. |
| `LcrqConcurrent.RingSafety` | src/lcrq.c:215-293 | In every reachable state what dequeuer h of a ring returned is what enqueuer h stored there; nothing is stored or returned twice. |
| `LcrqConcurrent.NothingLost` | src/lcrq.c:215-320 | A stored and not yet returned value sits in its cell under its own ticket, and its dequeuer has not left. |
| `LcrqConcurrent.StaysUntilTaken` | src/lcrq.c:274-320 | However the run goes on, it stays there until its own dequeuer returns exactly that value. |
| `LcrqConcurrent.HandOver` | src/lcrq.c:322-334 | When the queue's head has passed a ring, the ring is closed, every ticket issued while it was open is below its head, and each value not returned yet has a dequeuer standing at its cell. |
| `LcrqConcurrent.RunExtends` | src/lcrq.c:154-181 | Over a run nothing completed is undone: a closed ring stays closed at the same ticket, heads only grow, stored and taken values stay recorded. |
| `LcrqConcurrent.LapIsRemainder` | src/lcrq.c:237-237 | The cell of a ticket is its remainder by the ring size. |
| `LcrqOrder.EnqueueOrder` | src/lcrq.c:194-257 | In every run an enqueue that completed before another began is ahead of it: in an earlier ring or under an earlier ticket. |
| `LcrqOrder.FirstOut` | src/lcrq.c:259-336 | In every run, when a value is returned, that of every enqueue completed before its own began has been returned, or a dequeuer stands at its cell. |
| `LcrqOrder.TicketBehind` | src/lcrq.c:215-235 | A ticket of an open ring is behind every enqueue completed so far. |
| `LcrqOrder.TicketPassed` | src/lcrq.c:274-334 | A ticket before one that was taken has been issued to a dequeuer, in an earlier ring too. |
| `LcrqEmpty.EmptyHanded` | src/lcrq.c:259-336 | In every run, when a dequeue returns nothing, the value of every enqueue that completed before that dequeue began has been returned, or a dequeuer stands at its cell; the one exception is a quick test that loaded the queue's head pointer more than once while it moved. |
| `LcrqEmpty.EmptyHandedLoadingOnce` | src/lcrq.c:260-262 | If the head pointer is loaded once in the quick test, there is no exception. |
| `LcrqReload.ReloadingMisses` | src/lcrq.c:260-262 | If it is loaded each time it is named, there is a run in which a dequeue returns nothing while a value enqueued before it began lies in a cell where nobody stands. |
| `LcrqRepair.RepairedTail` | src/lcrq.c:322-329 | In every run, a dequeue that is about to return nothing or to go on to the next ring has left the tail of its ring past its own ticket, or the ring is closed. |
| `LcrqCalls.EnqueuesPutOnce` | src/lcrq.c:194-257 | In every run, the values a thread has put are those of the enqueues it called, in that order, each once; only the last may be missing, exactly if that enqueue has not returned. |
| `LcrqCalls.DequeuesReturnTaken` | src/lcrq.c:259-336 | In every run, each dequeue a thread called has one result unless it has not returned, and the results hold exactly the values that the thread took. |
| `LcrqProgress.AloneReturns` | src/lcrq.c:194-336 | From every state that a run reaches, whatever the other threads were interrupted in, an operation whose thread runs alone returns. |
| `LcrqProgress.EnqMoveLess` | src/lcrq.c:194-257 | Each access of an enqueue alone goes on to the next ring, or uses up a ticket of the ring size it may need at most, or gets nearer to its end. |
| `LcrqProgress.DeqMoveBringsOn` | src/lcrq.c:263-334 | Each access of a dequeue alone uses up a ring, a ticket of those up to the tail, a stale reading or a spin, or gets nearer to its end. |
| `LcrqQuiet.QuietDequeue` | src/lcrq.c:259-336 | In every state that a run reaches with no operation under way, a dequeue that runs alone returns: nothing exactly if every value enqueued has been returned, and else a value that every value enqueued before its enqueue began was returned before. |
| `LcrqWords.WordIsPair` | src/lcrq.c:124-151 | A 64-bit word is a 63-bit index and a flag. |
| `LcrqWords.PairDeterminesWord` | src/lcrq.c:129-141 | Words agreeing in index and flag are equal, so a double-word CAS compares pairs. |
| `LcrqWords.FlaggedWord` | src/lcrq.c:134-151 | Setting the flag keeps the index, and a flagged word exceeds every unflagged one, which is why the repair loop leaves closed tails alone. |
| `LcrqWords.FetchAndAdd` | src/lcrq.c:215-215 | Fetch-and-add on the tail moves the index by one and leaves the closed bit. |
| `LcrqSequential.Queue.Enqueue` | src/lcrq.c:194-257 | Run one at a time, an enqueue adds its value behind all others, whether it is stored or the ring is full, closed and a new ring linked. |
| `LcrqSequential.Queue.Dequeue` | src/lcrq.c:259-336 | Run one at a time, a dequeue returns the oldest value and removes it, and returns nothing exactly when the queue is empty, across used-up rings. |
| `LcrqSequential.Queue.constructor` | src/lcrq.c:188-192 | A new queue is one empty ring. |
| `LcrqSequential.Ring.Put` | src/lcrq.c:215-255 | A ticket is stored exactly when the ring is not full; otherwise it closes the ring. |
| `LcrqSequential.Ring.Take` | src/lcrq.c:268-320 | A ticket leaves its cell to the next lap and returns the value the cell had for it. |
| `LcrqSequential.Ring.FixState` | src/lcrq.c:154-174 | The repair brings an open tail up to the head and leaves a closed one alone. |
| `LcrqSequential.EnqueueResult` | src/lcrq.c:215-255 | Either way an enqueue takes appends exactly its value to the contents of all rings. |
| `LcrqSequential.RoundResult` | src/lcrq.c:263-334 | A dequeue ticket takes the oldest value, or finds the head ring closed and used up, and then moving to the next ring changes nothing. |
| `LcrqSequential.EmptyTest` | src/lcrq.c:260-262 | The quick test at the start of a dequeue holds exactly when the queue is empty. |
| `AvlTree.RotateOnceRestores` | src/dreg/avl.c:261-282 | A single rotation of a node out of balance by two gives an AVL tree with right balances and says whether the height stayed. |
| `AvlTree.RotateTwiceRestores` | src/dreg/avl.c:291-314 | So does a double rotation, which always lowers the height by one. |
| `AvlTree.BalanceRestores` | src/dreg/avl.c:328-361 | Balancing any node off by at most two restores the AVL property and returns exactly the change of height. |
| `AvlTree.BalanceKeepsOrder` | src/dreg/avl.c:328-361 | Balancing keeps the set of keys and their order. |
| `AvlTree.Insert` | src/dreg/avl.c:408-457 | Insertion keeps every stored balance equal to right height minus left height and within one, and returns exactly whether the height grew. |
| `AvlTree.InsertKeys` | src/dreg/avl.c:408-457 | Insertion keeps the order, adds exactly the key, and reports a duplicate exactly when the key was there. |
| `AvlTree.Delete` | src/dreg/avl.c:500-623 | Deletion keeps the AVL property and returns exactly whether the height shrank. |
| `AvlTree.DeleteKey` | src/dreg/avl.c:500-623 | Deletion keeps the order, removes exactly the key, and finds it exactly when it was there, with two children too. |
| `AvlTree.DeleteSmallest` | src/dreg/avl.c:226-236 | Deleting with the comparison for the minimum removes exactly the smallest key. |
| `AvlTree.SmallestIsSmallest` | src/dreg/avl.c:467-487 | The leftmost data is the smallest key. |
| `AvlTree.SuccessorMovesUp` | src/dreg/avl.c:568-597 | Copying the smallest key of the right subtree up and deleting it there removes exactly the old key. |
| `AvlTree.AtLeastFibonacci` | src/dreg/avl.c:328-361 | An AVL tree of height h has at least Fibonacci(h + 2) - 1 nodes. |
| `AvlTree.FindIsScan` | src/dreg/avl.c:379-394 | A tree search with any comparison that is monotone over the keys finds a match exactly when a scan of all keys would. |
| `AvlNodes.RotateOnce` | src/dreg/avl.c:261-282 | On nodes in memory: the root, pointers and balances after the rotation are those of the rotated tree, on the same nodes. |
| `AvlNodes.RotateTwice` | src/dreg/avl.c:291-314 | The same for the double rotation: three nodes relinked in place hold the doubly rotated tree. |
| `AvlNodes.Balance` | src/dreg/avl.c:328-361 | Balancing in place leaves the balanced tree in memory and returns its change of height. |
| `AvlNodes.Insert` | src/dreg/avl.c:408-457 | In-place insertion leaves in memory exactly the tree that `AvlTree.Insert` gives, with one new node unless the key is a duplicate. |
| `AvlNodes.Delete` | src/dreg/avl.c:500-623 | In-place deletion leaves exactly the tree that `AvlTree.Delete` gives, for all cases of children, copying the successor's data. |
| `AvlNodes.Find` | src/dreg/avl.c:379-394 | The search loop returns the node that the tree search on values finds, or null if that finds none. |
| `AvlNodes.SmallestData` | src/dreg/avl.c:467-487 | The loop to the left end returns the smallest key of the tree in memory. |
| `VmaList.AddEntryKeeps` | src/dreg/dreg.c:298-340 | Adding to a list keeps it in descending order and adds exactly the region. |
| `VmaList.RemoveEntryKeeps` | src/dreg/dreg.c:342-363 | Removing from a list keeps the order and removes exactly the region. |
| `VmaList.InsertAreas` | src/dreg/dreg.c:508-596 | Insertion keeps the areas ascending, disjoint and non-empty through fills, cuts and splits. |
| `VmaList.InsertCover` | src/dreg/dreg.c:508-596 | Page by page insertion adds the region to the pages of its range and to no other page. |
| `VmaList.InsertSeparated` | src/dreg/dreg.c:508-596 | Insertion of a new region never makes touching areas with equal lists. |
| `VmaList.MergeAllKeeps` | src/dreg/dreg.c:455-484 | Merging to a standstill leaves every page listed under the same regions, in disjoint ascending areas. |
| `VmaList.MergeAllSeparated` | src/dreg/dreg.c:455-484 | After merging, no two touching neighbours have equal lists. |
| `VmaList.RemoveKeeps` | src/dreg/dreg.c:438-488 | Page by page removal takes the region out of every list, whatever was dropped or merged, and leaves disjoint areas whose touching neighbours differ. |
| `VmaDb.InsertRepresents` | src/dreg/dreg.c:493-601 | After an insert of a fresh region the list of areas represents exactly the registered set with it: sorted and disjoint areas, each page listed with exactly the regions covering it, pages not covered in no area, touching areas different. |
| `VmaDb.RemoveRepresents` | src/dreg/dreg.c:427-491 | After a remove it represents the registered set without the region; -1 is returned only for regions that are not registered. |
| `VmaDb.RunRepresents` | src/dreg/dreg.c:427-601 | The same after any run of inserts and removes. |
| `VmaDb.RepresentationUnique` | src/dreg/dreg.c:398-425 | There is only one such list for a set of regions. |
| `VmaDb.RunsAgree` | src/dreg/dreg.c:427-601 | Two runs that end with the same regions registered end with the same list of areas. |
| `VmaDb.RemoveUndoesInsert` | src/dreg/dreg.c:427-601 | Removing a region just inserted gives back the very same list. |
| `VmaDb.LookupComplete` | src/dreg/dreg.c:604-624 | The first region listed for a page reaches as far as any registered region that covers the page. |
| `VmaTable.Table.Insert` | src/dreg/dreg.c:493-601 | The insertion loop with its closest-area search, splits and index updates leaves the specified list, and the index holds exactly the first pages of its areas. |
| `VmaTable.Table.Remove` | src/dreg/dreg.c:427-491 | The removal loop with its merging leaves the specified list and index, and returns -1 exactly when no area holds the region's first page. |
| `VmaTable.Table.Lookup` | src/dreg/dreg.c:604-624 | The lookup returns a registered region covering begin to end if and only if there is one. |
| `VmaTable.Table.Merge` | src/dreg/dreg.c:455-484 | The do-while loop merges with both neighbours until nothing merges any more. |
| `VmaTable.Table.Link` | src/dreg/dreg.c:223-259 | A new area is linked and indexed; the index agrees with the list again. |
| `VmaTable.Table.Unlink` | src/dreg/dreg.c:261-265 | An area is taken off the list and out of the index; they agree again. |
| `VmaTable.SearchIsScan` | src/dreg/dreg.c:175-216 | The tree search for the area around a page finds what a scan of the list finds. |
| `VmaTable.ClosestIsScan` | src/dreg/dreg.c:193-209 | The tree search for the closest area finds what a scan finds if and only if the page is not 0 or there are no areas. |
| `VmaTable.ClosestMissesPageZero` | src/dreg/dreg.c:203-206 | For page 0 the comparison against the sentinel makes the search find nothing. |
| `VmaTable.PageZeroOutOfOrder` | src/dreg/dreg.c:493-521 | So a region at page 0 would be put out of order into any list that is not empty. |
| `DregCache.RegisterKeeps` | src/dreg/dreg.c:848-902 | Registering returns an entry in use whose region covers every byte asked for, or fails with nothing left to evict; entries in use keep region and references. |
| `DregRegister.RegisterHits` | src/dreg/dreg.c:856-863 | If a registered region covers the first and the last page, registering returns such a region and only takes a reference to it: nothing is registered, evicted or taken from the free list. |
| `DregRegister.RegisterMisses` | src/dreg/dreg.c:864-893 | If none does, registering evicts exactly as many entries as attempts fail, those unused for longest, and makes one entry for exactly the pages of the bytes; nothing is evicted if the first attempt succeeds. |
| `DregRegister.RegisterFails` | src/dreg/dreg.c:868-888 | If no attempt succeeds down to the last unused entry, registering fails. |
| `DregRegister.PagesOfBytes` | src/dreg/dreg.c:1069-1089 | The pages from first to last are exactly those that hold one of the bytes. |
| `DregRegister.EvictTimesTakesOldest` | src/dreg/dreg.c:869-889 | Evicting k times takes exactly the k entries that have been unused for longest, and nothing else. |
| `DregCache.AcquireKeeps` | src/dreg/dreg.c:869-889 | The retry loop ends after at most as many evictions as there are unused entries and never touches an entry in use. |
| `DregCache.EvictKeeps` | src/dreg/dreg.c:1002-1028 | Eviction takes the entry that has been unused for longest, never one in use, and changes no other entry. |
| `DregCache.IncrKeeps` | src/dreg/dreg.c:980-988 | Taking a reference counts it, takes the entry off the unused list if it was there, keeping the order of the others, and changes nothing else. |
| `DregCache.DecrKeeps` | src/dreg/dreg.c:965-972 | Giving a reference back counts it; the last one puts the entry at the head of the unused list, as the one released last, and nothing else changes. |
| `DregCache.FailedAttempt` | src/dreg/dreg.c:1037-1108 | An attempt whose memory could not be registered leaves free list, database and list of areas as they were. |
| `DregCache.GrantedAttempt` | src/dreg/dreg.c:1037-1112 | A successful attempt adds one entry, taken from the free list, that covers the pages asked for. |
| `DregCache.RunKeeps` | src/dreg/dreg.c:848-1112 | Over all runs of register, unregister and evict with any failures, entries stay accounted for and the database represents exactly the registered regions. |
| `DregCache.ThreeStates` | src/dreg/dreg.h:188-238 | Every entry of the pool is free, or unused without references, or in use, and only one of these. |
| `DregCache.FindFinds` | src/dreg/dreg.c:919-924 | A hit is a registered entry covering first and last page; a miss means there is none. |
| `RegistrationCache.RegCache.RegisterBytes` | src/dreg/dreg.c:848-902 | The imperative registration computes what the specification says (`DregRegister` says what that is), on top of the database object. |
| `RegistrationCache.RegCache.AcquireEntry` | src/dreg/dreg.c:869-889 | The retry loop makes an entry or evicts until nothing is left, exactly as specified, and keeps the database in step. |
| `RegistrationCache.RegCache.EvictOne` | src/dreg/dreg.c:1002-1028 | Evicts the tail of the unused list as specified and returns 1, or returns 0 exactly when that list is empty. |
| `RegistrationCache.RegCache.Unregister` | src/dreg/dreg.c:904-917 | Releasing drops a reference as specified and keeps the cache valid. |
| `ColEngine.StepKeepsInv` | src/coll/common.h:97-132 | Every step of an engine, completion of a send or arrival of a message keeps the invariant that each rank's buffers and each channel are what the schedules alone determine. |
| `ColEngine.FinishedIsIdeal` | src/coll/common.h:97-132 | In every run of matching schedules with at most one message per ordered pair of ranks, a finished rank holds what the schedules alone would have given it. |
| `ColEngine.NeverStuck` | src/coll/common.h:97-132 | If communications can be given times that grow along each schedule, no run gets stuck before all ranks are flagged, even if sends complete only once their receive is posted. |
| `ColEngine.RunUsesUp` | src/coll/common.h:97-132 | No run takes more steps than the schedules allow, so every run ends. |
| `ColEngine.NoUseAfterFree` | src/coll/common.h:91-132 | In every run no event reads, writes or frees a buffer that has been freed, if no schedule does on its own. |
| `ColEngine.AllSendsDone` | src/coll/common.h:97-132 | The engine waits for its sends: in every run a rank with nothing pending has seen all sends complete that it issued, and a flagged one all of its schedule. |
| `ColRequest.Request.Progress` | src/coll/common.h:97-132 | One call does nothing while something is pending; otherwise it issues operations up to the next one that stays pending, and flags the request when none is left. |
| `ColRequest.CallIsRun` | src/coll/common.h:97-132 | A call is a run of single steps of its rank: the rank ends as the call leaves it, and each channel gets exactly what the call sends to it, in order. |
| `ColSeries.MoveKeeps` | src/coll/common.h:97-132 | Over collectives one after another on one tag, a channel holds in order the messages of all numbers sent and not yet received. |
| `ColSeries.SeriesIsIdeal` | src/coll/common.h:97-132 | A rank finished with number n holds what number n gives run on its own. |
| `ColSeries.SeriesNeverStuck` | src/coll/common.h:97-132 | Something can happen until all ranks have finished the same number. |
| `ColSeries.SeriesBounded` | src/coll/common.h:97-132 | No run of a series is longer than the schedules allow for the numbers its ranks have come to. |
| `ColSeries.SeriesNoUseAfterFree` | src/coll/common.h:91-132 | Over a series, too, no event touches a freed buffer. |
| `Allreduce.NextPowerBounds` | src/coll/common.h:14-24 | The next power of two is above the value and at most twice it. |
| `Allreduce.XorIsFlip` | src/coll/ialreduce.h:80-80 | Exclusive or with a power of two changes one bit. |
| `Allreduce.RankBijection` | src/coll/ialreduce.h:56-82 | New ranks number exactly the ranks that take part in the rounds. |
| `Allreduce.PartnerInvolution` | src/coll/ialreduce.h:80-82 | The partner of the partner is the rank itself, nobody is its own partner, and partners of different rounds differ. |
| `Allreduce.BuildSchedule` | src/coll/ialreduce.h:43-115 | The builder's loops give the schedule whose exchanges, values and frees the results below are about. |
| `Allreduce.AllreduceFreesWork` | src/coll/ialreduce.h:109-114 | Every schedule frees the temporary buffer exactly once, by its last operation, and never the caller's result buffer. |
| `Allreduce.ScheduleFits` | include/lc.h:101-109 | For every number of ranks that fits an int the schedule fits its 128 entries. |
| `Allreduce.AllreduceOncePerPeer` | src/coll/ialreduce.h:56-107 | No rank sends twice to, or receives twice from, the same rank. |
| `Allreduce.AllreduceMatched` | src/coll/ialreduce.h:56-107 | Every receive has its send and every send its receive, at another rank. |
| `Allreduce.AllreduceStamped` | src/coll/ialreduce.h:56-107 | Matching communications happen in the same round, and each rank's rounds ascend. |
| `AllreduceValue.AllreduceValue` | src/coll/ialreduce.h:44-115 | In every run, for every number of ranks from two up and every associative and commutative operation, a flagged rank has the fold of all inputs in its result buffer. |
| `AllreduceValue.BlockAfterRound` | src/coll/ialreduce.h:77-91 | In every run, between rounds a rank that takes part holds the fold of its aligned block of new ranks. |
| `AllreduceValue.AllreduceFrees` | src/coll/ialreduce.h:32-114 | In every run of an allreduce no event touches a freed buffer, and a flagged rank has freed its temporary buffer and not the result. |
| `AllreduceValue.TwoRanks` | src/coll/ialreduce.h:80-95 | Of two ranks each combines its own value with the other's, in that order, so they agree exactly if those values commute. |
| `AllreduceValue.AllreduceTerminates` | src/coll/ialreduce.h:44-115 | No run gets stuck before all ranks are flagged and every run ends. |
| `AllreduceValue.EveryAllreduceValue` | src/coll/ialreduce.h:44-115 | In every run of back-to-back allreduces on one tag, a rank whose request of number n is flagged has the fold of all inputs of number n, whatever numbers the other ranks are at. |
| `AllreduceValue.EveryAllreduceFrees` | src/coll/ialreduce.h:32-114 | So in every run of back-to-back allreduces. |
| `AllreduceValue.EveryAllreduceMoves` | src/coll/ialreduce.h:44-115 | Such a run never gets stuck before all ranks have finished the same number, even if sends complete only once their receive is posted. |
| `AllreduceValue.EveryAllreduceBounded` | src/coll/common.h:97-132 | And it is no longer than the numbers its ranks have come to allow: 4 times the length of a rank's schedule plus 2 for each number it has started, summed over the ranks. |
| `AllreduceValue.NewFold` | src/coll/ialreduce.h:55-70 | Pairing the first ranks and renumbering folds to the same as folding all ranks in order. |
| `AllreduceValue.AfterIsBlockFold` | src/coll/ialreduce.h:77-91 | After k rounds a new rank holds the fold of its block of 2^k. |
| `Barrier.BuildBarrier` | src/coll/ibarrier.h:15-25 | The builder's loop gives the schedule that the engine runs below: a send and a receive per doubling distance, modulo the number of ranks. |
| `Barrier.RoundExchanges` | src/coll/ibarrier.h:15-24 | In round k a rank sends to the rank 2^k after it and receives from the one 2^k before it. |
| `Barrier.Neighbours` | src/coll/ibarrier.h:16-17 | Those are the remainders that the loop computes. |
| `Barrier.StepKeepsInv` | src/coll/ibarrier.h:15-27 | Messages in a channel are those sent and not yet received, over all barriers on the tag. |
| `Barrier.Heard` | src/coll/ibarrier.h:15-25 | A rank through round k of barrier m has heard from the 2^(k+1) - 1 ranks before it: all have entered barrier m. |
| `Barrier.BarrierSafety` | src/coll/ibarrier.h:15-27 | Over any number of back-to-back barriers on one tag, a rank finishes barrier m only after every rank has entered it. |
| `Barrier.WithinOne` | src/coll/ibarrier.h:15-27 | No rank is more than one barrier ahead of another. |
| `Barrier.BarrierEnds` | src/coll/common.h:97-132 | With sends that complete on their own: once all ranks have entered a barrier, a run takes no more steps than a bound in the number of ranks and rounds, and at any time some rank can move or all have finished the barrier. |
| `Barrier.SomeoneMoves` | src/coll/common.h:97-132 | With sends that complete on their own, a rank inside a barrier that all have entered can move, or waits for one behind it that can. |
| `BarrierSeries.MoveStands` | src/coll/common.h:97-132 | Every step of the engine on the barrier's schedules, with messages in channels, is a step of the barrier. |
| `BarrierSeries.EngineBarrierSafety` | src/coll/ibarrier.h:15-27 | So in every run of barriers on the engine, when a rank's request of a number is flagged, every rank has started that number. |
| `BarrierSeries.EngineBarrierMoves` | src/coll/common.h:97-132 | And with sends that complete on their own such a run never gets stuck before all ranks have finished the same number, and is bounded by the numbers they have come to. |
| `BarrierSeries.WaitingFinishesNone` | src/coll/ibarrier.h:20-24 | If sends completed only once their receive is posted, no rank would ever finish a barrier of two or more ranks. |
| `BarrierSeries.WaitingSticks` | src/coll/ibarrier.h:20-24 | Such a run does reach a state in which nothing can happen any more. |
| `BarrierSeries.AloneNeverSticks` | src/coll/ibarrier.h:15-27 | A barrier of one rank never sticks, however sends complete; so it sticks with such sends exactly from two ranks up. |
| `MatchTable.TagsDiffer` | include/lc/hashtable.h:111-111 | Keys below 2^63 - 1 have tags of their own on both sides, none of them the empty mark. |
| `MatchTable.UsableIffAlone` | include/lc/hashtable.h:111-111 | A 64-bit key is usable if and only if its server tag is not the empty mark and its client tag still tells the key. |
| `MatchTable.ComparesOpposite` | include/lc/hashtable.h:111-111 | The tag looked for is that of the same key on the other side. |
| `MatchTable.InsertLoop` | include/lc/hashtable.h:114-160 | The loop over the slots takes the first slot of the other side, or stores in the first empty slot behind all occupied ones, in a new row if there is none. |
| `MatchTable.InsertMatches` | include/lc/hashtable.h:118-122 | When the other side waits, its oldest value is returned and removed; every other queue is untouched. |
| `MatchTable.InsertAppends` | include/lc/hashtable.h:134-160 | When it does not, the value is stored behind all of its queue; every other queue is untouched. |
| `MatchTable.TableInsertQueues` | include/lc/hashtable.h:97-161 | For the whole table, whatever the hash: an insert acts on the queue of its key and on no other. |
| `MatchTable.Table.InsertInto` | include/lc/hashtable.h:97-161 | The table object does what the specification says, returning 1 when it stored and 0 when it took out. |
| `MatchTable.KthMatchesKth` | include/lc/hashtable.h:97-161 | In every run the k-th receive posted under a key is matched with the k-th message that arrived under it; the rest waits in order. |
| `MatchTable.NeverBothWait` | include/lc/hashtable.h:97-161 | A key never has receives and messages waiting at the same time. |
| `ProtoWord.RoundTrip` | src/include/proto.h:20-23 | Protocol and endpoint survive the packed word. |
| `ProtoWord.TagRoundTrip` | src/include/proto.h:20-24 | The tag survives it if and only if it fits sixteen bits. |
| `Messaging.KeysDiffer` | include/lc/macro.h:14-14 | Ranks and tags give distinct keys that the table can use. |
| `Messaging.MeetKeepsCore` | src/include/proto.h:160-185 | A receive and a packet that meet, eagerly or by rendezvous, keep the invariant of messages, packets and receives. |
| `Messaging.DropKeepsCore` | src/include/proto.h:252-285 | Dropping a reference to a rendezvous packet, and completing with the last one, keeps it. |
| `Messaging.RdmaDropping` | src/include/proto.h:277-285 | When RDMA data arrives its packet is in use, its memory registered and a reference due. |
| `Messaging.RtrArriveKeepsCore` | src/include/proto.h:109-119 | Starting the RDMA write from what the RTR echoes keeps it. |
| `MessageOrder.StepKeepsInv` | src/tag.c:4-43 | Every send, receive, arrival and later event keeps the whole invariant. |
| `Messaging.DeliveredIffFits` | src/medium.c:13-15 | A message is delivered as it was sent if and only if it goes in no packet or has no more bytes than a packet has room for. |
| `MessageOrder.EndToEnd` | src/tag.c:4-43 | In every run whose messages fit their packets, when the k-th receive posted for a rank and tag completes, it completes once and holds the bytes of the k-th message that rank sent under that tag, whichever came first and whichever protocol was used. |
| `MessageOrder.EndToEndExact` | src/tag.c:12-16 | In every run, fit or not, a receive that completes has its message, and has that message's bytes if and only if it fits. |
| `MessageOrder.TooLargeIsCut` | src/tag.c:12-16 | A medium message with more bytes than a packet's room, sent to a posted receive, does not give that receive its bytes: a run for every such message. |
| `MessageOrder.NothingLost` | src/tag.c:22-43 | When everything from a rank came to rest, every receive for which there is a message has completed, with that message's bytes if and only if it fits. |
| `MessageChannel.ReceivedIsPrefix` | src/tag.c:4-43 | In every run whose messages fit: what receives posted one at a time for a rank and tag have got so far are the first messages that rank sent under that tag, in order. |
| `MessageChannel.ChannelStep` | src/coll/common.h:103-110 | Sent and not yet received messages of a rank and tag are a queue: a send appends its bytes, the completion of a receive takes the first out into its buffer, and no other event touches it. |
| `MessageOrder.CallbackOnce` | src/include/proto.h:264-267 | In every run the sender's callback of a short or medium message has run exactly once, that of a long one exactly once if its RDMA write was issued and has been sent, and not at all before. |
| `MessageOrder.DeregisteredOnce` | src/include/proto.h:277-284 | In every run each receive matched with a long message has exactly one registration, undone once if its data has arrived and not at all before; an RDMA write under way finds it in place. |
| `MessageOrder.RtrSentCompletes` | src/include/proto.h:257-263 | The completion of the RTR's send completes the receive exactly if the data has already arrived. |
| `MessageOrder.RdmaCompletes` | src/include/proto.h:277-285 | The arrival of the data completes the receive exactly if the RTR's send has already completed. |
| `RingBuffer.Ring.PushTop` | include/lc/dequeue.h:45-55 | A push adds at the top; it overflows exactly when one cell was left. |
| `RingBuffer.Ring.PopTop` | include/lc/dequeue.h:33-43 | A pop at the top takes the newest element, nothing exactly when empty. |
| `RingBuffer.Ring.PopBot` | src/include/cq.h:41-51 | A pop at the bottom takes the oldest element, nothing exactly when empty. |
| `RingBuffer.PushSpan` | src/include/cq.h:29-39 | Moving the top past a stored element adds it to the contents, or meets the bottom exactly when one cell was left. |
| `RingBuffer.NextMasks` | include/lc/dequeue.h:38-49 | Masking is stepping around the buffer, in both directions. |
| `PacketPool.GetKeeps` | include/lc/pool.h:124-135 | A get takes one packet out of one pool, the own one first, or none, and keeps the table of pools. |
| `PacketPool.GetExact` | include/lc/pool.h:124-135 | A get gives the newest packet of the own pool if it has one, else the oldest of the pool drawn, and nothing if and only if both are empty; every other pool is left alone. |
| `PacketPool.PutExact` | include/lc/pool.h:103-107 | A put adds the packet on top of the worker's own pool and leaves every other alone. |
| `PacketPool.PutBackExact` | include/lc/pool.h:109-112 | A packet put back by a number goes on top of that pool, with -1 on top of the worker's own, and with a number that is no pool's nowhere. |
| `PacketPool.PutKeeps` | include/lc/pool.h:103-107 | A put adds the packet to exactly one pool, made first if the worker has none. |
| `PacketPool.PoolsFit` | include/lc/pool.h:72-91 | There are never more pools than the table of workers has rows. |
| `PacketPool.PutBackKeeps` | include/lc/pool.h:109-112 | A packet that remembers the pool of a worker comes back to exactly one pool if and only if that pool is below 128 or at least 255. |
| `PacketPool.PutBackHome` | include/lc/pool.h:109-112 | It comes back to the same pool if and only if that is below 128, or 255 and put back by its own worker. |
| `PacketPool.DevicePool.GetLocal` | include/lc/pool.h:72-91 | The table in memory gives the worker's pool number, with a new buffer on first use. |
| `PacketPool.DevicePool.PutOwn` | include/lc/pool.h:103-107 | The put in memory is the put specified, and overflows exactly when one cell of the buffer was left. |
| `PacketPool.DevicePool.GetAny` | include/lc/pool.h:124-135 | The get in memory is the get specified and pinned by `PacketPool.GetExact`: top of the own buffer, else bottom of the one drawn. |
| `PacketPlaces.OpenedGood` | src/include/lc_priv.h:72-78 | A device starts with each of its 1024 packets in one pool, remembering pool 0. |
| `PacketPlaces.GiveBack` | src/include/proto.h:75-81 | Freeing a data packet puts it in one place: the pool it remembers, the worker's own, or, through a number that is no pool's, nowhere. |
| `PacketPlaces.FreeDataExact` | src/include/proto.h:75-81 | It is freed into exactly one pool if and only if the pool it was marked with is below 128 or at least 255, and lost otherwise. |
| `PacketPlaces.GiveCompletion` | src/include/proto.h:209-236 | Dispatching a completion hands its packet to the completion queue or back to a pool, once (to which, and in which order, is `CompletionQueue.CompletionsInOrder`). |
| `PacketPlaces.Serve` | src/include/proto.h:121-129 | The packet of an RTS becomes its RTR: it serves the rendezvous and is with the network, and nowhere else. |
| `PacketPlaces.RtrDone` | src/include/proto.h:257-263 | When an RTR has been sent its packet is only a target of the RDMA write. |
| `PacketPlaces.FreeInto` | src/include/proto.h:70-73 | On the pool in memory, freeing a packet never overflows. |
| `PacketPlaces.FreeDataInto` | src/include/proto.h:75-81 | Nor does freeing a data packet, which finds its pool, while there are at most 128. |
| `PacketPlaces.QueueInto` | src/include/proto.h:102-107 | Nor does a push to the completion queue. |
| `CompletionQueue.CompletionsInOrder` | src/include/proto.h:102-107 | In every run, at every rank with a completion queue: what was popped so far and then what is still queued are the packets of the completed receives, one for each, in the order in which they completed; with any other completion nothing is ever queued. |
| `CompletionQueue.OneCompletion` | src/include/proto.h:161-285 | In every run an event completes at most one receive of a rank. |
| `CompletionQueue.StepBalanced` | src/include/proto.h:207-285 | Every event queues the packet of the receive that it completes, and no other, or pops the oldest. |
| `PacketHomes.FreeExact` | src/include/proto.h:70-73 | A packet is freed on top of the worker's own pool, and no other pool changes. |
| `PacketHomes.FreeDataPlace` | src/include/proto.h:75-81 | A data packet is freed on top of the pool it remembers, with -1 on top of the worker's own, and is lost if there is no such pool. |
| `PacketHomes.SentPlace` | src/include/proto.h:252-275 | Of the packets sent, an RTS or the packet of an RDMA write goes to the own pool of the worker that sees it sent, a data packet to the pool it remembers if it remembers one. |
| `PacketHomes.FreedPlace` | src/include/proto.h:70-73 | The packet of a freed request goes to the own pool of the worker that frees it. |
| `PacketHomes.ArrivePlace` | src/include/proto.h:161-174 | A data packet that meets its receive goes to the completion queue, and without one to the pool it remembers. |
| `PacketHomes.RecvPlace` | src/tag.c:31-41 | So does one that a receive finds waiting. |
| `PacketHomes.ArriveMarks` | src/include/proto.h:156-182 | An arriving packet carries what the sender's header says and remembers the pool it was posted from, until it answers an RTS: then it is an RTR and remembers no pool. |
| `PacketHomes.RecvMarks` | src/tag.c:31-36 | A receive that finds an RTS answers it with the packet that brought it, and touches no packet otherwise unless it finds one. |
| `PacketHomes.NoticeToOwn` | src/include/server/server_ibv.h:129-134 | The packet that brought the notice of an RDMA write goes on top of the own pool of the worker that handles it. |
| `PacketHomes.SendExact` | src/tag.c:4-20 | A short message takes no packet; any other takes the one that the pool gives and is turned away exactly if it gives none; the message is on its way with its bytes unless it is long. |
| `PacketHomes.SendMarks` | src/medium.c:8-15 | The packet says whether it carries data or announces a long message, and remembers the sender's own pool exactly for data of more than 1024 bytes. |
| `PacketHomes.PostExact` | src/include/server/server_ibv.h:158-168 | A packet is posted if fewer than 64 are and the pool gives one; it remembers the own pool of the worker that posts it. |
| `PacketHomes.AtMostPosted` | src/include/server/server_ibv.h:158-168 | In every run a device never has more than 64 packets posted. |
| `NetworkRuns.StepKeepsInv` | src/include/proto.h:109-285 | Every handler, run for whatever the network reports, except a send that does not fit its packet, keeps each packet of each device in one place, the header of each packet being sent or waiting right, and each callback with one packet. |
| `NetworkRuns.RtrUnrefKeeps` | src/include/proto.h:257-259 | When the send of an RTR completes, the packet goes with its last reference and only then. |
| `NetworkRuns.UnrefKeeps` | src/include/proto.h:277-285 | The same when its data arrives. |
| `NetworkRuns.ArriveKeepsDev` | src/include/proto.h:160-185 | An arriving message or RTS takes its packet from the posted ones to the table, the completion queue, a pool or a rendezvous. |
| `NetworkRuns.PostedIsFresh` | src/include/server/server_ibv.h:113-122 | In every run whose messages fit, what arrives arrives in a packet that the protocol is not using. |
| `NetworkRuns.Conserved` | src/include/lc_priv.h:72-78 | In every run of any number of ranks whose messages fit, each of the 1024 packets of each device is in exactly one place. |
| `NetworkRuns.NoneLost` | src/include/proto.h:75-81 | In every run whose messages fit, no packet is lost while at most 128 workers have a pool on its device. |
| `NetworkRuns.LosesPacket` | src/medium.c:8-16 | With 129 workers a medium message can lose its packet: a run that does. |
| `NetworkRuns.NoOverflow` | include/lc/dequeue.h:50-53 | In every run whose messages fit, and in which the completion queue starts empty, pools and completion queues hold at most 1024 packets, so no push overflows. |
| `NetworkRuns.EndpointRun` | src/tag.c:4-43 | In every run of the network whose messages fit, each endpoint is where a run of its own leaves it, so what holds of every run of one endpoint holds at every rank. |
| `NetworkRuns.EndToEndEverywhere` | src/tag.c:4-43 | So at every rank, while messages fit, the k-th receive posted for a source and tag gets the bytes of the k-th message. |
| `NetworkRuns.ChannelsEverywhere` | src/tag.c:4-43 | And at every rank the receives posted one at a time for a source and tag have got the first messages sent, in order. |
| `NetworkRuns.CallbackAtSource` | src/include/proto.h:264-267 | In every run whose messages fit an RTR goes to the rank its message came from; the packet of an RDMA write runs a callback of its own rank that is due, and no other packet runs that one. |
| `PacketRoom.IntactIffFits` | src/medium.c:6-16 | In any state, a message that goes out is delivered as it was sent and copied into its own packet only, if and only if it has no more bytes than the packet's room or goes by rendezvous. |
| `PacketRoom.OtherContextsKept` | src/include/lc_priv.h:72-78 | A send changes no context but that of its packet, and that of the next packet only if the message does not fit. |
| `PacketRoom.NextContextIsData` | src/include/packet.h:16-27 | At the size `lc_max_medium` promises, the next packet's header and pool number are bytes of the message afterwards. |
| `PacketRoom.LosesPacketByCopy` | src/misc.c:9-12 | So a single worker can lose a packet by one such message: a run from the start, for every message whose byte in that place is neither 0 nor 255. |

## Left out

- Network back ends, process management, thread affinity: only their events appear, as inputs of a step.
- LcrqEmpty.EmptyHanded: a value may also be missing because a dequeuer that has its ticket has not taken it yet; and the quick test is taken to read the tail before the head, as it is written, where the language leaves the order of the two reads open.
- The thread-local spare ring of an enqueuer (`src/lcrq.c:173`) is modelled as a ring made when it is linked.
- Reclamation of rings (the code leaks them on purpose).
- LcrqProgress.AloneReturns: is for an operation that runs alone; that some operation always returns whatever the interleaving is not proved.
- Retries of a failed double-word CAS do not occur when operations run one at a time, so `LcrqSequential` has no loop around a single cell.
- AvlTree.Delete: says nothing about the data behind the pointer returned by a deletion, which the two-child case overwrites.
- AVL lookups of minimum and maximum, walking and disposing of a tree.
- The links between areas, list entries and unused registrations are sequences, not pointers; free lists of list cells and areas, and the count of pinned pages, are not modelled.
- The failure path of an insert: the page limit that causes it is compiled as 0.
- Freeing registrations inside a range, delayed deregistration, the in-use counter.
- Registrations on several adapters succeed or fail together.
- AllreduceValue.AllreduceValue: in-place allreduce is the case where input and result buffer start equal; allreduce with one rank, which only copies, is left out.
- Barrier.SomeoneMoves: is for sends that complete on their own, as the one-byte messages of a barrier do; so is Barrier.BarrierEnds.  For sends that wait it is false (`BarrierSeries.WaitingSticks`).
- PacketRoom.NextContextIsData: of an overwritten context the model has the header and the pool number; the request, endpoint and reference count that are overwritten too are not modelled, nor is memory behind the last packet.
- MessageOrder.TooLargeIsCut: a receive completes with what fits, where a network interface may report an error and complete nothing; either way it does not get its bytes.
- Barrier.BarrierSafety: is for ranks that start a barrier only after their previous one is flagged.
- Broadcast, whose schedule can outgrow its array at the root.
- The particular hash function (`include/lc/hashtable.h:61-74`): the table is proved for every hash function, since it only decides which keys share a bucket.
- Each device has one endpoint, with explicit receives; endpoints that share a device, endpoints of other kinds (dynamic and immediate allocation) and the put family are not modelled.
- A send that is turned away because packets run short (`lcg_deadlock`) changes nothing; it is not a step.
- The size field of a request after an expected long receive, which the code does not update.
- NetworkRuns.Conserved: counts a packet put back through a number that is no pool's as lost; what the program then does is undefined and not modelled further.
- Network interfaces other than the verbs one use up posted packets differently on an RDMA write.
- The get that steals at random until it succeeds (`include/lc/pool.h:93-122`), which the runtime does not use; the pool drawn by the other one is an input.
- Destroying queues, tables, pools and trees.
