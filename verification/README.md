# Simplx engine core, modelled and proved in Dafny

Simplx runs actors on one event loop per CPU core.  Loops exchange events over lock-free shared areas, destroy
actors in a re-entrant loop, decide by counting references when a core may stop, and tear services down in a fixed
order across cores.  This project models that core, and the queues and tables it is built on, and proves what they
promise: for every input, every interleaving and every run.

| files | what they model |
|---|---|
| `Parallel`, `ParallelSafety`, `ParallelRuns` | the hand-over protocol between N nodes at the granularity of flag accesses; nodes start, loop, stop and restart |
| `ParallelPasses`, `ParallelWrites`, `ParallelReturns`, `ParallelProgress` | what one pass of a node gets done: it reads what is locked, writes what is cached, takes back what was handed to a dead node, and never gets stuck |
| `ChannelPayload`, `ChannelPages`, `ChannelBlocks`, `ChannelCalls`, `LocalChannel`, `SharedChannel`, `Batches` | the events and pages that travel on a channel, a node's channel to itself, the same as an object updated in place, and the batch objects watching it |
| `RefGraph`, `References`, `ReachabilityCount` | the actor reference graph: chains, counters, cycle checking, the count that decides shutdown |
| `ActorLife`, `EventLoop`, `LifeMoments`, `PrivateReferences`, `Shutdown` | the destruction loop with arbitrary callbacks, on values and in place, every state it passes through, and the shutdown test there |
| `Services`, `TeardownProgress` | the teardown of services in reverse order, over many cores, and that it can always be completed |
| `BlockAllocator` | the size-class allocator |
| `ForwardChain`, `ChainEnds`, `ChannelEnds`, `DoubleChain` | the intrusive chains, on heap links, and the ends of a channel's chains |
| `Ring`, `RingHistory`, `Bus`, `BusRuns` | the single-producer single-consumer ring, step by step, against an atomic queue and over an array, and the bus channel on it, call by call and between two threads |
| `CircularBuffer` | the TCP byte buffer |
| `Handlers`, `EventTables` | the event handler table of an actor, and the recycling of tables by a node |
| `Timers`, `TimerRuns` | the timer multiplexer of a core |
| `Wrappers`, `Sequences` | an option type; chains as sequences and copies over arrays |

Where the source updates objects step by step, a class does so here, and its methods are proved equal to functions
on values; what the source promises is proved about those functions.  The protocol between nodes, the teardown and
the ring are step systems, and their theorems quantify over all runs.

`dafny verify dfyconfig.toml` checks the project.

## What the code does that its documentation does not say

- A failed write returns the events of the write cache to their senders without moving the batch id, so
  `isPushCommitted` may go on answering that an event can be amended when it is gone (`Batches.FailedWriteGoesUnseen`
  says exactly when, `Batches.FailedWriteMisleads` gives the run).
- A release build counts every unregistration of an undelivered-event handler, also of one already unregistered; the
  counter then falls below the number of handlers (`Handlers.CounterFallsShortBy` says by how much).
- `Publisher::publishAll` is documented to send as much as fits; it sends everything or nothing, and never sends more
  values than the ring holds (`Bus.DocumentedIff`, `Bus.EverSentIff`).  `publishOne` overtakes values that
  wait (`Bus.OvertakesIffOthersWait`).
- A dequeue of several values that overlaps others going in may return less than is asked for and held when it ends,
  and no order of whole calls explains that (`RingHistory.NoOrderExplains`); `Subscriber::readAll` during `publishOne`
  does so.  Dequeues of one value and what `Publisher` does are atomic (`RingHistory.WholeCallsNeverMiss`).
- `CircularBuffer::shiftBuffer` zeroes the start of the array instead of the bytes dropped when the content is in one
  piece; no byte that is kept is touched.  A full buffer may have its reader at the end and its writer at 0.
- A timer set while the clock reads zero does not start (`TimerRuns.ClockZeroStartsNothing`).
- A chain spliced out of another keeps a stale tail, and beginning it would cut the other chain
  (`ForwardChain.StaleTailCuts`); the channel code never begins one (`ChannelEnds.EveryChannelHasEnds`).

## Model

| member | source | states |
|---|---|---|
| ParallelRuns.MutualExclusion | include/trz/engine/internal/parallel.h:75-209 | In every reachable state of N nodes that start, loop, stop and restart, reader and writer of a link are never in its shared area together |
| ParallelRuns.AssertionsHold | include/trz/engine/internal/parallel.h:75-209 | Every step of every run meets the assertions the source makes there: flags at construction and destruction, lock bits after the barrier, list sizes, the payload's delivered flag, a page left for a failed write |
| ParallelRuns.ChannelsAreSound | src/engine/node.cpp:972-1215 | In every run the events of every link are conserved and its pages are safe |
| ParallelRuns.UnlockedMeansRead | include/trz/engine/internal/parallel.h:174-209 | Outside hand-over and teardown, a link that is not write-locked was read or is empty, so a write never overwrites unread events |
| ParallelRuns.NoLostNotice | src/engine/node.cpp:242-266 | While the writer loops, undelivered events in its area imply that the reader is about to notify it, a notice is handed over and unread, or the writer is about to write |
| ParallelRuns.FilledCacheIsSignalled | src/engine/actor.cpp:831-838 | A write cache with events keeps its write signal up until the write that empties it |
| ParallelRuns.DeadNodesHaveEmptyCaches | include/trz/engine/internal/parallel.h:260-283 | A node is gone only when its write caches are empty and its links unlocked |
| ParallelRuns.RunInv | include/trz/engine/internal/parallel.h:244-328 | The system invariant holds after any number of moves of any nodes |
| ParallelPasses.PassReadsWhatIsLocked | include/trz/engine/internal/parallel.h:121-145 | In every run, a link that is locked when a pass of its reader begins has been read when the pass turns to writing, is recorded to be unlocked, and every event that was unread has been presented; when the pass has done its unlocking the link has been unlocked |
| ParallelWrites.PassWritesWhatIsCached | include/trz/engine/internal/parallel.h:174-209 | In every run, what is cached on an unlocked link when a pass of its writer begins, events or a request for a notice, has left the cache when the pass ends: handed over and the link locked if the reader was up throughout, given back if it was down throughout, one of the two otherwise |
| ParallelReturns.PassTakesBack | include/trz/engine/internal/parallel.h:147-173 | If the reader of a locked link is gone throughout a pass of its writer, the pass ends with the link unlocked, the area empty, and every event neither consumed nor given back before given back |
| ParallelReturns.RunRemembers | include/trz/engine/internal/parallel.h:174-209 | In every reachable state a writer that has handed a link over remembers it, so that it looks for readers that have gone |
| ParallelProgress.PassCompletes | include/trz/engine/internal/parallel.h:291-328 | In every reachable state a node in its loop can end its pass by steps of its own, whatever the others are in the middle of |
| ParallelProgress.NodeComesUp | include/trz/engine/internal/parallel.h:243-258 | A node that is down comes up by steps of its own, unless a writer holds one of its links just then |
| ParallelSafety.StepKeepsNode | include/trz/engine/internal/parallel.h:121-145 | A step of a node keeps its program counter, its place on each link and its two index lists consistent |
| ParallelSafety.StepKeepsCoordination | include/trz/engine/internal/parallel.h:75-209 | A step keeps the flags of both links in agreement with where reader and writer are, the hand-over rule, the write signals and the return notices |
| ParallelSafety.StepKeepsSound | src/engine/node.cpp:972-1215 | A step keeps both channels of the pair sound: it reads only unread areas and writes only read ones |
| ParallelSafety.OtherViews | include/trz/engine/internal/parallel.h:62-73 | A step on the links with one peer changes nothing another peer can see, except that the node has started |
| ParallelSafety.AssertionsHoldLocally | include/trz/engine/internal/parallel.h:298-312 | The assertions follow from the invariant of the moving node and of the pair |
| ChannelPayload.EachEventOnce | src/engine/node.cpp:1154-1215 | Within a writer's lifetime every pushed event is in exactly one of: write cache, unread area, undelivered chain, consumed, given back |
| ChannelPayload.FirstCallsInPushOrder | src/engine/node.cpp:988-1037 | The events of a channel are presented to their handlers in push order |
| ChannelPayload.PushConserves | src/engine/actor.cpp:831-838 | A push adds one event to the cache or nothing, and keeps the books |
| ChannelPayload.ReadConserves | src/engine/node.cpp:972-1037 | A read settles each event of the area once: consumed or moved to the undelivered chain |
| ChannelPayload.WriteConserves | src/engine/node.cpp:1154-1215 | A write returns the undelivered events and hands the cache over without losing one |
| ChannelPayload.WriteFailedConserves | src/engine/node.cpp:314-350 | A failed write returns everything not consumed, handed over or not |
| ChannelCalls.FailedCalls | src/engine/node.cpp:314-350 | The calls a failed write makes are what the books have as given back: with those made before, every pushed event that no handler consumed, once, the area's first |
| ChannelCalls.WrittenCalls | src/engine/node.cpp:1154-1183 | The calls a write makes are for the events the reader refused, and for no others |
| ChannelCalls.VerdictDecides | src/engine/node.cpp:988-1037 | An event is consumed iff its handler took it, and on its way back to its source iff it was refused |
| ChannelCalls.PushRefusedIff | src/engine/node.cpp:1255-1314 | A push is refused, with nothing changed, exactly when the event fits neither the front page nor a page that is free or may still be made |
| ChannelCalls.PageMadeIff | src/engine/node.cpp:1255-1314 | A page is made exactly when a push needs one, none is free and an index is left; a push never lets go of a page |
| ChannelCalls.WriteRecycles | src/engine/node.cpp:1154-1215 | After a write the pages handed over last time are the writer's, those that carry the cached events are handed over, and so is the request for a notice |
| ChannelPages.NoEventOnAFreePage | src/engine/node.cpp:1255-1314 | No queued event lies on a free page, nor on a page owned by the other side |
| ChannelPages.PushIsSafe | src/engine/node.cpp:1275-1314 | An allocation lies inside one used page, apart from every event queued there |
| ChannelBlocks.AllocationsApart | src/engine/node.cpp:1275-1314 | However many allocations a batch makes, with or without an event coming of them, no two share a byte; all lie on the pages that leave with the next hand-over |
| ChannelBlocks.AllocationsSpareEvents | src/engine/node.cpp:1275-1314 | No allocation shares a byte with an event that was in the cache before |
| ChannelPages.WriteIsSafe | src/engine/node.cpp:1184-1212 | A write moves used pages with their events and frees only pages of events already done with |
| ChannelPages.WriteFailedIsSafe | src/engine/node.cpp:331-337 | A failed write frees all pages and finds one to go on with |
| ChannelPages.PagesRemain | src/engine/node.cpp:334-334 | The assertion before the failed write takes a free page holds |
| LocalChannel.LocalEventsAreSafe | include/trz/engine/internal/node.h:985-1067 | A node's events to itself are waiting, being dispatched, consumed or returned, in push order, and never on a free page |
| LocalChannel.SwapKeeps | include/trz/engine/internal/node.h:1000-1021 | Swapping the cached events out, with their pages, keeps events conserved and pages safe |
| LocalChannel.DispatchKeeps | include/trz/engine/internal/node.h:1023-1031 | Dispatching or returning the next event in place keeps the books |
| ChannelCalls.LocalVerdictDecides | include/trz/engine/internal/node.h:1023-1031 | An event to the node itself is consumed iff it was handled, and given back at once iff not |
| ChannelCalls.LocalTurnSettlesAll | include/trz/engine/internal/node.h:985-1031 | One turn takes every event that waited when it began to its handler or back to its source, in push order, whatever the handlers push meanwhile; with that each event pushed before is consumed or given back, and what the handlers pushed waits |
| SharedChannel.Shared.NewEventPage | src/engine/node.cpp:1255-1273 | Takes a free page or creates one; fails when the index counter is used up |
| SharedChannel.Shared.AllocateEvent | src/engine/node.cpp:1275-1292 | The in-place allocation does what the allocation on values does, and returns where the event lies |
| SharedChannel.Shared.PushEvent | src/engine/actor.cpp:831-838 | The in-place push does what the push on values does |
| SharedChannel.Shared.DispatchChain | src/engine/node.cpp:988-1037 | The loop that erases undeliverable events while iterating keeps the others in order and appends the erased ones to the undelivered chain |
| SharedChannel.Shared.ReadEvents | src/engine/node.cpp:972-1037 | The in-place read does what the read on values does, and reports whether the writer must be notified |
| SharedChannel.Shared.WriteEvents | src/engine/node.cpp:1154-1215 | The in-place write does what the write on values does and calls back for exactly the events refused; it is worth reading iff there is a notice or an event |
| SharedChannel.Shared.WriteFailedEvents | src/engine/node.cpp:314-350 | The in-place failed write does what the one on values does, and its calls are exactly what the books then have as given back |
| Batches.CommittedIffHandedOver | include/trz/engine/actor.h:3379-3403 | In every run, on a channel to another node or to the node itself, failed writes included, isPushCommitted answers true iff the cache was handed over since the object last asked, or it was told to, or the id has run out |
| Batches.FailedWriteGoesUnseen | src/engine/node.cpp:314-338 | In every run the answer is right iff it was true, or no failed write has taken away an event pushed since the object last asked |
| Batches.FailedWriteMisleads | src/engine/node.cpp:314-338 | On a channel as constructed, whatever its page size: watch, push, fail, and the answer says the event may be amended although it is gone |
| Batches.NothingLostWithoutFailure | include/trz/engine/internal/node.h:1000-1021 | In every run without failed writes, also on a node's channel to itself, the answer is right: it is true, or every event pushed since the object last asked is still in the cache |
| Batches.StepKeeps | src/engine/node.cpp:1184-1212 | A push, hand-over, failed write, read, local turn or question keeps the ids of the objects and the cache as those two results need them |
| ReachabilityCount.CountIsReachable | src/engine/engine.cpp:835-884 | The recursive count without a visited set equals the number of actors reached from unreferenced roots |
| ReachabilityCount.OnlyReferencedLeft | src/engine/engine.cpp:858-884 | The test compares equal iff every live actor is reached from an unreferenced root |
| ReachabilityCount.CountIsBelow | src/engine/engine.cpp:835-856 | The count below an actor is the size of the tree of its first-found references |
| ReachabilityCount.SiblingsDisjoint | src/engine/engine.cpp:835-856 | The trees below two references of one actor share no actor, parallel references and shared actors included |
| ReachabilityCount.RootsDisjoint | src/engine/engine.cpp:817-833 | The trees of two roots share no actor |
| ReachabilityCount.TakenUnique | src/engine/engine.cpp:835-856 | At most one reference into an actor is counted |
| ReachabilityCount.FoundIffReached | src/engine/engine.cpp:817-833 | The search over the roots finds a reference into the actor iff a root other than the actor reaches it |
| ReachabilityCount.FindFirstWithinFinds | src/engine/engine.cpp:817-833 | What it finds is a reference into the actor, held by an actor that a root reaches |
| ReachabilityCount.CountReferencedActors | src/engine/engine.cpp:835-856 | The recursive loop returns the count and terminates on every acyclic graph |
| ReachabilityCount.OnlyCoreAndServiceReferencedActorsLeft | src/engine/engine.cpp:858-884 | The loop over the core actor and the services decides whether only referenced actors are left |
| LifeMoments.EveryMomentIsSound | include/trz/engine/internal/node.h:1069-1119 | At every moment of every life, inside scripts, rounds, callbacks and destructors, the invariant of the loop holds |
| LifeMoments.RequestAfterwards | src/engine/engine.cpp:285-294 | Asking the core to go when an actor has gone does what asking at the end of that actor's destructor does |
| LifeMoments.TurnTakesEffect | include/trz/engine/internal/node.h:1069-1119 | The callback of an unreferenced actor and the destructor of one that ends do their work: what they make is live after the turn, and whom they ask to go has the flag |
| Shutdown.TestIsExactInEveryLife | src/engine/engine.cpp:858-884 | At every moment of every life the shutdown test is exact on the references the actors then hold |
| Shutdown.TestIsExactWhereEvaluated | src/engine/engine.cpp:335-370 | In particular while the core actor is asked and when an actor has just gone, any number of turns into a round |
| Shutdown.UnreferencedIsRoot | src/engine/engine.cpp:858-884 | When the test succeeds, an actor that nothing refers to is the core actor or a service |
| PrivateReferences.UnreferencedWithoutOwner | include/trz/engine/engine.h:990-1006 | At every moment of every life, nothing refers to an actor that only one other created references to, when that one is gone |
| Shutdown.TestAllowsStep | src/engine/engine.cpp:858-884 | So where only the wrapper of a service refers to its destroy actor, the test succeeds only on a core without a destroy actor whose service is gone, as the teardown of services needs |
| RefGraph.RecursiveFind | src/engine/RefMapper.cpp:103-117 | Terminates on an acyclic graph and returns true iff the actor is reached |
| References.AcyclicIffNotBack | include/trz/engine/actor.h:168-180 | A new reference keeps the graph acyclic iff its owner is not reached from its target |
| References.AttachKeeps | include/trz/engine/actor.h:149-180 | A created or copied reference keeps chains, counters and acyclicity |
| References.DetachKeeps | include/trz/engine/actor.h:213-235 | Unreferencing keeps them, and never decrements a counter of zero |
| References.RemovedKeeps | src/engine/actor.cpp:199-231 | An unreferenced actor can go; references left in its chain stay counted in their targets |
| References.InvGivesValid | include/trz/engine/actor.h:149-235 | Counters are at least the number of chained references in, which the shutdown count relies on |
| ActorLife.DoKeeps | src/engine/actor.cpp:365-375 | Every operation keeps every live actor in exactly one chain, whatever its label says, and every unreferenced actor that is to go queued |
| ActorLife.UnreferencedLetsGo | include/trz/engine/actor.h:213-235 | Letting go of a reference queues its target iff it was the last one, the target was not queued, and the reference or an earlier request wants it gone; otherwise chains and labels stay, and the flag is raised iff the last one to go wants that |
| ActorLife.ScriptFollows | include/trz/engine/internal/node.h:1069-1119 | No callback adds to the snapshot, ends an actor or ends the round |
| ActorLife.TurnKeeps | include/trz/engine/internal/node.h:1075-1117 | A turn takes the front off the snapshot and ends no other actor |
| ActorLife.RoundKeeps | include/trz/engine/internal/node.h:1069-1119 | The loop ends for any behaviour of the callbacks, with the snapshot empty and the invariant intact |
| ActorLife.OnlyAcceptedEnd | include/trz/engine/internal/node.h:1080-1103 | Only actors queued when the round began, that accepted when asked, are deleted |
| ActorLife.EndsIff | include/trz/engine/internal/node.h:1069-1119 | Whatever the callbacks do, a round deletes exactly the queued actors that, when their turn comes, are unreferenced, accept and are still unreferenced afterwards |
| ActorLife.QueuedAndAcceptingEnd | include/trz/engine/internal/node.h:1069-1119 | When callbacks make no references, a round deletes exactly the queued actors that accept and are unreferenced when their turn comes, which those unreferenced from the start are |
| ActorLife.NoDanglingReference | include/trz/engine/actor.h:149-235 | The target of a reference is live and counted |
| ActorLife.EveryLifeIsSound | include/trz/engine/internal/node.h:1069-1119 | In every life of a loop each live actor is running or queued, not both, and no unreferenced one is forgotten |
| EventLoop.Loop.RequestDestroy | src/engine/actor.cpp:365-375 | The in-place request does what the one on values does |
| EventLoop.Loop.CreateReference | include/trz/engine/actor.h:168-180 | Refused, with nothing changed, iff the target already reaches the owner |
| EventLoop.Loop.Unreference | include/trz/engine/actor.h:213-235 | Leaves chain and counter; the target is moved to the destroyed chain iff its counter was 1, it is not queued, and the reference's own flag or the target's wants it gone, and nothing else moves |
| EventLoop.Loop.AssignReference | include/trz/engine/actor.h:185-208 | Unreferences first, then takes what the other object holds by then; a self-assignment ends empty |
| EventLoop.Loop.UnchainAll | src/engine/actor.cpp:224-228 | The destructor's loop takes every reference out of the chain and leaves its target counted |
| EventLoop.Loop.SynchronizeDestroyActors | include/trz/engine/internal/node.h:1069-1119 | The in-place loop, with the assertions of the source, does what a round on values does, and terminates |
| Services.ReverseOrder | include/trz/engine/engine.h:1008-1079 | Services are deleted in strict reverse declaration order, and none before the engine and every core gave up their share of the count |
| Services.OneToken | include/trz/engine/engine.h:1008-1079 | Exactly one service, pending destroy actor or event holds the token, until all are gone |
| Services.EveryTeardownIsSound | src/engine/engine.cpp:256-279 | In every interleaving the token is at one place and the count is the engine's share plus one per unflagged core |
| Services.StepMovesToken | include/trz/engine/engine.h:1027-1061 | A step moves the token at most one place on |
| Services.StepKeepsGate | src/engine/engine.cpp:336-370 | A step keeps the count exact, and no service gone before its core's destroy time |
| Services.DeliveryIsSafe | include/trz/engine/engine.h:1037-1046 | The event finds its service alive, without the token, on a core that runs: both assertions hold |
| Services.TokenCanMove | include/trz/engine/engine.h:1072-1079 | Once the count is zero the token is never stranded, even if the event came before the core's destroy time |
| TeardownProgress.TeardownCompletes | include/trz/engine/engine.h:1022-1079 | From every reachable state steps of agreeing services, with memory, lead to the end of the teardown: the engine finished, all cores stopped, every service deleted, in reverse declaration order |
| Services.AllStoppedIsAllGone | src/engine/engine.cpp:336-352 | When all cores have stopped nothing of the services is left |
| Services.Teardown.CoreOnDestroyRequest | src/engine/engine.cpp:336-361 | A core without services stops; one with services that was shut down gives up its share of the count once and registers a callback; otherwise it waits |
| Services.Teardown.OnCallback | src/engine/engine.cpp:265-279 | Waits for the count, then asks every service of the core to go |
| Services.Teardown.DestroyServiceActors | include/trz/engine/engine.h:970-978 | The loop asks every service in the core's list |
| Services.Teardown.ServiceOnDestroyRequest | include/trz/engine/engine.h:1072-1079 | Accepts only at destroy time and with the token |
| Services.Teardown.HolderOnDestroyRequest | include/trz/engine/engine.h:1048-1067 | Sends the token to the service declared before, or asks to be asked again without memory |
| Services.Teardown.HolderOnEvent | include/trz/engine/engine.h:1037-1046 | Takes the token and requests the service's destruction |
| Services.Teardown.Finish | src/engine/engine.cpp:461-474 | Tells every node, then gives up the engine's share |
| BlockAllocator.HighestBit | include/trz/engine/internal/intrinsics.h:52-58 | The loop finds the logarithm; for 0 the counter wraps |
| BlockAllocator.LowestBit | include/trz/engine/internal/intrinsics.h:64-70 | The loop counts trailing zeros |
| BlockAllocator.Index | include/trz/engine/internal/node.h:561-569 | The branch-free class is the least k with 2^k at least max(size, 8) |
| BlockAllocator.ClassUnique | include/trz/engine/internal/node.h:561-569 | A size has one class |
| BlockAllocator.CarvedTiles | include/trz/engine/internal/node.h:515-531 | Carving tiles the bytes behind the link exactly, in multiples of 8, with a block of the wanted size first |
| BlockAllocator.EveryByteIsAccounted | include/trz/engine/internal/node.h:492-560 | Every byte of every page behind its link is in exactly one block, which is live or in exactly one chain |
| BlockAllocator.LiveBlocksApart | include/trz/engine/internal/node.h:492-560 | Live blocks share no byte |
| BlockAllocator.NewPage | include/trz/engine/internal/node.h:498-532 | A new page keeps both, and leaves a block of the wanted class |
| BlockAllocator.PageBytesFit | include/trz/engine/internal/node.h:500-502 | The page size holds a block and the link, in whole system pages, without overflow |
| BlockAllocator.Allocator.Carve | include/trz/engine/internal/node.h:513-531 | The carving loop terminates and pushes exactly these blocks on the chains of their classes |
| BlockAllocator.Allocator.Allocate | include/trz/engine/internal/node.h:492-547 | Returns a block not live before, of the class of the size, or fails with nothing changed when a page is needed and refused |
| BlockAllocator.Allocator.Deallocate | include/trz/engine/internal/node.h:548-560 | Puts the block in front of its chain: the next allocation of the class returns it |
| ForwardChain.Chain.PushBack | include/trz/engine/internal/mforwardchain.h:311-328 | Appends; a chain spliced out of is proper again |
| ForwardChain.Chain.PushFront | include/trz/engine/internal/mforwardchain.h:274-291 | Prepends |
| ForwardChain.Chain.PopFront | include/trz/engine/internal/mforwardchain.h:349-366 | Removes the first item without reading the last link |
| ForwardChain.Chain.PushBackChain | include/trz/engine/internal/mforwardchain.h:330-347 | Moves all items to the end; the other chain keeps a stale tail iff both had items, or it got one by the swap |
| ForwardChain.Chain.PushFrontChain | include/trz/engine/internal/mforwardchain.h:293-309 | Moves all items to the front |
| ForwardChain.Chain.Swap | include/trz/engine/internal/mforwardchain.h:368-373 | Exchanges items and tails, stale ones too |
| ForwardChain.Chain.Begin | include/trz/engine/internal/mforwardchain.h:382-392 | Terminates the last link |
| ForwardChain.Chain.Iterate | include/trz/engine/internal/mforwardchain.h:382-392 | From begin to end every item is visited once, in order |
| ForwardChain.Chain.Insert | include/trz/engine/internal/mforwardchain.h:226-246 | Inserts in front of the iterator |
| ForwardChain.Chain.Erase | include/trz/engine/internal/mforwardchain.h:249-271 | Removes the item at the iterator and moves on |
| ForwardChain.CleanIffEnds | include/trz/engine/internal/mforwardchain.h:382-392 | A chain on the heap may be begun exactly when the number of its items and its tail say so |
| ForwardChain.StaleTailCuts | include/trz/engine/internal/mforwardchain.h:330-392 | Beginning a chain with a stale tail cuts the chain its items went to |
| ChainEnds.BegunChainsAreClean | src/engine/node.cpp:314-350 | Whatever a channel does, every chain it begins has both ends or neither |
| ChannelEnds.EndsFollow | src/engine/node.cpp:1154-1215 | Each push, read, write and failed write of a channel, and each turn of a node's channel to itself, does to the number of items of its chains what the steps followed there do |
| ChannelEnds.EveryChannelHasEnds | src/engine/node.cpp:972-1215 | In every life of a channel, from its construction: the ends obtained by doing its moves step by step to the chains as built count its items, and every chain it begins there has both ends or neither |
| ChainEnds.PagesGoStaleIff | src/engine/node.cpp:1184-1212 | In every state a channel can be in, which page chains are stale after a step, given which were before: one goes stale iff its pages are spliced behind free ones, and chains pass it on when swapped; the free pages never do |
| DoubleChain.Chain.PushBack | include/trz/engine/internal/mdoublechain.h:434-453 | Appends |
| DoubleChain.Chain.PushFront | include/trz/engine/internal/mdoublechain.h:395-414 | Prepends |
| DoubleChain.Chain.Insert | include/trz/engine/internal/mdoublechain.h:303-328 | Inserts in front of the iterator |
| DoubleChain.Chain.Remove | include/trz/engine/internal/mdoublechain.h:331-392 | Takes an item out from its links alone; the assertions about head and tail hold |
| DoubleChain.Chain.PushBackChain | include/trz/engine/internal/mdoublechain.h:456-471 | Moves all items to the end and leaves the other chain properly empty |
| DoubleChain.Chain.PopFront | include/trz/engine/internal/mdoublechain.h:474-493 | Removes the first item |
| DoubleChain.Chain.PopBack | include/trz/engine/internal/mdoublechain.h:496-515 | Removes the last item |
| DoubleChain.Chain.Swap | include/trz/engine/internal/mdoublechain.h:517-522 | Exchanges the items |
| Ring.NextIndex | include/trz/pattern/bus/ringbuffer.hpp:33-39 | Wraps an index of the ring |
| Ring.AvailableComplement | include/trz/pattern/bus/ringbuffer.hpp:41-56 | With wrap-around unsigned arithmetic, readable and writable slots add up to max_size - 1 |
| Ring.FirstInFirstOut | include/trz/pattern/bus/ringbuffer.hpp:72-164 | In every interleaving of one producer and one consumer, what came out is a prefix of what went in, and the ring never overfills |
| Ring.RefusedIffNoRoom | include/trz/pattern/bus/ringbuffer.hpp:72-106 | The load of the read index decides, exactly: refused iff the ring then lacks the room; accepted jobs go in whole, or as far as there is room |
| Ring.NothingIffEmpty | include/trz/pattern/bus/ringbuffer.hpp:129-139 | A dequeue returns nothing iff the ring is empty when it loads the write index, else as much as asked and held |
| Ring.DequeuedAreOldest | include/trz/pattern/bus/ringbuffer.hpp:129-164 | A dequeue returns the oldest values, in order |
| Ring.CopiesNeverOverlap | include/trz/pattern/bus/ringbuffer.hpp:110-160 | Slots being written are never slots being read |
| Ring.StepKeeps | include/trz/pattern/bus/ringbuffer.hpp:72-164 | Every load, copy and store keeps the invariant, with stale indices |
| RingHistory.RunsAreAtomic | include/trz/pattern/bus/ringbuffer.hpp:72-164 | Every interleaving is a run of an atomic bounded queue: each call performs one operation on it, in its own interval; replayed one after the other these are allowed and leave what the ring holds; read strictly, as much as there is, iff no call has missed something |
| RingHistory.StepSimulates | include/trz/pattern/bus/ringbuffer.hpp:72-164 | A step performs at most one operation; a dequeue takes less than asked for and held at its store iff the producer stored in between and more was asked for than was held, and likewise a job content with less |
| RingHistory.WholeCallsNeverMiss | include/trz/pattern/bus/ringbuffer.hpp:72-106 | A dequeue of one value and a job that goes in whole or not at all are strictly atomic, whatever other calls do |
| RingHistory.ModestRunsAreStrict | include/trz/pattern/bus/ringbuffer.hpp:72-164 | A run of such calls is a run of the strict queue |
| RingHistory.DequeueOvertaken | include/trz/pattern/bus/ringbuffer.hpp:129-164 | A ring of three slots that holds a: a dequeue of two begins, b goes in, c is refused, the dequeue returns a alone |
| RingHistory.NoOrderExplains | include/trz/pattern/bus/ringbuffer.hpp:129-164 | No order of those three calls is one of the strict queue |
| Bus.RingBuffer.Enqueue | include/trz/pattern/bus/ringbuffer.hpp:72-85 | Appends one value, or refuses iff the ring is full |
| Bus.RingBuffer.EnqueueMany | include/trz/pattern/bus/ringbuffer.hpp:87-127 | Appends all, or nothing, or what there is room for |
| Bus.RingBuffer.CopyInSections | include/trz/pattern/bus/ringbuffer.hpp:108-123 | One or two sections write the slots behind the index, around the end, and nothing else |
| Bus.RingBuffer.Dequeue | include/trz/pattern/bus/ringbuffer.hpp:129-164 | Takes out the oldest values |
| Bus.Channel.Prepare | include/trz/pattern/bus/channel.hpp:45-50 | Stores a value for later |
| Bus.Channel.PublishOne | include/trz/pattern/bus/channel.hpp:61-71 | Sends one value past those that wait, or stores it |
| Bus.Channel.PublishAll | include/trz/pattern/bus/channel.hpp:79-94 | Sends all that waits or none; the byte-counting copy only runs when nothing was sent |
| Bus.Channel.ReadOne | include/trz/pattern/bus/channel.hpp:152-169 | Takes out the oldest value |
| Bus.Channel.ReadAll | include/trz/pattern/bus/channel.hpp:177-195 | Empties the ring |
| Bus.NothingLost | include/trz/pattern/bus/channel.hpp:61-195 | Over any calls nothing offered is lost or doubled |
| BusRuns.NothingLostBetweenThreads | include/trz/pattern/bus/channel.hpp:45-195 | However publisher and subscriber interleave on two threads, everything offered is received, held, waiting, on its way or refused, once each, and is received in the order in which it went in |
| Bus.OvertakesIffOthersWait | include/trz/pattern/bus/channel.hpp:61-71 | publishOne keeps the order of the values iff nothing waits or the ring is full |
| Bus.TooManyNeverGo | include/trz/pattern/bus/channel.hpp:79-94 | More waiting values than the ring holds are never sent, whatever is called |
| Bus.EverSentIff | include/trz/pattern/bus/channel.hpp:79-94 | Some calls send all that waits iff an empty ring has room for it |
| Bus.DocumentedIff | include/trz/pattern/bus/channel.hpp:73-94 | publishAll does what it is documented to do, send until the ring is full, iff everything fits or nothing does |
| Bus.DocumentedFails | include/trz/pattern/bus/channel.hpp:73-94 | Three values on a new channel for two: it sends none of them, documented are two |
| CircularBuffer.Buffer.WriteData | include/trz/connector/tcp/client/circularbuffer.hpp:139-195 | Appends all of the data or refuses, with nothing changed, iff it is empty or does not fit |
| CircularBuffer.Buffer.ReadData | include/trz/connector/tcp/client/circularbuffer.hpp:203-212 | Returns the content in one piece, from the cache if it is current |
| CircularBuffer.Buffer.ShiftBuffer | include/trz/connector/tcp/client/circularbuffer.hpp:219-270 | Drops the oldest bytes; zeroing from the start of the array touches none that is kept |
| CircularBuffer.Buffer.Clear | include/trz/connector/tcp/client/circularbuffer.hpp:277-287 | Empties the buffer |
| CircularBuffer.Buffer.CopyData | include/trz/connector/tcp/client/circularbuffer.hpp:295-318 | Copies the content out in one or two pieces |
| CircularBuffer.WriterFollows | include/trz/connector/tcp/client/circularbuffer.hpp:139-195 | The writer is the reader plus the size modulo the capacity; a full buffer has equal indices, or the reader at the end and the writer at 0 |
| CircularBuffer.AppendBetween | include/trz/connector/tcp/client/circularbuffer.hpp:145-155 | Writing towards a reader behind the writer appends, also when the reader stands at the end |
| CircularBuffer.DropFront | include/trz/connector/tcp/client/circularbuffer.hpp:231-263 | Moving the reader on drops a prefix, whatever is zeroed behind it |
| Handlers.DispatchesLikeAMap | src/engine/actor.cpp:387-610 | Over any registrations and unregistrations, allocation failures included, events are dispatched as by a finite map |
| Handlers.StepMatches | src/engine/actor.cpp:451-598 | Each operation does to fast slots and array what it does to the map |
| Handlers.OutcomesAreExact | src/engine/actor.cpp:451-598 | A registration is refused iff the event has a handler, fails iff the memory it needs is not to be had, and succeeds otherwise; nothing else fails |
| Handlers.RegisteredMeaning | src/engine/actor.cpp:451-481 | A registered event has its handler, no other event changes, and no event has two |
| Handlers.UnregisteredMeaning | src/engine/actor.cpp:567-585 | An unregistered event has none, no other event changes |
| Handlers.CapacityGrows | src/engine/node.cpp:85-92 | The size computed from the content grows exactly when the array is full |
| Handlers.CountRightIff | src/engine/actor.cpp:587-598 | The counter of undelivered handlers stays right unless a handler already unregistered is unregistered again |
| Handlers.CounterFallsShortBy | src/engine/actor.cpp:587-616 | Over a whole life the counter falls short by the number of repeated unregistrations since all handlers were last unregistered, and is right iff there is none |
| Handlers.CountMayFallShort | src/engine/actor.cpp:587-598 | In any table taken into use: unregistering one of two handlers twice leaves the counter at zero with the other live |
| Handlers.GrowingArray.Register | src/engine/actor.cpp:387-436 | Overwrites, revives or appends an entry; fails with nothing changed iff memory is needed and refused |
| Handlers.GrowingArray.Append | src/engine/actor.cpp:417-435 | Behind the last entry, in a larger array when the sentinel stands in the last place |
| Handlers.GrowingArray.Unregister | src/engine/actor.cpp:500-519 | Leaves a tombstone |
| Handlers.GrowingArray.UnregisterAll | src/engine/actor.cpp:521-540 | Leaves only tombstones |
| Handlers.GrowingArray.Find | src/engine/node.cpp:66-83 | Finds the handler of an event |
| Handlers.GrowingArray.Size | src/engine/node.cpp:85-92 | The size computed from the content is the allocated size |
| Handlers.EventTable.OnEvent | include/trz/engine/internal/node.h:1140-1157 | Dispatches to the fast slot, else to the array |
| Handlers.EventTable.RegisterEventHandler | src/engine/actor.cpp:451-481 | Registers in a free fast slot, else in the array; refuses a registered event |
| Handlers.EventTable.UnregisterEventHandler | src/engine/actor.cpp:567-585 | Frees the fast slot and buries the entry |
| Handlers.EventTable.RegisterUndeliveredEventHandler | src/engine/actor.cpp:486-498 | Registers and counts |
| Handlers.EventTable.UnregisterUndeliveredEventHandler | src/engine/actor.cpp:587-598 | Unregisters and counts, tombstones too |
| Handlers.EventTable.UnregisterAllEventHandlers | src/engine/actor.cpp:600-616 | Leaves no handler |
| EventTables.AddressesNeverChangeHands | src/engine/actor.cpp:679-693 | However tables are recycled, an address reaches its actor or nobody |
| EventTables.NewNodeIsSound | src/engine/node.cpp:296-302 | A node without tables, whose first actor id is 1, meets the invariant the run starts from |
| EventTables.RecycledTableIsFresh | src/engine/node.cpp:618-652 | A recycled table carries no handler of its previous occupant |
| EventTables.IdsAreUnique | src/engine/node.cpp:641-643 | No two tables carry the same id, and none is given out twice |
| EventTables.RetainSucceedsIff | src/engine/node.cpp:618-652 | An actor gets a table iff the node is not stopping, has an id left, and some table is vacant or memory is to be had; it gets a vacant one iff there is one, and no other table changes |
| EventTables.ServedUntilIdsRunOut | src/engine/node.cpp:618-652 | However tables were recycled, a node that is not stopping serves every actor there is memory for until its ids run out |
| EventTables.TableStore.RetainEventTable | src/engine/node.cpp:618-652 | Takes the table released last, or makes one; refused, with nothing changed, while stopping, when the ids have run out, or when no table is free and there is no memory |
| EventTables.TableStore.ReleaseEventTable | src/engine/node.cpp:654-675 | Gives the arrays back, and leaves the fast slots for the next occupant to clear |
| Timers.TimeOutCovers | src/pattern/timer/timeractor.cpp:99-142 | After a time-out event, for any set and unset in callbacks: what fired was due, every set proxy is started, and the last request is no later than any of them needs |
| Timers.TimeOutAnswers | src/pattern/timer/timeractor.cpp:99-131 | A time-out event calls exactly the proxies of the chain whose time has come, in chain order, but those an earlier callback of the event has set or unset |
| Timers.CalledOnce | src/pattern/timer/timeractor.cpp:116-130 | A due proxy that no earlier callback of the event touches is called exactly once |
| Timers.TimeOutSettles | src/pattern/timer/timeractor.cpp:99-142 | A proxy that no callback of the event touches is called iff it is due; it is set afterwards iff it repeats, from the time of the event, or was not due, and then as it was |
| TimerRuns.ClockZeroStartsNothing | src/pattern/timer/timeractor.cpp:84-142 | At a clock reading zero a set proxy whose time is not up stays unstarted, however many others are set and whatever callbacks do to those |
| TimerRuns.CoveredIffClockRuns | src/pattern/timer/timeractor.cpp:84-142 | A time-out leaves such a proxy started and covered iff its clock does not read zero |
| TimerRuns.ClockZeroReached | src/pattern/timer/timeractor.cpp:84-142 | Setting one proxy and an event at zero are enough for that |
| TimerRuns.EveryRunAttends | src/pattern/timer/timeractor.cpp:99-142 | After any sets, unsets and time-outs, in callbacks and between events, all set proxies are started and the last request is early enough for them, or one for now is under way, or none is set |
| Timers.SweptOk | src/pattern/timer/timeractor.cpp:105-117 | The first loop starts the unstarted, splits the chain and keeps the least remaining time |
| Timers.FiredAllKeeps | src/pattern/timer/timeractor.cpp:118-133 | The second loop calls only due proxies, whatever the callbacks do, and keeps unstarted proxies in front |
| Timers.PrefixStartedOk | src/pattern/timer/timeractor.cpp:135-139 | The third loop may stop at the first started proxy |
| Timers.DoKeeps | include/trz/pattern/timer/timerproxy.h:145-163 | Setting and unsetting keep the chain's order and what is due |
| Timers.DoAllShrinks | src/pattern/timer/timeractor.cpp:118-133 | No callback adds to the due chain: the loop ends |
| Timers.Multiplexer.GetTime | include/trz/pattern/timer/timerproxy.h:177-187 | A request for now is not repeated while one is under way |
| Timers.Multiplexer.Set | include/trz/pattern/timer/timerproxy.h:145-157 | Unsets, puts the proxy in front, and asks for the time now; keeps the order of the chain |
| Timers.Multiplexer.SweepChain | src/pattern/timer/timeractor.cpp:105-117 | The in-place first loop: what is due goes to the due chain, the rest stays, both in order |
| Timers.Multiplexer.FireDue | src/pattern/timer/timeractor.cpp:118-133 | The in-place second loop, which terminates |
| Timers.Multiplexer.StartPrefix | src/pattern/timer/timeractor.cpp:135-139 | The in-place third loop |
| Timers.Multiplexer.OnTimeOutEvent | src/pattern/timer/timeractor.cpp:99-142 | The handler, with the guarantees above: who is called, what becomes of the others, and the next request |

## Left out

- Engine-to-engine routing: routed chains, node connections and unreachable-node dispatch are taken as empty, as the open build only has stubs for them.
- Weak memory: every flag access, atomic and barrier is one sequentially consistent step; threads, affinity, priorities and sleeping are not modelled.
- Handlers that push to the same destination from inside a failed write: the protocol does not let a node push on a link while it returns that link's events.
- Buffered pipes that flush across loop iterations are not part of this model.
- Memory of dead nodes: events left in an area by an earlier lifetime of the writer are not part of the books of the new lifetime; pages and flags are.
- Liveness: that a node gets its turn, a callback returns or a thread is scheduled is not claimed, nor that a dying node ends.  What a pass gets done, that a node can always end its pass, and that the teardown can always be completed are proved; loops inside one call are proved to end.
- ParallelProgress.NodeComesUp: that a writer holding one of the links lets go is a step of that writer, not of the node that starts.
- Callbacks are scripts of the operations an actor may perform; that a script makes no reference to the actor being deleted is the assertion of its destructor, kept as a condition.
- Batch objects are values here; that they are fields of actors, copied with them, is not captured.
- The node's bit sets and index arrays are fields of a value in a step system, not of an object updated in place.
- A partially failed start, and a core started during shutdown, are not modelled; the list of services of a core is derived from who is live.
- Singleton indices and the callback chains, which share the relabelling idiom, are left out as easier.
- The destructor path of an actor whose constructor threw, which was never queued, is not modelled.
- Counters of references are unbounded; the source uses a machine word that no run can fill.
- BlockAllocator.Index: sizes above 2^63, which the source rules out by an assertion, are a condition.
- Debug bookkeeping of allocations, and the return of pages when an allocator is destroyed, are left out.
- The zero-capacity template, which keeps its size at run time, differs only in where the size comes from and is left out.
- The lookup of a subscriber by the dynamic type of a value, and the deletion of the value after it, are not modelled; what is taken out counts as received.
- CircularBuffer.Buffer.ShiftBuffer: a shift of more than the content, which underflows the sizes, is ruled out as its callers rule it out.
- The handlers themselves, and the exceptions they throw, are opaque; the chain of actors told about unreachable nodes is left out.
- Overflow of 64-bit nanoseconds in differences of clocks, the service side that sends the time-out event, and the retry of a request that could not be allocated.
- Timers.TimeOutCovers: the clock does not read zero; what happens when it does is stated by TimerRuns.CoveredIffClockRuns.
- Timers.TimeOutAnswers: the clock does not read zero, as above; so for Timers.TimeOutSettles and the handler.
- Debug builds poison the links of items taken out; links are left as they are here, as in a release build.
- TCP and HTTP plumbing, properties, streams, date and time, registry, wait conditions, performance counters and exception texts only have easier or external behaviour.
- Services: that a service which is still referenced is asked later is a delay like any other; who refers to it is not part of that model.
- The counter of undelivered handlers goes below zero where the unsigned counter of the source wraps.
- ChannelEnds.EndsFollow: the values of a channel know their items only; the tails are those the steps give them, which the chains on the heap are proved to give (ForwardChain).
- Actor-count listeners other than the core's; what the core's does when an actor has gone is in the model the last operation of that actor's destructor (LifeMoments.RequestAfterwards).
