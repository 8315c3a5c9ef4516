# NVGraph verification model

NVGraph is a trace-driven memory-system simulator derived from ChampSim and Pythia. Its behaviour
is that of hardware-like state machines over queues, tables and saturating counters. This project
models the machines with the most interacting state and proves what they keep over whole runs.

* **Cache miss handling.** One L1D over one L2: ring-buffer queues, miss status registers, a
  set-associative block array and an LRU order, driven by the fill, writeback, read and prefetch
  handlers. `Hierarchy` is the step machine; `MissProtocol` proves the request and return protocol,
  `L1Residency` that a line is in flight or resident but never both, `DirtyOwnership` that no dirty
  line is dropped, `StoreDirtiness` when a store leaves its line dirty and `LostStore` a run in which
  one does not, `RequestLife` that every load and store is queued, in flight or served in every
  state, and `LruHistory` that the victims of whole runs are the least recently used ways.
  `CacheDevice` and `HierarchyDevice` are the same handlers over arrays updated in place.
* **SPP.** The signature path prefetcher: counter invariants across the signature and pattern
  tables bound the confidence along a lookahead path, which gives termination of the lookahead loop
  and the accounting of useful prefetches. The 32-entry candidate queues, which the source does not
  check, hold exactly up to accuracy 103 at the default threshold, and a run of ordinary accesses
  passes that. `SppLearning` and `SppMeaning` say which deltas are learned from a run and which blocks
  an invocation issues (`SppSignature`, `SppPattern`, `SppFilter`, `Spp`, `SppLearning`, `SppMeaning`,
  `SppOverrun`, `SppDevice`).
* **Hashed LRU tables and Bingo.** A self-inverse hash, a table whose CAMs agree with its entries, an
  exact two-granularity lookup of rotated footprints, and the life of a region through four tables
  (`HashIndex`, `LruTable`, `CamSet`, `LruCache`, `Footprints`, `PatternHistory`,
  `PatternHistoryDevice`, `Streamer`, `Bingo`, `BingoStreaming`, `BingoRecency`, `BingoDevice`).
* **fastset.** A small sorted array or a bitset, refined to a mathematical set (`FastSets`).
* **Learning and rotation machines.** MLOP's score table and round-end selection (`Mlop`,
  `MlopDevice`), Sandbox's rotation of candidate offsets (`Sandbox`, `SandboxDevice`), and the DRAM
  cache with its counters, its FIFO policy, and what its hits do to recency and dirty lines
  (`DramCache`, `DramCacheUse`, `DramCacheDevice`).

Every group has the same shape. A specification on values gives each operation as a function on the
state; failing asserts of the source are `None`, `Abort` or `Failed`. The lemmas beside it prove the
invariants of single steps and of whole runs. A class with the source's arrays, counters and loops is
proved to compute that specification exactly.

## Conventions

* One core: the `cpu` field is dropped, and an empty queue slot or register is recognised by address 0,
  as the source does within a core. Requests have nonzero addresses.
* A message from one cache level to the next is delivered right after the handler's own part, in the
  order of the source. Where the source sends a message and then updates its own counters, the two
  touch different caches.
* The core, the prefetchers attached to the caches and the level below the L2 are events that may
  happen at any time: loads and stores that fill the L1D, prefetches of any fill level, an answer to
  any miss in flight, and draining of the lower write queue. The lower level may be full at any time.
* 64-bit cycle arithmetic wraps where the source's does; current cycles are below 2^64 - 1. SPP's
  prefetch addresses wrap at 64 bits and its path confidences at 32. Counters that only statistics use are unbounded.
* Bit masks `(1 << n) - 1` are remainders by `Pow2(n)`, and `|` of disjoint bit fields is a sum. The
  words of fastset are bit vectors.
* What the source computes with code outside this model is a parameter: SPP's `get_hash` and its filter
  hash are arbitrary functions, Bingo's vote thresholds an arbitrary function of the two counts, the
  Bloom filter of Sandbox an arbitrary gain per access, `std::sort` any permutation in descending order
  of score, `rand()` an arbitrary number, and the room in the cache's queues an arbitrary predicate.
* Where code and comment disagree the code is followed: `fill_cache` of an L1D makes a line dirty only
  for a register of kind RFO, and a hit in the DRAM cache updates the first line of the set, so that its
  LRU policy and dirty bits are right only as `DramCacheUse` says.

## Model

| member | source | states |
|---|---|---|
| PacketQueues.PacketQueue.CheckQueue | src/block.cc:3-74 | In empty, wrapped and full states, the slot of the oldest packet with the key, or -1 if no queued packet has it |
| PacketQueues.PacketQueue.AddQueue | src/block.cc:76-95 | The queue as a first-in first-out sequence grows by the packet at its end; the slot taken had address 0 |
| PacketQueues.PacketQueue.RemoveQueue | src/block.cc:97-117 | The sequence loses its first packet and the freed slot has address 0 again |
| Packets.FirstMatchConcat | src/block.cc:18-70 | Searching the two stretches of a wrapped ring one after the other finds the oldest match of the whole queue |
| MshrFile.AddMshrOk | src/cache.cc:1760-1783 | Taking a register keeps occupancy, num_returned and the next-fill fields exact, happens whenever a register is free, and adds one in-flight entry for the line and none for any other |
| MshrFile.ReturnOk | src/cache.cc:1657-1693 | Completing a register keeps all bookkeeping exact and removes exactly one in-flight entry for its line |
| MshrFile.MergeOk | src/cache.cc:418-437 | A second miss on an in-flight line keeps the bookkeeping and the number of in-flight entries of every line |
| MshrFile.ReleaseOk | src/cache.cc:300-305 | Freeing a completed register keeps the bookkeeping exact |
| MshrFile.NextFillLeast | src/cache.cc:1695-1727 | The scan yields a least event cycle of the completed registers and an index attaining it, and UINT64_MAX when there is none |
| MshrFile.InflightCount | src/cache.cc:1729-1758 | In a well-formed file a line has at most one register, and CheckMshr finds the in-flight one |
| CacheInvariant.FillStepOk | src/cache.cc:84-308 | A fill round fails no assert and keeps blocks in their sets, lru permutations, queues, registers and packet conservation |
| CacheInvariant.WritebackStepOk | src/cache.cc:310-582 | A writeback or store round fails no assert and keeps the cache invariant, counting the packet as one hit or one miss |
| CacheInvariant.ReadStepOk | src/cache.cc:584-881 | A read round keeps the cache invariant, including HIT + MISS = ACCESS and packet conservation |
| CacheInvariant.PrefetchStepOk | src/cache.cc:883-1115 | A prefetch round keeps the cache invariant |
| CacheInvariant.AddRqOk | src/cache.cc:1289-1426 | Taking, merging, forwarding or refusing a read keeps the cache invariant |
| CacheInvariant.AddPqOk | src/cache.cc:1554-1655 | Taking, merging, forwarding or refusing a prefetch keeps the cache invariant |
| CacheInvariant.AddWqOk | src/cache.cc:1428-1479 | add_wq fails exactly on a full queue that does not already hold the line, and otherwise keeps the cache invariant |
| CacheInvariant.ReturnDataOk | src/cache.cc:1657-1693 | With exactly one in-flight register for the line, return_data finds it and keeps the cache invariant |
| CacheModel.SetMeaning | src/cache.cc:1131-1134 | get_set is the remainder by the number of sets, or by the greatest power of two up to it |
| CacheModel.SameSetExactlyWhen | src/cache.cc:1131-1134 | With a power of two of sets, two lines share a set exactly when they agree modulo their number |
| RequestLife.ReadServes | src/cache.cc:584-881 | A read at the head of RQ leaves exactly when it is due and its line is held or in flight or a register is free; then the line is held and marked used, or a register waits for it at a fill level no farther; it is asked for below exactly when it was neither, counted as a hit exactly when it was held, and otherwise nothing changes; no register is given up |
| RequestLife.StoreServes | src/cache.cc:310-582 | The same for a store at the head of the L1D's WQ |
| RequestLife.WritebackServes | src/cache.cc:310-582 | A due writeback to the L2 waits only for a full lower write queue, leaves its line in the cache, and is counted once as the hit or miss it is |
| RequestLife.PrefetchServes | src/cache.cc:883-1115 | A prefetch leaves PQ exactly when it is due and its line is held or in flight, or a register is free and the lower queue has room; one that fills this level is held or waits in a register, and each is asked for below exactly when its line was neither |
| RequestLife.ReadEnters | src/cache.cc:1289-1426 | A read joins RQ at its end, to be served after the access latency, exactly when its line waits in neither queue and there is room; a line waiting in WQ answers it |
| RequestLife.WriteEnters | src/cache.cc:1428-1479 | A write joins WQ exactly when it is not queued yet, to be served after the access latency |
| RequestLife.PrefetchEnters | src/cache.cc:1554-1655 | A prefetch joins PQ as a read joins RQ, and a queued one of the same line takes over the nearer fill level |
| RequestLife.FillIsDue | src/cache.cc:84-308 | A fill round takes a completed register whose time has come, the earliest of all |
| RequestLife.ReturnedLater | src/cache.cc:1657-1693 | A returned line is ready no earlier than the access latency after its return |
| RequestLife.FillEvicts | src/cache.cc:84-308 | A fill takes no line from a set with an invalid way, and at most one from a full set |
| RequestLife.DirtySent | src/cache.cc:84-582 | What a fill or a writeback sends to the write queue below is a dirty block of the cache, with both its addresses and as a writeback for the next level |
| MissProtocol.StepKeepsInv | src/cache.cc:84-1115 | Whatever step is taken next by either level, the core, the prefetchers or the lower level: no assert fails and every line the L1D waits for is owed by exactly one item of the L2 |
| MissProtocol.MissesAnsweredExactlyOnce | src/cache.cc:584-1115 | In every reachable state the L2 holds exactly one item owing a return for each line in flight in the L1D and none for any other line |
| MissProtocol.NoAssertFails | src/cache.cc:1657-1671 | From every reachable state every allowed step goes through: the matching-entry assert of return_data, the full-queue asserts and the no-victim asserts are unreachable |
| MissProtocol.NoMissRefused | src/cache.cc:1289-1426 | No demand miss of the L1D is refused by, or merged in, the L2's read queue |
| MissProtocol.L2RqHasRoom | src/cache.cc:1377-1411 | While the L1D has a miss to announce, the L2's read queue has a free slot, because each queued read belongs to a different register of the L1D |
| MissProtocol.CachesStayOk | src/cache.cc:1289-1693 | In every reachable state both caches satisfy the cache invariant, in particular WQ.TO_CACHE + RQ.TO_CACHE + PQ.TO_CACHE + WQ.FORWARD = accesses + queued packets, and HIT + MISS = ACCESS per type |
| RequestLife.LoadIsQueued | src/cache.cc:1289-1426 | A load that the core issues and the L1D takes or merges is queued, a new one not to be served before now + LATENCY |
| RequestLife.StoreIsQueued | src/cache.cc:1428-1479 | A store that the core issues is queued, not to be served before now + LATENCY |
| RequestLife.PrefetchIsQueued | src/cache.cc:1554-1655 | A prefetch issued by the prefetcher of either level while its queue has room is queued, unless the line waits in the write queue |
| RequestLife.RequestNeverLost | src/cache.cc:310-881 | Over every run of the two levels, a load or store queued in the L1D stays queued, and is not served before its time, until it is taken; then its line is held, or a register waits for it in every state until a fill brings it into the cache |
| RequestLife.StepKeepsInFile | src/cache.cc:84-1115 | A line the L1D waits for stays in a register through every step but the fill that brings it into the cache |
| MissProtocol.RunKeepsInv | src/cache.cc:1117-1129 | The protocol invariant holds after every run |
| MissProtocol.SendRqKeepsInv | src/cache.cc:711-722 | Sending a demand miss down keeps exactly-once, and the L2 forwards or queues it |
| MissProtocol.SendPqKeepsInv | src/cache.cc:1041-1051 | Sending a prefetch down keeps exactly-once |
| MissProtocol.SendWqKeepsInv | src/cache.cc:164-190 | Sending a dirty victim down keeps exactly-once and never meets a full write queue |
| MissProtocol.ReturnKeepsInv | src/cache.cc:250-262 | Delivering one owed return to the L1D keeps exactly-once |
| L1Residency.InFlightOrResident | src/cache.cc:694-722 | In every reachable state of the L1D: register addresses are pairwise distinct and disjoint from the valid tags, and each valid tag is in one way only; at both levels, in the set its address gives modulo the number of sets (the greatest power of two up to it) |
| L1Residency.StepKeepsResident | src/cache.cc:84-1115 | Every step of the system keeps in-flight lines and resident lines of the L1D apart |
| L1Residency.FillKeepsResident | src/cache.cc:84-308 | Installing a completed line puts it into one way only and takes it out of the registers |
| DirtyOwnership.StepKeepsOwned | src/cache.cc:84-582 | Through every step of either level, except the drain of the line itself: a line dirty in a cache or waiting in the L2's write queue or the lower one stays so, and one that is dirty in the L2, in its write queue or in the lower one stays in these three places, whatever the L1D holds |
| DirtyOwnership.NoDirtyLineDropped | src/cache.cc:164-239 | From any reachable state, over any run in which the lower level does not drain the line, a dirty line does not disappear |
| DirtyOwnership.NoDirtyLineDroppedAtL2 | src/cache.cc:318-578 | From any reachable state, over any such run, a line dirty in an L2 block or waiting in the L2's write queue stays in the L2's dirty blocks, its write queue or the lower write queue |
| DirtyOwnership.RunKeepsOwned | src/cache.cc:1117-1129 | Both forms of dirty ownership over whole runs |
| DirtyOwnership.WritebackKeepsDirty | src/cache.cc:310-582 | The line leaving a write queue becomes dirty in a way, and every other dirty line stays or becomes the victim |
| DirtyOwnership.WqAccepts | src/cache.cc:1428-1479 | A victim taken by the L2 is in its write queue, with everything queued before |
| StoreDirtiness.StoreHitMakesDirty | src/cache.cc:318-365 | A store or writeback that hits makes its line dirty |
| StoreDirtiness.FillInstalls | src/cache.cc:164-305 | The block a fill installs is valid, marked as prefetched exactly for a prefetch, and in the L1D dirty exactly for a store; a fill waits exactly for a dirty victim and a full write queue below |
| StoreDirtiness.FilledDirtyExactlyForStores | src/cache.cc:244-262 | In a well-formed L1D a filled line is dirty anywhere exactly when its register is of kind RFO |
| StoreDirtiness.StoreMissRegisters | src/cache.cc:376-462 | A store miss that does not stall waits in a register of kind RFO, or in the register of the demand load in flight for the line, which keeps its kind |
| StoreDirtiness.StepKeepsKind | src/cache.cc:418-437 | Every step of the system other than the fill of the line keeps the kind of a demand's register |
| StoreDirtiness.FillEndsWait | src/cache.cc:164-305 | The fill of the line leaves it dirty in the L1D exactly when its register is of kind RFO |
| StoreDirtiness.StoreLeavesDirtyExactlyWhen | src/cache.cc:310-462 | Over every run from a store miss in a reachable state to the fill of its line: the line is dirty afterwards exactly when no demand load was in flight for it at the miss |
| LostStore.StoreIsLost | src/cache.cc:418-437 | A reachable run with a load and a store to one line after which nothing is queued or in flight and the line is dirty nowhere: a merged store can be lost |
| CacheDevice.CacheLevel.CheckHit | src/cache.cc:1201-1253 | The way validly holding the line in its set, or -1, reading the block array in place |
| CacheDevice.CacheLevel.InstallLine | src/cache.cc:1147-1199 | Fills one way in place after promoting it; the cache becomes exactly what the specification of a fill gives |
| CacheDevice.CacheLevel.FindRegister | src/cache.cc:1729-1758 | First register with the address, or -1 |
| CacheDevice.CacheLevel.AddRegister | src/cache.cc:1760-1783 | The register file becomes the specified one with the miss registered |
| CacheDevice.CacheLevel.MergeRegister | src/cache.cc:418-437 | The register file becomes the specified one with the miss merged |
| CacheDevice.CacheLevel.UpdateFillCycle | src/cache.cc:1695-1727 | next_fill_cycle and next_fill_index become the specified minimum and its index |
| CacheDevice.CacheLevel.ReturnData | src/cache.cc:1657-1693 | In place, exactly the specified completion of the matching register |
| CacheDevice.CacheLevel.AddRq | src/cache.cc:1289-1426 | In place, exactly the specified admission of a read, with the source's return code and the data forwarded from the write queue |
| CacheDevice.CacheLevel.AddPq | src/cache.cc:1554-1655 | In place, exactly the specified admission of a prefetch |
| CacheDevice.CacheLevel.AddWq | src/cache.cc:1428-1479 | In place, exactly the specified admission of a write |
| CacheDevice.CacheLevel.HandleFill | src/cache.cc:84-308 | In place, exactly the specified fill round and its messages |
| CacheDevice.CacheLevel.HandleRead | src/cache.cc:584-881 | In place, exactly the specified read round and its messages |
| CacheDevice.CacheLevel.HandlePrefetch | src/cache.cc:883-1115 | In place, exactly the specified prefetch round and its messages |
| CacheDevice.CacheLevel.HandleWriteback | src/cache.cc:310-582 | In place, exactly the specified store or writeback round and its messages |
| HierarchyDevice.MemorySystem.FillL1D | src/cache.cc:84-308 | The L1D's fill handler with its messages is one step of the machine and keeps the protocol invariant |
| HierarchyDevice.MemorySystem.WritebackL1D | src/cache.cc:310-462 | The L1D's store handler with its messages is one step of the machine and keeps the protocol invariant |
| HierarchyDevice.MemorySystem.ReadL1D | src/cache.cc:584-881 | The L1D's read handler with its messages is one step of the machine and keeps the protocol invariant |
| HierarchyDevice.MemorySystem.PrefetchL1D | src/cache.cc:883-1115 | The L1D's prefetch handler with its messages is one step of the machine and keeps the protocol invariant |
| HierarchyDevice.MemorySystem.FillL2C | src/cache.cc:84-308 | The L2's fill handler with its messages is one step of the machine and keeps the protocol invariant |
| HierarchyDevice.MemorySystem.WritebackL2C | src/cache.cc:463-582 | The L2's writeback handler with its messages is one step of the machine and keeps the protocol invariant |
| HierarchyDevice.MemorySystem.ReadL2C | src/cache.cc:584-881 | The L2's read handler with its messages is one step of the machine and keeps the protocol invariant |
| HierarchyDevice.MemorySystem.PrefetchL2C | src/cache.cc:883-1115 | The L2's prefetch handler with its messages is one step of the machine and keeps the protocol invariant |
| HierarchyDevice.MemorySystem.OperateL1D | src/cache.cc:1117-1129 | One cycle of the L1D is a fill, a store, reads, then prefetches of the machine: at most MAX_READ requests are taken, fewer reads only if the next one is not due or cannot go on, fewer of both only if the next prefetch is not due or cannot go on; no assert fails |
| HierarchyDevice.MemorySystem.OperateL2C | src/cache.cc:1117-1129 | One cycle of the L2 likewise, whatever the lower level answers; at most MAX_READ requests, fewer reads only if the next one cannot be served |
| HierarchyDevice.MemorySystem.Load | src/cache.cc:1289-1426 | A load is one step of the machine; it is told to retry exactly when the read queue is full and holds neither it nor a forwarding store |
| HierarchyDevice.MemorySystem.Store | src/cache.cc:1428-1479 | A store the core has made room for is one step of the machine |
| HierarchyDevice.MemorySystem.ReturnFromBelow | src/cache.cc:1657-1693 | An answer of the lower level to an in-flight miss is one step of the machine |
| CacheInvariant.InitialCacheOk | inc/cache.h:140-163 | A freshly constructed cache satisfies the whole cache invariant |
| CacheDevice.CacheLevel.constructor | inc/cache.h:140-163 | Builds a cache in the initial state of the machine, lru == way in every set |
| HierarchyDevice.MemorySystem.constructor | inc/cache.h:140-163 | Two freshly constructed caches whose configurations fit, as the shipping ones do, form an initial state that satisfies the protocol invariant |
| MissProtocol.InitialInv | inc/cache.h:140-163 | The initial state of two such levels satisfies the protocol invariant |
| Replacement.LruOkKept | replacement/base_replacement.cc:59-68 | lru_update keeps the lru fields of a set a permutation, so that lru_victim always finds a way |
| Replacement.VictimLeastRecent | replacement/base_replacement.cc:19-57 | With no way invalid, lru_victim picks the way promoted the longest ago |
| LruHistory.RunPromotes | replacement/base_replacement.cc:9-68 | Over every run of the two cache levels, at both of them, the lru fields of every set are those at the start after promoting, in order, the ways that the fills and hits of the run used |
| LruHistory.VictimLeastRecentlyUsed | replacement/base_replacement.cc:19-57 | In every reachable state of the two levels, in a set with no way invalid, lru_victim picks the way whose last fill or hit in the run is the longest ago |
| LruOrder.PromoteKeepsPermutation | replacement/base_replacement.cc:59-68 | Counters 0..NUM_WAY-1 stay a permutation under promotion |
| LruOrder.PromoteIsMoveToFront | replacement/base_replacement.cc:59-68 | The in-place counter update is a move to the front of the recency list |
| LruOrder.CountersOrderByRecency | replacement/base_replacement.cc:59-68 | After any sequence of promotions, smaller counters mean more recent promotions |
| LruOrder.OldestLeastRecent | replacement/base_replacement.cc:19-57 | The way with the greatest counter was promoted the longest ago |
| CacheDevice.CacheLevel.FindVictim | replacement/base_replacement.cc:19-57 | First invalid way, else the way of the greatest lru field |
| CacheDevice.CacheLevel.UpdateLru | replacement/base_replacement.cc:59-68 | The in-place loop is the specified promotion |
| CacheDevice.CacheLevel.UpdateReplacement | replacement/base_replacement.cc:9-17 | A writeback hit leaves the order alone, every other access promotes the way |
| Spp.LastSigMeansDelta | prefetcher/spp_dev2_helper.cc:43-66 | A nonzero last signature always comes with a nonzero delta |
| Spp.ReadAndUpdateOk | prefetcher/spp_dev2_helper.cc:33-145 | The signature table always finds a victim and keeps its lru order |
| SppPattern.UpdateOk | prefetcher/spp_dev2_helper.cc:147-207 | A nonzero delta always finds a replacement victim, and keeps sum(c_delta) < c_sig <= 15 in every touched set |
| SppPattern.ZeroDeltaBreaks | prefetcher/spp_dev2_helper.cc:147-207 | With delta 0 a set reaches full confidence at once: the nonzero delta is needed |
| SppPattern.ConfidenceDrops | prefetcher/spp_dev2_helper.cc:209-251 | A first level keeps at most 93 of 100, and with accuracy at most 100 every further step keeps at most 93 percent of the confidence, with accuracy at most 107 at most 99 percent |
| SppPattern.LosesExactlyWhen | prefetcher/spp_dev2_helper.cc:221-225 | Every way of every reachable kind of set loses confidence below the first level exactly when the global accuracy is at most 107 |
| SppPattern.QueuesHoldExactlyWhen | prefetcher/spp_dev2_helper.cc:209-251 | For every hash, every threshold of at least 7 and every accuracy up to 107, and with thresholds up to 40 for accuracies up to 300: from every well-formed table the lookahead ends with pf_q_tail below L2C_MSHR_SIZE, if and only if one chain of candidates that keeps the greatest share at each level stays below it |
| SppPattern.HoldsAt25 | prefetcher/spp_dev2_helper.cc:209-251 | At the default threshold of 25 that condition is an accuracy of at most 103 |
| SppPattern.HoldsAt40 | prefetcher/spp_dev2_helper.cc:209-251 | At threshold 40 it is an accuracy of at most 104 |
| SppPattern.LowThresholdOverruns | prefetcher/spp_dev2_helper.cc:209-251 | At thresholds 1 to 4 even a percentage as accuracy overruns the queues from some well-formed table, with every hash |
| SppPattern.ConfidencesAddUp | prefetcher/spp_dev2_helper.cc:209-251 | The confidences of one set add up to at most 93 at the first level, and to at most 14/15 of the accuracy percent of the path's confidence below it, up to accuracy 107 |
| SppPattern.ScanIsExact | prefetcher/spp_dev2_helper.cc:209-251 | read_pattern queues exactly the ways that reach the threshold, in way order and each with its own confidence and delta, and follows the first one of the greatest confidence |
| SppLearning.UpdateRecords | prefetcher/spp_dev2_helper.cc:147-207 | update_pattern counts one more hit of the delta in the way that records it, or else in the first way of the least counter, which forgets its delta; an overflow of c_sig halves all counters |
| SppLearning.AccessLearns | prefetcher/spp_dev2_helper.cc:33-145 | read_and_update_sig learns, for a tracked page, the distance from its last access under the signature before it; a page not tracked takes an invalid way or that of the page accessed the longest ago; pages stay tracked once each and the way becomes the most recent |
| SppLearning.RememberMeaning | prefetcher/spp_dev2_helper.cc:343-394 | update_entry overwrites the entry of the same offset, or else one of the least confidence, and valid entries keep different offsets |
| SppLearning.CrossingContinues | prefetcher/spp_dev2_helper.cc:396-410 | A page entered at an offset that a path was remembered to leave for starts from the signature that follows the path |
| SppLearning.FreshStart | prefetcher/spp_dev2_helper.cc:396-410 | Without such a path it starts from signature 0 |
| SppLearning.FilterPlace | prefetcher/spp_dev2_helper.cc:253-262 | Filter entry and remainder are sixteen bits of the line's hash |
| SppLearning.EvictedPasses | prefetcher/spp_dev2_helper.cc:325-333 | An evicted line passes the filter again, and the other entries answer as before |
| SppPattern.CandidatesBelow94 | prefetcher/spp_dev2_helper.cc:343-394 | Every candidate of a whole path has a confidence of at most 93, so the history register always has a victim below 100 |
| Spp.RememberOk | prefetcher/spp_dev2_helper.cc:343-394 | Remembering a page-crossing candidate finds a victim and keeps all confidences below 100 |
| SppFilter.DemandAccounted | prefetcher/spp_dev2_helper.cc:253-341 | A demand moves at most one entry from unused to counted useful |
| SppFilter.EvictAccounted | prefetcher/spp_dev2_helper.cc:325-333 | An eviction forgets an unused prefetch, for which pf_useful loses one unless it is 0, and changes neither count otherwise |
| SppFilter.DemandExceedsExactlyWhen | prefetcher/spp_dev2_helper.cc:311-314 | A demand takes the accuracy over 100 exactly when it finds a prefetched, not yet demanded line and that one brings pf_useful to 101 percent of pf_issued |
| SppFilter.OnlyDemandsExceed | prefetcher/spp_dev2_helper.cc:253-341 | Issuing, halving and evicting never take the accuracy over 100 |
| SppFilter.RefusedUntilReplaced | prefetcher/spp_dev2_helper.cc:266-338 | A line the filter refuses stays refused over every run until its entry is evicted or taken by another line |
| SppFilter.RefusesOwners | prefetcher/spp_dev2_helper.cc:253-341 | Over every run from empty the filter refuses exactly the line last prefetched into the L2 in its entry since the entry was evicted, or, in an entry without one, a demanded line of remainder 0, which is the cleared tag |
| SppDevice.PatternTable.UpdatePattern | prefetcher/spp_dev2_helper.cc:147-207 | In place, exactly the specified update of one set |
| SppDevice.PatternTable.ReadPattern | prefetcher/spp_dev2_helper.cc:209-251 | Queues exactly the candidates of the specified scan behind the tail and leaves the earlier ones alone |
| SppDevice.GlobalRegister.UpdateEntry | prefetcher/spp_dev2_helper.cc:343-394 | In place, exactly the specified update of the history register |
| SppDevice.GlobalRegister.CheckEntry | prefetcher/spp_dev2_helper.cc:396-410 | The most confident entry with the offset, if any |
| SppDevice.PrefetchFilter.CheckDemand | prefetcher/spp_dev2_helper.cc:253-341 | In place, exactly the specified demand check and useful count |
| SppDevice.PrefetchFilter.CheckL2Prefetch | prefetcher/spp_dev2_helper.cc:253-341 | Passes exactly lines that are neither prefetched nor demanded, and marks them |
| SppDevice.PrefetchFilter.CheckLlcPrefetch | prefetcher/spp_dev2_helper.cc:286-309 | Gives the answer of the L2 check and marks nothing |
| SppDevice.PrefetchFilter.CheckEvict | prefetcher/spp_dev2_helper.cc:325-333 | In place, exactly the specified eviction |
| SppDevice.SignatureTable.ReadAndUpdateSig | prefetcher/spp_dev2_helper.cc:33-145 | In place, exactly the specified learning of a signature |
| SppFilter.IssueAccounted | prefetcher/spp_dev2.cc:112-130 | Issuing keeps useful plus unused <= issued + FILTER_SET, and exact accounting below the halving point |
| SppFilter.ExactIsPercentage | prefetcher/spp_dev2.cc:71-71 | Exact accounting keeps the global accuracy at most 100 |
| SppFilter.PercentageExactlyWhen | prefetcher/spp_dev2.cc:71-71 | The accuracy is at most 100 exactly when nothing is counted issued or pf_useful is below 101 percent of pf_issued |
| SppFilter.IssueKeepsExactWhen | prefetcher/spp_dev2.cc:112-123 | An issue keeps the accounting exact exactly when it does not halve, or the halved pf_useful and the unused entries after it are at most 512 |
| SppFilter.HalvingReaches200 | prefetcher/spp_dev2.cc:71-123 | From an empty filter, issuing into all entries and then demanding all of them reaches accuracy 200 and inexact accounting |
| SppFilter.RunAccuracy | prefetcher/spp_dev2.cc:71-123 | Over every run of the filter the accuracy is at most 300 |
| SppPattern.PathIsBounded | prefetcher/spp_dev2.cc:90-175 | With threshold at least 7 and accuracy at most 107, a path with several candidates per level queues no more than the chain that keeps the greatest share at each level |
| SppPattern.QueueIsBounded | prefetcher/spp_dev2.cc:90-175 | The same bound for a whole invocation from its first level; with HoldsAt25 it is below L2C_MSHR_SIZE at threshold 25 up to accuracy 103 |
| Spp.InvokeOk | prefetcher/spp_dev2.cc:56-182 | With threshold at least 7 and an accuracy at which the queues hold (103 at threshold 25) an invocation returns: its loop ends with pf_q_tail below L2C_MSHR_SIZE and no assert fails |
| Spp.InvokeKeeps | prefetcher/spp_dev2.cc:56-182 | Every invocation that returns within its queues, at every accuracy and threshold, keeps the signature table, the pattern table and the accounting, and issues no more than it queued, all in the page of the access |
| SppPattern.LookaheadIsPath | prefetcher/spp_dev2.cc:90-175 | From threshold 1 and up to accuracy 107 the do-while loop ends from every table |
| SppPattern.PathUnique | prefetcher/spp_dev2.cc:90-175 | What the loop visits before it ends is determined by the tables |
| Spp.LearnOk | prefetcher/spp_dev2.cc:71-83 | The two learning stages fail no assert and keep the tables and the accounting |
| Spp.RunKeepsAccounting | prefetcher/spp_dev2.cc:56-190 | Over every run of accesses that return within their queues and fills, at every accuracy and every threshold: pf_useful plus unused filter entries <= pf_issued + FILTER_SET, accuracy <= 300, and all table invariants |
| Spp.SteadyRunNeverFails | prefetcher/spp_dev2.cc:56-190 | Over every run whose accesses are made at a threshold of at least 7 and an accuracy at which the queues hold, the history register keeps a victim, and the next such access returns within its queues |
| SppOverrun.OrdinaryAccessesOverrun | prefetcher/spp_dev2.cc:56-182 | From every initial state, 1573 accesses that each return within their queues, at the default threshold of 25 and every fill threshold up to 93, with a constant pattern hash and a filter hash of the page, lead to accuracy 104, where the next access to any of 1023 pages makes its loop end with 32 or more candidates queued |
| Spp.ExactUntilHalving | prefetcher/spp_dev2.cc:112-130 | Over every run the counter never overtakes the prefetches issued; as long as it counts every one of them, pf_useful plus unused entries <= pf_issued and the accuracy is a percentage |
| Spp.OneLevel | prefetcher/spp_dev2.cc:90-175 | One round of the do-while loop, related to the rest of the loop |
| SppDevice.SppDev2.constructor | prefetcher/spp_dev2.cc:24-44 | Freshly constructed tables are an initial state |
| SppDevice.SppDev2.IssueCandidate | prefetcher/spp_dev2.cc:101-152 | In place, exactly the specified filtering, counting or remembering of one candidate |
| SppDevice.SppDev2.IssueLevel | prefetcher/spp_dev2.cc:100-152 | The for loop over one level issues exactly its candidates in order |
| SppDevice.SppDev2.LookaheadRound | prefetcher/spp_dev2.cc:90-173 | One round either ends the loop having issued everything, or leaves exactly the rest of the path |
| SppDevice.SppDev2.LookaheadLoop | prefetcher/spp_dev2.cc:90-175 | Whenever the loop ends with pf_q_tail below L2C_MSHR_SIZE: it stays within the queues and issues exactly what its path queues |
| SppDevice.SppDev2.InvokePrefetcher | prefetcher/spp_dev2.cc:56-182 | Whenever the loop ends with pf_q_tail below L2C_MSHR_SIZE and no assert fails, at every accuracy and threshold: in place, exactly the specified invocation |
| SppDevice.SppDev2.MayBeInvoked | prefetcher/spp_dev2.cc:56-182 | Threshold at least 25 and accuracy at most 103, in a run that has always had them, are enough for such an invocation |
| SppDevice.SppDev2.CacheFill | prefetcher/spp_dev2.cc:184-190 | The evicted line leaves the filter |
| SppSignature.NextSigDiffers | prefetcher/spp_dev2.cc:154-163 | Different deltas within a page, in particular opposite ones, lead to different signatures |
| SppSignature.FourDeltas | prefetcher/spp_dev2.cc:154-163 | A signature is the exclusive or of the last four deltas, as sign and magnitude and each three bits above the next, and of nothing older |
| SppMeaning.PathWalks | prefetcher/spp_dev2.cc:90-175 | The levels of the loop start at the access and go on with the signature, base and confidence of the first most confident way of each set (or stay where no way has any confidence), until no way reaches the threshold; each queues exactly the ways that do |
| SppMeaning.InvocationIssues | prefetcher/spp_dev2.cc:90-175 | An invocation issues exactly the blocks of its candidates that are in the page and that the filter does not have when their turn comes, one prefetch each and in order, into the L2 from the fill threshold on and into the LLC below; an L2 prefetch marks its line in the filter and nothing else does, and each candidate of another page is remembered in the history register |
| SppMeaning.IssuedIsNamed | prefetcher/spp_dev2.cc:90-175 | Every address issued is in the page of the access, and is the block of some level's base plus 64 times a delta of the set that the level's signature selects, with a confidence at the threshold |
| SppLearning.LearnTeaches | prefetcher/spp_dev2.cc:71-83 | The learning stages record the distance from the page's last access in the set of the signature before it, and the lookahead starts from the signature after it |
| SppLearning.CrossingRemembered | prefetcher/spp_dev2.cc:138-147 | A candidate of another page is remembered with its signature, confidence and delta under the offset at which it enters that page; others change no history |
| SppLearning.RunRemembers | prefetcher/spp_dev2.cc:56-190 | Over every run each page is tracked at most once, with the offset of its latest access |
| SppLearning.LearnsDistance | prefetcher/spp_dev2.cc:56-190 | After every run from the start, the next access to a page still tracked teaches the set of the page's signature the distance from the page's latest access in the run |
| HashIndex.HashMeaning | src/bakshalipour_framework.cc:3-17 | The higher blocks of a key stay and its lowest block becomes the exclusive or of all blocks |
| HashIndex.HashSelfInverse | src/bakshalipour_framework.cc:7-17 | Applying the hash twice with one length is the identity |
| HashIndex.HashInjective | src/bakshalipour_framework.cc:7-17 | Different keys hash differently |
| HashIndex.HashBelow | src/bakshalipour_framework.cc:11-17 | The hash keeps the width of a key |
| HashIndex.HashIndex | src/bakshalipour_framework.cc:11-17 | The loop computes the hash, for every 64-bit key and 0 <= index_len <= 30 |
| CamSet.CamDecides | inc/bakshalipour_framework.h:193-203 | The CAM finds the way of a key exactly when the key is present, with its data |
| CamSet.FullMeaning | inc/bakshalipour_framework.h:165-179 | A set holds as many keys as ways exactly when no way is invalid |
| CamSet.OverwriteAgrees | inc/bakshalipour_framework.h:161-167 | New data for a present key keeps entries, CAM and contents in agreement |
| CamSet.DropAgrees | inc/bakshalipour_framework.h:145-156 | Invalidating an entry keeps entries, CAM and contents in agreement |
| CamSet.FillAgrees | inc/bakshalipour_framework.h:180-190 | Filling an invalid way keeps entries, CAM and contents in agreement |
| LruTable.InsertOk | inc/bakshalipour_framework.h:161-191 | An insertion keeps every set within its number of ways and the recency order a listing of the keys |
| LruTable.InsertMeaning | inc/bakshalipour_framework.h:161-191 | An insertion stores the key and loses no other key but the victim |
| LruTable.EraseOk | inc/bakshalipour_framework.h:145-156 | Erasing keeps the table well-formed |
| LruTable.VictimOk | inc/bakshalipour_framework.h:171-179 | A victim exists exactly for a new key in a full set, and is a key of that set |
| LruTable.TouchFollows | inc/bakshalipour_framework.h:261-261 | set_mru keeps the order the order of last uses |
| LruTable.InsertFollows | inc/bakshalipour_framework.h:161-191 | An insertion followed by set_mru keeps the order the order of last uses |
| LruTable.EraseFollows | inc/bakshalipour_framework.h:145-156 | Erasing a key keeps the order of the remaining keys the order of last uses |
| LruTable.EvictsLeastRecent | inc/bakshalipour_framework.h:267-270 | The evicted key is the one of its set whose last set_mru is the longest ago |
| LruTable.EvictsLeastRecentEver | inc/bakshalipour_framework.h:145-270 | After every history of insertions with set_mru, set_mru calls and erasures on an empty table, an insertion into a full set evicts the key of the set whose last use in that history is the longest ago |
| LruCache.LruSetAssociativeCache.constructor | inc/bakshalipour_framework.h:129-139 | An empty table; index_len is the number of bits of num_sets - 1 |
| LruCache.LruSetAssociativeCache.FindWay | inc/bakshalipour_framework.h:193-203 | The way of the key with its entry, or -1 exactly when the key is absent |
| LruCache.LruSetAssociativeCache.Find | inc/bakshalipour_framework.h:193-203 | Lookup in the finite map the table is |
| LruCache.LruSetAssociativeCache.Erase | inc/bakshalipour_framework.h:145-156 | In place, exactly the removal of the key from the finite map |
| LruCache.LruSetAssociativeCache.Insert | inc/bakshalipour_framework.h:161-191 | In place, exactly the insertion into the finite map with bounded sets, returning the entry it replaced |
| LruCache.LruSetAssociativeCache.SetMru | inc/bakshalipour_framework.h:261-278 | In place, the key becomes the most recent one |
| LruCache.LruSetAssociativeCache.SelectVictim | inc/bakshalipour_framework.h:267-270 | The way of the least stamp |
| LruCache.LruSetAssociativeCache.LeastStampIsOldest | inc/bakshalipour_framework.h:267-270 | In a full set the way of the least stamp holds the least recently used key |
| LruCache.LruSetAssociativeCache.InsertMru | inc/bakshalipour_framework.h:161-191 | insert followed by set_mru: in place, the specified insertion with its victim |
| Footprints.RotateBack | inc/bingo.h:194-201 | A pattern rotated by -n and then by n is the original, for every n |
| Footprints.KeyMeaning | inc/bingo.h:307-318 | Two keys are equal exactly when their accesses agree on the masked PC and the masked address |
| Footprints.KeyParts | inc/bingo.h:307-318 | The lower part of a key is the hashed PC and offset, the upper part the rest of the address |
| Footprints.MinMatch | inc/bingo.h:250-259 | In one set the short tag mask compares exactly the hashed PC and offset |
| Footprints.MaxMatch | inc/bingo.h:250-259 | In one set the long tag mask compares exactly whole keys |
| Footprints.SameTriggerSameSet | inc/bingo.h:310-317 | Accesses with the same PC and offset fall into the same set |
| PatternHistory.InsertStores | inc/bingo.h:228-238 | An inserted pattern is stored under its PC and address in original orientation; other keys keep theirs |
| PatternHistory.InsertThenFind | inc/bingo.h:228-277 | Insert, then find with the same masked PC and address: exactly [pattern] |
| PatternHistory.StoredFromTrigger | inc/bingo.h:228-277 | A stored row starts at the trigger: its j-th bit is that of the block j places after it, around the region |
| PatternHistory.FindMeaning | inc/bingo.h:244-277 | A stored access answers a lookup exactly when it agrees on PC and address, or agrees on PC and offset while no access of exactly this PC and address is stored |
| PatternHistory.RotatedBackIsExact | inc/bingo.h:271-276 | Rotating each selected pattern by the offset of the access restores its original orientation |
| PatternHistory.PhtInsertOk | inc/bingo.h:228-238 | An insertion keeps the pattern table well-formed |
| PatternHistoryDevice.MyRotate | inc/bingo.h:194-201 | The loop computes the rotation, with C++'s truncating remainder |
| PatternHistoryDevice.PatternHistoryTable.MakeKey | inc/bingo.h:307-318 | Computes the key |
| PatternHistoryDevice.PatternHistoryTable.Insert | inc/bingo.h:228-238 | In place, exactly the specified insertion |
| PatternHistoryDevice.PatternHistoryTable.Collect | inc/bingo.h:244-270 | The scan of a set collects exactly the selected stored patterns and reports the event |
| PatternHistoryDevice.PatternHistoryTable.Find | inc/bingo.h:244-277 | The lookup is exact: the one pattern of the masked PC and address if present, otherwise exactly the patterns agreeing on PC and offset, each in original orientation |
| Streamer.PrefetchMeaning | inc/bingo.h:357-402 | One call issues marked blocks only, each once and never the accessed one; the entry is erased exactly when no mark remains |
| Streamer.NearestCovers | inc/bingo.h:380-397 | The double loop tries every other block of the region |
| Streamer.DrainConsumes | inc/bingo.h:380-397 | Each issue carries the fill level of the mark it clears; other marks stay |
| Streamer.DrainRegion | inc/bingo.h:380-397 | The double loop issues exactly the marked blocks, nearest first and positive stride first, until the cache has no room |
| Streamer.PrefetchInOrder | inc/bingo.h:357-402 | One call issues nearest first, positive stride first, stops only when the cache takes no more, and leaves only marks farther than all it issued |
| BingoDevice.BingoPrefetcher.FilterFind | inc/bingo.h:34-48 | Lookup that makes a found region the most recent one |
| BingoDevice.BingoPrefetcher.FilterInsert | inc/bingo.h:50-58 | In place, exactly the specified insertion |
| BingoDevice.BingoPrefetcher.FilterErase | inc/bingo.h:60-63 | In place, exactly the specified removal |
| BingoDevice.BingoPrefetcher.SetPattern | inc/bingo.h:121-137 | In place, marks the block of a region being gathered; false exactly when the region is not there |
| BingoDevice.BingoPrefetcher.AccumulationInsert | inc/bingo.h:140-151 | In place, exactly the specified insertion, returning the evicted entry |
| BingoDevice.BingoPrefetcher.AccumulationErase | inc/bingo.h:153-156 | In place, exactly the specified removal, returning the entry |
| BingoDevice.BingoPrefetcher.PrefetchBlock | inc/bingo.h:357-402 | In place, the streamer entry of the accessed region after exactly the specified call |
| Bingo.AccessOk | prefetcher/bingo.cc:77-111 | An access keeps every table well-formed and no region in both filter and accumulation table |
| Bingo.EvictionOk | prefetcher/bingo.cc:113-124 | An eviction keeps every table well-formed and no region in both tables |
| Bingo.StepLearns | prefetcher/bingo.cc:77-124 | A step learns exactly the region that leaves the accumulation table, with the footprint it had, and changes the pattern history by nothing else |
| Bingo.FootprintKey | prefetcher/bingo.cc:277-286 | The address insert_in_pht reconstructs gives back the 37-bit region and its table key |
| Bingo.LearnedIsGeneration | prefetcher/bingo.cc:77-124 | Every learned footprint is the PC and offset of its region's trigger access and exactly the blocks accessed since |
| Bingo.StepObserved | prefetcher/bingo.cc:77-124 | The tables always describe the current generations of the regions they track |
| Bingo.RunKeeps | prefetcher/bingo.cc:77-124 | Both invariants over every run |
| Bingo.LearnedInOrder | prefetcher/bingo.cc:77-124 | Over every run the footprints learned are exactly those of the generations that left the accumulation table, one each and in order |
| Bingo.EveryFootprintOnce | prefetcher/bingo.cc:77-124 | Over every run, the regions admitted to the accumulation table are the footprints learned plus those still being gathered |
| BingoStreaming.StepConsumes | prefetcher/bingo.cc:77-130 | Every event that brings no new pattern for a region: only its marked blocks are issued for it, its marks shrink by those and the accessed block, and its entry goes only when other regions displace it or exactly when no mark is left |
| BingoStreaming.RequestedOnceBetweenInserts | prefetcher/bingo.cc:77-130 | Over every run of loads, evictions and streamer calls between two inserts for a region: each block is requested at most once and only if marked, and what is left are the marks neither requested nor accessed |
| BingoStreaming.TriggerInserts | prefetcher/bingo.cc:77-100 | A trigger access hands exactly what the lookup found to the streamer, under its own region; the other regions keep their marks unless one makes room; finding nothing changes nothing there |
| BingoStreaming.FirstCallServes | prefetcher/bingo.cc:77-130 | The streamer call of that access requests, while there is room, every block found except the accessed one, nearest first and each into the level found for it |
| BingoStreaming.FoundIsRequested | prefetcher/bingo.cc:77-130 | From a trigger access to the next one of its region, all that is requested for it is marked in what the lookup found, each block at most once, and the rest stays marked unless the entry is displaced |
| BingoDevice.FoundMeaning | prefetcher/bingo.cc:237-340 | A level for the blocks of the exact match and no others, or the level that the number of selected patterns with the block gives |
| BingoDevice.FoundMarks | prefetcher/bingo.cc:237-340 | Where no vote gives no level, only blocks of selected patterns are marked |
| BingoRecency.LeastRecentLeaves | prefetcher/bingo.cc:77-130 | After every run from empty tables, each of the four tables evicts the entry of the set that the run used the longest ago |
| BingoRecency.RegionRecovers | prefetcher/bingo.cc:77-84 | Region and offset name the block, for region numbers below 2^37 |
| BingoDevice.BingoPrefetcher.Access | prefetcher/bingo.cc:77-111 | In place, exactly the specified access; what a trigger access prefetches comes from an exact lookup |
| BingoDevice.BingoPrefetcher.Eviction | prefetcher/bingo.cc:113-124 | In place, exactly the specified eviction |
| BingoDevice.BingoPrefetcher.FindInPht | prefetcher/bingo.cc:237-275 | An exact lookup turned into fill levels: one level for a PC and address match, otherwise the vote |
| BingoDevice.BingoPrefetcher.InsertInPht | prefetcher/bingo.cc:277-286 | The footprint enters the pattern history under its reconstructed address |
| BingoDevice.BingoPrefetcher.Vote | prefetcher/bingo.cc:294-340 | Every block's level follows from how many patterns mark it; empty if no block gets one |
| BingoDevice.BingoPrefetcher.PromoteRegion | prefetcher/bingo.cc:97-109 | The second block of a region moves it between the tables under its recovered region number, and learns what that evicts |
| FastSets.WithBitMeaning | inc/set.h:38-49 | Setting a bit adds exactly that bit to a word |
| FastSets.FastSet.InsertSmall | inc/set.h:52-66 | A sorted small set gains exactly x and stays sorted |
| FastSets.FastSet.SearchSmallLinear | inc/set.h:69-76 | Linear search is membership |
| FastSets.FastSet.SearchSmall | inc/set.h:79-102 | Linear or binary search is membership |
| FastSets.FastSet.SmallToBit | inc/set.h:105-114 | The bitset holds exactly the small values |
| FastSets.FastSet.Insert | inc/set.h:124-142 | In every mode, exactly x is added |
| FastSets.FastSet.Search | inc/set.h:145-158 | In every mode, membership |
| FastSets.FastSet.Join | inc/set.h:163-187 | The union with the other set; of a big one exactly its elements in words up to that of n |
| FastSets.JoinedIsUnion | inc/set.h:163-187 | The union when the other set's elements are below n |
| FastSets.JoinedIsUnionIff | inc/set.h:183-186 | In general the union exactly when no cut-off word holds anything new |
| FastSets.FastSet.Expand | inc/set.h:190-214 | The strictly increasing enumeration of the set, of a big one up to n |
| FastSets.EnumerationSize | inc/set.h:190-214 | An enumeration has the cardinality of its set, so expand returns the cardinality |
| FastSets.EnumerationUnique | inc/set.h:190-214 | There is only one strictly increasing enumeration |
| FastSets.WholeEnumeration | inc/set.h:190-214 | When n bounds the elements, what expand returns is the whole set and its cardinality |
| Mlop.ScoredOk | prefetcher/mlop.cc:125-148 | A counted access keeps 0 <= score[d+1][o] <= score[d][o] <= update_cnt and the ORIGIN column 0 |
| Mlop.ScoredExactly | prefetcher/mlop.cc:125-148 | An access credits offset o at degree d with one exactly when o is not 0 and the block o before the accessed one is in state ACCESS and not among the d latest accesses of a history that long |
| Mlop.AccessMeaning | prefetcher/mlop.cc:85-206 | A block of a known zone that is not accessed already credits exactly those offsets; the access that completes a round selects from these scores and starts again from zero; any other access changes nothing |
| Mlop.LevelsSelected | prefetcher/mlop.cc:168-180 | A degree prefetches into the L2 exactly when one of its offsets reaches the L2 threshold, into the LLC exactly when one reaches only the LLC threshold, and otherwise not at all |
| Mlop.MaxFalls | prefetcher/mlop.cc:159-166 | max_scores never rises with the degree and is at most the number of updates |
| Mlop.LevelsFall | prefetcher/mlop.cc:172-180 | A deeper degree over a threshold has a shallower degree over it too, and never prefetches into a nearer level |
| Mlop.SelectMeaning | prefetcher/mlop.cc:168-202 | The selected lists are pairwise disjoint, every selected offset is of the greatest score of its degree over a threshold, and every such offset is selected at that degree or a deeper one |
| Mlop.OriginNeverSelected | prefetcher/mlop.cc:182-192 | Offset 0 is never selected under positive thresholds |
| Mlop.AccessOk | prefetcher/mlop.cc:85-202 | An access keeps all score and table invariants |
| Mlop.RoundSelects | prefetcher/mlop.cc:150-206 | The access that ends a round selects from ordered scores |
| Mlop.RunKeepsOk | prefetcher/mlop.cc:85-206 | All invariants over every run of accesses and state changes |
| Mlop.ReachablePicks | prefetcher/mlop.cc:150-206 | In every reachable state pf_offset is as initialised, or pairwise disjoint lists that hold exactly the untaken offsets of greatest score of each degree over its threshold, from ordered and bounded scores |
| MlopDevice.MlopPrefetcher.UpdateScores | prefetcher/mlop.cc:126-148 | The nested loops add exactly the specified updates |
| MlopDevice.MlopPrefetcher.SelectOffsets | prefetcher/mlop.cc:150-202 | The end-of-round loops compute exactly the specified selection |
| MlopDevice.MlopPrefetcher.MaxElement | prefetcher/mlop.cc:161-162 | The greatest score of a degree |
| MlopDevice.MlopPrefetcher.BestOffsets | prefetcher/mlop.cc:182-192 | In increasing order, the offsets of greatest score that no deeper degree has taken |
| MlopDevice.MlopPrefetcher.Access | prefetcher/mlop.cc:85-206 | In place, exactly the specified access |
| Mlop.SetStateOk | inc/mlop.h:54-110 | Every state change keeps the history queue within PF_DEGREE - 1 entries inside the zone, and a zone is kept only while some block is not INIT |
| Mlop.SetStateMeaning | inc/mlop.h:54-110 | set_state changes the state and fill level of one block, puts an access before the history, which forgets only its oldest entry and only when full, drops a zone without a block in use, makes an accessed zone the most recent, and touches no other zone except the one that makes room |
| MlopDevice.MlopPrefetcher.SetState | inc/mlop.h:54-110 | In place, exactly the specified state change |
| MlopDevice.MlopPrefetcher.AllInit | inc/mlop.h:97-105 | True exactly when every block is in state INIT |
| Sandbox.RoundMoves | prefetcher/sandbox.cc:272-298 | The end of a round only moves offsets between the two lists |
| Sandbox.RoundKeepsPartition | prefetcher/sandbox.cc:272-298 | Evaluated and waiting offsets stay a partition of the 32 candidates into 16 and 16 |
| Sandbox.DropsLowest | prefetcher/sandbox.cc:272-289 | What leaves scores no better than what stays |
| Sandbox.SixteenExactlyWhen | prefetcher/sandbox.cc:276-297 | Sixteen offsets stay under evaluation exactly when sandbox_num_cycle_offsets is at most 16 |
| Sandbox.StepOk | prefetcher/sandbox.cc:101-176 | Every access passes both asserts of invoke_prefetcher and keeps the partition |
| Sandbox.RunKeepsOk | prefetcher/sandbox.cc:101-176 | The partition over every run |
| Sandbox.Rotation | prefetcher/sandbox.cc:157-176 | An offset at waiting position k is under evaluation after floor(k/n) + 1 rounds, whatever the scores; until then it moves up n places a round |
| Sandbox.ScoresAddUp | prefetcher/sandbox.cc:119-176 | While no round ends, the score of each evaluated offset is its earlier one plus the gains of the accesses of its own phase |
| Sandbox.RoundStarts | prefetcher/sandbox.cc:272-298 | The access that ends a round keeps the best offsets with their scores, and the newcomers start with score 0 |
| Sandbox.RoundsNeededIs | prefetcher/sandbox.cc:290-297 | The number of rounds is floor(k/n) + 1 |
| Sandbox.StepOnSchedule | prefetcher/sandbox.cc:157-176 | A round takes exactly sixteen phases of sandbox_num_access_in_phase accesses |
| Sandbox.InitialOk | prefetcher/sandbox.cc:66-91 | The initial lists are such a partition |
| SandboxDevice.SandboxPrefetcher.constructor | prefetcher/sandbox.cc:30-46 | The loops build the initial lists |
| SandboxDevice.SandboxPrefetcher.EndOfRound | prefetcher/sandbox.cc:272-298 | The pop and push loops compute exactly the specified exchange |
| SandboxDevice.SandboxPrefetcher.Access | prefetcher/sandbox.cc:101-176 | In place, exactly the specified scoring and stepping; both asserts hold |
| DramCache.AfterOpOk | src/dram_cache.cc:14-89 | Valid lines of a set stay a prefix with distinct tags of that set; a line becomes valid exactly on a miss in a set that is not full |
| DramCache.HitFindsFirst | src/dram_cache.cc:209-239 | On a hit the set's first line is valid, so the hit is counted as a read or write hit |
| DramCache.StepOk | src/dram_cache.cc:14-89 | hits + misses = ticks, read hits + write hits = hits, capacity + conflict misses = misses, capacity misses = valid lines, under every replacement policy |
| DramCache.OldestGoesExactlyWhen | src/dram_cache.cc:148-176 | In a full set find_victim takes the line filled first exactly when its count is not negative as an int or it is in the last way, and no earlier count was cut down to it |
| DramCache.OldestGoesBelow32Bits | src/dram_cache.cc:148-176 | Below 2^32 ticks: exactly when its count is below 2^31 or it is in the last way |
| DramCache.FifoStep | src/dram_cache.cc:138-204 | In FIFO mode: hits change nothing, misses append, and a full set evicts exactly the tag filled first, exactly as long as find_victim takes the oldest way |
| DramCache.FifoExactlyWhen | src/dram_cache.cc:14-89 | A run holds the tags of bounded first-in first-out lists after every request exactly when each of its evictions finds the oldest way |
| DramCache.EarlyRunIsOrderly | src/dram_cache.cc:14-89 | Every run within 2^31 ticks does |
| DramCache.RunIsFifo | src/dram_cache.cc:14-89 | Such a run ends with each set being a bounded first-in first-out list, in order |
| DramCache.FifoFailsFromEmpty | src/dram_cache.cc:148-176 | From every empty cache of two ways a run of 2^31 + 3 reads is not first-in first-out |
| DramCacheUse.DirtyExactlyWhen | src/dram_cache.cc:209-269 | An operation leaves exactly the resident lines written dirty, except for a write that hits a line other than the first of its set: it marks the first instead, which is right only if both are dirty already |
| DramCacheUse.DirtyLossCounted | src/dram_cache.cc:138-204 | cache_to_next_mem counts exactly the dirty lines that leave |
| DramCacheUse.UsesKeptExactlyWhen | src/dram_cache.cc:209-269 | Under LRU and RAND an operation keeps the counts of a set the ticks of the last uses exactly when it misses or hits the first line of the set |
| DramCacheUse.RecencyExactlyWhen | src/dram_cache.cc:14-89 | Over a run the counts tell the last uses throughout exactly when each hit of the run is of the first line of a set |
| DramCacheUse.LruEvictsOldestUse | src/dram_cache.cc:138-204 | With such counts below 2^31, LRU evicts the line used the longest ago |
| DramCacheUse.LruEvictsLastUsed | src/dram_cache.cc:138-204 | In a two-way set under LRU, fill two lines, hit the second and fill a third: the line just used is evicted and the other stays |
| DramCacheUse.RandomEvictsAny | src/dram_cache.cc:138-204 | RAND can evict every line of a full set |
| DramCacheDevice.DramCacheArray.CheckCacheHit | src/dram_cache.cc:97-114 | True exactly when a valid line of the set has the tag |
| DramCacheDevice.DramCacheArray.GetCacheFreeLine | src/dram_cache.cc:117-130 | The first invalid way, if any |
| DramCacheDevice.DramCacheArray.FindVictim | src/dram_cache.cc:138-204 | The specified victim way and its miss counters |
| DramCacheDevice.DramCacheArray.TouchFirst | src/dram_cache.cc:209-269 | A hit updates the first line of the set and counts a read or write hit |
| DramCacheDevice.DramCacheArray.DoCacheOp | src/dram_cache.cc:14-89 | In place, exactly the specified operation on the flat array |

## Left out

- MissProtocol.MissesAnsweredExactlyOnce: for a single upper cache; an L1I sharing the L2 is not modelled, because a merged entry answers only the cache its instruction flag names.
- SppPattern.QueuesHoldExactlyWhen: thresholds below 7, where a further candidate of a level can cost less confidence than a further level, are not covered; up to 4 the queues fail already at a percentage (SppPattern.LowThresholdOverruns). Neither are thresholds above 40 at accuracies above 107. An invocation that queues exactly 32 candidates counts as not fitting, although one whose path ends in an untouched set would write nothing behind them.
- Spp.InvokeOk: invocations at lower thresholds or higher accuracies are covered, as far as they return within their queues, by Spp.InvokeKeeps and Spp.RunKeepsAccounting.
- SppDevice.SppDev2.InvokePrefetcher: calls that run past the 32 entries of the candidate queues, or never return, have no meaning in the source and are not modelled.
- FastSets.FastSet.Join: the storage the source shares between values and bits is two arrays, of which only the one of the current mode is read.
- DramCache.OldestGoesExactlyWhen: for ticks below 2^64 - 2^31, where no count reaches the value of a negative int.
- DramCacheUse.LruEvictsOldestUse: for ticks below 2^31, up to which the int of find_victim holds a count.
- MlopDevice.MlopPrefetcher.SetState: marks a prefetch only in a zone that is present, as the commented assert of set_state demands and its one caller ensures; the source would enter the zone with the stale recency of its way.
- BingoDevice.BingoPrefetcher.Vote: thresholds are an arbitrary function of the counts; floating-point rounding of the ratio is not modelled.
- Sandbox.Rotation: Bloom filter contents and the generation of real prefetches from the scores are not modelled.
- The PROCESSED queue, dependency sets of merged packets and their merging, TLB queues, perfect and semi-perfect knobs, and invalidate_entry of the caches.
- Packet fields that carry data and metadata, latency and miss statistics, and the prefetch usefulness statistics of the caches.
- MSHR head and tail, which no handler reads.
- Prefetcher callbacks inside the cache handlers: they are additional prefetch events.
- The DRAM, NVM and hybrid memory controllers and the out-of-order core are not part of this model.
- Statistics, histograms, knobs, configuration parsing, trace reading, logging and table formatting.
- Learning engines, feature tables and perceptron sums of Pythia and PPF: floating point or simple saturation.
- MissMap, BOP, TPC, SMS and the other prefetchers of the repository.
- MLOP::prefetch, which reads the access map before checking that the offset is inside the zone.
- flush_cache of the DRAM cache.
- The write_data overrides and the Table class of the hashed tables: printing.
