# ARMS and FlexKVS: a verified model

A Dafny model of three parts of the ARMS repository, with proofs of what each is for.
`dafny verify dfyconfig.toml` checks all of it.

1. **The containers ARMS is built on.** The open-addressing hash table of `src/khash.h` (triangular
   probing, tombstones, in-place kick-out rehash), the B-tree of `src/kbtree.h` (preemptive split,
   borrow and merge deletion, stack iterator) and the growing circular deque of `src/kdq.h`, as
   classes over arrays and heap nodes, proved to be a finite map, a sorted sequence with
   repetitions and a sequence. The free lists of `src/fifo.c` are a doubly linked list class.
2. **The tiered-memory protocol** of `src/pebs.c` and `src/arms.c`: the fault thread, application
   threads that write and unmap, the policy thread and any number of migration threads as one
   transition system over page descriptors, frames, a page table and memory contents. Proved over
   every run: frames are conserved, the program's assertions hold, the job counter is exact, the
   scoring index is a faithful lagging replica, and the whole is flat zero-initialised memory.
3. **The FlexKVS store** under `apps/flexkvs`: the bucket table with its chain and compare-and-set
   relocation, reference counts and log cleaning, the segment allocator, its spin lock
   and its cleaning scan, the request framing between the client's encoders and the server's two-piece receive buffer,
   and the Jenkins hash with its three alignment-specific bodies.

## How the files fit together

| part | files |
|---|---|
| what several parts use; triangular probing; hash table; its rounding macro on 32-bit words; runs of it | `Common`, `Probing`, `KHash`, `KRound`, `KHashRuns` |
| B-tree: sorted sequences; trees as values with insertion and deletion; their nodes changed in place; runs; the tree object; paths through a tree; the iterator | `SortedSeq`, `BTreeValue`, `BTreePut`, `BTreeDel`, `BTreeNodes`, `BTreeInPlace`, `BTreeRuns`, `BTreeObject`, `BTreePath`, `BTreeItr` |
| deque; free lists | `Deque`, `Fifo` |
| tiered memory: the steps; the invariant; each step keeps it; runs; the laws; the windows the locks leave open; what happens in the first two from any state; runs that show it | `TieredState`, `TieredInv`, `TieredRoles`, `TieredFault`, `TieredPlan`, `TieredRemove`, `TieredWork`, `TieredMove`, `TieredMain`, `TieredLaws`, `TieredWindow`, `TieredImpatient`, `TieredStale`, `TieredEarly` |
| key-value store: bucket specification; bucket in place; the store as a transition system; its laws | `KvBucket`, `KvTable`, `KvStore`, `KvLaws` |
| segments and allocator; several allocators on one pool; the pool's spin lock; store and memory together | `Segments`, `CleanupQueue`, `Allocator`, `AllocatorRuns`, `SegmentLock`, `StoreMemory` |
| requests on the wire | `Framing`, `Receive` |
| hash function | `JenkinsHash` |

A container or an object is a class whose methods are proved against a function of its contents;
what the program promises is then proved about those functions. A protocol between threads is a
transition system: a step is what runs under one lock or touches shared state once (for a page copy,
one word), but for a few steps named under "Left out" that take several such actions together.
`Enabled` says when a step can be taken and `Next` what it does, and a run is any list of enabled
steps. `pebs_add_page` and `pebs_remove_page` take two locks after one another, and are two and three
steps.

## Findings

- **Three windows the locks of the tiered-memory manager leave open are real.** `TieredState.Config` has a
  flag for each, to take it as closed.
  (1, `drainLate`) `pebs_remove_page` pushes the free entry before it clears `present`, so the policy
  thread can put a descriptor that is still present, mapped and perhaps being moved on a free list.
  That is harmless exactly as long as nobody takes it from there, and it is not mapped to another frame,
  before the removal is over. Over every run of that kind (`TieredMain.Patient`) the assertions hold and
  memory is flat, as they do with the window closed, where every run is of that kind
  (`TieredMain.ReachablePatient`). Otherwise: an allocation, and a dequeue for a promotion, fail
  their assertion if and only if they take such a descriptor (`TieredLaws.AssertionsHold`), which happens for every
  memory size (`TieredWindow.FirstWindowReal`). A swap asserts nothing: it puts two pages in one
  frame, and what is stored to one is read from the other (`TieredImpatient.SwapDoubles`, and from the start
  `TieredEarly.SwapReal`). A page that is mapped to another frame ends up on the free list of the
  wrong tier, if and only if its free entry has been drained (`TieredImpatient.StrayMisplaces`), and stays there when
  the removal is over (`TieredImpatient.StrayLasts`); so `assert(!page->in_dram)` can fail although no step
  takes a descriptor that is being removed (`TieredEarly.StrayReal`).
  (2, `moveLate`) `present` is set at allocation and `va` only after the frame is mapped, so a queued job
  that names a recycled descriptor can write-protect and move the page at the descriptor's old
  address. From every state in which it is about to, memory stays flat if and only if the
  descriptor's own frame happens to hold what was last written at that address
  (`TieredImpatient.SecondWindow`); a run in which a write is lost is `TieredStale.SecondWindowReal`.
  The job counter, the replica and the addresses on the log do not mind (`TieredLaws.JobsAccounted`,
  `ReplicaFaithful`, `LoggedAddressStays`).
  (3, `removeLate`) `pebs_add_page` indexes a page before it logs it, so a page that is unmapped in between
  has its free entry logged before its add entry, and the drain does not find the page. For every
  memory size there is a run to that assertion (`TieredWindow.ThirdWindowReal`).
- **`handle_wp_fault` can find no page, with every window closed.** A page can be unmapped while it is write-protected
  for a move (`TieredStale.WpFaultUnanswered`); `assert(page != NULL)` holds if and only if nobody has begun to remove
  the page (`TieredLaws.WpFaultFinds`).
- **`segment_alloc` unlocks a spin lock it does not hold** when all segments are made and none is free
  (`apps/flexkvs/server/ialloc.c:131`). The lock stays in order exactly if nobody holds it then
  (`SegmentLock.ExitExact`). As long as that is so no segment is ever with two threads
  (`SegmentLock.SegmentsApart`); otherwise a third thread enters and takes the segment the second is taking
  (`SegmentLock.Doubled`), which happens in some run whatever the number of segments (`SegmentLock.Twice`).
- **`kh_put` of an absent key fails without saying so** (`*ret == 0`, the answer for a key that is there) if and only if
  the table holds 2^31 keys (`KHash.Table.Put`), and such a table is a valid one (`KHash.FullIsOk`). Any smaller
  table has an empty bucket (`KHashRuns.SomeEmpty`).
- **Compare-and-set relocation never replaces a chained item**: it takes effect if and only if the old
  item is still the one stored and sits in a direct slot (`KvLaws.RelocateAnswers`). Cleaning is
  invisible to clients either way.
- **A segment's tail padding is described by its header if and only if** what it covers beyond the header
  fits the 16-bit key length (`Segments.PadLength`).
- The comment in `src/khash.h` that the stepping function visits each bucket is exact: the first 2^m
  probes are all different, and the walk is back at its start only after 2^(m+1)-1 steps, so the
  `i == last` exit comes long after every bucket has been seen.

## Model

| member | source | states |
|---|---|---|
| Probing.ProbesCover | src/khash.h:51-52 | every bucket of a power-of-two table is among the first 2^m probes, from any start |
| Probing.ProbesDistinct | src/khash.h:51-52 | the first 2^m probes hit 2^m different buckets |
| Probing.FirstReturn | src/khash.h:238-239 | the probe walk returns to its start first at step 2^(m+1)-1, and so the exit on i == last cannot skip a bucket |
| KHash.Table.constructor | src/khash.h:212-214 | a new table is a valid empty map |
| KHash.Table.Get | src/khash.h:230-243 | the bucket with the key and its value when the map has the key, n_buckets exactly when it has not |
| KHash.Locate | src/khash.h:236-240 | the search loop stops, at a bucket that settles whether the key is stored |
| KHash.Table.Put | src/khash.h:307-348 | an absent key is added with the bucket's value slot, a present one is found; the map, size, n_occupied and upper_bound stay right through tombstone reuse and resizing; 0 for an absent key if and only if 2^31 keys are stored, 1 only for a bucket that was empty, 2 only for a tombstone, -1 only when memory is refused |
| KHash.FullIsOk | src/khash.h:336-347 | a table with a key in every bucket is a valid table, so that answer for an absent key does occur |
| KHash.LocateForPut | src/khash.h:319-335 | the bucket chosen is the key's own, or the last tombstone passed, or the first empty one, and storing there hides nothing |
| KHash.ReachablePut | src/khash.h:336-345 | filling a free bucket on a key's probe path leaves every live key reachable and puts the new one within reach |
| KHash.Table.Del | src/khash.h:349-355 | exactly the key of a live bucket leaves the map; any other bucket leaves it as it was |
| KHash.Table.SetValue | src/pebs.c:1410 | storing through kh_value replaces that key's value and nothing else |
| KHash.TombKeeps | src/khash.h:352 | a tombstone keeps every other live key reachable |
| KHash.Table.Resize | src/khash.h:244-306 | growing, same-size and shrinking: the map and size are the same; the target is refused when too small, and a failed allocation leaves the table usable |
| KHash.ResizeRequests | src/khash.h:310-317 | the two sizes kh_put asks for leave room for its entries, except the doubling of 2^31 buckets, which is refused |
| KHash.TargetBelow | src/khash.h:312 | n_buckets - 1 is rounded up to the present size |
| KHash.TargetAbove | src/khash.h:314 | n_buckets + 1 is rounded up to twice the present size |
| KHash.TargetBits | src/khash.h:249-250 | the size a table is given is a power of two, at least 4 |
| KRound.KRoundUp32 | src/khash.h:176 | the decrement, the five shift-and-or steps and the increment on a 32-bit word give the least power of two not below it, 0 for 0 and above 2^31 |
| KHash.Rehash | src/khash.h:269-294 | the in-place rehash moves the whole map to the new flags, every key reachable on its new probe path, no tombstones |
| KHash.KickOut | src/khash.h:270-292 | the kick-out chain ends, and the entry in hand, the placed and the unmoved entries together are the map |
| KHash.KickStep | src/khash.h:283-286 | one kick: entry in hand and bucket swap, the map is conserved, and one fewer old live bucket remains (the chain's measure) |
| KHash.SettleStep | src/khash.h:287-291 | putting the entry in hand into a bucket with no old entry completes the map |
| KHash.LiftStep | src/khash.h:271-276 | lifting an old entry out of its bucket takes exactly it from what the arrays hold |
| KHash.RoomLeft | src/khash.h:281 | while an entry is in hand the new flags have an empty bucket |
| KHash.FindEmpty | src/khash.h:281 | the search for an empty bucket ends, on the key's probe path with no gap before it |
| KHashRuns.SomeEmpty | src/khash.h:310-318 | every valid table below 2^31 buckets has an empty bucket |
| KHash.SizeCounts | src/khash.h:339 | size is the number of keys |
| KHashRuns.Apply | src/khash.h:230-355 | one store, lookup or removal answers and changes the table as it would a finite map; only storing an absent key into 2^31 others is left out |
| KHashRuns.Run | src/khash.h:230-355 | any run of stores, lookups and removals, of any length, in which no absent key is stored while there are 2^31, gives the answers of a finite map |
| BTreePut.GetAux | src/kbtree.h:103-117 | the binary search is the leftmost position with its comparison, for any sorted node |
| BTreePut.AuxPlace | src/kbtree.h:103-117 | keys up to the position are at most k, those after it at least k |
| BTreePut.ContainsIff | src/kbtree.h:120-131 | the descent finds a key if and only if the tree holds it |
| BTreePut.SplitWf | src/kbtree.h:162-177 | splitting a full child leaves a well-formed tree with both halves at t-1 keys |
| BTreePut.SplitInOrder | src/kbtree.h:162-177 | splitting changes nothing in the in-order reading |
| BTreePut.PutAuxInOrder | src/kbtree.h:178-198 | inserting below a node that is not full puts exactly one more k into the reading, in its place |
| BTreePut.PutInOrder | src/kbtree.h:199-213 | inserting into any well-formed tree: the reading with k inserted, sorted, one more k as a multiset; well formed, a full root included |
| BTreeDel.MakeRoomWf | src/kbtree.h:262-298 | both borrows and both merges leave a well-formed node |
| BTreeDel.MakeRoomSize | src/kbtree.h:262-298 | and the child about to be entered has at least t keys |
| BTreeDel.MakeRoomInOrder | src/kbtree.h:262-298 | and the reading is the same, with everything the child held still in it |
| BTreeDel.PredecessorTakesOver | src/kbtree.h:239-243 | replacing the key by its predecessor deletes exactly that key |
| BTreeDel.SuccessorTakesOver | src/kbtree.h:244-248 | replacing the key by its successor deletes exactly that key |
| BTreeDel.MergeInOrder | src/kbtree.h:249-259 | merging two children around a key keeps the reading, and the key is in the merger |
| BTreeDel.DelAuxInOrder | src/kbtree.h:221-300 | the recursive deletion of a key, of the greatest or of the least takes exactly that key out of the reading |
| BTreeDel.DelInOrder | src/kbtree.h:301-314 | deleting a key that is there: that key is returned, the reading is without one of it, sorted, well formed, root collapse included |
| BTreeNodes.FastenPair | src/kbtree.h:172-176 | two node-disjoint subtrees put back under a node are a tree again, over exactly those nodes |
| BTreeInPlace.Split | src/kbtree.h:162-177 | the nodes after __kb_split are the split tree, with one new node |
| BTreeInPlace.PutNode | src/kbtree.h:178-198 | the nodes after __kb_putp_aux are the tree with the key inserted; only new nodes are added |
| BTreeInPlace.PutRoot | src/kbtree.h:199-213 | kb_putp on the nodes is insertion on the tree, raising a new root over a full one |
| BTreeInPlace.ShiftRight | src/kbtree.h:264-270 | the borrow from the left sibling, in place, over the same nodes |
| BTreeInPlace.ShiftLeft | src/kbtree.h:271-277 | the borrow from the right sibling, in place, over the same nodes |
| BTreeInPlace.MergeKids | src/kbtree.h:249-258 | the merge of two siblings, in place; exactly the freed node leaves the tree |
| BTreeInPlace.GiveRoom | src/kbtree.h:262-298 | the branches before the descent, in place, and where the child is afterwards |
| BTreeInPlace.DelNode | src/kbtree.h:221-300 | the nodes after __kb_delp_aux are the tree after the deletion, no node gained; the recursion ends, the merge-then-retry case included |
| BTreeInPlace.DelRoot | src/kbtree.h:301-314 | kb_delp on the nodes is deletion on the tree, the empty root dropped |
| BTreeInPlace.Seen | src/kbtree.h:120-131 | the descent through the nodes finds a key if and only if the tree holds it |
| BTreeObject.KbTree.constructor | src/kbtree.h:62-77 | a new tree holds nothing |
| BTreeObject.KbTree.Put | src/kbtree.h:199-213 | the sorted keys gain exactly k; order, occupancy, equal leaf depth and n_keys are kept |
| BTreeObject.KbTree.Delete | src/kbtree.h:301-314 | for a key that is there: it is returned and the sorted keys lose exactly one of it; all shape rules are kept |
| BTreeObject.KbTree.Get | src/kbtree.h:120-135 | true if and only if the tree holds the key |
| BTreePath.ManyKeys | src/kbtree.h:35 | a tree of h levels holds at least 2^h - 1 keys |
| BTreePath.DepthBound | src/kbtree.h:35 | with n_keys below 2^31 the iterator needs at most 32 stack entries, within KB_MAX_DEPTH |
| BTreeItr.Iterator.First | src/kbtree.h:321-332 | on the nodes of a tree object: the iterator starts before all keys in order, or is over when there is none |
| BTreeItr.Iterator.Next | src/kbtree.h:348-362 | on the nodes of a tree object: it moves past exactly one key, says truly whether there is another, and stays within its stack |
| BTreeItr.Iterate | src/kbtree.h:320-362 | first then next over a tree object yields every key it holds once, in ascending order |
| BTreeRuns.RunsRefine | src/kbtree.h:160-314 | after any run of insertions and deletions the tree is well formed, holds exactly the keys put in and not taken out, and lookup says so |
| Deque.Kdq.constructor | src/kdq.h:20-27 | a new deque is empty with four slots |
| Deque.Kdq.Grow | src/kdq.h:33-54 | growing by any number of bits keeps the elements and their order for every front and count, wrapped or not |
| Deque.Kdq.Push | src/kdq.h:60-64 | appends, growing when full |
| Deque.Kdq.Unshift | src/kdq.h:65-77 | prepends, growing when full |
| Deque.Kdq.Pop | src/kdq.h:78-81 | takes the last element, or nothing from an empty deque |
| Deque.Kdq.Shift | src/kdq.h:82-90 | takes the first element, or nothing from an empty deque |
| Fifo.List.Enqueue | src/fifo.c:7-25 | the entry is put in front of the others; links, ends and numentries agree, and the assertions hold |
| Fifo.List.Dequeue | src/fifo.c:27-52 | the last entry leaves with its links cleared; NULL from an empty list |
| Fifo.List.Remove | src/fifo.c:54-87 | the given entry leaves from anywhere, the others keep their order; an empty list is left alone |
| TieredMain.InitInv | src/pebs.c:1495-1520 | pebs_init establishes the invariant |
| TieredMain.KeepCore | src/pebs.c:835-933 | every step of every thread keeps what the invariant says of descriptors, jobs, indices and log, with the third window closed, unless it takes a descriptor that is still being removed |
| TieredMain.KeepInv | src/pebs.c:835-933 | and all of the invariant, with the second and third window closed, unless it takes such a descriptor or maps a page whose free entry has been drained |
| TieredMain.KeepRun | src/pebs.c:894-1307 | and so does every run of such steps |
| TieredMain.ReachablePatient | src/pebs.c:1431-1454 | with the first window closed every run is one of such steps |
| TieredFault.KeepAllocDram | src/pebs.c:1356-1368 | allocating a free DRAM page that nobody is still removing keeps the invariant |
| TieredFault.KeepAllocNvm | src/pebs.c:1370-1383 | and so does falling back to NVM |
| TieredFault.KeepMap | src/arms.c:910-965 | zeroing the frame, mapping it and setting va does |
| TieredFault.KeepIndex | src/pebs.c:1406-1411 | and the first half of pebs_add_page, into pages |
| TieredFault.KeepLog | src/pebs.c:1413-1417 | and its second half, onto the log |
| TieredRemove.KeepRemove | src/pebs.c:1437-1442 | taking a page out of pages keeps the invariant, with the third window closed |
| TieredRemove.KeepPublish | src/pebs.c:1444-1447 | pushing its free entry does |
| TieredRemove.KeepClear | src/pebs.c:1449-1454 | clearing present, with the unmapping, does, before or after the free entry is drained |
| TieredRemove.KeepWrite | src/arms.c:854-869 | a write to a mapped page that is not write-protected does |
| TieredRemove.KeepDrainAdd | src/pebs.c:1116-1121 | draining an add entry does |
| TieredRemove.KeepDrainFree | src/pebs.c:1100-1115 | draining a free entry does, early or late, the descriptor going to its own tier's list |
| TieredPlan.KeepPromote | src/pebs.c:1219-1257 | planning a promotion into a free DRAM page that nobody is still removing does |
| TieredPlan.KeepSwap | src/pebs.c:1259-1306 | and so does planning a demotion with a promotion |
| TieredPlan.KeepAwait | src/pebs.c:1178-1181 | collecting a completed job does |
| TieredWork.KeepStart | src/pebs.c:905-911 | taking a job off the queue does |
| TieredWork.KeepSkip | src/pebs.c:841-848 | dropping a job whose page is going does |
| TieredWork.KeepBegin | src/pebs.c:491-519 | flagging and write-protecting the page does, with the second window closed |
| TieredWork.KeepCopy | src/arms.c:628-642 | copying a word does |
| TieredMove.KeepRemap | src/arms.c:658-690 | mapping the page to its new frame does, unless its free entry has been drained |
| TieredMove.KeepReleaseUp | src/pebs.c:850-862 | giving the old frame to the free page after a promotion does |
| TieredMove.KeepReleaseDown | src/pebs.c:877-892 | and after a demotion |
| TieredLaws.FramesConserved | src/pebs.c:835-892 | in every state a patient run reaches descriptors and frames of both tiers are one to one, mid-migration included; each descriptor is in exactly one of DRAM-free, NVM-free, carried by a job, handed out; free lists hold each descriptor once and only their own tier; a listed one is present exactly while it is still being removed |
| TieredLaws.AssertionsHold | src/pebs.c:1101-1119 | in every state a patient run reaches an assertion is true (tiers at allocation and migration, absence on adding and on draining an add entry, presence on draining a free entry, address of the page moved, list a dropped job's page goes back to), but exactly for an allocation or a promotion that takes a descriptor still being removed |
| TieredLaws.JobsAccounted | src/pebs.c:1177-1181 | the job counter is queued plus executing plus completed jobs; when the wait loop ends nothing is in flight; no page is named by two jobs; whatever the second window |
| TieredLaws.IndicesClose | src/pebs.c:1190-1307 | the promote and demote indices only move towards each other within a round |
| TieredLaws.UnplannedStays | src/pebs.c:1190-1307 | no step of any thread moves a page the planning loop has not reached |
| TieredLaws.RoundStable | src/pebs.c:1190-1307 | all through a round of a patient run such a page keeps its tier and offset |
| TieredLaws.ReplicaFaithful | src/pebs.c:1069-1124 | replaying the pending log on pages_map gives pages, but for exactly the page that is indexed and not logged yet and the pages taken out whose free entry is not logged yet; with no such call under way they are equal; whatever the second window |
| TieredLaws.LoggedAddressStays | src/pebs.c:1399-1418 | a descriptor's va does not change while an entry of it is on the log; whatever the second window |
| TieredLaws.WpFaultFinds | src/arms.c:854-869 | a write-protected page belongs to a present, migrating descriptor; pages has it if and only if nobody has begun to remove it |
| TieredLaws.StepRefines | src/arms.c:592-705 | each step of a patient run changes what the application reads as the matching step of flat memory does, or not at all |
| TieredLaws.RunRefines | src/arms.c:592-819 | every patient run does, in both directions of migration |
| TieredLaws.FlatReads | src/arms.c:914-933 | flat memory answers the last value written since the page appeared, zero if none |
| TieredLaws.ReadsLastWritten | src/arms.c:592-982 | after any patient run, reading any mapped address gives the last value written there, zero if none was since first touch |
| TieredWindow.FirstWindowReal | src/pebs.c:1444-1453 | with the first window open, whatever the others and the sizes of the tiers, a reachable state in which an allocation's assertion fails |
| TieredWindow.EarlyDrain | src/pebs.c:1100-1115 | draining a free entry early and clearing present at once gives the state the other order gives; allocating that descriptor in between fails |
| TieredImpatient.SwapDoubles | src/pebs.c:1276-1297 | from every state a patient run reaches in which a swap takes a free page that is still being removed, with nothing else queued, a free migration thread and the cold page unlocked: a run on which every assertion holds, two addresses in one frame, and a store to one read from the other |
| TieredImpatient.StrayMisplaces | src/pebs.c:850-853 | from every state a patient run reaches: mapping a page to its new frame leaves every free list with its own tier if and only if its free entry has not been drained |
| TieredImpatient.StrayLasts | src/pebs.c:850-862 | if it has, the descriptor is still on the wrong list when the move and the removal are over |
| TieredImpatient.MisplacedFails | src/pebs.c:1357-1371 | and then allocating it fails its assertion |
| TieredImpatient.SecondWindow | src/pebs.c:1361 | from every state a patient run reaches in which a migration thread is at a page just allocated, its old address mapped and its lock free: after the move that address shows the descriptor's own frame, and memory is flat if and only if that has what was last written there |
| TieredEarly.SwapReal | src/pebs.c:1276-1297 | a run from pebs_init on which every assertion holds and a page reads what was stored to another one |
| TieredEarly.StrayReal | src/pebs.c:1370-1374 | a run from pebs_init that takes no descriptor still being removed, and an allocation of a page in the wrong tier |
| TieredWindow.ThirdWindowReal | src/pebs.c:1411-1414 | with the third window open, whatever the others and the sizes, a reachable state in which draining a free entry does not find its page |
| TieredStale.SecondWindowReal | src/pebs.c:1361 | with only the second window open, a reachable state in which a written value is lost |
| TieredStale.WpFaultUnanswered | src/arms.c:860-861 | with all windows closed, a reachable state in which a mapped page is write-protected and not in pages |
| KvBucket.FindIff | apps/flexkvs/server/hashtable.c:109-143 | lookup gives an item if and only if it is in the bucket with that key |
| KvBucket.PutWf | apps/flexkvs/server/hashtable.c:146-223 | hashes, one item per key over slots and chain, and slot layout are kept by either kind of put |
| KvBucket.PutStores | apps/flexkvs/server/hashtable.c:146-223 | after a plain put the key gives the new item, every other key what it did, and the item replaced is the one it had |
| KvBucket.PutCompares | apps/flexkvs/server/hashtable.c:169-186 | a compare-and-set takes effect if and only if the stored item is cas, in a direct slot; otherwise nothing changes |
| KvBucket.PutMembers | apps/flexkvs/server/hashtable.c:188-216 | which items are in the bucket afterwards |
| KvTable.HashBucket.Get | apps/flexkvs/server/hashtable.c:109-143 | returns what the specification finds, with one more reference, and changes nothing else |
| KvTable.HashBucket.Put | apps/flexkvs/server/hashtable.c:146-223 | the linked bucket becomes what the specification says; exactly the stored item gains and the replaced item loses a reference; an item is freed when its count falls to zero |
| KvStore.InitInv | apps/flexkvs/server/hashtable.c:109-143 | the empty store satisfies the invariant |
| KvStore.KeepInv | apps/flexkvs/server/main-ll.c:427-458 | every step of workers, and of maintenance and clean_log on every core, keeps it |
| KvLaws.SetAnswers | apps/flexkvs/server/main-ll.c:273-289 | a SET changes the answer for its key and for no other |
| KvLaws.RelocateAnswers | apps/flexkvs/server/main-ll.c:448-453 | a relocation changes no answer, whether it takes effect (exactly when the old item is stored in a direct slot) or not |
| KvLaws.StepAnswers | apps/flexkvs/server/main-ll.c:427-458 | of all steps only a SET changes an answer |
| KvLaws.RunAnswers | apps/flexkvs/server/main-ll.c:427-458 | over any interleaving of workers and cleaning cores, a key's answer is its last SET: cleaning is invisible |
| KvLaws.ReferencesExact | apps/flexkvs/server/iokvs.h:236-271 | a count is the table's reference plus those of workers and of every core's queue and clean_log; an item in the table or held has at least one |
| KvLaws.CleaningBalanced | apps/flexkvs/server/main-ll.c:438-456 | when all queues are drained the cores have released exactly the references that were taken for cleaning |
| KvLaws.ZeroStays | apps/flexkvs/server/iokvs.h:248-258 | a count of zero stays zero: item_tryref never revives an item |
| KvLaws.FreedOnce | apps/flexkvs/server/iokvs.h:264-271 | and so over any run an item is counted as freed at most once |
| Segments.PadLength | apps/flexkvs/server/ialloc.c:207-212 | the padding header covers the whole tail if and only if its key length fits 16 bits |
| Segments.Segment.ItemAlloc | apps/flexkvs/server/ialloc.c:197-224 | an item is placed if and only if it fits; items and padding tile [0, offset) and freed is exactly what they waste |
| Segments.Segment.Unref | apps/flexkvs/server/iokvs.h:264-271 | the last reference, and only that, adds the item's size to freed |
| Segments.Segment.FullyFreed | apps/flexkvs/server/ialloc.c:435-442 | freed == size means the segment is full and holds no live item |
| CleanupQueue.Ring.Push | apps/flexkvs/server/ialloc.c:485-488 | the cleanup ring gains an entry at its tail |
| CleanupQueue.Ring.Pop | apps/flexkvs/server/ialloc.c:325-330 | and loses one at its head, or none when empty |
| CleanupQueue.Scan | apps/flexkvs/server/ialloc.c:475-492 | the scan of a closed segment queues its live items in order, one reference each, and stops only at the end or with the ring full |
| Allocator.Pool.SegmentAlloc | apps/flexkvs/server/ialloc.c:108-172 | a reset segment nobody has; NULL exactly when none is free and either the maximum are made or the system refuses, which loses that stretch of memory |
| Allocator.Pool.SegmentFree | apps/flexkvs/server/ialloc.c:181-188 | the segment goes back to the free list and to nobody else |
| Allocator.ItemAllocator.constructor | apps/flexkvs/server/ialloc.c:227-253 | a new allocator has a current and a reserved segment of its own |
| Allocator.ItemAllocator.Alloc | apps/flexkvs/server/ialloc.c:255-296 | an item in the current or a new segment; refused exactly when only cleaning may allocate or no segment is to be had; ownership of segments is kept |
| Allocator.ItemAllocator.Refill | apps/flexkvs/server/ialloc.c:331-333 | once the reserved segment is in use another one is kept back as soon as there is one |
| Allocator.ItemAllocator.Recycle | apps/flexkvs/server/ialloc.c:421-455 | exactly the fully freed inactive segments, which hold no live item, leave the chain for the free list; the rest keep their order |
| AllocatorRuns.AllocBy | apps/flexkvs/server/ialloc.c:255-296 | what one of several allocators answers and does: refused, placed in the current segment, or that padded and the next free, a new or the reserved segment begun; nothing else changes |
| AllocatorRuns.RefillBy | apps/flexkvs/server/ialloc.c:331-333 | a missing reserve is filled with the next free or a new segment if one is to be had; nothing else changes |
| AllocatorRuns.RecycleBy | apps/flexkvs/server/ialloc.c:421-455 | exactly the closed segments without a live item go to the free list, in order; nothing else changes |
| AllocatorRuns.ReleaseBy | apps/flexkvs/server/iokvs.h:264-271 | the item's block loses one reference and with the last one is dead; nothing else changes |
| AllocatorRuns.StepKeeps | apps/flexkvs/server/ialloc.c:108-455 | whatever an operation does, an item given out and not released stays live where it is, and its room is not given out again |
| AllocatorRuns.Run | apps/flexkvs/server/ialloc.c:108-455 | over any run of any number of allocators on one pool: each operation answers and does what it should, each segment stays with one of them or the pool, and the items held are those given out and not released, live at every moment |
| StoreMemory.NothingRecycledUnder | apps/flexkvs/server/main-ll.c:427-458 | over any run of workers, cleaning cores and allocators: an item that is read for a GET, queued, copied or in the table is live where it was put, in a segment in use, and its room is nobody else's |
| SegmentLock.KeepInv | apps/flexkvs/server/ialloc.c:115-188 | with each read and write of the list and the count a step of its own: every step but the unlocking exit keeps the lock with one thread and each segment in one place |
| SegmentLock.ExitExact | apps/flexkvs/server/ialloc.c:129-133 | the unlocking exit keeps the lock in order if and only if nobody holds it |
| SegmentLock.SegmentsApart | apps/flexkvs/server/ialloc.c:108-188 | any number of threads, any run in which that exit is only taken while nobody holds the lock: no segment is with two threads, or with one and free |
| SegmentLock.Doubled | apps/flexkvs/server/ialloc.c:116-131 | from every state in which a thread is at that exit while another is taking a segment, a run gives that segment to two threads |
| SegmentLock.Twice | apps/flexkvs/server/ialloc.c:108-188 | with three threads or more and any number of segments, a run from the start does |
| Framing.HeaderFields | apps/flexkvs/bench/main.c:391-399 | the server reads back every header field the client writes |
| Framing.ParseEncoded | apps/flexkvs/bench/main.c:380-432 | an encoded request, whatever follows it, is read back as that request and its exact length |
| Framing.ParsePartial | apps/flexkvs/server/main-ll.c:190-201 | no proper prefix of a request is taken for one |
| Framing.DrainStream | apps/flexkvs/server/main-ll.c:189-349 | from any prefix of a stream of requests exactly the complete ones are read, in order; what is held back is a proper prefix of the next |
| Framing.ServeStream | apps/flexkvs/server/main-ll.c:156-350 | however the stream is cut into events, the same requests are decoded in the same order |
| Framing.WholeStream | apps/flexkvs/server/main-ll.c:189-349 | when a whole stream has been handled, exactly its requests have |
| Receive.Connection.AddEvent | apps/flexkvs/server/main-ll.c:170-186 | the next bytes of the ring extend what is held; the "weird situation" branch is dead |
| Receive.Connection.SplitRead | apps/flexkvs/server/main-ll.c:191-218 | a read over the two pieces gives the bytes at that offset of what is held |
| Receive.Connection.Advance | apps/flexkvs/server/main-ll.c:323-337 | exactly the consumed bytes leave, in each case of the piece arithmetic |
| Receive.Connection.ReadRequest | apps/flexkvs/server/main-ll.c:189-229 | header, key and value read over the pieces are what the contiguous bytes say |
| Receive.Connection.Consume | apps/flexkvs/server/main-ll.c:189-349 | the loop reads the requests a contiguous buffer would give and holds the same rest |
| Receive.Connection.Recv | apps/flexkvs/server/main-ll.c:156-350 | one arrival of bytes is served as the specification serves it |
| Receive.Connection.RecvAll | apps/flexkvs/server/main-ll.c:156-350 | and so is one arrival after the other |
| Receive.Connection.RecvStream | apps/flexkvs/server/main-ll.c:156-350 | on a new connection exactly the requests sent that have arrived whole are decoded, in order, however the bytes are cut; all of them once all have arrived |
| JenkinsHash.MixReversible | apps/flexkvs/server/jenkins_hash.c:80-88 | mix is a bijection on triples of 32-bit words, as its comment says |
| JenkinsHash.MixMacro | apps/flexkvs/server/jenkins_hash.c:80-88 | the eighteen assignments of the macro are that function |
| JenkinsHash.WordMasked | apps/flexkvs/server/jenkins_hash.c:155-182 | reading a word past the key's end and masking it gives the zero-padded little-endian word |
| JenkinsHash.HashWords | apps/flexkvs/server/jenkins_hash.c:138-182 | the 32-bit body is the fold of mix over zero-padded 12-byte blocks, every length |
| JenkinsHash.HashHalves | apps/flexkvs/server/jenkins_hash.c:206-251 | so is the 16-bit body |
| JenkinsHash.HashBytes | apps/flexkvs/server/jenkins_hash.c:253-294 | so is the byte-wise body |
| JenkinsHash.JenkinsHash | apps/flexkvs/server/jenkins_hash.c:127-298 | the hash depends on the key's bytes only, wherever they lie in memory |

## Left out

- TieredState.Config: in the laws about memory and about assertions the second and third windows are taken as closed, and the first one as harmless (`Patient`); past that, nothing but what Findings says is followed.
- TieredRemove.KeepClear: the page table entry goes in the step that clears `present`. Stores are allowed up to that step; from then until the system unmaps the page, the address is taken not to be touched, and one thread unmaps a given range.
- TieredFault.KeepAllocDram: taking a page off a free list and marking it present are one step; a page in a thread's hand between the list's lock and its own is not a state of its own.
- TieredFault.KeepMap: zeroing the frame, mapping it and setting `va`, which take no lock, are one step.
- TieredRemove.KeepRemove: the lookup in arms_munmap and the deletion in pebs_remove_page are one step.
- TieredMove.KeepReleaseUp: unlocking the page, putting the free page on its list and posting the semaphore are one step, as are those of a dropped job.
- TieredPlan.KeepPromote: scores, averages and cost estimates are floating point; any ranking of indexed pages, and stopping at any point of the loop, is allowed instead, which covers whatever they compute.
- TieredLaws.JobsAccounted: safety only. `submission_sem` is posted for the first `batch_size` jobs, so a later job may wait for a worker; that it is ever run is not claimed.
- TieredStale.SecondWindowReal: the run is on one DRAM frame and two NVM frames, as are those of WpFaultUnanswered and TieredEarly.StrayReal; that of TieredEarly.SwapReal has three NVM frames.
- TieredState: one page size; `arms_mmap_populate`, promotion hysteresis, sampling, counters, userfaultfd and ioctl failures are not modelled, nor reading a log entry after its slot was unlocked (`kdq_shift` returns a pointer).
- KHash.Table: flags are one value a bucket, not two bits in a word; an allocation that fails is a parameter. Buckets are at most 2^31, as a 32-bit size demands.
- BTreeNodes.KbNode: the filled parts of a node's key and child buffers are sequences; bytes beyond `n` and the memory layout are not modelled. Keys are integers under their order.
- BTreeObject.KbTree.Delete: for a key that is there; the code has no defined result otherwise. `n_nodes`, `kb_itr_get` and `kb_interval` are left out.
- BTreeItr.Iterator: the tree is not changed while it is walked.
- Deque.Kdq.Grow: shrinking is never asked for by push or unshift and is left out; a shrink by more than one bit does not keep the order.
- Fifo.List: the list locks are taken to make each call one step; `next_page` is left out.
- KvStore.KeepInv: each call under a bucket's lock is one step. An item is an object of its own; that its memory is used again is followed in `StoreMemory`.
- KvLaws.ReferencesExact: counts are unbounded, those of the code have 16 bits, so it speaks of items with fewer than 2^16 references.
- CleanupQueue.Scan: a segment is not recycled while it is scanned, and a padding whose length does not fit 16 bits is excluded (`Readable`); what lies where the scan would read on then is not modelled.
- Allocator.Pool.SegmentAlloc: the call is one step; its lock and the steps inside it are in `SegmentLock`.
- Allocator.ItemAllocator.Recycle: which segment is cleaned next is a ratio of floating-point numbers and is left out, as is `madvise`.
- StoreMemory.NothingRecycledUnder: that the allocators' states are in order is a premise; `AllocatorRuns.Run` gives it for its runs. Reading a dead item's header in a scan is not followed.
- SegmentLock.Twice: unlocking a spin lock that another thread holds is taken to leave it unlocked; POSIX leaves the result undefined.
- Receive.Connection: utils_circ.h is not part of this model; split_read is taken to read across the two pieces. The flow control that keeps unread bytes in the ring is a precondition (`Room`). Responses are not modelled.
- Framing.ParseEncoded: a request whose lengths contradict each other ends the stream, as a bad magic or opcode does; what the server would read then is not followed.
- JenkinsHash.HashWords: memory ends on a word boundary, since the masked read may pass the key's end; the big-endian body is left out.
- `server/main.c`, the alternative policies, spatial smoothing, the workload generator and the sockets are left out.
