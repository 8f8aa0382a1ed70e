# CacheLib's in-memory engine, modelled and proved in Dafny

The project models the parts of CacheLib that keep an item alive, reachable and evictable, and proves what they
promise for every input, every run and every reachable state. `dafny verify dfyconfig.toml` checks all of it.

**The item lifecycle** (`Protocol*.dfy`). Any number of threads look keys up, insert, replace, remove, evict and move
any number of items. An item has a reference count and the bits InMMContainer (`linked`), Accessible and Exclusive in
one atomic word. The model is a transition system: `Protocol.State` is everything shared plus the program counter of
every thread, and each constructor of `Protocol.Op` is one atomic step. The proof is rely-guarantee: `ProtocolInv.Inv`
splits the invariant by item, handle, key, thread and waiter; `ProtocolMoves` has the shapes of change, `ProtocolSteps`
one lemma per step, `ProtocolProof` the invariance over runs, `ProtocolTheorems` and `ProtocolProgress` what follows from it.
Two promises hold only if callers keep rules about operations that overlap; the cache does not enforce these.
`Protocol.Rules` says which of the five rules callers keep: an item is not published (inserted, or used as the new item of
a replacement) while another thread publishes it, nor while a thread still has to take it out of its MM container, nor
while a thread still has to add it there; an item is not removed while a thread publishes it; a key has at most one mover
at a time. `ProtocolStrand.DISCIPLINE` is all five. With no operation in flight they forbid nothing. `ProtocolExact` states
exactly what they are needed for: memory is freed safely if and only if no item has two publishers at a time, and no item
is ever stranded if and only if all five rules are kept. `ProtocolRuns` has the runs that show the need, one per rule.

**Chained items** (`ChainedItems.dfy`, `Chains.dfy`). A parent's children form a linked stack whose head alone is in a
secondary table. The class `Chained` works on links and table, its ghost field `stacks` is the map from parents to
stacks, and `Valid` ties the two together with both counters.

**The hash table** (`ChainedHashTable.dfy`, `HashTableIterator.dfy`). Buckets of singly linked nodes in an array of
heads, refining a map from keys to nodes; the iterator reads one bucket at a time while any operations run in between.

**The eviction queues** (`MM2Q.dfy`, `MMLru.dfy`, `MMTinyLFU.dfy`, `Sequences.dfy`). Lists are sequences, head first;
flag bits are sets of nodes. Refresh times are fixed, times and lock outcomes are parameters.

**The search for memory** (`FindEviction.dfy`), **handle accounting** (`HandleAccounting.dfy`) and **smoothed ranking**
(`MarginalHits.dfy`, doubles as reals) complete the picture.

## How the source is read

- A bucket lock is a lock per key, which allows more interleavings than the source does, so what holds in every run here
  holds there. `NoDeadlock` says more than that some thread can go on, for the same reason: the thread holds a lock
  itself, or no thread does, so sharing locks between keys would not stop it. A change of the table and
  of the Accessible bits under one exclusive lock is one step. `insertOrReplace` is the exception: it acquires a handle
  to the replaced node while it holds the lock, so it takes several steps.
- NVM is disabled: tombstones, put tokens and NVM eviction have no counterpart.
- The reference count does not overflow.
- The handle that a mover has left after waking its waiters becomes an ordinary handle.
- `claims` and `pubs` in the lifecycle model are history: no step depends on them. Two of the rules read `pubs`, the
  threads that are publishing an item. A thread is in `pubs` from the addition to the MM container, or the allocation of a
  move's destination, until the item is in the table or the attempt is taken back. A replacement puts its new item into the
  table with its first step and is never in `pubs`; so under the rule of one publisher two replacements by one item may
  still overlap, and freeing is safe nevertheless.
- The first check of an insertion, that the item is not accessible, and the addition to the MM container are one step;
  between the two, only another publisher of the item could make it accessible. The table's own check of the bit,
  before it takes the lock, counts as made in that step too; runs with two publishers in which it comes later and refuses
  the item are not in the model.
- `replaceIfAccessible` asserts that the new item is not accessible, and its callers give it two items with one key; the
  model requires both.
- In `FindEviction`, an attempt sees an arbitrary queue, and the world at the moment of each mark is arbitrary too. From
  the mark until the release the candidate is the searcher's own, as the lifecycle model proves of marked items; that
  nobody touches the children of a marked parent is taken from the source, since that model has no chained items.
- The new node given to `MM2Q::replace` has clear flag bits, as a freshly allocated item has; `MM2Q.Container.Replace`
  requires it because the source does not clear them.
- A child given to `addChainedItem` was allocated for that parent and has no successor.
- Frequency counts in `MMTinyLFU` are any function of the node at the time of the call.
- `ChainedHashTable.Table.ReplaceIf` is given two nodes with one key; the source puts the new node in the
  place of whatever node has its key, and does not compare that with the old one.
- `ChainedItems.Chained.ReleaseBackToAllocator` is told by a flag whether the item is drained, since chains keep no table
  bits of parents.
- The comment on `checkLruSizes` asks for non-zero shares; the code also accepts 100 % Hot, and computes the Warm share
  in 64-bit wrap-around arithmetic. `MM2Q.CheckLruSizes` follows the code.
- `std::sort` may order ties in any way, and an unordered map may be walked in any order; the ranking is proved for
  every such order.

## Model

| member | source | states |
|---|---|---|
| `ProtocolProof.StepGood` | cachelib/allocator/CacheAllocator.h:3236-3293 | every atomic step of every operation, a second publication of an item excepted, keeps the acting thread's own invariant and guarantees to all other threads what they rely on |
| `ProtocolProof.InvStep` | cachelib/allocator/CacheAllocator.h:3254-3574 | the whole invariant of the item lifecycle is kept by every step of every thread that does not start a second publication of an item |
| `ProtocolProof.InvRun` | cachelib/allocator/CacheAllocator.h:3254-3574 | the invariant holds in every state of every run in which no item has two publishers at a time, whatever other rules are broken |
| `ProtocolTheorems.FreeSafety` | cachelib/allocator/CacheAllocator.h:3622-3632 | whenever memory is freed, no handle refers to it, no thread is acquiring or replacing it, and it is in neither the table nor an MM container |
| `ProtocolTheorems.FreeSafetyRun` | cachelib/allocator/CacheAllocator.h:4982-5019 | the same at every point of every interleaving of lookups, inserts, replaces, removes, evictions and moves without two publishers of an item |
| `ProtocolTheorems.RefcountExact` | cachelib/allocator/CacheAllocator.h:3236-3293 | the reference count is the number of handles, plus one for the mover of a moving item |
| `ProtocolTheorems.NoLeak` | cachelib/allocator/CacheAllocator.h:3279-3293 | a drained item that is not freed yet is in the hands of exactly one thread, which is past every step that could fail |
| `ProtocolTheorems.NoLostWakeUp` | cachelib/allocator/CacheAllocator.h:3477-3515 | for every waiter that is not set yet there is a thread in flight that is bound to set it |
| `ProtocolTheorems.WakeUpProgress` | cachelib/allocator/CacheAllocator.h:4857-4936 | every step of a thread that is bound to set a waiter sets it or brings the thread strictly nearer: at most nine steps until it has the waiters, then one waiter a step |
| `ProtocolProgress.WakeUpWithin` | cachelib/allocator/CacheAllocator.h:4857-4936 | over runs, whatever other threads do meanwhile: a thread that is bound to set a waiter has set it after at most nine of its own steps and one for each waiter it has in hand; only if a key may have two movers can the other take the waiter over |
| `ProtocolTheorems.WaiterInOnePlace` | cachelib/allocator/CacheAllocator.h:2072-2118 | a waiter is in one wait entry or with one notifying mover: never in an entry and in hand, in two entries, or in two movers' hands; and only while it is not set |
| `ProtocolTheorems.SetOnce` | cachelib/allocator/CacheAllocator.h:2101-2118 | a waiter that is set keeps the handle it was set to for the rest of every run |
| `ProtocolTheorems.EntryOnlyWhileMoving` | cachelib/allocator/CacheAllocator.h:4857-4862 | a wait entry exists only while a mover has an item with its key marked, or has cleared the mark and not erased the entry |
| `ProtocolTheorems.NoDeadlock` | cachelib/allocator/CacheAllocator.h:3401-3515 | in every state that satisfies the invariant, hence at every point of a run without two publishers of an item, if operations are in flight then some thread in flight can take a step, and it holds a bucket lock itself or no thread does |
| `ProtocolNoStrand.SInvStep` | cachelib/allocator/CacheAllocator.h:2945-2972 | every step that the discipline allows keeps the stronger invariant about who still has to link or unlink an item |
| `ProtocolNoStrand.SInvRun` | cachelib/allocator/CacheAllocator.h:3364-3460 | that invariant holds throughout every disciplined run |
| `ProtocolNoStrand.NoStrand` | cachelib/allocator/CacheAllocator.h:3518-3574 | in every disciplined run, an item with count 0 that no thread works on is both accessible and in its MM container; removing and inserting it again is allowed |
| `ProtocolExact.FreeSafetyExact` | cachelib/allocator/CacheAllocator.h:3401-3446 | every free is safe if and only if no item has two publishers at a time |
| `ProtocolExact.NoStrandExact` | cachelib/allocator/CacheAllocator.h:3346-3356 | no run strands an item if and only if the callers keep all five rules |
| `ProtocolExact.EachRuleNeeded` | cachelib/allocator/CacheAllocator.h:3346-3356 | without any one of the rules, the other four kept, some run strands an item |
| `ProtocolExact.RulesOnlyOverlap` | cachelib/allocator/CacheAllocator.h:3346-3356 | with no operation in flight the rules forbid nothing |
| `ProtocolRuns.TwoPublishersFree` | cachelib/allocator/ChainedHashTable.h:1021-1056 | with two publishers, an `insertOrReplace` replaces its own node, and memory is freed that the table still finds |
| `ProtocolRuns.TwoPublishersStrand` | cachelib/allocator/CacheAllocator.h:2945-2972 | with two publishers, a replacement is refused by the MM container and the replaced item is stranded there |
| `ProtocolRuns.PublishRacesRemove` | cachelib/allocator/CacheAllocator.h:3944-3992 | an insert that begins while a remove is in flight strands the item: accessible but in no MM container |
| `ProtocolRuns.PublishRacesReplace` | cachelib/allocator/CacheAllocator.h:2945-2972 | an insert of the new item of a replacement in flight strands the replaced item in its MM container |
| `ProtocolRuns.RemoveRacesInsert` | cachelib/allocator/CacheAllocator.h:3364-3399 | a remove of an item that is being inserted strands it: accessible but in no MM container |
| `ProtocolRuns.TwoMoversStrand` | cachelib/allocator/CacheAllocator.h:3401-3460 | with two movers of one key, an `insertOrReplace` woken by the second takes a live item out of its MM container |
| `FindEviction.Take` | cachelib/allocator/CacheAllocator.h:3677-3716 | a marked candidate ends drained and unmarked, the recycled child leaves the MM container only if the candidate still is its parent, and no other word changes |
| `FindEviction.GetNextCandidate` | cachelib/allocator/CacheAllocator.h:3637-3720 | the items looked at are a prefix of the queue, ending with the first that can be marked; an empty queue costs one look; a limit of 0 is none |
| `FindEviction.Release` | cachelib/allocator/CacheAllocator.h:3170-3233 | the candidate and all children end drained, all but the recycled item are given back, and the verdict says whether it was among them |
| `FindEviction.Attempt` | cachelib/allocator/CacheAllocator.h:3728-3758 | one attempt adds what it looks at and gives back; without a limit it has a result if and only if the first item that can be marked still has the same parent |
| `FindEviction.Search` | cachelib/allocator/CacheAllocator.h:3724-3761 | at most T looks over all restarts, null only after exactly T of which none could be returned, otherwise the first that could be, drained; everything evicted on the way is given back; without a limit the search ends with a result once an attempt can have one |
| `FindEviction.GivenOnce` | cachelib/allocator/CacheAllocator.h:3724-3761 | one eviction gives the candidate and its children back, each exactly once, and never the recycled item |
| `ChainedItems.PopUndoesPush` | cachelib/allocator/CacheAllocator.h:2835-2872 | popping after adding yields the added child and the previous stacks |
| `ChainedItems.Chained.constructor` | cachelib/allocator/CacheAllocator.h:2785-2831 | a store without chains stands for no stacks |
| `ChainedItems.Chained.AllocateChainedItem` | cachelib/allocator/CacheAllocator.h:2747-2782 | throws exactly for a null parent; without memory there is no child and nothing changes; a new child names its parent as key, has no successor, and is not linked |
| `ChainedItems.Chained.AddChainedItem` | cachelib/allocator/CacheAllocator.h:2785-2831 | throws exactly for a null parent, a null child or a child that is not chained, and then changes nothing; otherwise pushes the child on the parent's stack, with flag, table, links, keys and counters in step |
| `ChainedItems.Chained.PopChainedItem` | cachelib/allocator/CacheAllocator.h:2835-2872 | throws exactly for a null parent or one without children; otherwise returns the newest child, unlinked, and leaves the rest |
| `ChainedItems.Chained.ReplaceChainedItem` | cachelib/allocator/CacheAllocator.h:2976-3000 | throws exactly on the arguments the source refuses; otherwise hands the old child to the caller |
| `ChainedItems.Chained.ReplaceInChain` | cachelib/allocator/CacheAllocator.h:3002-3058 | puts the new child in the old one's position, at the head or in the middle, and nothing else moves |
| `ChainedItems.Chained.FindPrev` | cachelib/allocator/CacheAllocator.h:3017-3028 | finds the predecessor of a member that is not the head |
| `ChainedItems.Chained.TransferChain` | cachelib/allocator/CacheAllocator.h:2888-2925 | refuses a new parent that has children; otherwise the whole stack, in order, belongs to the new parent, and the counters stay |
| `ChainedItems.Chained.Rekey` | cachelib/allocator/CacheAllocator.h:2907-2915 | exactly the members of the chain name the new parent |
| `ChainedItems.FreedOnce` | cachelib/allocator/CacheAllocator.h:3183-3230 | every member of a released chain is given back exactly once, except the one to recycle |
| `ChainedItems.Chained.ReleaseChain` | cachelib/allocator/CacheAllocator.h:3172-3219 | all children leave both containers with count 0, and the result says whether the one to recycle was among them |
| `ChainedItems.Chained.ReleaseMembers` | cachelib/allocator/CacheAllocator.h:3194-3217 | the walk along the links releases exactly the members of the chain, in order |
| `ChainedItems.Chained.ReleaseBackToAllocator` | cachelib/allocator/CacheAllocator.h:3096-3233 | throws exactly if the item is not drained or a chained item is to be recycled; otherwise frees parent and chain except the recycled one, which is found iff it is the parent or in the chain |
| `ChainedItems.Chained.WrapAsIOBuf` | cachelib/allocator/CacheAllocator.h:4442-4465 | the parent, then the children oldest first |
| `ChainedHashTable.Table.constructor` | cachelib/allocator/ChainedHashTable.h:705-721 | an empty table stands for the empty map |
| `ChainedHashTable.NewTable` | cachelib/allocator/ChainedHashTable.h:712-717 | refused exactly if the number of buckets is not a power of two |
| `ChainedHashTable.Table.FindInBucket` | cachelib/allocator/ChainedHashTable.h:832-857 | the first node with the key and its predecessor, or the end of the chain |
| `ChainedHashTable.Table.InsertInBucket` | cachelib/allocator/ChainedHashTable.h:762-776 | succeeds exactly if the key is not in the bucket, and then the node is first |
| `ChainedHashTable.Table.InsertOrReplaceInBucket` | cachelib/allocator/ChainedHashTable.h:779-810 | the node takes the place of the node with its key, or the first place |
| `ChainedHashTable.Table.RemoveFromBucket` | cachelib/allocator/ChainedHashTable.h:813-829 | the chain without the node, order kept |
| `ChainedHashTable.Table.Find` | cachelib/allocator/ChainedHashTable.h:1131-1138 | what the map has for the key |
| `ChainedHashTable.Table.Insert` | cachelib/allocator/ChainedHashTable.h:999-1017 | refines insertion of an absent key into the map; chains acyclic, keys unique and in their bucket, Accessible iff linked, count equal to the map's size |
| `ChainedHashTable.Table.InsertOrReplace` | cachelib/allocator/ChainedHashTable.h:1021-1056 | refines an update of the map; if the handle maker throws, chains, bits and count are exactly the previous ones |
| `ChainedHashTable.Table.RollBack` | cachelib/allocator/ChainedHashTable.h:1035-1045 | the replaced node gets its exact place in the chain back |
| `ChainedHashTable.Table.ReplaceIf` | cachelib/allocator/ChainedHashTable.h:1061-1085 | swaps the nodes of a key iff the old one is linked and the predicate holds |
| `ChainedHashTable.Table.Remove` | cachelib/allocator/ChainedHashTable.h:1089-1104 | removes the node iff it is the one the map has |
| `ChainedHashTable.Table.RemoveIf` | cachelib/allocator/ChainedHashTable.h:1108-1128 | removes the node iff it is linked, the predicate holds and a handle can be made; otherwise nothing changes |
| `ChainedHashTable.Table.GetBucketElems` | cachelib/allocator/ChainedHashTable.h:1164-1181 | the nodes of the bucket to which handles can be made, in order |
| `ChainedHashTable.KeptOnce` | cachelib/allocator/ChainedHashTable.h:1164-1181 | a snapshot holds every such node exactly once |
| `HashTableIterator.Do` | cachelib/allocator/ChainedHashTable.h:999-1128 | each operation that may come between two reads has the effect on the map that its specification gives it |
| `HashTableIterator.Iterator.Reset` | cachelib/allocator/ChainedHashTable.h:1285-1297 | stands at the first node that can be visited, nothing passed yet |
| `HashTableIterator.Iterator.Next` | cachelib/allocator/ChainedHashTable.h:1184-1210 | passes one node and moves strictly forward; what is passed and what is buffered are the nodes read so far |
| `HashTableIterator.Iterator.NextBucket` | cachelib/allocator/ChainedHashTable.h:1195-1209 | skips buckets without readable nodes and stops at the end |
| `HashTableIterator.Iterate` | cachelib/allocator/ChainedHashTable.h:1264-1297 | with any operations between the reads, a node is visited exactly once if it was in the table and a handle could be made when its bucket was read, and not at all otherwise; the walk ends |
| `HashTableIterator.KeyMetOnce` | cachelib/allocator/ChainedHashTable.h:1164-1210 | in what an iteration visits, a key is met at exactly one place if it is in the table and a handle to its node of that time can be made when its bucket is read, and nowhere otherwise |
| `HashTableIterator.IterateKeys` | cachelib/allocator/ChainedHashTable.h:1264-1297 | the same of every key, with any inserts, removes and replaces between the reads |
| `MM2Q.TailTrackingTransparent` | cachelib/allocator/MM2Q.h:706-772 | two containers that differ in the tail size only, run over the same operations, give the same answers, the same Hot, Warm and Cold contents and the same eviction orders |
| `MM2Q.RebalanceLosesNothing` | cachelib/allocator/MM2Q.h:843-883 | rebalancing keeps every node, once |
| `MM2Q.RebalanceBounds` | cachelib/allocator/MM2Q.h:843-883 | afterwards Warm and Hot are within their shares and Cold has at least its own |
| `MM2Q.SharesAfterAddAndRemove` | cachelib/allocator/MM2Q.h:886-940 | the same bounds after every successful add and remove |
| `MM2Q.CheckLruSizesExact` | cachelib/allocator/MM2Q.h:280-305 | in 64-bit wrap-around arithmetic, exactly the shares with 100 % Hot or three positive parts are accepted |
| `MM2Q.Container.constructor` | cachelib/allocator/MM2Q.h:375-386 | an empty container |
| `MM2Q.Container.AdjustColdTail` | cachelib/allocator/MM2Q.h:1041-1050 | ColdTail has its size or Cold is used up; Cold followed by ColdTail is unchanged |
| `MM2Q.Container.AdjustWarmTail` | cachelib/allocator/MM2Q.h:1041-1050 | WarmTail has its size or Warm is used up; Warm followed by WarmTail is unchanged |
| `MM2Q.Container.ShrinkWarm` | cachelib/allocator/MM2Q.h:844-866 | the loop ends with the last nodes of Warm at the head of Cold, in order |
| `MM2Q.Container.ShrinkHot` | cachelib/allocator/MM2Q.h:868-879 | the loop ends with the last nodes of Hot at the head of Cold, in order |
| `MM2Q.Container.Rebalance` | cachelib/allocator/MM2Q.h:843-883 | the five lists stand for the rebalanced view, the flag bits name the list of every node, and both tails have exactly their size |
| `MM2Q.Container.Add` | cachelib/allocator/MM2Q.h:886-902 | refines the add of the three-list view; refused exactly if the node is in |
| `MM2Q.Container.RemoveLocked` | cachelib/allocator/MM2Q.h:930-940 | the view without the node, rebalanced if asked for |
| `MM2Q.Container.Remove` | cachelib/allocator/MM2Q.h:969-977 | refines the remove of the view; refused exactly if the node is not in |
| `MM2Q.Container.RemoveAtIterator` | cachelib/allocator/MM2Q.h:980-989 | the view without the node, no other node moved |
| `MM2Q.Container.Replace` | cachelib/allocator/MM2Q.h:992-1025 | the new node takes the old one's place in its list, with its update time |
| `MM2Q.Container.RecordAccess` | cachelib/allocator/MM2Q.h:706-772 | refines the promotion of the view: within Hot and Warm to the head, from Cold to Warm |
| `MM2Q.Container.MoveToHead` | cachelib/allocator/MM2Q.h:721-760 | the node is at the head of Hot or Warm, whichever of the five lists held it |
| `MM2Q.Container.EvictionCandidates` | cachelib/allocator/MM2Q.h:906-922 | ColdTail, Cold, Hot, WarmTail and Warm walked from their ends are the eviction order of the view |
| `MM2Q.Run` | cachelib/allocator/MM2Q.h:706-1050 | over every operation sequence the five-list code shows exactly what the three-list specification shows |
| `MMLru.TargetStep` | cachelib/allocator/MMLru.h:639-678 | the wanted tail length changes by at most one when the size does |
| `MMLru.Container.constructor` | cachelib/allocator/MMLru.h:515-528 | an empty list without insertion point |
| `MMLru.Container.UpdateLruInsertionPoint` | cachelib/allocator/MMLru.h:639-678 | the tail-marked nodes are exactly the suffix from the insertion point, of length max(1, size >> spec), and the two loops run as often as the length was off |
| `MMLru.Container.EnsureNotInsertionPoint` | cachelib/allocator/MMLru.h:726-738 | the insertion point moves off the node, growing the tail by one, or goes away if the whole list is tail |
| `MMLru.Container.Add` | cachelib/allocator/MMLru.h:681-699 | the node enters in front of the tail, which has its right length afterwards even if the spec has changed; with a fixed spec at most one loop iteration |
| `MMLru.Container.RemoveLocked` | cachelib/allocator/MMLru.h:741-752 | the node leaves, and the tail has its right length afterwards even if the spec has changed; with a fixed spec at most one loop iteration |
| `MMLru.Container.Remove` | cachelib/allocator/MMLru.h:755-763 | the same, refused exactly if the node is not in |
| `MMLru.Container.RecordAccess` | cachelib/allocator/MMLru.h:531-581 | the node goes to the head iff it is due and the lock is got; with a fixed spec the invariant is kept with at most one loop iteration |
| `MMLru.Container.Replace` | cachelib/allocator/MMLru.h:774-801 | the new node takes place, marks, time and, if it was that, insertion point of the old one |
| `MMLru.Container.SetSpec` | cachelib/allocator/MMLru.h:612-631 | without a spec the marks and the insertion point are gone; another spec leaves the list as it is, for the next add or remove to repair |
| `MMTinyLFU.AddOk` | cachelib/allocator/MMTinyLFU.h:798-833 | an add loses no node, and leaves Tiny as long as it was or within its share |
| `MMTinyLFU.PromoteChoosesVictim` | cachelib/allocator/MMTinyLFU.h:765-795 | of the two tails the less frequent is Tiny's tail afterwards, the other is Main's head, and no node is lost |
| `MMTinyLFU.Container.constructor` | cachelib/allocator/MMTinyLFU.h:291-302 | an empty container with its counters sized |
| `MMTinyLFU.Container.MaybeGrowAccessCounters` | cachelib/allocator/MMTinyLFU.h:653-681 | afterwards the size is below twice the capacity, and growth at least doubles it and starts the window again |
| `MMTinyLFU.Container.UpdateFrequencies` | cachelib/allocator/MMTinyLFU.h:751-762 | the window stays below its maximum, and decay happens exactly when it would reach it |
| `MMTinyLFU.Container.Add` | cachelib/allocator/MMTinyLFU.h:798-833 | over whole runs: Tiny within its share of the peak size, window below its maximum, size below twice the capacity |
| `MMTinyLFU.Container.MaybePromoteTail` | cachelib/allocator/MMTinyLFU.h:765-795 | does the promotion that the specification describes |
| `MMTinyLFU.Container.Remove` | cachelib/allocator/MMTinyLFU.h:857-878 | the node leaves its list; the bounds are kept |
| `MMTinyLFU.Container.RecordAccess` | cachelib/allocator/MMTinyLFU.h:684-720 | the node goes to the head of its own list iff it is due and the lock is got; the bounds are kept |
| `MMTinyLFU.Container.Replace` | cachelib/allocator/MMTinyLFU.h:889-914 | the new node takes place, list bit, time and access bit of the old one |
| `MMTinyLFU.MergeVisitsAll` | cachelib/allocator/MMTinyLFU.h:361-460 | the visiting order has every node of both lists exactly once |
| `MMTinyLFU.MergeKeepsOrder` | cachelib/allocator/MMTinyLFU.h:361-460 | each list, Tiny and Main, is visited from tail to head |
| `MMTinyLFU.EvictionIterator.constructor` | cachelib/allocator/MMTinyLFU.h:985-990 | both cursors stand at the tails |
| `MMTinyLFU.EvictionIterator.Get` | cachelib/allocator/MMTinyLFU.h:393 | the next node of the visiting order |
| `MMTinyLFU.EvictionIterator.Next` | cachelib/allocator/MMTinyLFU.h:369-372 | moves the Tiny cursor iff Main is exhausted or Tiny's frequency is strictly lower, and leaves the rest of the order |
| `MMTinyLFU.EvictionIterator.RemoveAtCursor` | cachelib/allocator/MMTinyLFU.h:880-886 | removing through the iterator takes one node out and leaves the rest of the visiting order unchanged |
| `MMTinyLFU.EvictionWalk` | cachelib/allocator/MMTinyLFU.h:361-460 | a whole walk, with any nodes removed on the way, visits the full order and removes exactly those |
| `HandleAccounting.Quiescent` | cachelib/allocator/CacheAllocator.h:5447-5466 | once only parents own references, the counts of all threads add up to 0 and an item's count is 1 if it is a linked child and 0 otherwise |
| `HandleAccounting.Cache.constructor` | cachelib/allocator/CacheAllocator.h:2270 | no owners, all counts 0 |
| `HandleAccounting.Cache.Allocate` | cachelib/allocator/CacheAllocator.h:2659-2724 | a new item has one owner, its handle, which is counted |
| `HandleAccounting.Cache.Acquire` | cachelib/allocator/CacheAllocator.h:3236-3268 | one more reference, owned by the handle and counted; none for a null item |
| `HandleAccounting.Cache.AcquireMoving` | cachelib/allocator/CacheAllocator.h:3477-3497 | a waiting handle owns nothing and is not counted |
| `HandleAccounting.Cache.Clone` | cachelib/allocator/Handle.h:237-244 | the clone owns a counted reference of its own, wherever the original's is |
| `HandleAccounting.Cache.Move` | cachelib/allocator/Handle.h:99-103 | the reference, or the wait context, passes to the new handle; no count changes |
| `HandleAccounting.Cache.Assign` | cachelib/allocator/Handle.h:105-112 | what the target held is released first, then the source's reference or context passes; self-assignment changes nothing |
| `HandleAccounting.Cache.Reset` | cachelib/allocator/Handle.h:64-79 | a plain handle's reference goes with its count; a context's reference goes with its last share and no count changes |
| `HandleAccounting.Cache.Release` | cachelib/allocator/Handle.h:83-92 | the caller owns the reference, counted, also when it was a context's and was not counted |
| `HandleAccounting.Cache.ReleaseRaw` | cachelib/allocator/CacheAllocator.h:3279-3293 | the raw reference and its count go |
| `HandleAccounting.Cache.OnReady` | cachelib/allocator/Handle.h:364-372 | a callback is taken exactly if the context is not set yet |
| `HandleAccounting.Cache.Set` | cachelib/allocator/Handle.h:319-348 | the context takes the reference over, a callback gets one of its own, neither is counted, and only the setting thread's count changes |
| `HandleAccounting.Cache.DropSetter` | cachelib/allocator/Handle.h:382-403 | the last share releases the context's item and leaves the counts |
| `HandleAccounting.Cache.RunDeferred` | cachelib/allocator/Handle.h:185-192 | the callback's reference becomes a counted handle on the thread that runs the adjustment |
| `HandleAccounting.Cache.LinkChild` | cachelib/allocator/CacheAllocator.h:2813-2821 | a linked child has one more reference that is not counted |
| `HandleAccounting.Cache.UnlinkChild` | cachelib/allocator/CacheAllocator.h:2861-2863 | that reference goes again |
| `HandleAccounting.Cache.Run` | cachelib/allocator/Handle.h:64-403 | over any run on any threads, an item's count equals its owners and the thread-summed handle count equals the plain handles and raw pointers |
| `MarginalHits.RanksInRange` | cachelib/allocator/MarginalHitsState.h:85-102 | with parameters in [0, 1], over all rounds every smoothed rank stays in [0, n - 1] |
| `MarginalHits.Dominance` | cachelib/allocator/MarginalHitsState.h:78-102 | with parameters in [0, 1], an entity that outscores another in every round never ranks below it; the gap is at least one minus the weight of the start |
| `MarginalHits.RanksAddUp` | cachelib/allocator/MarginalHitsState.h:93-102 | with any parameters, every round hands out each position once: the ranks add up to n (n - 1) / 2, less what the start still weighs |
| `MarginalHits.SortEntitiesByScores` | cachelib/allocator/MarginalHitsState.h:78-83 | a permutation of the entities, ascending in score |
| `MarginalHits.Smooth` | cachelib/allocator/MarginalHitsState.h:86-102 | the loop moves each rank towards the entity's position, from 0 for a new entity |
| `MarginalHits.State.constructor` | cachelib/allocator/MarginalHitsState.h:28-33 | no ranks yet |
| `MarginalHits.State.UpdateRankings` | cachelib/allocator/MarginalHitsState.h:36-40 | throws exactly if sorting misses a score, and then changes nothing; otherwise adds a round with these scores and this parameter to the history that the ranks stand for |
| `MarginalHits.State.PickVictimAndReceiver` | cachelib/allocator/MarginalHitsState.h:104-126 | throws exactly if the validity of a ranked entity is missing; otherwise a least-ranked valid victim and a greatest-ranked valid receiver if a valid entity beats the sentinel, the invalid id if none does; with parameters in [0, 1] every valid entity beats it |

## Left out

- NVM cache: tombstones, put tokens, the destructor lock; `NvmCache.h` is not part of this model.
- Shared memory, serialization, save and restore: file and operating system I/O.
- Slab and pool allocator internals: `allocate` and `free` only change the set of live items.
- Waking waiters after the move of a chained child: the wake-ups are those of regular items.
- `convertToIOBuf` and the lifetime of exported buffers.
- Chained items in the lifecycle model: their chains are covered by `ChainedItems` and `FindEviction` instead, without interleaving.
- Statistics, event tracking, latency trackers, rebalancing strategies, the reaper and background movers: easy sums and thin loops.
- Dynamic refresh times and ratios in the MM containers, and the count-min sketch behind the frequencies.
- The linked-list nodes of `DList` and `MultiDList`: lists are sequences, so aliasing of hooks is not captured.
- `FindEviction.Release`: walks the stack of children as a sequence; the walk along the links is `ChainedItems.Chained.ReleaseMembers`.
- `ChainedItems.Chained.ReleaseBackToAllocator`: remove callbacks and item destructors are not called in the model.
- `HandleAccounting.Cache.Run`: an item whose count drops to 0 stays in the books with 0; freeing it is in the lifecycle model.
- `MarginalHits.State.UpdateRankings`: doubles are reals, so rounding is not captured.
- `ChainedItems.Chained.AddChainedItem`: a child that was allocated for another parent or already has a successor is excluded; the source does not check for either.
- `ChainedHashTable.Table.ReplaceIf`: nodes of different keys are excluded.
- `MM2Q.Container.Replace`: a new node with stale flag bits, which the source would keep, is excluded.
