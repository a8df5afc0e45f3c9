# A verified model of scc

`scc` is a Rust library of concurrent containers: hash tables that grow and shrink incrementally, an
ordered tree index, an unordered bag, and the epoch-based reclamation and lock-free lists they are
built on. This project models its protocols and algorithms in Dafny and proves what they are for.

`dafny verify dfyconfig.toml` checks the whole project.

## How it is modelled

Concurrent code is a transition system. A `State` value holds the shared words and what every thread
is about to do (its `Pc`); an `Action` is one atomic access of one thread, `Enabled` says when it can
happen and `Apply` what it does. `Executes(s, acts, t)` says that the actions `acts`, in any order the
threads chose, lead from `s` to `t`. Numbers of threads, keys, buckets, arrays, leaves and list
entries are unbounded. Fields called *history* in the comments record a run (the unbounded epoch, the
map the table is supposed to be, the values handed out) and never choose between steps. Where `Enabled`
asks more than the thread does, that an index exists, say, a lemma `NeverBlocked` shows for every
reachable state that this keeps no thread from its next step.

Three kinds of theorems go together. Invariants (`...Runs`) say what the shared state is after any
run. Theorems about returns (`...Returns`, `BagEmptied`) follow one operation from the action that
begins it to the one that ends it, whatever other threads do in between, and say what it has done and
what its answer means. Theorems about threads left alone (`...Alone` and the like) say that an
operation comes to an end if nobody interferes, and how.

Code that runs under exclusive access is imperative Dafny: classes with fields (`LocalCollector`,
`LeafCell`, `TreeIndex`, `LruList`, `CacheBucket`, `Bucket`) and methods with loops, each proved
against a map, a sequence or a multiset.

| files | source | what they model |
|---|---|---|
| `Ebr`, `EbrSafety`, `EbrHeld`, `EbrAtomic`, `EbrSplit`, `EbrShield`, `EbrPaths`, `EbrRisk`, `EbrStale`, `EbrCollector` | `src/ebr/collector.rs`, `src/ebr/guard.rs` | collectors, guards, garbage generations, the scan that advances the epoch |
| `Geometry`, `Sizing` | `src/hash_table/bucket_array.rs`, `src/hash_table.rs` | bucket indices across array sizes; the capacity a resize asks for |
| `HashTable`, `HashTableInv`, `HashTableSteps`, `HashTableData`, `HashTableClaims`, `HashTableArrays`, `HashTableRuns`, `HashTableReturns`, `HashTableAlone` | `src/hash_table.rs` | insertion, look-up and removal while buckets are claimed, moved and killed and arrays are attached and dropped |
| `BucketLock`, `BucketLockSafety`, `BucketLockRuns`, `BucketLockReturns`, `BucketWord` | `src/hash_table/bucket.rs`, `src/wait_queue.rs` | the reader/writer lock of a bucket and its wait queue |
| `Lru`, `CacheBucket`, `BucketDrain` | `src/hash_table/bucket.rs`, `src/hash_cache.rs` | the LRU list in an array, a cache bucket, draining a bucket with linked buckets |
| `Leaf`, `LeafSafety`, `LeafRuns`, `LeafReturns`, `LeafSearch`, `LeafObject`, `Dimension` | `src/tree_index/leaf.rs` | one leaf: reserving, ranking, removing, freezing, distributing, searching; the packed word |
| `Tree`, `TreeLinks`, `TreeShelf`, `TreeInsert`, `TreeRemove`, `TreeIndex` | `src/tree_index.rs`, `src/tree_index/*` | the tree of one thread, with its splits, coalescing and chain of leaves |
| `LinkedList`, `LinkedListSafety`, `LinkedListSteps`, `LinkedListRuns`, `LinkedListReturns`, `LinkedListAlone` | `src/linked_list.rs` | the lock-free list with logical deletion |
| `Bag`, `BagSafety`, `BagSteps`, `BagRuns`, `BagReturns`, `BagEmptied`, `BagAlone` | `src/bag.rs` | the bag with its slot bitmaps and overflow arrays |

Assumptions, all of them about what a step is:

* Every atomic access is one sequentially consistent step.
* `EbrAtomic.GuardsProtect` takes loading `EPOCH` and storing `state` as one step. With two steps the
  full guarantee fails (`EbrStale`), and `EbrRisk` says exactly when.
* The hash table is the `SEQUENTIAL` kind. A new array has at most 32 buckets for a bucket of the old
  one, which `relocate_bucket` asserts (`src/hash_table.rs:723`). `Sizing` says exactly when the
  capacity that `try_resize` asks for meets this.
* Keys of the tree are integers; keys of the hash table are an id and a 64-bit hash.

## What came out

* *Stale epochs.* A collector may publish an epoch it loaded long ago. In a run of 39 steps
  (`EbrStale.GuardsFailToProtect`) a scan passes a collector before it publishes epoch 0 while `EPOCH`
  is 2; another collector, still announcing 1, retires an instance and can drop it after two changes
  of `EPOCH`, while the stale collector's guard lives. `EbrRisk.FreedUnderGuardIffAtRisk` says for
  every reachable state which retirements are exposed to this, and to which guards: the retirer
  announces an old epoch, and somebody else's scan is about to store a new one although it has missed
  the guard. So retirement by a collector that announces `EPOCH` itself is safe
  (`EbrRisk.UpToDateRetirementsProtect`), and so is the collector of an exited thread that a scanner
  retires (`EbrShield.ExitedCollectorsOutliveGuards`). A guard counts as active until its collector
  stores INACTIVE; the last of the scans that the continuation needs may be the one that the end of
  this very guard brings about.
* *Reserving on a small table.* `try_resize` goes through its shrinking branch when there are few
  entries, and that branch raises the capacity to the reserved minimum in one go. With one entry in
  the smallest table and room for ten thousand more reserved, the new array has 256 buckets for each
  old one, beyond the 32 that `relocate_bucket` has room for (`Sizing.ReservationTooLarge`).
  `Sizing.RelocatableUnlessReserved` gives the exact condition.
* *Failing to lock a target bucket.* In a growing table nobody else can hold a target bucket, and in a
  shrinking one the single target is locked before the first entry is moved. So a relocation that
  gives up has moved nothing (`HashTableSteps.OnlyFirstTargetFails`).
* *Duplicates of nothing.* `rollback` of a leaf chooses its result from a fresh load of the word. If the
  leaf was frozen when the new entry was to be made visible, and thawed before the slot is given back,
  the insertion reports a duplicate of a key that was never there (`LeafReturns.DuplicateOfNothing`).
  Unless the leaf is frozen for a while, a duplicate is one (`LeafReturns.InsertionAnswers`).

## Model

| member | source | states |
|---|---|---|
| EbrAtomic.GuardsProtect | src/ebr/collector.rs:220-312 | Over any run with one-step activation, an item that has been freed was retired in sessions that are all over: no guard that was active when it was retired is still active. This covers the collector of an exited thread and all it held. |
| EbrAtomic.ActivateKeeps | src/ebr/collector.rs:43-66 | Activating a collector in one step, with or without a shift of its generations, keeps the invariant: every active announcement is within one epoch of the present one, and what sits in each generation is as old as that generation has to be. |
| EbrAtomic.EndScanKeeps | src/ebr/collector.rs:292-310 | The epoch that a completed scan stores keeps that invariant; in particular EPOCH stays the unbounded epoch modulo three, so a scan never moves it backwards. |
| EbrSafety.RunsKeepBase | src/ebr/collector.rs:154-312 | Over any run, with activation in one step or two: no item sits in two generations, no freed item in any, a scanner stands where it should on the list, and the list holds no collector twice and no retired one. |
| EbrSafety.NothingFreedTwice | src/ebr/collector.rs:154-183 | An item about to be dropped has not been dropped before, and no collector that has been retired is still on the list or in the hands of a scanner. |
| EbrHeld.RetiredIsHeldOnce | src/ebr/collector.rs:107-312 | Over any run, with activation in one step or two, an item has been retired exactly if it has been freed or some collector holds it, never both and never two collectors; a collector is on the list exactly if it has not been retired. |
| EbrHeld.NeverBlocked | src/ebr/collector.rs:154-312 | In every reachable state a scan in progress can do its next step, a loaded epoch can be published, and what is up for dropping can be dropped. |
| EbrSplit.EpochChangesAtMostTwice | src/ebr/collector.rs:226-311 | With activation in two steps, EPOCH changes its value at most twice between the moment a collector is published active and the end of its last guard. |
| EbrRisk.FreedUnderGuardIffAtRisk | src/ebr/collector.rs:43-66 | With activation in two steps, in every reachable state: what collector `c` retires now can, in some continuation, be freed while a guard of `d` that is active now is still active if and only if `c` announces an epoch other than EPOCH, another collector is scanning and would store a value other than EPOCH, and its scan is past `d`, which is not `c` and announces something other than the scanner knows. |
| EbrRisk.UpToDateRetirementsProtect | src/ebr/collector.rs:43-66 | With activation in two steps, an instance retired while the retirer announces EPOCH itself outlives every guard active at that moment, whoever drops it in the end. |
| EbrShield.ExitedCollectorsOutliveGuards | src/ebr/collector.rs:286-291 | With activation in two steps, the collector of an exited thread outlives every guard that was active when a scanner unlinked it, even if the scanner announces an old epoch. |
| EbrStale.GuardsFailToProtect | src/ebr/collector.rs:47-60 | With activation in two steps, some run from the initial state frees an instance that was retired during a session that is still active. |
| EbrCollector.LocalCollector.NewGuard | src/ebr/collector.rs:43-74 | Only the first guard of a collector loads the epoch; it tells whether the announcement has changed. |
| EbrCollector.LocalCollector.EpochUpdated | src/ebr/collector.rs:154-183 | The oldest generation is dropped in full, the others age by one, the newest one is empty: the protocol's shift. |
| EbrCollector.LocalCollector.EnterGuard | src/ebr/guard.rs:32-42 | A new guard drops exactly what the protocol's activation puts up for dropping, and nothing if it is a nested one. |
| EbrCollector.LocalCollector.Reclaim | src/ebr/collector.rs:107-119 | A retired instance goes into the newest generation, and the next scan comes closer. |
| EbrCollector.LocalCollector.EndGuard | src/ebr/collector.rs:78-103 | A scan takes place exactly if the last guard ends, the count-down is over and there is garbage or an announced exit; what it unlinks joins the newest generation; otherwise the collector just becomes inactive. |
| EbrCollector.LocalCollector.Drop | src/ebr/collector.rs:315-323 | Dropping a collector drops all its generations, the oldest first, each item once. |
| Geometry.IndexInRange | src/hash_table/bucket_array.rs:194-198 | The bucket index of any hash is below the number of buckets, for every array size up to 2^64. |
| Geometry.ShiftsAreArithmetic | src/hash_table/bucket_array.rs:194-214 | The shifts that indices are computed with are product and quotient with a power of two. |
| Geometry.IndexNests | src/hash_table/bucket_array.rs:194-198 | The index of a hash in a smaller array is its index in a larger one divided by the ratio of their sizes. |
| Geometry.EntryStaysInSpread | src/hash_table.rs:716-750 | Every entry of an old bucket belongs to one of the target buckets computed for that bucket, whether the table grows or shrinks. |
| Geometry.TargetDeterminesOrigin | src/hash_table.rs:716-727 | In a growing table a target bucket belongs to a single old bucket. |
| Geometry.SpreadInRange | src/hash_table.rs:752-766 | All target buckets of an old bucket exist in the new array. |
| Geometry.SpreadAtMostBucketLen | src/hash_table.rs:716-727 | The target buckets of an old bucket fit into the 32 locks exactly if the array grows 32-fold at most. |
| HashTableRuns.TableIsOneMap | src/hash_table.rs:588-799 | Whatever insertions, look-ups, removals, relocations, failed lock attempts, resizes and drops are interleaved, looking a key up in the buckets in use gives the outcome of the operations carried out one after the other on a map, and what every operation found in its bucket (the value a look-up or a removal returns, the reason an insertion fails) is what it would have found in that map. |
| HashTableReturns.OperationsTakeEffectOnce | src/hash_table.rs:363-482 | From the beginning of an operation to its return, whatever other threads do: an insertion or a removal that is answered has used its bucket exactly once, a look-up once or more, finding nothing but the last time, and the answer is what the last use found. An operation is answered unless one of its attempts to lock a bucket has failed; one that gives up has changed nothing. |
| HashTableAlone.AloneAnswers | src/hash_table.rs:588-696 | Where nobody else has locked a bucket, a thread can complete any operation alone, relocating a range and the bucket of its key on the way; it is answered, and one range of the old array has been claimed and relocated if one could be claimed. |
| HashTableAlone.ResizeEnds | src/hash_table.rs:813-906 | With no claim outstanding, as many operations of one thread as there are ranges left relocate them all, and the last one drops the old array. |
| HashTableAlone.AloneResizes | src/hash_table.rs:1027-1097 | A resize that nobody interferes with puts a new array of the chosen size in place, with the former one attached to it and no entry touched. |
| HashTableRuns.OnlyUsesChangeTheMap | src/hash_table.rs:662-799 | A single step changes the map only if it is the access of an insertion or a removal, and then as that operation should; moving, killing, claiming, rolling back, resizing and dropping leave it as it is. |
| HashTableRuns.EachKeyOnce | src/hash_table.rs:702-799 | In every reachable state no key is stored in two buckets of whatever arrays, and what is stored is in a bucket that is not killed, of the current array or the one attached to it. |
| HashTableRuns.InUse | src/hash_table.rs:98-123 | A stored key is in the bucket that its hash selects in the array that holds it. |
| HashTableData.AccessSeesModel | src/hash_table.rs:363-482 | The bucket that a thread has locked for its key is not killed and holds the key exactly if the map has it, with the same value. |
| HashTableRuns.UsedAfterKill | src/hash_table.rs:662-696 | A bucket of an array is used for a key only after the bucket of the key in the array before has been killed. |
| HashTableRuns.TargetCanBeLocked | src/hash_table.rs:752-766 | In every reachable state, whenever a thread that moves a bucket needs another target bucket, be it free or held by someone, that bucket exists in the current array, has not been killed, and there is room for its lock: the lock results that are unwrapped are locks. |
| HashTableSteps.GrowthTargetsAreFree | src/hash_table.rs:752-766 | In a growing table the next target bucket is held by nobody. |
| HashTableSteps.CurrentLockNeedsOrigin | src/hash_table.rs:662-696 | In a growing table, who holds a target bucket of an old bucket that is not killed holds the old bucket too. |
| HashTableSteps.OnlyFirstTargetFails | src/hash_table.rs:754-766 | An attempt to lock a target bucket can fail only for the first target and only if the table does not grow, so nothing has been moved then. |
| HashTableRuns.AliveBucketsAreAttached | src/hash_table.rs:853-860 | In every reachable state a bucket of an old array that is not killed belongs to the array attached to the current one, and an array that has lost its old array has seen all buckets of it killed. |
| HashTableRuns.WordCountsClaims | src/hash_table.rs:824-906 | The low five bits of the rehashing word are the number of outstanding claims, and every bucket below the index in it is killed or in the range of an outstanding claim. |
| HashTableClaims.ClaimWord | src/hash_table.rs:829-850 | A claim adds one to the count and 32 to the index of the packed word, without a carry from one to the other. |
| HashTableClaims.RollBackWord | src/hash_table.rs:861-878 | Giving a claim back takes one from the count and the index back to the start of the range if it was behind it. |
| HashTableClaims.WordNeverUnderflows | src/hash_table.rs:852-879 | Whenever a thread completes a claim or gives it back, the count is positive. |
| HashTableClaims.LastFindsAllKilled | src/hash_table.rs:853-860 | When the index has passed all buckets and no claim is left, every bucket is killed. |
| HashTableRuns.DropsWhenDone | src/hash_table.rs:853-860 | Who drops the old array finds it attached to the current one, all its buckets killed and no claim outstanding. |
| HashTableRuns.DetachedStays | src/hash_table/bucket_array.rs:180-189 | Only the drop detaches an old array, nothing attaches it again, and a detached one is not dropped. |
| HashTableRuns.DroppedAtMostOnce | src/hash_table/bucket_array.rs:180-189 | In any run the old array of an array is dropped at most once. |
| HashTableRuns.NeverBlocked | src/hash_table.rs:588-906 | In every reachable state a thread in the midst of an operation can do its next step, or its attempt to lock a bucket fails. |
| Sizing.NewCapacity | src/hash_table.rs:989-1021 | The capacity that a resize asks for, by cases: doubled until the load is low enough but at most 32-fold, or the smallest power of two for the entries that keeps the reserved minimum. |
| Sizing.Doubled | src/hash_table.rs:995-1012 | The loop stops at the first doubling, after five at most, at which the expected load is low enough or the maximum is reached. |
| Sizing.ArrayLogIsLeast | src/hash_table/bucket_array.rs:204-214 | The array is the smallest that has the capacity, with two buckets at least and 2^58 at most. |
| Sizing.RelocatableUnlessReserved | src/hash_table.rs:988-1021 | The new array has at most 32 buckets for an old one exactly unless the table holds few entries, more than 32 times its capacity is reserved and it is not near the greatest size. |
| Sizing.ReservationTooLarge | src/hash_table.rs:1013-1018 | One entry in the smallest table and a reserved minimum of ten thousand: the ratio is beyond 32. |
| BucketLockRuns.WritersAreAlone | src/hash_table/bucket.rs:542-600 | In any run a writer shares the bucket with nobody, writer or reader. |
| BucketLockRuns.ReadersAreCounted | src/hash_table/bucket.rs:968-1024 | The reader count in the word is the number of readers and stays below the lock bit. |
| BucketLockRuns.KilledIsPermanent | src/hash_table/bucket.rs:186-195 | A killed bucket stays killed. |
| BucketLockReturns.KilledBySomeone | src/hash_table/bucket.rs:186-195 | Over any run a bucket is killed exactly if someone who held it has killed it. |
| BucketLockReturns.AttemptEnds | src/hash_table/bucket.rs:542-600 | Whatever other threads do, an attempt to lock that ends does so with a lock of the kind that was asked for, or without a lock and then the bucket has been killed. |
| BucketLockReturns.OnlyKilledRefuses | src/hash_table/bucket.rs:563-580 | Over any run, whoever returns without a lock, or carries that outcome while it wakes up the queue or waits for its own entry, finds the bucket killed. |
| BucketLockReturns.AloneLocks | src/hash_table/bucket.rs:1004-1024 | An attempt that nobody interferes with locks the bucket if it is available and has not been killed, is refused without waiting if it has been killed (a reader only if there are not too many others), and joins the queue otherwise. |
| BucketLockReturns.ReleaseEnds | src/hash_table/bucket.rs:944-1046 | After a release the thread has no lock any more, and does nothing but wake up the queue. |
| BucketLockReturns.AloneWakes | src/wait_queue.rs:101-141 | A thread that is to signal the queue can do so on its own: the queue is empty then, and exactly those who were in it have been signalled. |
| BucketLockRuns.NoWakeUpIsLost | src/wait_queue.rs:29-141 | A blocked thread not yet signalled is about to be signalled, or is in the queue while a release is about to take the queue, or is in the queue while the waiting flag is set and somebody holds the lock. |
| BucketLockRuns.EntryIsFreeToGo | src/wait_queue.rs:29-52 | When a waiting thread goes on, its queue entry, which lives on its stack, is in neither the queue nor any list of entries to be signalled. |
| BucketLockRuns.NeverStuck | src/wait_queue.rs:101-141 | As long as a thread is blocked, some thread can take a step or release what it holds. |
| BucketWord.CrowdedUnpacked | src/hash_table/bucket.rs:1004-1024 | Comparing the low 30 bits of the word with one constant tells whether the word of the lock model has its lock flag set or as many readers as fit. |
| BucketWord.ReaderLocksUnpacked | src/hash_table/bucket.rs:1004-1024 | Adding one to a word that is not crowded gives the word with one more reader and the same flags. |
| BucketWord.ReleaseUnpacked | src/hash_table/bucket.rs:944-1046 | What a writer or a reader puts in place when it releases the lock is the word without the lock or with one reader less, and without the waiting flag. |
| BucketWord.WriterLocksUnpacked | src/hash_table/bucket.rs:563-580 | What a writer expects is the word without lock and readers, and what it puts in place is the locked word. |
| BucketWord.FlagsUnpacked | src/hash_table/bucket.rs:186-195 | Marking that someone waits and killing set one flag of the word each. |
| BucketWord.BitsAreWords | src/hash_table/bucket.rs:115-122 | All 32 bits stand for a word of the lock model, and comparing bits compares words. |
| Lru.InListMeansMember | src/hash_table/bucket.rs:1104-1181 | Although (0, 0) stands both for an absent slot and for one linked to slot 0 on both sides, the test for being in the list is true exactly for the slots of the list. |
| Lru.UnlinkedCircle | src/hash_table/bucket.rs:1104-1139 | Unlinking a slot leaves the circle of the others in the same order and touches no slot outside it. |
| Lru.LinkedFirstCircle | src/hash_table/bucket.rs:1142-1181 | Linking a slot before the first one gives the circle with that slot in front. |
| Lru.LruList.Evict | src/hash_table/bucket.rs:1081-1101 | Takes the last slot of the most-recent-first sequence, and only that. |
| Lru.LruList.Remove | src/hash_table/bucket.rs:1104-1139 | Takes the slot out of the sequence, wherever it is, and changes nothing if it is not in it. |
| Lru.LruList.Promote | src/hash_table/bucket.rs:1142-1181 | Makes the slot the first of the sequence, the others following in their order. |
| CacheBucket.CacheBucket.Put | src/hash_cache.rs:273-299 | Stores the entry exactly if its key is not there, as the most recently used; evicts exactly if the bucket is full, and then the least recently used. Slots in the list stay occupied. |
| CacheBucket.CacheBucket.Get | src/hash_cache.rs:367-387 | Finds exactly the entry with the key and makes it the most recently used. |
| CacheBucket.CacheBucket.Remove | src/hash_cache.rs:551-557 | Takes exactly the entry with the key out of the bucket and out of the list. |
| CacheBucket.CacheBucket.Evict | src/hash_table/bucket.rs:839-860 | Makes room exactly if there is none, by clearing the least recently used slot. |
| CacheBucket.CacheBucket.LeastRecentOfAll | src/hash_table/bucket.rs:839-892 | When every entry came through `put`, the least recently used slot of a full bucket is the one touched longest ago of all entries. |
| BucketDrain.Relocate | src/hash_table.rs:716-797 | The loop ends with the bucket empty, and each target bucket has received exactly the entries of the old bucket whose index in the new array it has. |
| BucketDrain.NothingElsewhere | src/hash_table.rs:731-750 | Every entry of the old bucket is among the entries of one of the target buckets. |
| BucketDrain.Bucket.Next | src/hash_table/bucket.rs:377-399 | The pointer of a draining iteration finds an entry exactly if there is one, in the bucket or a linked bucket. |
| BucketDrain.Bucket.Extract | src/hash_table/bucket.rs:809-836 | Takes out the entry at the pointer, the first of all that are left; a linked bucket that becomes empty is unlinked under the pointer, which stays valid. |
| BucketDrain.Bucket.Unlink | src/hash_table/bucket.rs:451-501 | Takes a vacant linked bucket off the list without losing an entry; the pointer goes to the next one or is fused. |
| BucketDrain.Bucket.InsertWith | src/hash_table/bucket.rs:622-689 | Adds exactly the entry, in a free slot or in a new linked bucket. |
| LeafSafety.InvKept | src/tree_index/leaf.rs:172-318 | Every step of reserving, publishing, rolling back, removing, freezing and thawing keeps live ranks distinct and ordered as their keys, and slots reserved by one thread each. |
| LeafSafety.RankedIsOrdered | src/tree_index/leaf.rs:552-603 | Giving a new entry its rank and moving up all ranks of greater keys keeps live ranks distinct and ordered as their keys. |
| LeafRuns.LeafIsOneMap | src/tree_index/leaf.rs:172-318 | After any run of any number of threads live ranks are ordered as their keys, and the live entries are one map with each key once. |
| LeafRuns.MapChanges | src/tree_index/leaf.rs:588-603 | The map of a leaf changes only where an insertion succeeds, by a key that was absent, or a removal, by a key that was present. |
| LeafReturns.RemovalTellsWhatIsLeft | src/tree_index/leaf.rs:254-310 | In every reachable state, a removal that takes an entry reports the last one exactly if the map is empty and the leaf retired afterwards, and plain success exactly if something is left and the leaf not retired; any other step of a removal changes nothing. |
| LeafReturns.InsertionAnswers | src/tree_index/leaf.rs:172-209 | Whatever other threads do, an insertion that succeeds has added its entry exactly once, and one that fails nothing. It is told that the leaf is retired only if it is, that it is frozen only if it was at some moment of the operation, that it is full only if all slots were taken at some moment, without the key, and that the key is there only if it was, or if the leaf was frozen for a while. |
| LeafReturns.RemovalAnswers | src/tree_index/leaf.rs:225-318 | Whatever other threads do, a removal that succeeds has taken its key exactly once, and one that fails nothing: because the condition did not hold, the key was absent at some moment of the operation, or the leaf was frozen. |
| LeafReturns.DuplicateOfNothing | src/tree_index/leaf.rs:605-618 | In some run an insertion is told that its key is there although no state of the run has it: the leaf was frozen when the entry was to be ranked, and thawed before the slot was given back. |
| LeafReturns.AloneInserts | src/tree_index/leaf.rs:552-618 | An insertion that nobody interferes with comes to an end: retired, frozen, present, full, in this order, and otherwise the entry is added. |
| LeafReturns.AloneRemoves | src/tree_index/leaf.rs:225-318 | A removal that nobody interferes with takes the key exactly if the leaf is not frozen and has it, and tells whether something is left. |
| LeafRuns.RanksAreBounded | src/tree_index/leaf.rs:748-770 | A live rank never exceeds the number of insertions completed, hence 14, so it never collides with the rank of removed slots. |
| LeafRuns.FrozenIsConstant | src/tree_index/leaf.rs:106-116 | From freezing to thawing the live entries stay, with threads in the midst of insertion and removal. |
| LeafRuns.RetiredStaysEmpty | src/tree_index/leaf.rs:284-310 | A retired leaf has no live entry and never gets one again. |
| LeafRuns.NeverBlocked | src/tree_index/leaf.rs:172-318 | In every reachable state a thread in the midst of an insertion or a removal can do its next step. |
| LeafSearch.SearchSlot | src/tree_index/leaf.rs:517-549 | The scan that narrows its interval finds exactly the slot of the key. |
| LeafSearch.MaxLess | src/tree_index/leaf.rs:333-367 | Finds exactly the slot of the greatest key below the given one. |
| LeafSearch.MinGreaterEqual | src/tree_index/leaf.rs:374-417 | Finds exactly the slot of the least key not below the given one. |
| LeafSearch.RankScan | src/tree_index/leaf.rs:552-603 | The pruned scan after a reservation finds the key if it is there, and otherwise computes the word in which the new entry has the rank behind all lesser keys. |
| LeafSearch.IsOnlyLive | src/tree_index/leaf.rs:254-282 | Tells exactly whether no other slot is live. |
| LeafSearch.Next | src/tree_index/leaf.rs:653-682 | Finds the live slot with the next higher rank. |
| LeafSearch.Enumerate | src/tree_index/leaf.rs:653-682 | Repeated `next` goes through exactly the live slots by increasing key, and ends. |
| LeafObject.LeafCell.Insert | src/tree_index/leaf.rs:172-209 | By one thread: fails for a retired leaf, a frozen one, a present key and a full leaf, in this order, and otherwise adds exactly the entry. |
| LeafObject.LeafCell.RemoveIf | src/tree_index/leaf.rs:225-318 | By one thread: removes exactly the entry with the key if the condition holds of its value; retires the leaf exactly if that was the last one. |
| LeafObject.LeafCell.FreezeAndDistribute | src/tree_index/leaf.rs:444-478 | The two new leaves hold exactly the entries of the leaf, all of the lower one before all of the higher one; both are used if the leaf was full of live entries. |
| LeafObject.FilledIsValid | src/tree_index/leaf.rs:215-221 | A leaf filled without checks in key order is a proper leaf with exactly these entries. |
| LeafObject.OptimalBoundary | src/tree_index/leaf.rs:495-514 | The boundary counts rises against falls of the ranks in slot order and leaves at least one entry on either side of a full leaf. |
| LeafObject.BoundaryFollowsOrder | src/tree_index/leaf.rs:480-514 | A leaf filled in ascending order keeps all but one entry in the lower half, one filled in descending order only one. |
| Dimension.AugmentSetsRank | src/tree_index/leaf.rs:748-770 | Setting a rank in the 64-bit word sets that rank and nothing else. |
| Dimension.FreezeUnpacked | src/tree_index/leaf.rs:728-730 | Freezing sets the flag in the word and no rank. |
| Dimension.ThawUnpacked | src/tree_index/leaf.rs:733-735 | Thawing clears the flag and no rank. |
| Dimension.RetireUnpacked | src/tree_index/leaf.rs:743-745 | Retiring sets the flag in the word and no rank. |
| Dimension.RemovalUnpacked | src/tree_index/leaf.rs:236-310 | The word that replaces the old one in a removal marks the slot removed, and the leaf retired if no other slot is live. |
| Dimension.RollBackUnpacked | src/tree_index/leaf.rs:605-618 | Clearing the bits of a slot frees it and nothing else. |
| Dimension.UnpackIsInjective | src/tree_index/leaf.rs:588-603 | Two words are equal exactly if ranks and flags are, so a compare-and-exchange of words compares these. |
| Dimension.ZeroMeansExhausted | src/tree_index/leaf.rs:517-549 | Where a loop ends because the shifted word is zero, all slots not looked at are free. |
| Tree.LeavesOrdered | src/tree_index/leaf_node.rs:117-155 | In a tree of any height the entries from the first leaf to the last are strictly increasing and within the bounds of the node. |
| Tree.SearchFinds | src/tree_index/internal_node.rs:103-128 | Searching from a node of any height finds a value exactly if the key is stored under it, and the value stored with it. |
| Tree.KeyInPicked | src/tree_index/leaf_node.rs:117-155 | A key is stored under a node exactly if it is stored under the child that is picked for it. |
| TreeLinks.PushBackShows | src/tree_index/leaf_node.rs:823-833 | A new leaf pushed behind a leaf of the chain becomes visible directly behind it, and nothing else changes. |
| TreeLinks.DeleteShows | src/tree_index/leaf_node.rs:860-866 | A leaf marked deleted is skipped from then on, and no other one. |
| TreeShelf.WidenOk | src/tree_index/leaf_node.rs:843-878 | A child replaced by its halves, with their key between them, leaves a proper sequence of children. |
| TreeShelf.HalveOk | src/tree_index/internal_node.rs:555-768 | The children of a full node with one of them replaced by its halves, 16 at most, fit into two nodes with at most 14 bounded children and one unbounded child each, and the middle key separates these. |
| TreeShelf.HalveLeaves | src/tree_index/leaf_node.rs:481-602 | The leaves of the two nodes, in order, are the leaves of the one, in order. |
| TreeShelf.HalveRoom | src/tree_index/internal_node.rs:555-768 | The half that the key goes to has room for it if the widened node had. |
| TreeShelf.LeafHalvesOk | src/tree_index/leaf_node.rs:787-815 | The halves of a full leaf are proper leaves, hold exactly its entries, are separated by the last key of the lower one, and both have a free slot. |
| TreeInsert.CompactOk | src/tree_index/leaf_node.rs:879-898 | A used-up leaf with few live entries is replaced by one leaf with the same entries and a free slot. |
| TreeInsert.SplitShows | src/tree_index/leaf_node.rs:822-878 | The chain with deleted leaves skipped is the sequence of leaves again once the halves of a leaf are pushed behind it and it is deleted. |
| TreeInsert.InsertIntoLeafNode | src/tree_index/leaf_node.rs:239-339 | Of a leaf node: reports a present key without change, or stores the entry, or hands up halves that have room for it; the retry loop ends because a split makes room. |
| TreeInsert.InsertIntoNode | src/tree_index/internal_node.rs:216-327 | The same of a node of any height, with the chain of leaves kept equal to the leaves in order. |
| TreeInsert.SplitNodeOk | src/tree_index/internal_node.rs:512-768 | Splitting a full child node keeps the entries, the order and the room for the key. |
| TreeRemove.RemoveFromLeafNode | src/tree_index/leaf_node.rs:347-398 | Of a leaf node: removes exactly the entry with the key if the condition holds of its value; says whether nothing is left. |
| TreeRemove.CoalesceLeaf | src/tree_index/leaf_node.rs:911-988 | Taking retired leaves out keeps all other leaves, in the tree and in the chain. |
| TreeRemove.RemoveFromNode | src/tree_index/internal_node.rs:335-392 | The same of a node of any height. |
| TreeRemove.Coalesce | src/tree_index/internal_node.rs:900-983 | Taking retired child nodes out keeps all others; a node without children retires. |
| TreeIndex.RootSplits | src/tree_index/node.rs:174-213 | A full root becomes two nodes under a new root of one more level, with the same entries and leaves and room for the key. |
| TreeIndex.TreeIndex.Insert | src/tree_index.rs:135-183 | Succeeds exactly if the key is absent and then adds exactly the entry; the retry loop ends. |
| TreeIndex.TreeIndex.RemoveIf | src/tree_index.rs:336-375 | Succeeds exactly if the key is present and the condition holds of its value, and then removes exactly that key. |
| TreeIndex.TreeIndex.Peek | src/tree_index.rs:520-529 | Finds exactly the value of the key. |
| TreeIndex.TreeIndex.Iterate | src/tree_index.rs:793-822 | Following the chain of leaves gives all entries once by strictly increasing key, after any insertions and removals. |
| TreeIndex.TreeIndex.CleanUpRoot | src/tree_index/node.rs:222-306 | Replacing a root that has a single child by that child, until it has more or is a leaf node, keeps all entries and leaves. |
| TreeIndex.TreeIndex.SplitRoot | src/tree_index/node.rs:174-213 | Keeps all entries and leaves the root with room for the key. |
| LinkedListSteps.InvKept | src/linked_list.rs:236-393 | Every step of pushing, deleting, walking, claiming, linking and resetting keeps all entries strictly between an entry and its link target deleted, in one order of all entries ever pushed. |
| LinkedListRuns.PositionExists | src/linked_list.rs:236-274 | That order always has a place for an entry directly behind another. |
| LinkedListRuns.UndeletedIsReachable | src/linked_list.rs:307-393 | An entry that is not deleted is reached by following links from every entry before it. |
| LinkedListRuns.HistoryIsPermanent | src/linked_list.rs:159-169 | Entries keep their places in the order, and a deleted entry stays deleted. |
| LinkedListRuns.NothingGetsLost | src/linked_list.rs:307-393 | Over any run an entry stays reachable from every entry before it until it is deleted. |
| LinkedListRuns.PushedIsReachable | src/linked_list.rs:236-274 | An entry whose push is accepted is reachable from the entry it was pushed to. |
| LinkedListReturns.PushTakesPlace | src/linked_list.rs:246-273 | In every reachable state an attempt to push ends the operation unless the link has changed since it was loaded: it is refused exactly if the entry pushed to is deleted, and otherwise the new entry is in the list, between that entry with the tag asked for and what was behind it, and no other link has changed. Where it is not accepted nothing has changed. |
| LinkedListReturns.PushAnswers | src/linked_list.rs:236-274 | Whatever other threads do, a push that returns has put in one entry and says so, or it has put in none and the entry it was to be pushed to is deleted. |
| LinkedListReturns.NextAnswers | src/linked_list.rs:307-393 | Whatever other threads do, `next_ptr` returns an entry further on that has not been deleted at some moment of the call, and all entries between that were there when the call began are deleted; if it returns nothing, all entries that were further on are. |
| LinkedListReturns.NextUnlinks | src/linked_list.rs:340-372 | After a call of `next_ptr` that nobody interferes with, the link leads straight to the entry returned and has kept its tag, unless the tag was `Both`. |
| LinkedListReturns.NextCleansUp | src/linked_list.rs:354-372 | If no other walk is under way and nobody interferes, the deleted entries passed are those from the former target up to the entry returned, and all of them link to that entry. |
| LinkedListReturns.DeletedByOneCall | src/linked_list.rs:159-169 | Over any run an entry is deleted by exactly one successful call, and by no other step. |
| LinkedListReturns.MarksAnswer | src/linked_list.rs:67-101 | Marking and unmarking succeed exactly if the entry is not deleted and its mark is not already as wanted, and change nothing but the mark. |
| LinkedListAlone.AlonePushes | src/linked_list.rs:236-274 | A push that nobody interferes with takes one attempt and succeeds exactly if its entry is not deleted. |
| LinkedListAlone.AloneFindsNext | src/linked_list.rs:307-393 | A call of `next_ptr` that nobody interferes with returns, however far it has come. |
| LinkedListRuns.WalkFindsNext | src/linked_list.rs:307-338 | Where a walk arrives the entry is not deleted, and all entries it has passed are; at the end of the list all of them are. |
| LinkedListRuns.FinishedWalksLeaveNoClaims | src/linked_list.rs:354-390 | An entry tagged `Both` is claimed by a walk in progress: a finished walk leaves none. |
| LinkedListRuns.OneCleanerAtATime | src/linked_list.rs:318-334 | No entry is claimed by two threads. |
| LinkedListRuns.NeverBlocked | src/linked_list.rs:236-393 | In every reachable state a thread in the midst of a push, a walk or a clean-up can do its next step. |
| BagSteps.InvKept | src/bag.rs:405-582 | Every step of pushing, popping, draining and deleting keeps each slot owned by one thread at most and each stored value in one slot. |
| BagSteps.RollBackKeeps | src/bag.rs:444-452 | A push that has to give its slot back goes on with its own value. |
| BagSteps.ReadKeeps | src/bag.rs:472-522 | What a pop reads from its slot is the value it was given when it claimed the instance. |
| BagSteps.FetchKeeps | src/bag.rs:548-556 | A drain reads its slots one after the other; each value it reads is the one it was given when it claimed the instances, and it frees the slots when it has read them all. |
| BagRuns.AcceptedIsHandedOrStored | src/bag.rs:101-180 | Over any run, the values whose push has succeeded are those handed out and those stored, never both, each in one slot of an array that a pop or a drain can reach. |
| BagRuns.ClaimsAreNew | src/bag.rs:472-582 | Each claim of a pop or a drain hands out as many values as it claims instances, none of them handed out before. |
| BagRuns.HandedOutOnce | src/bag.rs:134-180 | Over any run there are as many different values handed out as instances have been claimed. |
| BagReturns.HandedIsReturnedOnce | src/bag.rs:134-180 | Over any run, every value that has been claimed is on its way out with exactly one thread or has been returned by exactly one pop or drain, never both; nothing else is returned, and nothing twice. |
| BagReturns.AcceptedIsReturnedOrStored | src/bag.rs:101-180 | With no operation under way, the values whose push has succeeded are exactly those returned and those stored, never both. |
| BagReturns.PushAnswers | src/bag.rs:101-117 | Whatever other threads do, a push that returns has put in its own value. |
| BagReturns.PopAnswers | src/bag.rs:134-150 | Whatever other threads do, a pop returns the one value that it has claimed, and nothing exactly if it has claimed nothing. |
| BagReturns.DrainAnswers | src/bag.rs:173-180 | Whatever other threads do, a drain returns all values that it has claimed, each once. |
| BagEmptied.NothingPopped | src/bag.rs:134-150 | When a pop returns nothing, whatever was in the primary array or on the stack when it began has been claimed by others, or its array has been detached and someone is draining it. |
| BagEmptied.DrainMissesNothing | src/bag.rs:173-180 | When a drain returns, whatever was in the primary array or on the stack when it began has been claimed. |
| BagAlone.AlonePushes | src/bag.rs:405-469 | A push that nobody interferes with uses a free slot of the primary array if there is one; otherwise a new array can take the value. |
| BagAlone.AlonePops | src/bag.rs:472-522 | A pop that nobody interferes with comes to an end, with a value if the primary array or an array on the stack stores one. |
| BagAlone.AloneDrains | src/bag.rs:526-582 | A drain that nobody interferes with comes to an end. |
| BagRuns.EmptyStaysEmpty | src/bag.rs:405-469 | An overflow array without a slot to offer and without a value never gets a value again. |
| BagRuns.DeletedOrDrainedIsEmpty | src/bag.rs:134-180 | An overflow array that is about to be deleted, or that has been drained, is such an array. |
| BagRuns.NeverBlocked | src/bag.rs:101-180 | In every reachable state a thread in the midst of a push, a pop or a drain can do its next step. |

## Left out

- Memory orderings and fences: all steps are sequentially consistent.
- Allocation failure, layout, alignment, drop order of fields and panics with unwinding.
- Optimistic hash-index reads and iterators: the library documents them as not linearizable.
- Asynchronous waiting: an asynchronous attempt is one that may fail; wakers and futures are not modelled.
- `TreeIndex::remove_range`, documented as experimental.
- `Entry` wrappers, `HashSet`, serialisation, `Queue`, `Stack`, `AtomicShared` and the pointer types around it.
- The first allocation of a hash table, sampling of the load before a resize, shared reads of a locked bucket, `clear_old_array` with a sweep over all buckets, and dropping a whole table.
- EbrCollector.LocalCollector.EndGuard: the scan itself is not part of the class; which collectors it unlinks is an argument, and the epoch it stores is left to the steps `BeginScan`, `Visit` and `EndScan` of the protocol.
- HashTableRuns.TableIsOneMap: takes a growth of at most 32 as given; `Sizing.RelocatableUnlessReserved` says when `try_resize` keeps to it.
- LeafReturns.InsertionAnswers: does not say that a key reported as a duplicate was there if the leaf was frozen for a while, because that is false (LeafReturns.DuplicateOfNothing).
- TreeIndex.TreeIndex.Insert: the tree is a value that is replaced, so update in place and aliasing of nodes are not captured; a leaf of the tree is a list of entries with a count of used slots, whose slots and ranks are those of LeafObject.LeafCell; locks between threads and the rollback of a split that could not lock are left out.
- TreeInsert.InsertIntoLeafNode: the number of entries in the lower half is any from 1 to 13, whatever `optimal_boundary` says.
- CacheBucket.CacheBucket.Put: linked buckets, which the list does not reach, are not part of it.
- BagRuns.AcceptedIsHandedOrStored: pushed values are told apart, and the overflow arrays are visited in any order, so the order of the stack is not captured.
- BucketDrain.Relocate: locks of target buckets are not part of it; HashTableRuns.TargetCanBeLocked deals with them.
- BucketDrain.Bucket.Unlink: the linked buckets are a sequence, so the upkeep of `prev_link` is not captured.
