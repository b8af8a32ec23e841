# Key-value indexes and lock-free protocols, verified

A Dafny model of the core of `lib1.c` and of the batch format that `ibkvcli.c`
and `ibkvser.c` exchange, with proofs of what that code is for.

Every index has one specification: a finite map from key to kv object, together
with the callbacks (hit, retire, refresh) it owes. `kv.dfy` has the shared
entities. The proofs show that each index keeps that specification on every
path, although each reorganises itself while it works:

* `kvmap1*.dfy`, `kvmap2.dfy`: the multi-level hash table, its iterator and clean. Slots split upward;
  at any time every 64-bit hash belongs to exactly one level. Two such tables
  relocate victims between each other. `kvmap2_locks.dfy` runs get, probe, del
  and set of any number of threads one lock operation at a time and shows that
  a get sees a value the map really had during the get.
* `cuckoo*.dfy`: bounded displacement, where the stripes a thread holds keep
  the path free of repeats, and the stripe-by-stripe doubling that runs between
  the other operations. `cuckoo_locks.dfy` is the lock order;
  `cuckoo_steps.dfy`, `cuckoo_step_inv.dfy`, `cuckoo_runs.dfy` and
  `cuckoo_search.dfy` put the tables into that machine and run any number of
  threads and workers one lock operation, one slot or entry, or one moved stripe
  at a time. A displacement frees the stripe of a copy before it clears the
  original, so an object can be in two places, one of them open to others; every
  operation still returns what the map has, and a set gives up only after it has
  met no way out.
* `bptree*.dfy`: the B+-tree with its null sentinel, preemptive splits and
  linked leaves. The nodes in memory are tied to a tree value; the tree value
  to the sorted sequence of its entries; that sequence to the map.
* `skiplist*.dfy`: search, insert and unlink over many levels.
* `index.dfy`: the one interface over the four indexes, with one contract that
  each of them is proved to meet.
* `icache*.dfy`: the cache of pointers in front of any of them.
* `rcu.dfy`, `rwlock.dfy`, `rgen.dfy`: the two-slot RCU node, the reader/writer
  lock and the asynchronous generator, as machines whose steps are single
  atomic accesses of any number of threads.
* `oalloc.dfy`: the one-way allocator.
* `batch_format.dfy`, `batch.dfy`: the packed request batch, its printer and
  its executor, over any of the four indexes.
* `crc.dfy`: the table-driven CRC-32.
* `pow2.dfy`, `hash_words.dfy`, `stripes.dfy`, `bitmap.dfy`, `finite.dfy`,
  `enumerate.dfy`, `key_order.dfy`, `sorted_entries.dfy`: what the above share.

`dafny verify dfyconfig.toml` checks the whole project. Automatic induction is
switched off on every lemma it would touch: each proof is written out.

## Reading the model

* A key is the triple that `kv_keymatch` compares: hash and bytes. The ordered
  indexes compare bytes only, so their operations require what
  `kv_update_hash` establishes: no stored key has the bytes of the argument
  under another hash (`Agrees`). The hash itself is uninterpreted.
* An object is `Kv(addr, key, value)`; `addr` tells apart two objects with the
  same content. `log` is the list of callbacks made.
* Hashes and words are naturals with the arithmetic written out; low bits are
  `Low(h, n)`, proved to be `h` modulo 2^n. Masks on the packed counters of a
  cache slot are arithmetic on the nibble they cover.
* Tables and node arrays are sequence-valued fields that the methods assign one
  element at a time, as the code assigns array elements. Node pointers are
  places in such an arena; ghost fields name the tree, chain or map they form.
* Random draws are nondeterministic choices or parameters. A trylock fails on a
  stripe already held, by its own thread or another one. For an operation run
  by itself what other threads hold is a parameter: `busy` for `kvmap2_set`,
  `Others` for `cuckoo_try_set`, `Env` for whatever index. In the concurrent
  model of the cuckoo table it is the state of the locks.
* In the concurrent models the work a thread does on one slot while it holds
  that slot's stripe is one step, and memory is sequentially consistent.
* The calls an index makes into the cache while it works are delivered after
  the index's own change. The callbacks touch only the cache and the index
  never reads it, so the order among them is the code's.

Where the code and its comments differ, the code is followed. Three findings:

* `kvmap2_set` ends with an insertion into table 0 bounded by level 64, while
  there are 64 levels numbered from 0, and asserts that it succeeds. The model
  bounds it by level 63 and lets it fail. `KvMap2s.KvMap2.Set` has the exact
  condition, for every outcome of the trylocks: the set fails, and the code
  would index past its levels, when the key is new, eight keys of table 0 agree
  with it in the low 63 bits of the hash, table 1 has no room within its level
  limit, and none of the objects that share the key's slot, in either table,
  has both room in the other table and a stripe there that the set does not
  hold for its own key and no other thread holds. With 16 keys of one hash
  stored this is so for every further one (`KvMap2s.AlikeFull`), so of the sets
  of 17 new keys of one hash one fails on any table (`KvMap2s.SeventeenAlike`).
* Without a fixed power `cuckoo_set` tries until an attempt succeeds. Two slots
  have all keys of one hash at every table power (`CuckooState.AlikeBound`), so
  with 16 of them stored no attempt for a new one succeeds, whatever expansion
  work comes in between, and the loop does not end (`Cuckoos.Cuckoo.SetWithin`,
  `Cuckoos.SeventeenAlike`).
* `oalloc_alloc` does not check its size. `OallocHeap.Oalloc.Alloc` shows that
  the disjointness of all blocks is an invariant as long as every request fits
  a unit, and that a larger one runs over the end of its own; `OallocHeap.TwoBlocks`
  that the first two blocks of a fresh allocator then overlap.

## Model

| member | source | states |
|---|---|---|
| KeyOrder.LessIsOrder | lib1.c:3035-3056 | kv_keycompare is a strict total order on byte strings (null lowest), and 0 exactly on equal bytes |
| KeyOrder.LessIsPrecedes | lib1.c:3035-3056 | it is dictionary order: the first byte that differs decides, a proper prefix comes first, the null key before all |
| KeyOrder.BytesTransitive | lib1.c:3035-3056 | memcmp-then-length is transitive |
| KeyOrder.Locate | lib1.c:5240-5282 | the binary search returns the last position whose key is not above the key, in every sorted node |
| KeyOrder.Bsearch | lib1.c:5285-5295 | bsearch finds an equal key when the leaf has one, and nothing only when it has none |
| SortedEntries.MapOfPut | lib1.c:5475-5491 | replacing or inserting at a key's place in a sorted entry list updates exactly that key of the map it stands for, and keeps it sorted |
| SortedEntries.MapOfLists | lib1.c:5589-5634 | a sorted entry list holds each key of its map once and nothing else |
| Bitmaps.Set1 | lib1.c:456-463 | sets one bit, changes no other, and `ones` still counts the set bits |
| Bitmaps.Set0 | lib1.c:465-472 | clears one bit, changes no other, and `ones` still counts the set bits |
| Bitmaps.TestAll0Correct | lib1.c:450-454 | the counter test is true exactly when no bit is set |
| HashWords.Rotation | lib1.c:393-397 | the hash of the second table: rotating by n exchanges the upper n bits of a 64-bit hash and the lower 64 - n |
| HashWords.CuckooHashes | lib1.c:4005-4009 | the first of the two cuckoo hashes of a key is its own, the second exchanges its upper 19 bits and its lower 45 |
| KvMap1State.InitInv | lib1.c:3277-3290 | the first level claims every hash and the table is empty |
| KvMap1s.KvMap1.constructor | lib1.c:3277-3308 | a new table stands for the empty map |
| KvMap1s.KvMap1.LocateLevel | lib1.c:3337-3356 | the up-then-down search ends at the one level that claims the hash, for every 64-bit hash |
| KvMap1s.KvMap1.LocateKey | lib1.c:3358-3381 | found exactly when the key is in the map, at the entry that stores it; otherwise the number of used entries of its slot |
| KvMap1s.KvMap1.LocateFreeEntry | lib1.c:3384-3398 | a free entry of the claiming slot, or that slot is full |
| KvMap1Split.Destination | lib1.c:3400-3479 | the two slots a split moves into are empty before it |
| KvMap1Split.SplitPartition | lib1.c:3400-3479 | after a split every hash is still claimed by exactly one level |
| KvMap1Split.SplitPlaced | lib1.c:3400-3479 | after a split every stored object is in the slot of the level that claims its hash, and no object is lost or doubled |
| KvMap1Split.SplitCounted | lib1.c:3400-3479 | each level's nr_kv still counts its live entries, when the loop has taken one from the lower and given one to the upper for each entry of the slot |
| KvMap1Split.SplitKeeps | lib1.c:3400-3479 | a split keeps the whole table invariant, the level counters included |
| KvMap1Split.ReleaseKeeps | lib1.c:3456-3479 | raising min_level past an empty lowest level loses nothing |
| KvMap1Split.GrowKeeps | lib1.c:3401-3420 | adding a level above the highest loses nothing |
| KvMap1Split.NoBitsNoEntries | lib1.c:3456-3479 | a level without set bits holds no entry, so its table can be unmapped |
| KvMap1s.KvMap1.Split | lib1.c:3400-3479 | the map is unchanged, the split hashes now belong one level up, every other hash where it was |
| KvMap1s.KvMap1.MoveUp | lib1.c:3421-3455 | the copy loop moves each of the eight entries to the slot of its longer hash prefix and keeps both live counts |
| KvMap1s.OwnerRivals | lib1.c:3384-3398 | the claiming slot holds exactly the stored keys that agree with the hash on its level's bits |
| KvMap1s.KvMap1.Insert | lib1.c:3492-3511 | refines map[key := kv]; it succeeds exactly when fewer than eight stored keys agree with the key in the low bits of the highest level it may use, and terminates |
| KvMap1s.KvMap1.PutEntry | lib1.c:3481-3490 | replaces the key's object and retires the old one alone |
| KvMap1s.KvMap1.Erase | lib1.c:3849-3873 | removes exactly one key and frees its entry |
| KvMap1Walk.KvMap1Iter.Next | lib1.c:3611-3652 | yields the object at the next live place and moves past it; null for ever once none is left |
| KvMap1Walk.WalksAll | lib1.c:3594-3652 | a walk from the start meets every stored object, each once |
| KvMap1Walk.Clean | lib1.c:3513-3543 | every object is retired once, in walking order, and the table starts again empty |
| KvMap2s.KvMap2.Get | lib1.c:3685-3707 | returns the map's object, or none exactly when the key is absent, and reports the hit |
| KvMap2s.KvMap2.Del | lib1.c:3849-3873 | removes exactly the key, says whether it was there, retires exactly its object |
| KvMap2s.KvMap2.TryCuckoo | lib1.c:3732-3748 | an object is relocated exactly when its stripe in the other table can be locked, which one the set itself holds cannot, and it has room there up to the highest level; the map never changes, and a failure changes neither table's contents |
| KvMap2s.KvMap2.Cuckoo | lib1.c:3750-3766 | succeeds exactly when the slot has a free entry or one of its objects can be relocated; then the slot has a free entry, otherwise neither table's contents change; the map is the same |
| KvMap2s.KvMap2.TryUpdate | lib1.c:3783-3801 | the update path replaces the object where the key is, in whichever table |
| KvMap2s.KvMap2.InsertNoSplit | lib1.c:3803-3813 | a table with a free entry in the key's slot takes the new object, and only then does the phase succeed |
| KvMap2s.KvMap2.InsertBounded | lib1.c:3815-3826 | succeeds exactly when one of the tables has room within its level limit; otherwise neither table's contents change |
| KvMap2s.KvMap2.InsertCuckoo | lib1.c:3828-3838 | succeeds exactly when an object of one of the key's two slots can be relocated; the insertion into the freed slot cannot fail |
| KvMap2s.KvMap2.Set | lib1.c:3768-3847 | on every path refines map[key := kv] and retires only the object it replaces; for any outcome of the trylocks it succeeds exactly when the key is stored, or table 0 has fewer than eight rivals in 63 hash bits, or table 1 has room within its limit, or an object of one of the key's two slots can be relocated |
| KvMap2s.AlikeFull | lib1.c:3768-3847 | with 16 keys of its hash stored, beside whatever others and whichever locks are free, the set of a new key meets none of those conditions |
| KvMap2s.SeventeenAlike | lib1.c:3840-3846 | of 17 sets of new keys of one hash one fails on any table, whatever the trylocks do; on an empty table exactly the last |
| KvMap2s.KvMap2.Clean | lib1.c:3875-3881 | every object of the pair is given up once |
| KvMap2Locks.StepInv | lib1.c:3685-3872 | every step of every thread keeps stripe ownership, single copies and what each running operation knows |
| KvMap2Locks.Always | lib1.c:3685-3872 | the invariant holds in every reachable state of any number of threads |
| KvMap2Locks.AtRestOneCopy | lib1.c:3732-3748 | with no relocation half done no key is in both tables |
| KvMap2Locks.ReadLinearizes | lib1.c:3685-3730 | what a get or probe returns was the abstract value of its key at some state between its start and its return |
| KvMap2Locks.StayingKeyFound | lib1.c:3685-3707 | a key that stays in the map for the whole get is found, even while it is being moved between the tables |
| KvMap2Locks.StepEffect | lib1.c:3732-3847 | each step is invisible in the abstract map, relocations included, or is a write of its set or del |
| KvMap2Locks.SetWritesOnce | lib1.c:3768-3847 | over a run: between the begin and the return of a set exactly one step of its thread writes the map, its object under its key |
| KvMap2Locks.DelWritesOnce | lib1.c:3849-3873 | over a run: between the begin and the return of a del that found an object exactly one step of its thread writes the map, the removal, and the object is what the map had at that step; a del that found none writes nothing |
| KvMap2Locks.WaitsUpwards | lib1.c:3786-3788 | a blocked thread waits for a stripe of a later table than any it holds |
| KvMap2Locks.NoDeadlock | lib1.c:3685-3872 | behind every blocked thread there is one that has a step |
| KvMap2Locks.Begins | lib1.c:3685-3872 | an idle thread can begin any get, probe, del or set |
| CuckooState.PathKeeps | lib1.c:4257-4290 | moving every object of a displacement path one place on and storing the new one keeps every key, each in one of its own two slots |
| CuckooState.PathExtends | lib1.c:4272-4282 | a path through slots whose stripes were free to lock never returns to a slot it has left |
| Stripes.StripeOfSlot | lib1.c:3999-4010 | the slot index of a hash determines its stripe, at every table power |
| Stripes.SlotHasOneStripe | lib1.c:3310-3314 | hashes of one slot, on any level of any table, have one stripe: the lock of a key covers its slot |
| Stripes.SplitHasOneStripe | lib1.c:3400-3479 | a slot and the two slots it is split into have one stripe |
| Stripes.WordHasOneStripe | lib1.c:456-463 | the 64 flags of one bitmap word of a level belong to slots of one stripe, so the holder of the stripe is the only writer of the word |
| Cuckoos.Cuckoo.Get | lib1.c:4107-4130 | run by itself, in every state of an expansion: returns the map's object, or none exactly when absent |
| Cuckoos.Cuckoo.Del | lib1.c:4344-4366 | run by itself, in every state of an expansion: removes exactly the key and retires exactly its object |
| Cuckoos.Cuckoo.CuckooDepth | lib1.c:4257-4290 | to any depth: succeeds exactly when there is a way of at most depth + 1 places from a place in the slot to a free one, each next place in a slot of the object before it, under a stripe of its own that nobody holds; then every object of such a way moves one place on, otherwise the table is unchanged; the held stripes are the same at the end |
| Cuckoos.Cuckoo.MoveAway | lib1.c:4270-4287 | gives the victim its other place exactly when there is a way on for it, or leaves everything as it was |
| Cuckoos.DisplaceKeeps | lib1.c:4292-4326 | a successful displacement stores exactly the old entries and the new object, none retired |
| Cuckoos.Cuckoo.TrySet | lib1.c:4292-4326 | run by itself: refines map[key := kv] or changes nothing and starts an expansion; it succeeds exactly when the key is stored or there is a way of at most three places into one of its slots |
| Cuckoos.Cuckoo.SetWithin | lib1.c:4328-4342 | the retry loop, with any expansion work between attempts: an attempt fails only on tables without a way for the key and leaves the map alone, the one that succeeds stores the key, a stored key is overwritten at the first; with 16 other keys of its hash stored no attempt succeeds |
| CuckooState.AlikeBound | lib1.c:4292-4326 | no state of the tables or of an expansion has more than 16 keys of one hash |
| Cuckoos.SeventeenAlike | lib1.c:4328-4342 | of 17 keys of one hash one cannot be set, however often the set tries and whatever the expand workers do in between |
| Cuckoos.Cuckoo.LockTwo | lib1.c:4050-4065 | takes both stripes of the key; each call of cuckoo_lock requires a stripe not yet held |
| CuckooGrow.SlotIndexStripe | lib1.c:4172-4181 | the (hi, mid, lo) index belongs to the stripe being moved |
| CuckooGrow.SlotIndexCovers | lib1.c:4172-4181 | every slot of a stripe is some (hi, mid, lo) |
| CuckooGrow.SlotIndexUnique | lib1.c:4172-4181 | and of one (hi, lo) only, so each is visited once |
| CuckooGrow.UnservedEmpty | lib1.c:4164-4201 | a stripe not yet moved has nothing in the doubled table |
| CuckooGrow.MoveIsFree | lib1.c:4183-4192 | the place an entry is moved to is empty, so no moved entry overwrites another |
| CuckooGrow.MoveStep | lib1.c:4183-4192 | one turn of the worker's loop moves one object to its place in the doubled table and leaves every other entry as it was |
| CuckooGrow.MigratedTo | lib1.c:4172-4194 | moving a stripe loses no object: each is stored afterwards, in the same stripe |
| CuckooGrow.MigratedFrom | lib1.c:4172-4194 | nor does it add or double one |
| CuckooGrow.MigratedSound | lib1.c:4164-4199 | after the last slot the bitmap may be flipped: every entry is where the bitmap says, whether or not displacements are half done |
| CuckooGrow.MigratedKeeps | lib1.c:4164-4199 | with no displacement half done the map is the same |
| Cuckoos.Cuckoo.Expand | lib1.c:4204-4240 | starts a doubling only when none runs, and the map is the same |
| Cuckoos.Cuckoo.ClaimChunk | lib1.c:4164-4202 | the 64 stripes claimed are exactly one word of the bitmap, and no stripe claimed before has its flag there |
| Cuckoos.Cuckoo.MigrateStripe | lib1.c:4164-4202 | moves every object of a claimed stripe to its place in the doubled table and nothing else, also beside half-done displacements of other threads; with unique keys the map is the same |
| Cuckoos.OldTableEmpty | lib1.c:4204-4232 | when every stripe has moved the old table holds nothing |
| Cuckoos.Cuckoo.FinishExpand | lib1.c:4204-4232 | releasing the old table keeps the map |
| Cuckoos.Cuckoo.RunExpansion | lib1.c:4164-4232 | a whole expansion ends, with every stripe moved and the map unchanged |
| Cuckoos.Cuckoo.Clean | lib1.c:4368-4394 | every object is given up once and the table starts again at its least power |
| CuckooLocks.WaitsUpwards | lib1.c:4050-4065 | what a waiting thread holds is below the stripe it waits for |
| CuckooLocks.StepKeeps | lib1.c:4050-4094 | every lock operation keeps one owner per stripe |
| CuckooLocks.Acyclic | lib1.c:4050-4326 | in every reachable state of any number of threads and workers no chain of waits comes back to its start |
| CuckooLocks.Progress | lib1.c:4050-4326 | behind every busy thread there is one that has a step |
| CuckooStepInv.StepKeeps | lib1.c:4096-4326 | every step of every thread - a lock operation, one slot or entry searched, an object copied, a stripe freed, an old copy cleared, a stripe moved, a table added or released - keeps one object per key, at most two places for it in different stripes, every entry where the bitmap says, and what each thread knows |
| CuckooRuns.Always | lib1.c:4096-4326 | the invariant holds in every reachable state of any number of threads |
| CuckooRuns.AtRestOneCopy | lib1.c:4257-4290 | with no displacement between copying and clearing every key is stored once |
| CuckooRuns.AlwaysOneObject | lib1.c:4270-4287 | at any time the places of a key hold one object, and two of them are in different stripes of the key |
| CuckooStepInv.CopyStays | lib1.c:4270-4287 | the copy a displacement has made under a stripe it has freed stays until the old one is cleared, whatever other threads and workers do to that stripe |
| CuckooRuns.StepEffect | lib1.c:4096-4326 | each step is invisible in the abstract map, copies, clearings and moved stripes included, or is a write of its set or del |
| CuckooRuns.SetWritesOnce | lib1.c:4292-4326 | over a run: between the begin and the return of a set that succeeds exactly one step of its thread writes the map, its own object under its key; one that gives up writes nothing |
| CuckooSearch.GivesUp | lib1.c:4257-4326 | over a run: a set that is about to give up finds both its slots full in that very state, and since its begin each object in them was at some time kept from its other slot by an owned stripe or met that slot full too, and so for the objects in there |
| CuckooSearch.AloneStores | lib1.c:4292-4326 | over a run: a set that runs alone, with a free entry in one of its slots at its begin, stores its object |
| CuckooRuns.DelWritesOnce | lib1.c:4344-4366 | over a run: a delete answers what the map had for its key at one step of its thread, which removes it if there was one; no other step of the thread writes |
| CuckooRuns.Returns | lib1.c:4096-4369 | what an operation returns is what the map has for its key in the state it returns from, beside half-done displacements and moving stripes of other threads |
| CuckooRuns.LookAnswers | lib1.c:4107-4154 | a get, probe or del reads the abstract value of its key |
| CuckooRuns.Acyclic | lib1.c:4050-4326 | with the data, too, no chain of waits comes back to its start |
| CuckooRuns.Progress | lib1.c:4050-4326 | behind every busy thread there is one that has a step |
| CuckooRuns.IdleMoves | lib1.c:4108-4369 | an idle thread can begin any operation; with no worker running it can start an expansion, claim the next 64 stripes of one, or end one whose stripes are all claimed |
| CuckooRuns.FlagWriter | lib1.c:4169-4196 | a bitmap flag is changed by the worker that holds its stripe, and every other worker is at another word: no word has two writers |
| BpTreeLinks.LinkKeeps | lib1.c:5353-5381 | the four pointer writes put the new node into its chain right after its left neighbour and leave every other chain alone |
| BpTreeOps.SplitChildWf | lib1.c:5451-5473 | splitting a full child keeps depth, occupancy and separators, and does not overflow a parent that is not full |
| BpTreeOps.SplitChildFlat | lib1.c:5451-5473 | splitting a child keeps the entry sequence |
| BpTreeOps.ReplaceWf | lib1.c:5493-5517 | a child that keeps its own invariant and first key keeps its parent's |
| BpTrees.BpTree.constructor | lib1.c:5223-5238 | a new tree stands for the empty map |
| BpTrees.BpTree.RawBalance | lib1.c:5383-5423 | two neighbours keep their joint sequence and end at even halves |
| BpTrees.BpTree.RawInsertIntm | lib1.c:5353-5381 | inserts one key and child in place and links the child |
| BpTrees.BpTree.SplitSub | lib1.c:5451-5473 | the memory after the split holds the split tree, and every chain has its new node |
| BpTrees.BpTree.SplitRoot | lib1.c:5425-5449 | the tree grows by one level and keeps its entries |
| BpTrees.BpTree.SetRec | lib1.c:5493-5517 | writes the entry list at the key's place, splits only below a parent with room, keeps the chains, terminates |
| BpTrees.BpTree.Set | lib1.c:5519-5537 | keeps the full B+-tree invariant and refines map[key := kv], with the callbacks of kvmap_put_entry |
| BpTrees.BpTree.GetRec | lib1.c:5296-5306 | the descent ends at the key's place in the whole entry sequence |
| BpTrees.BpTree.Get | lib1.c:5308-5312 | agrees with map lookup |
| BpTrees.LeafChain | lib1.c:5353-5423 | following the leaf chain meets every entry in dictionary order of the key bytes, each key once, and the map is exactly those |
| BpTrees.BpTreeIter.constructor | lib1.c:5597-5614 | on a nonempty tree the iterator stands after the sentinel |
| BpTrees.BpTreeIter.Next | lib1.c:5616-5634 | yields the entries of the sequence one after the other, then null for ever |
| BpTrees.BpTree.Clean | lib1.c:5550-5574 | every object is given up once, in key order, and the sentinel alone is left |
| SortedEntries.ValuesEnumerate | lib1.c:5589-5634 | walking a sorted entry list meets every object of its map, each once |
| SkipListState.InsertNext | lib1.c:4674-4677 | inserting a node retargets only the links that jumped over its place |
| SkipListState.RemoveNext | lib1.c:4719-4721 | removing a node retargets only the links that led to it |
| SkipListState.InsertKeeps | lib1.c:4629-4681 | linking a node of any height 1..63 into its levels keeps every level right and the chain sorted |
| SkipListState.RemoveKeeps | lib1.c:4683-4727 | unlinking a node from its levels keeps every level right |
| SkipListState.MapOfRemove | lib1.c:4683-4727 | removing an entry takes exactly its key out of the map |
| SkipListMap.LevelIsTall | lib1.c:4513-4549 | the links of each level visit exactly the nodes tall enough for it, in key order, none twice |
| SkipListMap.ChainAscends | lib1.c:4513-4549 | that order is dictionary order of the key bytes, and the map is exactly the entries of the chain |
| SkipListMap.ScanDone | lib1.c:4574-4586 | a scan stopped by the possibly stale `right` has still seen every position that could hold the key |
| SkipListMap.StopShort | lib1.c:4690-4707 | where skiplist_del first meets a node, no higher level holds it |
| SkipListMap.SkipList.Get | lib1.c:4551-4589 | agrees with map lookup |
| SkipListMap.SkipList.Set | lib1.c:4629-4681 | refines map[key := kv] for every draw of the height, with the callbacks of kvmap_put_entry |
| SkipListMap.SkipList.InsertNode | lib1.c:4651-4678 | the new node has exactly the height drawn and the insertion keeps every level; the list is as high as its tallest node |
| SkipListMap.SkipList.Del | lib1.c:4683-4727 | removes exactly the key, says whether it was there, retires its object |
| SkipListMap.SkipList.Unlink | lib1.c:4709-4726 | the node found is unlinked from all of its levels |
| SkipListMap.SkipList.Clean | lib1.c:4729-4742 | every object is given up once, in key order |
| AnyIndex.Index.Get | lib1.h:689 | each of the four indexes answers a get as its map does and reports the hit |
| AnyIndex.Index.Set | lib1.h:691 | each of the four refines map update; a stored key is always overwritten, the B+-tree and the skiplist always succeed, kvmap2 exactly under the condition of its own set, the cuckoo table when its first attempt finds a way; the object replaced goes to one callback, retired by kvmap2, refreshed by the others if they can |
| AnyIndex.Index.Del | lib1.h:692 | each of the three that implement it refines removal and reports exactly the object removed |
| AnyIndex.Index.Clean | lib1.h:694 | each of the four ends empty and reports every object once |
| ICacheState.AmapOwnNibble | lib1.c:5887-5922 | each counter update changes its own nibble as it should, no other nibble, and stays in the field |
| ICacheState.HistUpdate | lib1.c:5924-5936 | returns how often the tag occurs among the last seven, and drops the oldest of them for it |
| ICacheState.Update | lib1.c:5945-5972 | fills the first empty entry, or evicts the first entry in circular order used less than `rep` times, or ages the victim alone; the assertion after the search cannot be reached |
| ICacheState.UpdateKeeps | lib1.c:5945-5972 | the slot still counts its entries and holds only live objects, each key once |
| ICacheState.Invalidate | lib1.c:6027-6041 | exactly the entries with the tag are emptied and their counters cleared |
| ICacheState.DroppedLacks | lib1.c:6027-6041 | no entry of the key is left |
| ICacheMap.CacheHearsDeletes | lib1.c:6224-6238 | after the index has deleted a cached object, the cache answers as the index does exactly when the wrapped mm has an rf; without one it answers the deleted object |
| ICacheMap.SlotHasOneLock | lib1.c:5874-5884 | two hashes of one slot, or of one history, have the same lock |
| ICacheMap.ChangeKeeps | lib1.c:6163-6168 | once the key's slot lacks it, a change of the map at that key leaves every cached pointer live |
| ICacheMap.ICache.Get | lib1.c:5974-5999 | returns what the index alone would return, whatever was drawn before; a cached answer only counts the use of its entry, an answer of the index is hinted |
| ICacheMap.ICache.HintCb | lib1.c:6199-6215 | keeps every cached pointer live, in its slot, once; records the hit when the slot has a free entry or by luck, and then caches an object seen lately as icache_update has it; nothing else changes |
| ICacheMap.SecondHitCached | lib1.c:6199-6215 | an object hit again while its tag is among the last seven of its history is cached when its slot has a free entry |
| ICacheMap.ICache.RefreshCb | lib1.c:6191-6197 | the refreshed entry is retired by its tag at once: the slot lacks the key |
| ICacheMap.ICache.RetireCb | lib1.c:6170-6175 | the key leaves the cache and the object is given back |
| ICacheMap.ICache.Set | lib1.c:6058-6066 | answers as the index does, under the index's own conditions; changes the map as the index does and keeps every cached pointer live; the replaced object is given back once |
| ICacheMap.ICache.Del | lib1.c:6068-6076 | the same for a delete |
| ICacheMap.ICache.Clean | lib1.c:6078-6094 | empties index and cache; every object of the map is given back once |
| Rcu.ReadKeeps | lib1.c:2640-2672 | a reader's step keeps each slot's count equal to the references held on it |
| Rcu.UpdateKeeps | lib1.c:2674-2702 | the updater's step keeps the counts, and the two pointers different |
| Rcu.ReaderStepOk | lib1.c:2656-2672 | the first slot with the reader's pointer is the slot it was counted in; its assertions never fail |
| Rcu.Always | lib1.c:2625-2702 | the invariant holds over every interleaving of any number of readers and one updater |
| Rcu.Safety | lib1.c:2625-2702 | some slot is always valid and every held pointer is in a counted slot |
| Rcu.GracePeriod | lib1.c:2687-2702 | when rcu_update returns no reader holds or can obtain the pointer of the slot it has drained |
| Rcu.UpdateReturns | lib1.c:2687-2702 | over a run: when rcu_update(q) returns, q is current, and no reader holds or can obtain the pointer that was current when it began |
| Rcu.NeverAgain | lib1.c:2687-2702 | nor does one ever after in the run, until an update is given that pointer again |
| Rcu.DrainEnds | lib1.c:2687-2702 | the drain loop of an update ends exactly when the last reference on the old slot has been given back |
| Rcu.UpdateDrains | lib1.c:2674-2702 | undisturbed, an update reaches its drain loop in at most six steps, with the new pointer valid in its slot |
| Rcu.ReaderHolds | lib1.c:2640-2655 | undisturbed, a reader that looks at a valid slot holds its pointer two steps later; from an invalid one it goes to the other, which is valid |
| RwLock.StepKeeps | lib1.c:110-168 | the low bits count the readers and the write bit has one owner |
| RwLock.Exclusion | lib1.c:110-168 | in every reachable state a writer past its drain loop excludes every reader and writer |
| RwLock.NoEntry | lib1.c:110-121 | no reader enters once the write bit is set |
| RwLock.StoreLosesNone | lib1.c:163-168 | the plain store of 0 loses no reader |
| RwLock.DrainEnds | lib1.c:141-155 | the drain loop ends exactly when the last reader has left |
| RwLock.Enters | lib1.c:110-155 | undisturbed, a reader enters in three steps while there is no writer, and a writer in four when there are no readers either |
| Rgen.StepKeeps | lib1.c:2463-2538 | the ring holds exactly the buffers published and not read out |
| Rgen.Always | lib1.c:2463-2538 | over every interleaving |
| Rgen.Fifo | lib1.c:2521-2538 | the k-th value returned is the k-th value real_next produced, modulo 2^64, or 2^32 when units are 32-bit |
| Rgen.NoOverlap | lib1.c:2463-2538 | no buffer is written while it is read |
| Rgen.CallReturns | lib1.c:2521-2538 | with a published buffer unread a call returns one value, and the next can begin, without any step of the worker |
| Rgen.Publishes | lib1.c:2463-2495 | with room in the ring the running worker publishes one more buffer, in a known number of steps and without the reader |
| Rgen.RankDrops | lib1.c:2463-2495 | each step of a stopped worker lowers a measure of the unavailable buffers |
| Rgen.Halts | lib1.c:2463-2495 | once `running` is cleared and reads stop, the worker halts within that measure |
| OallocHeap.UnitsApart | lib1.c:859-884 | two different (page, unit) pairs are disjoint memory |
| OallocHeap.Oalloc.constructor | lib1.c:848-857 | no unit handed out, no page mapped, no shard with a unit |
| OallocHeap.Oalloc.LpAlloc | lib1.c:859-884 | the n-th unit handed out is unit n mod 4096 of page n / 4096, never handed out before; null exactly when all 4096000 have been |
| OallocHeap.CutKeeps | lib1.c:886-905 | the next block of a shard overlaps no block of any shard |
| OallocHeap.Oalloc.Alloc | lib1.c:886-905 | the block is the next one of the shard's unit when the code takes it to fit, else the start of the next unit, or null when there is none; that blocks are 8-aligned, each inside one unit of one page, and disjoint is kept by exactly the requests no larger than a unit |
| OallocHeap.TwoBlocks | lib1.c:886-905 | the first two blocks of a fresh allocator overlap exactly when the first request is larger than a unit, whichever shards are drawn |
| BatchFormat.HeaderAt | lib1.c:2871-2889 | the header fields and bytes of a kv read back as they were written, whatever value length a key request names |
| BatchFormat.PackedOne | ibkvcli.c:21-59 | a packed batch means one list of requests |
| BatchFormat.AnsweredOne | ibkvser.c:10-93 | a response means one list of replies |
| Batch.FillRequests | ibkvcli.c:21-59 | the buffer holds the requests drawn, each behind its opcode cell, padded to 4 bytes, and the terminator |
| Batch.Shares | ibkvcli.c:28-50 | of the hundred draws of the dice exactly the percentages asked for make a set, a delete, a get, and the rest a probe |
| Batch.DrawnKey | ibkvcli.c:28-50 | every request has the eight little-endian bytes of the number drawn as its key; a set has the mix's value, any other none |
| Batch.ReadObj | ibkvser.c:10-93 | the executor reads the object the client wrote, and steps over exactly its record: a key request by its key alone |
| Batch.Serve | ibkvser.c:10-93 | each opcode does to the map what it names and answers accordingly; a set is answered yes when its key is stored, always over the ordered indexes, and over the hash tables when the index takes it, and only then |
| Batch.BatchProcess | ibkvser.c:10-93 | executes exactly the requests of the batch in their order, stopping at the terminator or the first opcode it does not serve, with one reply each, a set answered as for Serve |
| Batch.GetAfterSet | ibkvser.c:10-93 | a get behind a set of its key that was answered yes answers the object set, whatever requests between that neither delete nor replace it |
| Batch.WholeBatch | ibkvser.c:10-93 | printer and executor composed: of the batch the client prints, the server executes every request in its order and answers each once, with its own opcode; sets of stored keys and all sets over the ordered indexes are answered yes, and the client reads its own sets |
| Crc32.TabIs | lib1.c:1257-1301 | every table entry is its index shifted through eight bits |
| Crc32.ShiftLinear | lib1.c:1303-1315 | shifting commutes with exclusive or |
| Crc32.TableStep | lib1.c:1303-1315 | one table step is one byte of the bit-serial form |
| Crc32.Crc | lib1.c:1303-1315 | equals the bit-serial reflected CRC-32 for every byte string |

## Left out

- RDMA, sockets, the TCP server and client, tcpmap, kvserver, signals, timing and statistics are foreign calls and plumbing.
- Page mapping, malloc and thread creation are fresh values and step interleaving; allocation is taken to succeed. The floating-point generators are left out.
- xxhash is an uninterpreted function of the key bytes.
- chainmap, gcache, xlog, vctr, the bloom filter and rcache repeat claims made above in an easier form.
- `bptree_del` is not implemented in the source; `rgen_async_next_nowait` ignores buffer availability on purpose.
- The probe operations search as the gets do and return whether something was found; only the gets are written out, except in the concurrent models.
- The iterators of kvmap2, cuckoo and the skiplist, skiplist_head and skiplist_tail are easier walks than the ones of kvmap1 and the B+-tree.
- KvMap1Walk.Clean: the entries are read and not zeroed one by one, as their tables are unmapped straight afterwards; so in the other cleans.
- Cuckoos.Cuckoo.Clean: a clean during an expansion waits for it; the model runs the expansion to its end first.
- Cuckoos.Cuckoo.TrySet: a stripe that others hold for some of the time is either taken or not at each trylock; success and failure are then bounded from the two sides, and with none the condition is exact.
- Cuckoos.Cuckoo.SetWithin: the loop of `cuckoo_set` need not end (Cuckoos.SeventeenAlike), so it is modelled up to any number of attempts; cuckoo tables of fixed power (no bitmap, no expansion) are left out.
- KvMap2Locks.StepInv: kvmap1 work under a held stripe (locate, split, insert) is one access to the finite map `kvmap1.dfy` proves the table to be; reads of level counters without a lock are not modelled.
- CuckooStepInv.StepKeeps: a worker moves its whole stripe in one step, as it holds the stripe throughout; MigrateStripe has the loop. Searching a slot for a free entry is one step. Adding the doubled table and releasing the old one are steps of some idle thread; clean, which holds every stripe, is not a step.
- CuckooLocks.Acyclic: expand_lock and the joining of workers are not steps; the lock is only ever try-locked and joining holds no stripe.
- SkipListMap.SkipList.InsertNode: the height is any number from 1 to 63; a random draw of exactly 0, for which the source would leave its factor table, is not modelled.
- BpTrees.BpTreeIter.constructor: requires a nonempty tree, as iteration does in the source.
- ICacheMap.ICache.Get: hit rates and the quality of replacement are not claimed, nor that a refreshed object stays cached.
- AnyIndex.Index.Del: not for the B+-tree, whose delete ends the process.
- AnyIndex.Index.Set: over the cuckoo table a false answer means that the retry loop has been cut off after the attempts its environment has.
- ICacheMap.ICache.constructor: requires an rf, without which the cache does not hear of deletes (CacheHearsDeletes).
- Batch.BatchProcess: the response buffer grows as needed, so its capacity is not modelled; a batch that is not well formed is outside the model, as the executor checks no bounds.
- Batch.FillRequests: requires a buffer that holds the batch, which the source asserts at its end.
- OallocHeap.Oalloc.Alloc: the two spinlocks make a call one step.
- Crc32.Crc: the build with SSE 4.2 computes another polynomial and is not modelled.
