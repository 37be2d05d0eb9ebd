# Chained Bloom filter of kvrocks, modelled in Dafny

kvrocks stores a Redis-compatible scalable Bloom filter (`BF.RESERVE`, `BF.ADD`,
`BF.MADD`, `BF.EXISTS`, `BF.MEXISTS`, `BF.INFO`) as a *chain* of block-split
Bloom filters in its key-value engine.

- **Metadata.** One metadata record per user key holds these fields:
  - `n_filters`, `expansion`, `base_capacity`, `error_rate`, `bloom_bytes`, `size`;
  - the version that the sub-filter keys carry.
- **Sub-filters.** Each sub-filter is stored under its own key, which is made from
  the namespaced user key, the version and the sub-filter's index.
- **Insertion.** An item goes into the newest sub-filter after a newest-first scan
  says no sub-filter already reports it.
  - When the chain would exceed its capacity, a scaling chain appends a new, larger
    sub-filter.
  - A chain that does not scale answers `kFull` instead.
- **Batches.** The insertion part of an `MAdd` commits all its writes in a single
  write batch. On a missing key, `MAdd` first creates the chain, and that creation
  commits its own batch before any sub-filter is read.

The model has these parts:

- `Filters`: the block-split filter as the chain uses it.
  - A filter is a byte length plus the set of bits that are set.
  - The library's hash, its sizing formula and its bit layout are injected as a
    `BlockSplit` value, so every property holds for every choice of them.
- `ChainMeta`: the metadata record.
  - Its capacity: the sum of `base * expansion^i` over the sub-filters of a scaling
    chain, and `base` otherwise.
  - Chain creation (`NewChainMetadata`) and growth by one sub-filter (`Grow`).
- `Store`: the engine reduced to what the chain uses.
  - A metadata map and a sub-filter map.
  - Point reads that fail with an I/O error on a fixed set of unreadable keys.
  - Batch commits that either all succeed or, when the engine refuses writes,
    write nothing.
  - The state is a `Db` value. The `Storage` and `WriteBatch` classes hold and
    update it in place.
- `ChainModel`: each operation as a function of the engine state.
  - `MAddSpec`, `MExistsSpec`, `ReserveSpec` and `InfoSpec`.
  - The item loop of `MAdd` as `Step` (one item) and `AddAll` (all items).
- `BloomChainEngine.BloomChain`: the operations written step by step, as in the
  source, with loops over arrays and a write batch built call by call.
  - Each method is proved to compute exactly the corresponding `ChainModel`
    function.
- `ChainProperties`: what the chain guarantees. Among the lemmas:
  - no false negatives after `MAdd`;
  - a repeated item is answered `kExist`;
  - `size` counts the `kOk` answers and stays within capacity;
  - the batch writes only its own chain;
  - the committed engine holds exactly the chain the loop built;
  - `MExists` after a successful `MAdd` reports every item that was not refused;
  - `Info` after `Reserve` reports the new chain;
  - two worked examples proved by lemmas, one of a scaling chain and one of a chain
    that does not scale.

## Model

| member | source | states |
|---|---|---|
| Filters.New | src/types/redis_bloom_chain.cc:80 | a new filter has the requested byte length and no bit set |
| Filters.Insert | src/types/redis_bloom_chain.cc:111-114 | `bloomAdd` keeps the filter's length, makes the inserted hash found, and loses nothing that was found |
| ChainMeta.NewChainMetadata | src/types/redis_bloom_chain.cc:70-78 | a new chain has one sub-filter and size 0, takes the given capacity, expansion, error rate and version, is sized by the library for the whole capacity, and its capacity is exactly the requested one |
| ChainMeta.Grow | src/types/redis_bloom_chain.cc:96-104 | growth adds one sub-filter sized for `base * expansion^n` items, adds its bytes to `bloom_bytes`, keeps the identity fields and the size, raises the capacity by the new sub-filter's share when scaling, and does not raise it otherwise |
| Store.GetMeta | src/types/redis_bloom_chain.cc:27-29 | a metadata read succeeds exactly when the key is readable and present, with the stored record; it is `NotFound` exactly when the key is readable and absent |
| Store.Get | src/types/redis_bloom_chain.cc:56-57 | a sub-filter read succeeds exactly when the key is readable and present, with the stored bytes |
| Store.ApplyBatch | src/types/redis_bloom_chain.cc:207 | applying a batch never changes which keys are unreadable or whether writes fail |
| Store.Commit | src/types/redis_bloom_chain.cc:93 | a write succeeds exactly when the engine accepts writes; it then applies the whole batch in order, and otherwise returns an I/O error and writes nothing |
| Store.ApplyBatchSnoc | src/types/redis_bloom_chain.cc:207 | a batch with one more operation is the shorter batch followed by that operation |
| Store.Storage.constructor | src/types/redis_bloom_chain.cc:28 | the engine the chain code reaches through `storage_` (used at lines 28, 56 and 93; its construction is in the header, which is not part of this model) starts in the given state |
| Store.Storage.GetMetadata | src/types/redis_bloom_chain.cc:27-29 | the read returns what `GetMeta` describes |
| Store.Storage.GetSub | src/types/redis_bloom_chain.cc:56 | the read returns what `Get` describes |
| Store.Storage.Write | src/types/redis_bloom_chain.cc:207 | the status and the new engine state are those of `Commit` on the batch's operations |
| Store.WriteBatch.constructor | src/types/redis_bloom_chain.cc:166 | a new batch is empty |
| Store.WriteBatch.PutLogData | src/types/redis_bloom_chain.cc:167-168 | the log tag is appended to the batch and nothing else changes |
| Store.WriteBatch.PutMetadata | src/types/redis_bloom_chain.cc:108 | one metadata put is appended to the batch |
| Store.WriteBatch.Put | src/types/redis_bloom_chain.cc:185 | one sub-filter put is appended to the batch |
| ChainModel.KeysOf | src/types/redis_bloom_chain.cc:38-45 | one key per sub-filter, and key `i` is that of sub-filter `i` |
| ChainModel.HashList | src/types/redis_bloom_chain.cc:63-68 | one hash per item, in the items' order |
| ChainModel.ReadFilters | src/types/redis_bloom_chain.cc:47-61 | on success, one filter per key with each key's stored bytes; on failure, the failed status is that of the first key whose read fails, and every earlier read succeeded |
| ChainModel.FoundNewestFirst | src/types/redis_bloom_chain.cc:172-177 | the newest-first scan reports the hash exactly when some sub-filter finds it |
| ChainModel.Extend | src/types/redis_bloom_chain.cc:183-189 | growth stages the old last filter and the new metadata, keeps all earlier keys and filters, and appends one sub-filter with its key |
| ChainModel.InsertLast | src/types/redis_bloom_chain.cc:195-197 | insertion makes the last sub-filter find the hash, adds one to `size`, leaves the other sub-filters and the batch unchanged, and loses no report |
| ChainModel.Step | src/types/redis_bloom_chain.cc:170-199 | one item is answered `kExist` exactly when some sub-filter finds it, and `kFull` exactly when it is new, the chain is at capacity and does not scale; otherwise it is inserted and found; the chain grows only on an insertion over capacity, and no report is lost |
| ChainModel.AddAll | src/types/redis_bloom_chain.cc:170-199 | the loop gives one answer per item, keeps the chain's identity, and never changes the sub-filter count of a chain that does not scale |
| ChainModel.Finish | src/types/redis_bloom_chain.cc:201-206 | the committed batch extends the staged one, and adds writes exactly when the size changed |
| ChainModel.CreateChain | src/types/redis_bloom_chain.cc:70-94 | creation commits the new metadata and an empty first sub-filter of `bloom_bytes` bytes when the engine accepts writes, and changes nothing otherwise |
| ChainModel.LoadOrCreate | src/types/redis_bloom_chain.cc:147-153 | a stored chain, or a failed metadata read other than `NotFound`, is returned with no write; a missing chain is created with the default error rate, capacity and expansion, which succeeds exactly when writes succeed and then stores its metadata and its empty first sub-filter, changing no other sub-filter; a failure leaves the engine unchanged; a loaded chain has at least one sub-filter |
| ChainModel.AddToChain | src/types/redis_bloom_chain.cc:155-207 | the loop runs exactly when every sub-filter read succeeds, then with one answer per item; a failed read returns that read's status with no answers and the engine unchanged; an OK status always comes with answers |
| ChainModel.InsertItems | src/types/redis_bloom_chain.cc:162-207 | the loop and commit give one answer per item |
| ChainModel.MAddSpec | src/types/redis_bloom_chain.cc:142-208 | one answer per item when the loop ran; OK only with answers; fault settings unchanged; when writes fail, a non-OK status and an unchanged engine; on a stored chain, stopping before the loop writes nothing; a metadata read error is returned with no write |
| ChainModel.CheckAll | src/types/redis_bloom_chain.cc:238-245 | one answer per item |
| ChainModel.AllFalse | src/types/redis_bloom_chain.cc:223 | `std::fill` leaves `n` answers, all false |
| ChainModel.MExistsSpec | src/types/redis_bloom_chain.cc:217-248 | a missing chain answers OK and all false; an error leaves the caller's answers untouched; on OK over a stored chain, item `i` is reported exactly when some stored sub-filter finds its hash; a metadata read error other than `NotFound` is returned as the call's status; on a stored chain the call is OK exactly when every sub-filter read succeeds, and otherwise returns the first failed read's status |
| ChainModel.ReserveSpec | src/types/redis_bloom_chain.cc:121-133 | an existing key gives `InvalidArgument` and no change; OK exactly when the key is absent and writes succeed, and the new chain's metadata and its empty first sub-filter are then stored, with no other sub-filter changed; any error leaves the engine unchanged; the fault settings are kept; a metadata read error other than `NotFound` is returned as the call's status; a missing key on an engine that refuses writes gives an I/O error |
| ChainModel.InfoSpec | src/types/redis_bloom_chain.cc:250-264 | `Info` succeeds exactly when the metadata read succeeds, and otherwise returns that read's status |
| BloomChainEngine.BloomChain.constructor | src/types/redis_bloom_chain.cc:93 | the chain object holds the given engine, library and namespace (its constructor is in the header, which is not part of this model; the engine is the `storage_` used at lines 28, 56 and 93) |
| BloomChainEngine.BloomChain.GetBFKeyList | src/types/redis_bloom_chain.cc:38-45 | the loop builds one key per sub-filter, key `i` for index `i` |
| BloomChainEngine.BloomChain.GetBFDataList | src/types/redis_bloom_chain.cc:47-61 | the loop returns `ReadFilters` of the engine: all filters, or the first failing read's status |
| BloomChainEngine.BloomChain.GetItemHashList | src/types/redis_bloom_chain.cc:63-68 | the loop builds the hash of every item, in order |
| BloomChainEngine.BloomChain.ScanNewestFirst | src/types/redis_bloom_chain.cc:172-177 | the downward scan that stops at the first hit reports the hash exactly when some sub-filter finds it |
| BloomChainEngine.BloomChain.CreateBloomChain | src/types/redis_bloom_chain.cc:70-94 | status, metadata and new engine state are those of `CreateChain` |
| BloomChainEngine.BloomChain.CreateBloomFilterInBatch | src/types/redis_bloom_chain.cc:96-109 | the grown metadata and empty filter are those of `Grow`, and exactly one metadata put is staged |
| BloomChainEngine.BloomChain.Reserve | src/types/redis_bloom_chain.cc:121-133 | status and engine state are those of `ReserveSpec` |
| BloomChainEngine.BloomChain.Add | src/types/redis_bloom_chain.cc:135-140 | `MAdd` of one item; the answer is its result, and `kOk` when the call stopped before the loop |
| BloomChainEngine.BloomChain.AddItem | src/types/redis_bloom_chain.cc:170-199 | one iteration of the item loop computes `Step` |
| BloomChainEngine.BloomChain.MAdd | src/types/redis_bloom_chain.cc:142-208 | status, engine state and answers are those of `MAddSpec`; the answers are untouched when the loop did not run |
| BloomChainEngine.BloomChain.AddItems | src/types/redis_bloom_chain.cc:170-199 | the item loop computes `AddAll` over the hashes, answers in order |
| BloomChainEngine.BloomChain.AddToChain | src/types/redis_bloom_chain.cc:155-207 | the rest of `MAdd` after loading computes `ChainModel.AddToChain` |
| BloomChainEngine.BloomChain.InsertItems | src/types/redis_bloom_chain.cc:162-207 | the loop and the commit compute `ChainModel.InsertItems` |
| BloomChainEngine.BloomChain.StageFinish | src/types/redis_bloom_chain.cc:201-206 | the staged batch becomes `Finish` |
| BloomChainEngine.BloomChain.Exists | src/types/redis_bloom_chain.cc:210-215 | `MExists` of one item with the slot starting `false` |
| BloomChainEngine.BloomChain.MExists | src/types/redis_bloom_chain.cc:217-248 | status and answers are those of `MExistsSpec` on the caller's initial answers |
| BloomChainEngine.BloomChain.CheckItems | src/types/redis_bloom_chain.cc:238-245 | the outer loop fills every slot with `CheckAll` |
| BloomChainEngine.BloomChain.CheckItem | src/types/redis_bloom_chain.cc:241-244 | the inner loop writes the newest-first answer into slot `i`, keeps it when there is no sub-filter, and leaves every other slot alone |
| BloomChainEngine.BloomChain.Info | src/types/redis_bloom_chain.cc:250-264 | the report is `InfoSpec`; success means the metadata read succeeded |
| ChainProperties.CoversTransitive | src/types/redis_bloom_chain.cc:170-199 | "still reports what the old chain reported" is transitive |
| ChainProperties.CoversFound | src/types/redis_bloom_chain.cc:172-177 | a chain that covers another reports every hash the other reports |
| ChainProperties.AddAllCovers | src/types/redis_bloom_chain.cc:170-199 | the item loop never loses a report any sub-filter gave before it |
| ChainProperties.AddAllSnoc | src/types/redis_bloom_chain.cc:170-199 | one more item is one more loop step on the state the earlier items left |
| ChainProperties.ItemResult | src/types/redis_bloom_chain.cc:170-199 | answer `i` is the outcome of the loop body on the chain the first `i` items left |
| ChainProperties.ItemOutcome | src/types/redis_bloom_chain.cc:172-197 | answer `i` is `kExist`, `kFull` or `kOk` exactly under the conditions the loop body tests, on the chain the first `i` items left |
| ChainProperties.StepReports | src/types/redis_bloom_chain.cc:180-197 | one iteration keeps every report and reports its own item unless it answered `kFull` |
| ChainProperties.NoFalseNegatives | src/types/redis_bloom_chain.cc:170-199 | after the loop, every item not answered `kFull` is reported by the chain |
| ChainProperties.RepeatedItemExists | src/types/redis_bloom_chain.cc:170-199 | an item repeated within one `MAdd` is answered `kExist` the second time unless the first was `kFull` |
| ChainProperties.PrefixAnswer | src/types/redis_bloom_chain.cc:170-199 | an answer does not depend on the items after it |
| ChainProperties.SizeCountsInserted | src/types/redis_bloom_chain.cc:195-197 | the loop adds to `size` exactly the number of `kOk` answers |
| ChainProperties.NoInsertNoChange | src/types/redis_bloom_chain.cc:201-206 | when `size` did not change, the loop changed nothing: metadata, keys, filters and batch are as before |
| ChainProperties.StepWithinCapacity | src/types/redis_bloom_chain.cc:183-197 | with a positive base capacity, one iteration keeps `size` within the capacity |
| ChainProperties.SizeWithinCapacity | src/types/redis_bloom_chain.cc:170-199 | with a positive base capacity, the loop keeps `size` within the capacity |
| ChainProperties.ApplyBatchOthers | src/types/redis_bloom_chain.cc:207 | a batch confined to one chain leaves every other chain's metadata and sub-filters as they were |
| ChainProperties.AddAllOnlyTouches | src/types/redis_bloom_chain.cc:185-189 | every write the loop stages belongs to its own chain |
| ChainProperties.StepOnlyTouches | src/types/redis_bloom_chain.cc:185-189 | every write one iteration stages belongs to its own chain |
| ChainProperties.StepStaged | src/types/redis_bloom_chain.cc:183-197 | after one iteration, the staged batch still stores every sub-filter except the last |
| ChainProperties.ExtendStaged | src/types/redis_bloom_chain.cc:185-189 | growth keeps the staged batch storing every sub-filter except the new last one |
| ChainProperties.AddAllStaged | src/types/redis_bloom_chain.cc:170-199 | after the loop, the staged batch stores every sub-filter except the last |
| ChainModel.StartWork | src/types/redis_bloom_chain.cc:155-168 | the loop starts with the loaded metadata, the read filters, matching keys and a batch holding only the log tag |
| ChainProperties.FinishStores | src/types/redis_bloom_chain.cc:201-206 | the two final puts complete the staged batch, so the engine then stores the chain's metadata and every sub-filter |
| ChainProperties.InsertItemsStores | src/types/redis_bloom_chain.cc:162-207 | after a successful commit, the engine holds exactly the chain the loop built |
| ChainProperties.LoadedHolds | src/types/redis_bloom_chain.cc:147-160 | the chain the loop starts from is the one stored |
| ChainProperties.ReadFiltersAll | src/types/redis_bloom_chain.cc:47-61 | reading every key of a fully stored, readable chain returns its filters |
| ChainProperties.ExistsOnStoredChain | src/types/redis_bloom_chain.cc:217-248 | `MExists` on a stored, readable chain answers OK, with the newest-first check of every item against its sub-filters |
| ChainProperties.AddThenExists | src/types/redis_bloom_chain.cc:142-248 | after a successful `MAdd` on a readable engine, `MExists` of the same items answers OK and reports every item that was not refused |
| ChainProperties.InsertItemsOthers | src/types/redis_bloom_chain.cc:162-207 | the loop and commit change no other chain's metadata or sub-filters |
| ChainProperties.MAddOtherChains | src/types/redis_bloom_chain.cc:142-208 | `MAdd` changes no other chain's metadata or sub-filters, whether or not it succeeds |
| ChainProperties.MAddKeepsWellFormed | src/types/redis_bloom_chain.cc:142-208 | `MAdd` leaves the chain with at least one sub-filter |
| ChainProperties.MAddKeepsCreatedChain | src/types/redis_bloom_chain.cc:147-160 | a chain `MAdd` creates on a missing key stays stored with the default capacity, expansion and error rate, whatever the status of the call |
| ChainProperties.MAddFailsAfterCreate | src/types/redis_bloom_chain.cc:150-160 | a concrete engine where the new first sub-filter is unreadable: `MAdd` fails with an I/O error and the created chain remains |
| ChainProperties.ReserveThenInfo | src/types/redis_bloom_chain.cc:121-133 | after a successful `Reserve`, `Info` reports the requested capacity, the library's size for it, one filter, size 0 and the requested expansion |
| ChainProperties.Fresh | src/types/redis_bloom_chain.cc:155-168 | a chain of one empty sub-filter is a valid loop state |
| ChainProperties.ScalingFirstTwo | src/types/redis_bloom_chain.cc:170-199 | a scaling chain of base capacity 2 inserts two new items into its first sub-filter |
| ChainProperties.ScalingChainGrows | src/types/redis_bloom_chain.cc:183-189 | the same chain grows on a third new item: three `kOk`, two sub-filters, size 3, capacity 6 |
| ChainProperties.FixedFirst | src/types/redis_bloom_chain.cc:195-197 | a chain that does not scale, with capacity 1, inserts one item |
| ChainProperties.FixedFirstTwo | src/types/redis_bloom_chain.cc:180-181 | the same chain answers `kExist` for a repeat and stores nothing new |
| ChainProperties.FixedChainSaturates | src/types/redis_bloom_chain.cc:190-193 | a new item after that is refused: `kOk`, `kExist`, `kFull`; one sub-filter, size 1 |

Some definitions have no contract of their own. The members above describe
them:
- `Filters.Find`: `bloomCheck`, lines 116-119.
- `ChainMeta.IsScaling`: `IsScaling()`, line 184.
- `ChainMeta.Capacity`, `ChainMeta.GeometricCapacity` and `ChainMeta.Pow`:
  `GetCapacity()` and `pow`, lines 99 and 183.
- `ChainModel.SubKeyOf`: `getBFKey`, lines 31-36.
- `ChainModel.CreateBatch`: the batch of `createBloomChain`, lines 82-91.
- `BloomChainEngine.BloomChain.NsKeyOf`: `AppendNamespacePrefix`, lines 122, 144,
  218 and 251.
- `Store.ApplyOp`: one put of a batch.
- `ChainModel.CountInserted`: the number of `kOk` answers.

`ChainMeta.PowPositive` is an arithmetic helper for the capacity lemmas.

## Left out

- Locking (`LockGuard`) and read snapshots are not modelled: every call runs alone
  on a consistent engine state.
- The block-split filter library is not part of this model. Its hash,
  `OptimalNumOfBytes` and the bit positions a hash sets are arbitrary functions
  supplied as a `BlockSplit` value. The filter's byte layout is not modelled, only
  its length and the set of bits that are set.
- The error rate is a `real`, not a `double`. The truncating
  `static_cast<uint32_t>` of `base_capacity * pow(expansion, n_filters)` is not
  modelled: the product is exact.
- The integer widths are not modelled: `uint16_t` for `n_filters`, the expansion
  and the sub-filter index, `uint32_t` for the capacity and the byte sizes,
  `uint64_t` for `size`. A chain long enough to wrap the 16-bit index is outside
  the model.
- The encodings of the metadata record, the sub-filter key (`PutFixed16`,
  `InternalKey`, slot-id encoding) and the log data are not modelled. They are
  datatypes, so different keys stay different.
- Statuses are reduced to three codes: `NotFound`, `InvalidArgument` and I/O
  error. Messages are not modelled.
- Engine faults are fixed for a whole call: a set of unreadable keys, and whether
  commits fail. So the model cannot express an `MAdd` on a missing key whose
  creation commit succeeds and whose insertion commit then fails, although the
  source can reach that state: a created chain with a non-OK status. The state it
  can express, a created chain whose sub-filter read then fails, is shown by
  `MAddKeepsCreatedChain` and `MAddFailsAfterCreate`.
- The header `redis_bloom_chain.h` and the metadata type are not part of this
  model, so two things are assumed from them:
  - the defaults `kBFDefaultErrorRate` 0.01, `kBFDefaultInitCapacity` 100 and
    `kBFDefaultExpansion` 2;
  - `GetCapacity()` as the geometric sum for a scaling chain and the base
    capacity otherwise.
- The version of a chain created by `Reserve` or `MAdd` is generated from the
  clock in the source. Here it is a parameter.
- `Database::GetMetadata` is modelled as a plain map lookup. Expiry and type
  checks on the metadata are not part of this model.
- BloomChainEngine.BloomChain.MAdd: it requires that a stored chain has at least
  one sub-filter (`WellFormedAt`). With zero sub-filters the source can read
  `bf_data_list.back()` of an empty vector, which is undefined behaviour, as soon
  as an item is inserted or the chain grows. An empty item list, or a chain that
  does not scale and is already at capacity, never reaches it; the model excludes
  those harmless cases too. Every
  chain the source creates has one sub-filter, and `MAddKeepsWellFormed` shows
  that `MAdd` keeps this.
- BloomChainEngine.BloomChain.Add: it carries the same requirement as `MAdd`.
- ChainModel.MAddSpec: it carries the same requirement (`WellFormedAt`) as `MAdd`.
- ChainModel.LoadOrCreate: it carries the same requirement (`WellFormedAt`) as `MAdd`.
- ChainProperties.SizeWithinCapacity: it assumes a base capacity of at least 1.
  With base capacity 0, a scaling chain grows by an empty share and `size`
  exceeds the capacity.
- ChainProperties.AddThenExists: it assumes that every key is readable, because
  a failing read would make `MExists` return an error.
