/** What each operation of the chain computes, written as functions of the
    engine state.  The methods of `BloomChainEngine.BloomChain` are proved to
    do exactly this, and `ChainProperties` proves what it guarantees. */
module ChainModel {
  import opened Filters
  import opened ChainMeta
  import opened Store

  /** The replication tags of the two kinds of batch. */
  const CreateTag: string := "createBloomChain"
  const InsertTag: string := "insert"

  /** Per-item outcome of an insertion (`kOk`, `kExist`, `kFull`). */
  datatype AddResult = Inserted | Exist | Full

  /** What `Info` reports. */
  datatype BloomInfo = BloomInfo(capacity: nat, bloomBytes: nat, nFilters: nat, size: nat, expansion: nat)

  /** `getBFKey`: the storage key of sub-filter `index` of the chain. */
  function SubKeyOf(ns: NsKey, m: ChainMetadata, index: nat): SubKey
  {
    SubKey(ns, m.version, index)
  }

  /** The key list `getBFKeyList` builds, oldest sub-filter first. */
  function KeysOf(ns: NsKey, m: ChainMetadata): (keys: seq<SubKey>)
    ensures |keys| == m.nFilters
    ensures forall i :: 0 <= i < |keys| ==> keys[i] == SubKeyOf(ns, m, i)
  {
    seq(m.nFilters, i requires 0 <= i < m.nFilters => SubKeyOf(ns, m, i))
  }

  /** The hash list `getItemHashList` builds. */
  function HashList(lib: BlockSplit, items: seq<Bytes>): (hs: seq<Hash>)
    ensures |hs| == |items|
    ensures forall i :: 0 <= i < |items| ==> hs[i] == lib.hash(items[i])
  {
    if items == [] then [] else HashList(lib, items[..|items| - 1]) + [lib.hash(items[|items| - 1])]
  }

  /** `getBFDataList`: every key read in order; the first failed read is the
      result, and then no buffer at all is returned. */
  function ReadFilters(db: Db, keys: seq<SubKey>): (r: Result<seq<Filter>>)
    ensures r.Success? ==> |r.value| == |keys|
    ensures r.Success? ==> forall i :: 0 <= i < |keys| ==> Get(db, keys[i]) == Success(r.value[i])
    ensures r.Failure? ==> exists j :: 0 <= j < |keys| && Get(db, keys[j]) == Failure(r.code) &&
                                       forall k :: 0 <= k < j ==> Get(db, keys[k]).Success?
  {
    if keys == [] then Success([])
    else
      var front := keys[..|keys| - 1];
      match ReadFilters(db, front)
      case Failure(c) => Failure(c)
      case Success(prefix) =>
        match Get(db, keys[|keys| - 1])
        case Failure(c) => Failure(c)
        case Success(f) => Success(prefix + [f])
  }

  /** The existence check: the sub-filters are asked newest first and the
      scan stops at the first one that reports the hash. */
  function FoundNewestFirst(lib: BlockSplit, data: seq<Filter>, h: Hash): (b: bool)
    ensures b <==> exists i :: 0 <= i < |data| && Find(lib, data[i], h)
  {
    if data == [] then false
    else Find(lib, data[|data| - 1], h) || FoundNewestFirst(lib, data[..|data| - 1], h)
  }

  /** Filters `b` still report every hash the filters `a` report, index by index. */
  ghost predicate Covers(lib: BlockSplit, a: seq<Filter>, b: seq<Filter>)
  {
    |a| <= |b| &&
    forall j, h :: 0 <= j < |a| && Find(lib, a[j], h) ==> Find(lib, b[j], h)
  }

  /** The state `MAdd` works on while it goes through the items: the metadata,
      the parallel key and filter lists, and the batch staged so far. */
  datatype Work = Work(meta: ChainMetadata, keys: seq<SubKey>, data: seq<Filter>, batch: seq<BatchOp>)

  /** Key list and filter list both have one entry per sub-filter, and key `i`
      is the key of sub-filter `i`. */
  ghost predicate Valid(ns: NsKey, w: Work)
  {
    w.meta.nFilters >= 1 && |w.keys| == w.meta.nFilters && |w.data| == w.meta.nFilters &&
    forall i :: 0 <= i < |w.keys| ==> w.keys[i] == SubKeyOf(ns, w.meta, i)
  }

  /** The growth branch of `MAdd`: stage the current last filter, append a
      sub-filter (`createBloomFilterInBatch`, which stages the metadata), and
      append its key and its empty bytes to the two lists. */
  function Extend(lib: BlockSplit, ns: NsKey, w: Work): (r: Work)
    requires Valid(ns, w)
    ensures Valid(ns, r) && SameChain(w.meta, r.meta) && r.meta.size == w.meta.size
    ensures r.meta.nFilters == w.meta.nFilters + 1
    ensures r.data[..|w.data|] == w.data && r.keys[..|w.keys|] == w.keys
    ensures r.batch == w.batch + [PutSub(w.keys[|w.keys| - 1], w.data[|w.data| - 1]), PutMeta(ns, r.meta)]
  {
    var n := |w.data|;
    var (grown, empty) := Grow(lib, w.meta);
    var staged := w.batch + [PutSub(w.keys[n - 1], w.data[n - 1]), PutMeta(ns, grown)];
    Work(grown, w.keys + [SubKeyOf(ns, grown, grown.nFilters - 1)], w.data + [empty], staged)
  }

  /** The insertion of `MAdd`: `bloomAdd` into the last sub-filter, and one
      more item in `size`. */
  function InsertLast(lib: BlockSplit, ns: NsKey, w: Work, h: Hash): (r: Work)
    requires Valid(ns, w)
    ensures Valid(ns, r) && SameChain(w.meta, r.meta) && r.meta.nFilters == w.meta.nFilters
    ensures r.meta.size == w.meta.size + 1 && r.batch == w.batch && r.keys == w.keys
    ensures Find(lib, r.data[|r.data| - 1], h)
    ensures r.data[..|w.data| - 1] == w.data[..|w.data| - 1]
    ensures Covers(lib, w.data, r.data)
  {
    var n := |w.data|;
    w.(meta := w.meta.(size := w.meta.size + 1), data := w.data[n - 1 := Insert(lib, w.data[n - 1], h)])
  }

  /** The body of the insertion loop of `MAdd` for one item hash. */
  function Step(lib: BlockSplit, ns: NsKey, w: Work, h: Hash): (r: (Work, AddResult))
    requires Valid(ns, w)
    ensures Valid(ns, r.0) && SameChain(w.meta, r.0.meta)
    ensures r.1 == Exist <==> FoundNewestFirst(lib, w.data, h)
    ensures r.1 == Full <==>
              !FoundNewestFirst(lib, w.data, h) && w.meta.size + 1 > Capacity(w.meta) && !IsScaling(w.meta)
    ensures r.1 != Inserted ==> r.0 == w
    ensures r.1 == Inserted ==> r.0.meta.size == w.meta.size + 1 && Find(lib, r.0.data[|r.0.data| - 1], h)
    ensures r.0.meta.nFilters ==
              w.meta.nFilters + (if r.1 == Inserted && w.meta.size + 1 > Capacity(w.meta) then 1 else 0)
    ensures Covers(lib, w.data, r.0.data)
  {
    if FoundNewestFirst(lib, w.data, h) then (w, Exist)
    else if w.meta.size + 1 > Capacity(w.meta) then
      if IsScaling(w.meta) then
        var grown := Extend(lib, ns, w);
        assert Covers(lib, w.data, grown.data);
        (InsertLast(lib, ns, grown, h), Inserted)
      else
        (w, Full)
    else
      (InsertLast(lib, ns, w, h), Inserted)
  }

  /** The insertion loop of `MAdd` over all item hashes, in order. */
  function AddAll(lib: BlockSplit, ns: NsKey, w: Work, hs: seq<Hash>): (r: (Work, seq<AddResult>))
    requires Valid(ns, w)
    ensures Valid(ns, r.0) && |r.1| == |hs|
    ensures SameChain(w.meta, r.0.meta) && r.0.meta.nFilters >= w.meta.nFilters
    ensures !IsScaling(w.meta) ==> r.0.meta.nFilters == w.meta.nFilters
    decreases |hs|
  {
    if hs == [] then (w, [])
    else
      var (mid, rets) := AddAll(lib, ns, w, hs[..|hs| - 1]);
      var (next, last) := Step(lib, ns, mid, hs[|hs| - 1]);
      (next, rets + [last])
  }

  function CountInserted(rs: seq<AddResult>): nat
  {
    if rs == [] then 0
    else CountInserted(rs[..|rs| - 1]) + (if rs[|rs| - 1] == Inserted then 1 else 0)
  }

  /** The batch `MAdd` commits: the staged writes, followed by the final
      metadata and last filter only when the size changed. */
  function Finish(ns: NsKey, w: Work, originSize: nat): (ops: seq<BatchOp>)
    requires Valid(ns, w)
    ensures |ops| >= |w.batch| && ops[..|w.batch|] == w.batch
    ensures ops == w.batch <==> w.meta.size == originSize
  {
    if w.meta.size != originSize then
      w.batch + [PutMeta(ns, w.meta), PutSub(w.keys[|w.keys| - 1], w.data[|w.data| - 1])]
    else w.batch
  }

  /** The batch of `createBloomChain`. */
  function CreateBatch(ns: NsKey, m: ChainMetadata, f: Filter): seq<BatchOp>
    requires m.nFilters >= 1
  {
    [LogData(CreateTag), PutMeta(ns, m), PutSub(SubKeyOf(ns, m, m.nFilters - 1), f)]
  }

  /** `createBloomChain`: the new metadata, and the engine after committing
      its batch (the status says whether the commit succeeded). */
  function CreateChain(lib: BlockSplit, db: Db, ns: NsKey, errorRate: real, capacity: nat, expansion: nat,
                       version: nat): (r: (Status, ChainMetadata, Db))
    ensures r.1 == NewChainMetadata(lib, errorRate, capacity, expansion, version)
    ensures r.0 == OK <==> !db.writeFails
    ensures r.0 == OK ==> r.2.metadata == db.metadata[ns := r.1]
    ensures r.0 == OK ==> r.2.subkeys == db.subkeys[SubKey(ns, version, 0) := New(r.1.bloomBytes)]
    ensures r.2.unreadable == db.unreadable && r.2.writeFails == db.writeFails
    ensures r.0 != OK ==> r.2 == db
  {
    var m := NewChainMetadata(lib, errorRate, capacity, expansion, version);
    var ops := CreateBatch(ns, m, New(m.bloomBytes));
    assert ops[..2][..1] == ops[..1] && ops[..1][..0] == [];
    assert ApplyBatch(db, ops[..1]) == db;
    assert ApplyBatch(db, ops[..2]) == ApplyOp(db, ops[1]);
    var (s, db') := Commit(db, ops);
    (s, m, db')
  }

  /** A stored chain has at least one sub-filter (the code reads the last
      filter of the list unconditionally). */
  ghost predicate WellFormedAt(db: Db, ns: NsKey)
  {
    ns in db.metadata ==> db.metadata[ns].nFilters >= 1
  }

  /** The first step of `MAdd`: read the metadata, or create a chain with
      the default parameters when there is none. */
  function LoadOrCreate(lib: BlockSplit, db: Db, ns: NsKey, version: nat): (r: (Result<ChainMetadata>, Db))
    requires WellFormedAt(db, ns)
    ensures r.0.Success? ==> r.0.value.nFilters >= 1
    ensures r.0.Success? ==> ns in r.1.metadata && r.1.metadata[ns] == r.0.value
    ensures r.1.unreadable == db.unreadable && r.1.writeFails == db.writeFails
    ensures GetMeta(db, ns) != Failure(NotFound) ==> r == (GetMeta(db, ns), db)
    ensures r.0.Failure? ==> r.1 == db
    ensures GetMeta(db, ns) == Failure(NotFound) ==>
              (r.0.Success? <==> !db.writeFails) &&
              (r.0.Success? ==> r.0.value == NewChainMetadata(lib, DefaultErrorRate, DefaultInitCapacity,
                                                              DefaultExpansion, version) &&
                                r.1.metadata == db.metadata[ns := r.0.value])
    ensures GetMeta(db, ns) == Failure(NotFound) && r.0.Success? ==>
              r.1.subkeys == db.subkeys[SubKey(ns, version, 0) := New(r.0.value.bloomBytes)]
  {
    var got := GetMeta(db, ns);
    if got.Failure? && got.code == NotFound then
      var (s, m, db') := CreateChain(lib, db, ns, DefaultErrorRate, DefaultInitCapacity, DefaultExpansion, version);
      (if s == OK then Success(m) else Failure(s.code), db')
    else (got, db)
  }

  /** The part of `MAdd` after the chain is loaded: read every sub-filter,
      run the item loop, and commit one batch. */
  function AddToChain(lib: BlockSplit, db: Db, ns: NsKey, m: ChainMetadata, items: seq<Bytes>)
    : (r: (Status, Option<seq<AddResult>>, Db))
    requires m.nFilters >= 1
    ensures r.1.Some? ==> |r.1.value| == |items|
    ensures r.0 == OK ==> r.1.Some?
    ensures r.1.None? <==> ReadFilters(db, KeysOf(ns, m)).Failure?
    ensures r.1.None? ==> r == (Err(ReadFilters(db, KeysOf(ns, m)).code), None, db)
  {
    var read := ReadFilters(db, KeysOf(ns, m));
    if read.Failure? then (Err(read.code), None, db)
    else
      var (s, rets, db2) := InsertItems(lib, db, ns, m, read.value, items);
      (s, Some(rets), db2)
  }

  /** The state the item loop of `MAdd` starts from: the loaded metadata,
      its keys, the filters read, and a batch holding only the log record. */
  function StartWork(ns: NsKey, m: ChainMetadata, data: seq<Filter>): (w: Work)
    requires m.nFilters >= 1 && |data| == m.nFilters
    ensures Valid(ns, w) && w.meta == m && w.data == data && w.batch == [LogData(InsertTag)]
  {
    Work(m, KeysOf(ns, m), data, [LogData(InsertTag)])
  }

  /** The item loop of `MAdd` over the sub-filters `data` it read, and the
      commit of its batch. */
  function InsertItems(lib: BlockSplit, db: Db, ns: NsKey, m: ChainMetadata, data: seq<Filter>, items: seq<Bytes>)
    : (r: (Status, seq<AddResult>, Db))
    requires m.nFilters >= 1 && |data| == m.nFilters
    ensures |r.1| == |items|
  {
    var (w, rets) := AddAll(lib, ns, StartWork(ns, m, data), HashList(lib, items));
    var (s, db2) := Commit(db, Finish(ns, w, m.size));
    (s, rets, db2)
  }

  /** `MAdd`: the status, the per-item results (`None` when the call stopped
      before the insertion loop and so wrote none), and the engine after it. */
  function MAddSpec(lib: BlockSplit, db: Db, ns: NsKey, version: nat, items: seq<Bytes>)
    : (r: (Status, Option<seq<AddResult>>, Db))
    requires WellFormedAt(db, ns)
    ensures r.1.Some? ==> |r.1.value| == |items|
    ensures r.0 == OK ==> r.1.Some?
    ensures r.2.unreadable == db.unreadable && r.2.writeFails == db.writeFails
    ensures db.writeFails ==> r.0 != OK && r.2 == db
    ensures GetMeta(db, ns).Success? && r.1.None? ==> r.2 == db
    ensures GetMeta(db, ns).Failure? && GetMeta(db, ns).code != NotFound ==> r == (Err(GetMeta(db, ns).code), None, db)
  {
    var (loaded, db1) := LoadOrCreate(lib, db, ns, version);
    if loaded.Failure? then (Err(loaded.code), None, db1)
    else AddToChain(lib, db1, ns, loaded.value, items)
  }

  /** The answers of the existence loop of `MExists`; with no sub-filter at
      all the loop writes nothing and the caller's value stays. */
  function CheckAll(lib: BlockSplit, data: seq<Filter>, hs: seq<Hash>, init: seq<bool>): (r: seq<bool>)
    requires |init| == |hs|
    ensures |r| == |hs|
  {
    seq(|hs|, i requires 0 <= i < |hs| => if data == [] then init[i] else FoundNewestFirst(lib, data, hs[i]))
  }

  /** What `std::fill` leaves in an answer vector of length `n`. */
  function AllFalse(n: nat): (r: seq<bool>)
    ensures |r| == n && forall i :: 0 <= i < n ==> !r[i]
  {
    if n == 0 then [] else AllFalse(n - 1) + [false]
  }

  /** `MExists`: the status and the contents of the caller's answer vector,
      which held `init` before the call. */
  function MExistsSpec(lib: BlockSplit, db: Db, ns: NsKey, items: seq<Bytes>, init: seq<bool>)
    : (r: (Status, seq<bool>))
    requires |init| == |items|
    ensures |r.1| == |items|
    ensures GetMeta(db, ns) == Failure(NotFound) ==> r.0 == OK && forall i :: 0 <= i < |items| ==> !r.1[i]
    ensures r.0 != OK ==> r.1 == init
    ensures GetMeta(db, ns).Failure? && GetMeta(db, ns).code != NotFound ==> r == (Err(GetMeta(db, ns).code), init)
    ensures GetMeta(db, ns).Success? ==>
              (r.0 == OK <==> ReadFilters(db, KeysOf(ns, db.metadata[ns])).Success?) &&
              (r.0 != OK ==> r.0 == Err(ReadFilters(db, KeysOf(ns, db.metadata[ns])).code))
    ensures r.0 == OK && ns in db.metadata && db.metadata[ns].nFilters >= 1 ==>
              forall i :: 0 <= i < |items| ==>
                (r.1[i] <==> exists j :: 0 <= j < db.metadata[ns].nFilters &&
                                         SubKeyOf(ns, db.metadata[ns], j) in db.subkeys &&
                                         Find(lib, db.subkeys[SubKeyOf(ns, db.metadata[ns], j)], lib.hash(items[i])))
  {
    var got := GetMeta(db, ns);
    if got.Failure? && got.code == NotFound then (OK, AllFalse(|items|))
    else if got.Failure? then (Err(got.code), init)
    else
      var read := ReadFilters(db, KeysOf(ns, got.value));
      if read.Failure? then (Err(read.code), init)
      else (OK, CheckAll(lib, read.value, HashList(lib, items), init))
  }

  /** `Reserve`: the status and the engine after it. */
  function ReserveSpec(lib: BlockSplit, db: Db, ns: NsKey, capacity: nat, errorRate: real, expansion: nat,
                       version: nat): (r: (Status, Db))
    ensures GetMeta(db, ns).Success? ==> r == (Err(InvalidArgument), db)
    ensures GetMeta(db, ns).Failure? && GetMeta(db, ns).code != NotFound ==> r == (Err(GetMeta(db, ns).code), db)
    ensures GetMeta(db, ns) == Failure(NotFound) && db.writeFails ==> r.0 == Err(IOError)
    ensures r.0 == OK <==> GetMeta(db, ns) == Failure(NotFound) && !db.writeFails
    ensures r.0 != OK ==> r.1 == db
    ensures r.0 == OK ==>
              r.1.metadata == db.metadata[ns := NewChainMetadata(lib, errorRate, capacity, expansion, version)]
    ensures r.0 == OK ==>
              r.1.subkeys ==
              db.subkeys[SubKey(ns, version, 0) := New(NewChainMetadata(lib, errorRate, capacity, expansion, version).bloomBytes)]
    ensures r.1.unreadable == db.unreadable && r.1.writeFails == db.writeFails
  {
    var got := GetMeta(db, ns);
    if got.Failure? && got.code != NotFound then (Err(got.code), db)
    else if got.Success? then (Err(InvalidArgument), db)
    else
      var (s, _, db') := CreateChain(lib, db, ns, errorRate, capacity, expansion, version);
      (s, db')
  }

  /** `Info`. */
  function InfoSpec(db: Db, ns: NsKey): (r: Result<BloomInfo>)
    ensures r.Success? <==> GetMeta(db, ns).Success?
    ensures r.Failure? ==> GetMeta(db, ns) == Failure(r.code)
  {
    match GetMeta(db, ns)
    case Failure(c) => Failure(c)
    case Success(m) => Success(BloomInfo(Capacity(m), m.bloomBytes, m.nFilters, m.size, m.expansion))
  }
}
