/** The chain engine (`redis::BloomChain`): each method is the source's
    operation, step by step, and its postcondition says it computes what the
    corresponding function of `ChainModel` describes.  Locking and read
    snapshots are left out: every call runs alone. */
module BloomChainEngine {
  import opened Filters
  import opened ChainMeta
  import opened Store
  import opened ChainModel

  class BloomChain {
    const storage: Storage
    const lib: BlockSplit
    const namespace: string

    constructor (storage: Storage, lib: BlockSplit, namespace: string)
      ensures this.storage == storage && this.lib == lib && this.namespace == namespace
    {
      this.storage := storage;
      this.lib := lib;
      this.namespace := namespace;
    }

    /** `AppendNamespacePrefix`. */
    function NsKeyOf(userKey: Bytes): NsKey
    {
      NsKey(namespace, userKey)
    }

    /** `getBFKeyList`: one key per sub-filter, index `i` at position `i`. */
    method GetBFKeyList(ns: NsKey, m: ChainMetadata) returns (keys: seq<SubKey>)
      ensures |keys| == m.nFilters
      ensures forall i :: 0 <= i < |keys| ==> keys[i] == SubKeyOf(ns, m, i)
      ensures keys == KeysOf(ns, m)
    {
      keys := [];
      for i := 0 to m.nFilters
        invariant |keys| == i
        invariant forall j :: 0 <= j < i ==> keys[j] == SubKeyOf(ns, m, j)
      {
        keys := keys + [SubKeyOf(ns, m, i)];
      }
    }

    /** `getBFDataList`: reads the keys in order and stops at the first
        failed read, whose status it returns. */
    method GetBFDataList(keys: seq<SubKey>) returns (r: Result<seq<Filter>>)
      ensures r == ReadFilters(storage.View(), keys)
    {
      var data: seq<Filter> := [];
      for i := 0 to |keys|
        invariant |data| == i
        invariant forall j :: 0 <= j < i ==> Get(storage.View(), keys[j]) == Success(data[j])
      {
        var got := storage.GetSub(keys[i]);
        if got.Failure? {
          ghost var expected := ReadFilters(storage.View(), keys);
          assert expected.Failure?;
          ghost var j :| 0 <= j < |keys| && Get(storage.View(), keys[j]) == Failure(expected.code) &&
                         forall k :: 0 <= k < j ==> Get(storage.View(), keys[k]).Success?;
          assert j == i;
          return Failure(got.code);
        }
        data := data + [got.value];
      }
      r := Success(data);
      ghost var expected := ReadFilters(storage.View(), keys);
      assert expected.Success?;
      assert expected.value == data;
    }

    /** `getItemHashList`: the hash of every item, in order. */
    method GetItemHashList(items: seq<Bytes>) returns (hs: seq<Hash>)
      ensures |hs| == |items|
      ensures forall i :: 0 <= i < |items| ==> hs[i] == lib.hash(items[i])
      ensures hs == HashList(lib, items)
    {
      hs := [];
      for i := 0 to |items|
        invariant |hs| == i
        invariant forall j :: 0 <= j < i ==> hs[j] == lib.hash(items[j])
      {
        hs := hs + [lib.hash(items[i])];
      }
      assert hs == HashList(lib, items);
    }

    /** The existence check of `MAdd`: asks the sub-filters newest first and
        stops at the first that reports the hash. */
    method ScanNewestFirst(data: seq<Filter>, h: Hash) returns (exist: bool)
      ensures exist <==> exists i :: 0 <= i < |data| && Find(lib, data[i], h)
      ensures exist == FoundNewestFirst(lib, data, h)
    {
      exist := false;
      assert data[..|data|] == data;
      for ii := |data| downto 0
        invariant !exist
        invariant FoundNewestFirst(lib, data, h) == FoundNewestFirst(lib, data[..ii], h)
      {
        assert data[..ii + 1][..ii] == data[..ii];
        exist := Find(lib, data[ii], h);
        if exist {
          break;
        }
      }
    }

    /** `createBloomChain`: builds the metadata of a one-filter chain and
        commits it together with the empty first sub-filter. */
    method CreateBloomChain(ns: NsKey, errorRate: real, capacity: nat, expansion: nat, version: nat)
      returns (s: Status, m: ChainMetadata)
      modifies storage
      ensures (s, m, storage.View()) == CreateChain(lib, old(storage.View()), ns, errorRate, capacity, expansion, version)
    {
      m := NewChainMetadata(lib, errorRate, capacity, expansion, version);
      var filter := New(m.bloomBytes);
      var batch := new WriteBatch();
      batch.PutLogData(CreateTag);
      batch.PutMetadata(ns, m);
      batch.Put(SubKeyOf(ns, m, m.nFilters - 1), filter);
      assert batch.ops == CreateBatch(ns, m, filter);
      s := storage.Write(batch);
    }

    /** `createBloomFilterInBatch`: grows the metadata by one sub-filter,
        stages the new metadata, and hands back the new empty filter. */
    method CreateBloomFilterInBatch(ns: NsKey, m: ChainMetadata, batch: WriteBatch)
      returns (grown: ChainMetadata, bfData: Filter)
      modifies batch
      ensures (grown, bfData) == Grow(lib, m)
      ensures batch.ops == old(batch.ops) + [PutMeta(ns, grown)]
    {
      grown, bfData := Grow(lib, m).0, Grow(lib, m).1;
      batch.PutMetadata(ns, grown);
    }

    /** `Reserve`: refuses a key that already holds a chain. */
    method Reserve(userKey: Bytes, capacity: nat, errorRate: real, expansion: nat, version: nat)
      returns (s: Status)
      modifies storage
      ensures (s, storage.View()) ==
              ReserveSpec(lib, old(storage.View()), NsKeyOf(userKey), capacity, errorRate, expansion, version)
    {
      var ns := NsKeyOf(userKey);
      var got := storage.GetMetadata(ns);
      if got.Failure? && got.code != NotFound {
        return Err(got.code);
      }
      if got.Success? {
        return Err(InvalidArgument);
      }
      var m;
      s, m := CreateBloomChain(ns, errorRate, capacity, expansion, version);
    }

    /** `Add`: `MAdd` of one item; the result slot starts as `Inserted`. */
    method Add(userKey: Bytes, item: Bytes, version: nat) returns (s: Status, ret: AddResult)
      requires WellFormedAt(storage.View(), NsKeyOf(userKey))
      modifies storage
      ensures var r := MAddSpec(lib, old(storage.View()), NsKeyOf(userKey), version, [item]);
              s == r.0 && storage.View() == r.2 && ret == (if r.1.Some? then r.1.value[0] else Inserted)
    {
      var tmp := new AddResult[1](_ => Inserted);
      s := MAdd(userKey, [item], tmp, version);
      ret := tmp[0];
    }

    /** The body of the item loop of `MAdd` for one item hash: the
        newest-first check, then growth or saturation, then the insertion. */
    method AddItem(ns: NsKey, metadata: ChainMetadata, keys: seq<SubKey>, data: seq<Filter>, batch: WriteBatch,
                   h: Hash)
      returns (metadata': ChainMetadata, keys': seq<SubKey>, data': seq<Filter>, ret: AddResult)
      requires Valid(ns, Work(metadata, keys, data, batch.ops))
      modifies batch
      ensures (Work(metadata', keys', data', batch.ops), ret) == Step(lib, ns, Work(metadata, keys, data, old(batch.ops)), h)
    {
      ghost var before := Work(metadata, keys, data, batch.ops);
      metadata', keys', data' := metadata, keys, data;
      // check, newest sub-filter first
      var exist := ScanNewestFirst(data, h);
      // insert
      if exist {
        return metadata', keys', data', Exist;
      }
      if metadata'.size + 1 > Capacity(metadata') {
        if IsScaling(metadata') {
          batch.Put(keys'[|keys'| - 1], data'[|data'| - 1]);
          var bfData;
          metadata', bfData := CreateBloomFilterInBatch(ns, metadata', batch);
          data' := data' + [bfData];
          keys' := keys' + [SubKeyOf(ns, metadata', metadata'.nFilters - 1)];
          assert Work(metadata', keys', data', batch.ops) == Extend(lib, ns, before);
        } else {
          return metadata', keys', data', Full;
        }
      }
      ghost var mid := Work(metadata', keys', data', batch.ops);
      data' := data'[|data'| - 1 := Insert(lib, data'[|data'| - 1], h)];
      metadata' := metadata'.(size := metadata'.size + 1);
      ret := Inserted;
      assert Work(metadata', keys', data', batch.ops) == InsertLast(lib, ns, mid, h);
    }

    /** `MAdd`: loads or creates the chain, checks and inserts every item,
        growing the chain when it is full, and commits one batch.
        `version` is the version a chain created here receives. */
    method MAdd(userKey: Bytes, items: seq<Bytes>, rets: array<AddResult>, version: nat) returns (s: Status)
      requires rets.Length == |items|
      requires WellFormedAt(storage.View(), NsKeyOf(userKey))
      modifies storage, rets
      ensures var r := MAddSpec(lib, old(storage.View()), NsKeyOf(userKey), version, items);
              s == r.0 && storage.View() == r.2 && rets[..] == (if r.1.Some? then r.1.value else old(rets[..]))
    {
      var ns := NsKeyOf(userKey);
      ghost var db := storage.View();
      var metadata: ChainMetadata;
      var got := storage.GetMetadata(ns);
      if got.Failure? && got.code == NotFound {
        s, metadata := CreateBloomChain(ns, DefaultErrorRate, DefaultInitCapacity, DefaultExpansion, version);
        if s != OK {
          return;
        }
      } else if got.Failure? {
        return Err(got.code);
      } else {
        metadata := got.value;
      }
      ghost var db1 := storage.View();
      assert LoadOrCreate(lib, db, ns, version) == (Success(metadata), db1);
      s := AddToChain(ns, metadata, items, rets);
    }

    /** The item loop of `MAdd`: one `AddItem` per hash, answers in order. */
    method AddItems(ns: NsKey, m0: ChainMetadata, keys0: seq<SubKey>, data0: seq<Filter>, batch: WriteBatch,
                    hashes: seq<Hash>, rets: array<AddResult>)
      returns (metadata: ChainMetadata, keys: seq<SubKey>, data: seq<Filter>)
      requires Valid(ns, Work(m0, keys0, data0, batch.ops))
      requires rets.Length == |hashes|
      modifies batch, rets
      ensures AddAll(lib, ns, Work(m0, keys0, data0, old(batch.ops)), hashes) == (Work(metadata, keys, data, batch.ops), rets[..])
    {
      ghost var w0 := Work(m0, keys0, data0, batch.ops);
      metadata, keys, data := m0, keys0, data0;
      assert hashes[..0] == [];
      for i := 0 to |hashes|
        invariant AddAll(lib, ns, w0, hashes[..i]) == (Work(metadata, keys, data, batch.ops), rets[..i])
      {
        assert hashes[..i + 1][..i] == hashes[..i];
        var ret;
        metadata, keys, data, ret := AddItem(ns, metadata, keys, data, batch, hashes[i]);
        rets[i] := ret;
        assert rets[..i + 1] == rets[..i] + [ret];
      }
      assert hashes[..|hashes|] == hashes && rets[..|hashes|] == rets[..];
    }

    /** Everything `MAdd` does once the chain's metadata is at hand. */
    method AddToChain(ns: NsKey, loaded: ChainMetadata, items: seq<Bytes>, rets: array<AddResult>)
      returns (s: Status)
      requires rets.Length == |items|
      requires loaded.nFilters >= 1
      modifies storage, rets
      ensures var r := ChainModel.AddToChain(lib, old(storage.View()), ns, loaded, items);
              s == r.0 && storage.View() == r.2 && rets[..] == (if r.1.Some? then r.1.value else old(rets[..]))
    {
      var keys := GetBFKeyList(ns, loaded);
      var read := GetBFDataList(keys);
      if read.Failure? {
        return Err(read.code);
      }
      s := InsertItems(ns, loaded, keys, read.value, items, rets);
    }

    /** The item loop of `MAdd` and the commit of its batch. */
    method InsertItems(ns: NsKey, loaded: ChainMetadata, keys: seq<SubKey>, data: seq<Filter>, items: seq<Bytes>,
                       rets: array<AddResult>)
      returns (s: Status)
      requires rets.Length == |items|
      requires loaded.nFilters >= 1 && |data| == loaded.nFilters && keys == KeysOf(ns, loaded)
      modifies storage, rets
      ensures var r := ChainModel.InsertItems(lib, old(storage.View()), ns, loaded, data, items);
              s == r.0 && storage.View() == r.2 && rets[..] == r.1
    {
      ghost var db1 := storage.View();
      var hashes := GetItemHashList(items);
      var batch := new WriteBatch();
      batch.PutLogData(InsertTag);
      assert batch.ops == [LogData(InsertTag)];
      var metadata, keys', data' := AddItems(ns, loaded, keys, data, batch, hashes, rets);
      ghost var w := Work(metadata, keys', data', batch.ops);
      assert AddAll(lib, ns, StartWork(ns, loaded, data), HashList(lib, items)) ==
             (w, rets[..]);
      StageFinish(ns, metadata, keys', data', batch, loaded.size);
      assert storage.View() == db1;
      s := storage.Write(batch);
    }

    /** The end of `MAdd`: when the size changed, stage the metadata and the
        last sub-filter. */
    method StageFinish(ns: NsKey, metadata: ChainMetadata, keys: seq<SubKey>, data: seq<Filter>, batch: WriteBatch,
                       originSize: nat)
      requires Valid(ns, Work(metadata, keys, data, batch.ops))
      modifies batch
      ensures batch.ops == Finish(ns, Work(metadata, keys, data, old(batch.ops)), originSize)
    {
      if metadata.size != originSize {
        batch.PutMetadata(ns, metadata);
        batch.Put(keys[|keys| - 1], data[|data| - 1]);
      }
    }

    /** `Exists`: `MExists` of one item; the answer slot starts as `false`. */
    method Exists(userKey: Bytes, item: Bytes) returns (s: Status, exist: bool)
      ensures (s, [exist]) == MExistsSpec(lib, storage.View(), NsKeyOf(userKey), [item], [false])
    {
      var tmp := new bool[1](_ => false);
      assert tmp[..] == [false];
      s := MExists(userKey, [item], tmp);
      exist := tmp[0];
      assert tmp[..] == [exist];
    }

    /** `MExists`: for every item, whether some sub-filter reports its hash;
        a missing chain answers `false` for every item without an error. */
    method MExists(userKey: Bytes, items: seq<Bytes>, found: array<bool>) returns (s: Status)
      requires found.Length == |items|
      modifies found
      ensures (s, found[..]) == MExistsSpec(lib, storage.View(), NsKeyOf(userKey), items, old(found[..]))
    {
      var ns := NsKeyOf(userKey);
      var got := storage.GetMetadata(ns);
      if got.Failure? && got.code == NotFound {
        for k := 0 to found.Length
          invariant forall j :: 0 <= j < k ==> !found[j]
        {
          found[k] := false;
        }
        assert found[..] == AllFalse(|items|);
        return OK;
      }
      if got.Failure? {
        return Err(got.code);
      }
      var metadata := got.value;
      var keys := GetBFKeyList(ns, metadata);
      var read := GetBFDataList(keys);
      if read.Failure? {
        return Err(read.code);
      }
      var data := read.value;
      var hashes := GetItemHashList(items);
      assert hashes == HashList(lib, items);
      CheckItems(data, hashes, found);
      s := OK;
    }

    /** The existence loop of `MExists`: slot `i` gets the newest-first check
        of `hashes[i]`, and keeps its value when there is no sub-filter. */
    method CheckItems(data: seq<Filter>, hashes: seq<Hash>, found: array<bool>)
      requires found.Length == |hashes|
      modifies found
      ensures found[..] == CheckAll(lib, data, hashes, old(found[..]))
    {
      ghost var init := found[..];
      for i := 0 to |hashes|
        invariant forall j :: 0 <= j < i ==> found[j] == CheckAll(lib, data, hashes, init)[j]
        invariant forall j :: i <= j < |hashes| ==> found[j] == init[j]
      {
        CheckItem(data, hashes[i], found, i);
      }
      assert found[..] == CheckAll(lib, data, hashes, init);
    }

    /** One item of the existence loop: every sub-filter from the newest down
        writes its answer into slot `i`, stopping at the first hit. */
    method CheckItem(data: seq<Filter>, h: Hash, found: array<bool>, i: nat)
      requires i < found.Length
      modifies found
      ensures found[i] == if data == [] then old(found[i]) else FoundNewestFirst(lib, data, h)
      ensures forall j :: 0 <= j < found.Length && j != i ==> found[j] == old(found[j])
    {
      assert data[..|data|] == data;
      for ii := |data| downto 0
        invariant forall j :: 0 <= j < found.Length && j != i ==> found[j] == old(found[j])
        invariant ii == |data| ==> found[i] == old(found[i])
        invariant ii < |data| ==> !found[i]
        invariant FoundNewestFirst(lib, data, h) == FoundNewestFirst(lib, data[..ii], h)
      {
        assert data[..ii + 1][..ii] == data[..ii];
        found[i] := Find(lib, data[ii], h);
        if found[i] {
          break;
        }
      }
    }

    /** `Info`: the metadata fields and the capacity of the chain. */
    method Info(userKey: Bytes) returns (r: Result<BloomInfo>)
      ensures r == InfoSpec(storage.View(), NsKeyOf(userKey))
      ensures r.Success? ==> GetMeta(storage.View(), NsKeyOf(userKey)).Success?
    {
      var ns := NsKeyOf(userKey);
      var got := storage.GetMetadata(ns);
      if got.Failure? {
        return Failure(got.code);
      }
      var m := got.value;
      r := Success(BloomInfo(Capacity(m), m.bloomBytes, m.nFilters, m.size, m.expansion));
    }
  }
}
