/** What the chain guarantees, proved about the functions of `ChainModel`
    (and so, through their contracts, about the methods of `BloomChain`). */
module ChainProperties {
  import opened Filters
  import opened ChainMeta
  import opened Store
  import opened ChainModel

  // ---------------------------------------------------------------------
  // Filters only gain bits while items are added

  lemma CoversTransitive(lib: BlockSplit, a: seq<Filter>, b: seq<Filter>, c: seq<Filter>)
    requires Covers(lib, a, b) && Covers(lib, b, c)
    ensures Covers(lib, a, c)
  {
  }

  lemma CoversFound(lib: BlockSplit, a: seq<Filter>, b: seq<Filter>, h: Hash)
    requires Covers(lib, a, b) && FoundNewestFirst(lib, a, h)
    ensures FoundNewestFirst(lib, b, h)
  {
    var i :| 0 <= i < |a| && Find(lib, a[i], h);
    assert Find(lib, b[i], h);
  }

  /** Whatever the chain reported before an `MAdd` loop, it still reports after. */
  lemma {:induction false} AddAllCovers(lib: BlockSplit, ns: NsKey, w: Work, hs: seq<Hash>)
    requires Valid(ns, w)
    ensures Covers(lib, w.data, AddAll(lib, ns, w, hs).0.data)
    decreases |hs|
  {
    if hs != [] {
      var front := hs[..|hs| - 1];
      var mid := AddAll(lib, ns, w, front).0;
      AddAllCovers(lib, ns, w, front);
      CoversTransitive(lib, w.data, mid.data, Step(lib, ns, mid, hs[|hs| - 1]).0.data);
    }
  }

  // ---------------------------------------------------------------------
  // The loop of `MAdd` item by item

  /** One more item is one more loop step. */
  lemma AddAllSnoc(lib: BlockSplit, ns: NsKey, w: Work, hs: seq<Hash>, h: Hash)
    requires Valid(ns, w)
    ensures var before := AddAll(lib, ns, w, hs);
            var step := Step(lib, ns, before.0, h);
            AddAll(lib, ns, w, hs + [h]) == (step.0, before.1 + [step.1])
  {
    assert (hs + [h])[..|hs|] == hs;
  }

  /** Answer `i` is the outcome of one loop step on the chain as the first `i`
      items left it. */
  lemma {:induction false} ItemResult(lib: BlockSplit, ns: NsKey, w: Work, hs: seq<Hash>, i: nat)
    requires Valid(ns, w) && i < |hs|
    ensures AddAll(lib, ns, w, hs).1[i] == Step(lib, ns, AddAll(lib, ns, w, hs[..i]).0, hs[i]).1
    decreases |hs|
  {
    var front := hs[..|hs| - 1];
    assert front + [hs[|hs| - 1]] == hs;
    AddAllSnoc(lib, ns, w, front, hs[|hs| - 1]);
    if i < |front| {
      ItemResult(lib, ns, w, front, i);
      assert front[..i] == hs[..i] && front[i] == hs[i];
    }
  }

  /** Each item is answered `kExist` exactly when some sub-filter already
      reported it, `kFull` exactly when it is new, the chain is at capacity
      and does not scale, and `kOk` otherwise. */
  lemma ItemOutcome(lib: BlockSplit, ns: NsKey, w: Work, hs: seq<Hash>, i: nat)
    requires Valid(ns, w) && i < |hs|
    ensures var before := AddAll(lib, ns, w, hs[..i]).0;
            var ret := AddAll(lib, ns, w, hs).1[i];
            (ret == Exist <==> FoundNewestFirst(lib, before.data, hs[i])) &&
            (ret == Full <==> !FoundNewestFirst(lib, before.data, hs[i]) &&
                              before.meta.size + 1 > Capacity(before.meta) && !IsScaling(w.meta)) &&
            (ret == Inserted <==> !FoundNewestFirst(lib, before.data, hs[i]) &&
                                  (before.meta.size + 1 <= Capacity(before.meta) || IsScaling(w.meta)))
  {
    ItemResult(lib, ns, w, hs, i);
  }

  /** One loop step keeps every report, and reports its own item unless it
      refused it. */
  lemma StepReports(lib: BlockSplit, ns: NsKey, w: Work, h: Hash)
    requires Valid(ns, w)
    ensures forall h' :: FoundNewestFirst(lib, w.data, h') ==> FoundNewestFirst(lib, Step(lib, ns, w, h).0.data, h')
    ensures Step(lib, ns, w, h).1 != Full ==> FoundNewestFirst(lib, Step(lib, ns, w, h).0.data, h)
  {
    var next := Step(lib, ns, w, h).0;
    forall h' | FoundNewestFirst(lib, w.data, h')
      ensures FoundNewestFirst(lib, next.data, h')
    {
      CoversFound(lib, w.data, next.data, h');
    }
    if Step(lib, ns, w, h).1 == Inserted {
      assert Find(lib, next.data[|next.data| - 1], h);
    }
  }

  /** No false negatives: every item `MAdd` did not refuse as `kFull` is
      reported by the chain it leaves behind. */
  lemma {:induction false} NoFalseNegatives(lib: BlockSplit, ns: NsKey, w: Work, hs: seq<Hash>)
    requires Valid(ns, w)
    ensures var r := AddAll(lib, ns, w, hs);
            forall i :: 0 <= i < |hs| && r.1[i] != Full ==> FoundNewestFirst(lib, r.0.data, hs[i])
    decreases |hs|
  {
    if hs != [] {
      var front := hs[..|hs| - 1];
      var h := hs[|hs| - 1];
      var before := AddAll(lib, ns, w, front);
      NoFalseNegatives(lib, ns, w, front);
      StepReports(lib, ns, before.0, h);
      var step := Step(lib, ns, before.0, h);
      assert front + [h] == hs;
      AddAllSnoc(lib, ns, w, front, h);
      forall i | 0 <= i < |hs| && (before.1 + [step.1])[i] != Full
        ensures FoundNewestFirst(lib, step.0.data, hs[i])
      {
        if i < |front| {
          assert (before.1 + [step.1])[i] == before.1[i] && hs[i] == front[i];
        }
      }
    }
  }

  /** An item repeated within one `MAdd` is answered `kExist` the second time
      unless the first one was refused. */
  lemma RepeatedItemExists(lib: BlockSplit, ns: NsKey, w: Work, hs: seq<Hash>, i: nat, j: nat)
    requires Valid(ns, w) && i < j < |hs| && hs[i] == hs[j]
    requires AddAll(lib, ns, w, hs).1[i] != Full
    ensures AddAll(lib, ns, w, hs).1[j] == Exist
  {
    var before := AddAll(lib, ns, w, hs[..j]);
    PrefixAnswer(lib, ns, w, hs, j, i);
    NoFalseNegatives(lib, ns, w, hs[..j]);
    assert FoundNewestFirst(lib, before.0.data, hs[j]);
    ItemResult(lib, ns, w, hs, j);
  }

  /** An answer does not depend on the items after it. */
  lemma PrefixAnswer(lib: BlockSplit, ns: NsKey, w: Work, hs: seq<Hash>, j: nat, i: nat)
    requires Valid(ns, w) && i < j <= |hs|
    ensures AddAll(lib, ns, w, hs[..j]).1[i] == AddAll(lib, ns, w, hs).1[i]
    ensures hs[..j][i] == hs[i]
  {
    var p := hs[..j];
    ItemResult(lib, ns, w, hs, i);
    ItemResult(lib, ns, w, p, i);
    assert p[..i] == hs[..i];
  }

  /** `size` counts exactly the items answered `kOk`. */
  lemma {:induction false} SizeCountsInserted(lib: BlockSplit, ns: NsKey, w: Work, hs: seq<Hash>)
    requires Valid(ns, w)
    ensures AddAll(lib, ns, w, hs).0.meta.size == w.meta.size + CountInserted(AddAll(lib, ns, w, hs).1)
    decreases |hs|
  {
    if hs != [] {
      var front := hs[..|hs| - 1];
      SizeCountsInserted(lib, ns, w, front);
      var rets := AddAll(lib, ns, w, hs).1;
      assert rets[..|rets| - 1] == AddAll(lib, ns, w, front).1;
    }
  }

  /** When no item was inserted the loop changed nothing at all, batch
      included; so `MAdd` then commits only the log record. */
  lemma {:induction false} NoInsertNoChange(lib: BlockSplit, ns: NsKey, w: Work, hs: seq<Hash>)
    requires Valid(ns, w)
    requires AddAll(lib, ns, w, hs).0.meta.size == w.meta.size
    ensures AddAll(lib, ns, w, hs).0 == w
    decreases |hs|
  {
    if hs != [] {
      var front := hs[..|hs| - 1];
      SizeCountsInserted(lib, ns, w, front);
      NoInsertNoChange(lib, ns, w, front);
    }
  }

  lemma StepWithinCapacity(lib: BlockSplit, ns: NsKey, w: Work, h: Hash)
    requires Valid(ns, w) && w.meta.baseCapacity >= 1 && w.meta.size <= Capacity(w.meta)
    ensures Step(lib, ns, w, h).0.meta.size <= Capacity(Step(lib, ns, w, h).0.meta)
  {
    if !FoundNewestFirst(lib, w.data, h) && w.meta.size + 1 > Capacity(w.meta) && IsScaling(w.meta) {
      var grown := Extend(lib, ns, w);
      PowPositive(w.meta.expansion, w.meta.nFilters);
      var added := w.meta.baseCapacity * Pow(w.meta.expansion, w.meta.nFilters);
      assert added >= 1 by {
        assert added >= Pow(w.meta.expansion, w.meta.nFilters);
      }
      assert Capacity(grown.meta) == Capacity(w.meta) + added;
    }
  }

  /** A chain with a positive base capacity never holds more items than its
      capacity: a scaling chain grows just in time, a fixed one refuses. */
  lemma {:induction false} SizeWithinCapacity(lib: BlockSplit, ns: NsKey, w: Work, hs: seq<Hash>)
    requires Valid(ns, w) && w.meta.baseCapacity >= 1 && w.meta.size <= Capacity(w.meta)
    ensures AddAll(lib, ns, w, hs).0.meta.size <= Capacity(AddAll(lib, ns, w, hs).0.meta)
    decreases |hs|
  {
    if hs != [] {
      var front := hs[..|hs| - 1];
      SizeWithinCapacity(lib, ns, w, front);
      StepWithinCapacity(lib, ns, AddAll(lib, ns, w, front).0, hs[|hs| - 1]);
    }
  }

  // ---------------------------------------------------------------------
  // What the committed batch stores

  /** Every write of `ops` goes to chain `ns`. */
  ghost predicate OnlyTouches(ns: NsKey, ops: seq<BatchOp>)
  {
    forall i :: 0 <= i < |ops| ==>
      (ops[i].PutMeta? ==> ops[i].ns == ns) && (ops[i].PutSub? ==> ops[i].key.ns == ns)
  }

  /** A batch confined to `ns` leaves every other chain as it was. */
  lemma {:induction false} ApplyBatchOthers(db: Db, ns: NsKey, ops: seq<BatchOp>)
    requires OnlyTouches(ns, ops)
    ensures var r := ApplyBatch(db, ops);
            (forall ns' :: ns' != ns ==> GetMeta(r, ns') == GetMeta(db, ns')) &&
            (forall k: SubKey :: k.ns != ns ==> Get(r, k) == Get(db, k))
    decreases |ops|
  {
    if ops != [] {
      ApplyBatchOthers(db, ns, ops[..|ops| - 1]);
    }
  }

  lemma {:induction false} AddAllOnlyTouches(lib: BlockSplit, ns: NsKey, w: Work, hs: seq<Hash>)
    requires Valid(ns, w) && OnlyTouches(ns, w.batch)
    ensures OnlyTouches(ns, AddAll(lib, ns, w, hs).0.batch)
    decreases |hs|
  {
    if hs != [] {
      var front := hs[..|hs| - 1];
      AddAllOnlyTouches(lib, ns, w, front);
      StepOnlyTouches(lib, ns, AddAll(lib, ns, w, front).0, hs[|hs| - 1]);
    }
  }

  lemma StepOnlyTouches(lib: BlockSplit, ns: NsKey, w: Work, h: Hash)
    requires Valid(ns, w) && OnlyTouches(ns, w.batch)
    ensures OnlyTouches(ns, Step(lib, ns, w, h).0.batch)
  {
    if !FoundNewestFirst(lib, w.data, h) && w.meta.size + 1 > Capacity(w.meta) && IsScaling(w.meta) {
      var grown := Extend(lib, ns, w);
      assert w.keys[|w.keys| - 1].ns == ns;
      assert OnlyTouches(ns, grown.batch);
    }
  }

  /** The batch staged so far already stores every sub-filter but the last. */
  ghost predicate Staged(db: Db, ns: NsKey, w: Work)
    requires Valid(ns, w)
  {
    var applied := ApplyBatch(db, w.batch);
    forall i :: 0 <= i < |w.data| - 1 ==> w.keys[i] in applied.subkeys && applied.subkeys[w.keys[i]] == w.data[i]
  }

  lemma StepStaged(lib: BlockSplit, db: Db, ns: NsKey, w: Work, h: Hash)
    requires Valid(ns, w) && Staged(db, ns, w)
    ensures Staged(db, ns, Step(lib, ns, w, h).0)
  {
    if !FoundNewestFirst(lib, w.data, h) && w.meta.size + 1 > Capacity(w.meta) && IsScaling(w.meta) {
      ExtendStaged(lib, db, ns, w);
    }
  }

  lemma ExtendStaged(lib: BlockSplit, db: Db, ns: NsKey, w: Work)
    requires Valid(ns, w) && Staged(db, ns, w)
    ensures Staged(db, ns, Extend(lib, ns, w))
  {
    var n := |w.data|;
    var grown := Extend(lib, ns, w);
    var a := PutSub(w.keys[n - 1], w.data[n - 1]);
    var b := PutMeta(ns, grown.meta);
    assert grown.batch == (w.batch + [a]) + [b];
    ApplyBatchSnoc(db, w.batch, a);
    ApplyBatchSnoc(db, w.batch + [a], b);
    var applied := ApplyBatch(db, grown.batch);
    forall i | 0 <= i < |grown.data| - 1
      ensures grown.keys[i] in applied.subkeys && applied.subkeys[grown.keys[i]] == grown.data[i]
    {
      assert grown.keys[i] == w.keys[i];
      assert grown.data[i] == w.data[i];
    }
  }

  lemma {:induction false} AddAllStaged(lib: BlockSplit, db: Db, ns: NsKey, w: Work, hs: seq<Hash>)
    requires Valid(ns, w) && Staged(db, ns, w)
    ensures Staged(db, ns, AddAll(lib, ns, w, hs).0)
    decreases |hs|
  {
    if hs != [] {
      var front := hs[..|hs| - 1];
      AddAllStaged(lib, db, ns, w, front);
      StepStaged(lib, db, ns, AddAll(lib, ns, w, front).0, hs[|hs| - 1]);
    }
  }

  /** The engine stores the chain `w`: its metadata under `ns` and each of its
      sub-filters under its key. */
  ghost predicate Holds(db: Db, ns: NsKey, w: Work)
  {
    ns in db.metadata && db.metadata[ns] == w.meta && |w.keys| == |w.data| &&
    forall i :: 0 <= i < |w.data| ==> w.keys[i] in db.subkeys && db.subkeys[w.keys[i]] == w.data[i]
  }

  /** The two puts `MAdd` stages at the end complete a staged chain. */
  lemma FinishStores(db: Db, ns: NsKey, w: Work)
    requires Valid(ns, w) && Staged(db, ns, w)
    ensures Holds(ApplyBatch(db, w.batch + [PutMeta(ns, w.meta), PutSub(w.keys[|w.keys| - 1], w.data[|w.data| - 1])]),
                  ns, w)
  {
    var n := |w.data|;
    var a := PutMeta(ns, w.meta);
    var b := PutSub(w.keys[n - 1], w.data[n - 1]);
    assert w.batch + [a, b] == (w.batch + [a]) + [b];
    ApplyBatchSnoc(db, w.batch, a);
    ApplyBatchSnoc(db, w.batch + [a], b);
    var db2 := ApplyBatch(db, w.batch + [a, b]);
    forall i | 0 <= i < n
      ensures w.keys[i] in db2.subkeys && db2.subkeys[w.keys[i]] == w.data[i]
    {
      if i < n - 1 {
        assert w.keys[i] != w.keys[n - 1];
      }
    }
  }

  /** After a committed `MAdd`, the engine holds the chain exactly as the loop
      left it: its metadata and every one of its sub-filters. */
  lemma InsertItemsStores(lib: BlockSplit, db: Db, ns: NsKey, m: ChainMetadata, data: seq<Filter>, items: seq<Bytes>)
    requires m.nFilters >= 1 && |data| == m.nFilters && !db.writeFails
    requires Holds(db, ns, StartWork(ns, m, data))
    ensures Holds(InsertItems(lib, db, ns, m, data, items).2, ns, AddAll(lib, ns, StartWork(ns, m, data), HashList(lib, items)).0)
  {
    var w0 := StartWork(ns, m, data);
    var w := AddAll(lib, ns, w0, HashList(lib, items)).0;
    assert [LogData(InsertTag)][..0] == [];
    assert ApplyBatch(db, w0.batch) == db;
    AddAllStaged(lib, db, ns, w0, HashList(lib, items));
    if w.meta.size == m.size {
      NoInsertNoChange(lib, ns, w0, HashList(lib, items));
    } else {
      FinishStores(db, ns, w);
    }
  }

  /** The chain `MAdd` works on is the one stored: the metadata it loaded and
      the sub-filters it read. */
  lemma LoadedHolds(db: Db, ns: NsKey, m: ChainMetadata)
    requires m.nFilters >= 1 && ns in db.metadata && db.metadata[ns] == m
    requires ReadFilters(db, KeysOf(ns, m)).Success?
    ensures Holds(db, ns, StartWork(ns, m, ReadFilters(db, KeysOf(ns, m)).value))
  {
  }

  /** Reading back every key of a chain whose sub-filters are all stored and
      readable gives exactly those sub-filters. */
  lemma {:induction false} ReadFiltersAll(db: Db, keys: seq<SubKey>, fs: seq<Filter>)
    requires |fs| == |keys|
    requires forall i :: 0 <= i < |keys| ==> Get(db, keys[i]) == Success(fs[i])
    ensures ReadFilters(db, keys) == Success(fs)
    decreases |keys|
  {
    if keys != [] {
      ReadFiltersAll(db, keys[..|keys| - 1], fs[..|fs| - 1]);
      assert fs[..|fs| - 1] + [fs[|fs| - 1]] == fs;
    }
  }

  /** `MExists` on a stored, readable chain answers with its sub-filters. */
  lemma ExistsOnStoredChain(lib: BlockSplit, db: Db, ns: NsKey, w: Work, items: seq<Bytes>, init: seq<bool>)
    requires Valid(ns, w) && Holds(db, ns, w) && db.unreadable == {} && |init| == |items|
    ensures MExistsSpec(lib, db, ns, items, init) == (OK, CheckAll(lib, w.data, HashList(lib, items), init))
  {
    ReadFiltersAll(db, KeysOf(ns, w.meta), w.data);
  }

  // ---------------------------------------------------------------------
  // End to end

  /** `MAdd` followed by `MExists` of the same items: when nothing is
      unreadable and the `MAdd` committed, every item it did not refuse is
      reported present. */
  lemma AddThenExists(lib: BlockSplit, db: Db, ns: NsKey, version: nat, items: seq<Bytes>, init: seq<bool>)
    requires WellFormedAt(db, ns) && db.unreadable == {} && |init| == |items|
    ensures var r := MAddSpec(lib, db, ns, version, items);
            r.0 == OK ==>
              var q := MExistsSpec(lib, r.2, ns, items, init);
              q.0 == OK && forall i :: 0 <= i < |items| && r.1.value[i] != Full ==> q.1[i]
  {
    var r := MAddSpec(lib, db, ns, version, items);
    if r.0 == OK {
      var (loaded, db1) := LoadOrCreate(lib, db, ns, version);
      var m := loaded.value;
      var data := ReadFilters(db1, KeysOf(ns, m)).value;
      var hs := HashList(lib, items);
      var w0 := StartWork(ns, m, data);
      var w := AddAll(lib, ns, w0, hs).0;
      LoadedHolds(db1, ns, m);
      InsertItemsStores(lib, db1, ns, m, data, items);
      assert r.2 == InsertItems(lib, db1, ns, m, data, items).2;
      ExistsOnStoredChain(lib, r.2, ns, w, items, init);
      NoFalseNegatives(lib, ns, w0, hs);
    }
  }

  /** The batch of `InsertItems` is confined to its own chain. */
  lemma InsertItemsOthers(lib: BlockSplit, db: Db, ns: NsKey, m: ChainMetadata, data: seq<Filter>, items: seq<Bytes>)
    requires m.nFilters >= 1 && |data| == m.nFilters
    ensures var db2 := InsertItems(lib, db, ns, m, data, items).2;
            (forall ns' :: ns' != ns ==> GetMeta(db2, ns') == GetMeta(db, ns')) &&
            (forall k: SubKey :: k.ns != ns ==> Get(db2, k) == Get(db, k))
  {
    var w0 := StartWork(ns, m, data);
    var w := AddAll(lib, ns, w0, HashList(lib, items)).0;
    AddAllOnlyTouches(lib, ns, w0, HashList(lib, items));
    assert OnlyTouches(ns, Finish(ns, w, m.size));
    ApplyBatchOthers(db, ns, Finish(ns, w, m.size));
  }

  /** `MAdd` writes nothing outside its own chain. */
  lemma MAddOtherChains(lib: BlockSplit, db: Db, ns: NsKey, version: nat, items: seq<Bytes>)
    requires WellFormedAt(db, ns)
    ensures var db2 := MAddSpec(lib, db, ns, version, items).2;
            (forall ns' :: ns' != ns ==> GetMeta(db2, ns') == GetMeta(db, ns')) &&
            (forall k: SubKey :: k.ns != ns ==> Get(db2, k) == Get(db, k))
  {
    var (loaded, db1) := LoadOrCreate(lib, db, ns, version);
    assert forall ns' :: ns' != ns ==> GetMeta(db1, ns') == GetMeta(db, ns');
    assert forall k: SubKey :: k.ns != ns ==> Get(db1, k) == Get(db, k);
    if loaded.Success? && ReadFilters(db1, KeysOf(ns, loaded.value)).Success? {
      InsertItemsOthers(lib, db1, ns, loaded.value, ReadFilters(db1, KeysOf(ns, loaded.value)).value, items);
    }
  }

  /** `MAdd` keeps the stored chain well formed, whether it commits or not. */
  lemma MAddKeepsWellFormed(lib: BlockSplit, db: Db, ns: NsKey, version: nat, items: seq<Bytes>)
    requires WellFormedAt(db, ns)
    ensures WellFormedAt(MAddSpec(lib, db, ns, version, items).2, ns)
  {
    var (loaded, db1) := LoadOrCreate(lib, db, ns, version);
    if loaded.Success? && ReadFilters(db1, KeysOf(ns, loaded.value)).Success? && !db1.writeFails {
      var m := loaded.value;
      var data := ReadFilters(db1, KeysOf(ns, m)).value;
      LoadedHolds(db1, ns, m);
      InsertItemsStores(lib, db1, ns, m, data, items);
    }
  }

  /** A chain `MAdd` creates on a missing key stays in the engine with the
      default parameters, whatever the status of the call: the creation is
      committed by itself before the sub-filters are read. */
  lemma MAddKeepsCreatedChain(lib: BlockSplit, db: Db, ns: NsKey, version: nat, items: seq<Bytes>)
    requires GetMeta(db, ns) == Failure(NotFound) && !db.writeFails
    ensures var r := MAddSpec(lib, db, ns, version, items);
            ns in r.2.metadata &&
            SameChain(NewChainMetadata(lib, DefaultErrorRate, DefaultInitCapacity, DefaultExpansion, version),
                      r.2.metadata[ns])
  {
    var (loaded, db1) := LoadOrCreate(lib, db, ns, version);
    var m := loaded.value;
    var read := ReadFilters(db1, KeysOf(ns, m));
    if read.Success? {
      LoadedHolds(db1, ns, m);
      InsertItemsStores(lib, db1, ns, m, read.value, items);
    }
  }

  /** An engine where the new chain's first sub-filter cannot be read back:
      `MAdd` fails with an I/O error, yet the chain it created is stored. */
  lemma MAddFailsAfterCreate(lib: BlockSplit, ns: NsKey, items: seq<Bytes>)
    ensures var db := Db(map[], map[], {DataKey(SubKey(ns, 5, 0))}, false);
            var r := MAddSpec(lib, db, ns, 5, items);
            r.0 == Err(IOError) && r.1 == None && ns in r.2.metadata && r.2.metadata[ns].nFilters == 1
  {
    var db := Db(map[], map[], {DataKey(SubKey(ns, 5, 0))}, false);
    var (loaded, db1) := LoadOrCreate(lib, db, ns, 5);
    var m := loaded.value;
    assert KeysOf(ns, m)[0] == SubKey(ns, 5, 0);
    assert Get(db1, SubKey(ns, 5, 0)) == Failure(IOError);
  }

  /** `Reserve` on a missing key followed by `Info`: one empty sub-filter
      sized for the requested capacity and error rate. */
  lemma ReserveThenInfo(lib: BlockSplit, db: Db, ns: NsKey, capacity: nat, errorRate: real, expansion: nat,
                        version: nat)
    ensures var r := ReserveSpec(lib, db, ns, capacity, errorRate, expansion, version);
            r.0 == OK ==>
              InfoSpec(r.1, ns) ==
              Success(BloomInfo(capacity, lib.optimalNumOfBytes(capacity, errorRate), 1, 0, expansion))
  {
  }

  // ---------------------------------------------------------------------
  // Two worked examples of the loop, on a filter where every hash sets one bit

  function OneBitLib(): BlockSplit
  {
    BlockSplit(b => |b|, (capacity, errorRate) => capacity, (h, numBytes) => {h})
  }

  /** The start of both worked examples: one empty sub-filter of `bytes` bytes. */
  function Fresh(ns: NsKey, m: ChainMetadata, bytes: nat): (w: Work)
    requires m.nFilters == 1
    ensures Valid(ns, w)
  {
    Work(m, [SubKeyOf(ns, m, 0)], [New(bytes)], [])
  }

  const Scaling := ChainMetadata(0, 1, 2, 2, 0.01, 2, 0)

  lemma ScalingFirstTwo(ns: NsKey)
    ensures AddAll(OneBitLib(), ns, Fresh(ns, Scaling, 2), [7, 8]) ==
            (Work(Scaling.(size := 2), [SubKeyOf(ns, Scaling, 0)], [Filter(2, {7, 8})], []), [Inserted, Inserted])
  {
    var lib := OneBitLib();
    var w0 := Fresh(ns, Scaling, 2);
    assert Capacity(Scaling) == 2 by {
      assert GeometricCapacity(2, 2, 1) == 2 * Pow(2, 0);
    }
    var w1 := Work(Scaling.(size := 1), [SubKeyOf(ns, Scaling, 0)], [Filter(2, {7})], []);
    assert !FoundNewestFirst(lib, w0.data, 7);
    assert Insert(lib, New(2), 7) == Filter(2, {7});
    assert Step(lib, ns, w0, 7) == (InsertLast(lib, ns, w0, 7), Inserted);
    assert InsertLast(lib, ns, w0, 7).meta == w1.meta;
    assert InsertLast(lib, ns, w0, 7).data == w0.data[0 := Filter(2, {7})];
    assert w0.data[0 := Filter(2, {7})] == w1.data;
    assert Step(lib, ns, w0, 7) == (w1, Inserted);
    var none: seq<Hash> := [];
    var one: seq<Hash> := [7];
    assert none + [7] == one;
    AddAllSnoc(lib, ns, w0, none, 7);
    var noRets: seq<AddResult> := [];
    assert AddAll(lib, ns, w0, none) == (w0, noRets);
    assert noRets + [Inserted] == [Inserted];
    assert !FoundNewestFirst(lib, w1.data, 8);
    assert Insert(lib, Filter(2, {7}), 8) == Filter(2, {7, 8});
    assert Capacity(w1.meta) == 2 by {
      assert GeometricCapacity(2, 2, 1) == 2 * Pow(2, 0);
    }
    assert Step(lib, ns, w1, 8).0 == Work(Scaling.(size := 2), [SubKeyOf(ns, Scaling, 0)], [Filter(2, {7, 8})], []);
    assert Step(lib, ns, w1, 8).1 == Inserted;
    assert AddAll(lib, ns, w0, one) == (w1, [Inserted]);
    var two: seq<Hash> := [7, 8];
    assert one + [8] == two;
    AddAllSnoc(lib, ns, w0, one, 8);
    assert [Inserted] + [Inserted] == [Inserted, Inserted];
  }

  /** A scaling chain of base capacity 2 and expansion 2 takes three new items
      by growing once; its capacity becomes 2 + 4. */
  lemma ScalingChainGrows(ns: NsKey)
    ensures var r := AddAll(OneBitLib(), ns, Fresh(ns, Scaling, 2), [7, 8, 9]);
            r.1 == [Inserted, Inserted, Inserted] && r.0.meta.nFilters == 2 && r.0.meta.size == 3 &&
            Capacity(r.0.meta) == 6
  {
    var lib := OneBitLib();
    var w2 := Work(Scaling.(size := 2), [SubKeyOf(ns, Scaling, 0)], [Filter(2, {7, 8})], []);
    ScalingFirstTwo(ns);
    assert Capacity(w2.meta) == 2 by {
      assert GeometricCapacity(2, 2, 1) == 2 * Pow(2, 0);
    }
    assert !FoundNewestFirst(lib, w2.data, 9);
    var grown := Extend(lib, ns, w2);
    assert Capacity(grown.meta) == 2 + 2 * Pow(2, 1);
    var step := Step(lib, ns, w2, 9);
    assert step == (InsertLast(lib, ns, grown, 9), Inserted);
    var two: seq<Hash> := [7, 8];
    var three: seq<Hash> := [7, 8, 9];
    assert two + [9] == three;
    AddAllSnoc(lib, ns, Fresh(ns, Scaling, 2), two, 9);
    assert [Inserted, Inserted] + [Inserted] == [Inserted, Inserted, Inserted];
  }

  const Fixed := ChainMetadata(0, 1, 0, 1, 0.01, 1, 0)

  lemma FixedFirst(ns: NsKey)
    ensures Step(OneBitLib(), ns, Fresh(ns, Fixed, 1), 7) ==
            (Work(Fixed.(size := 1), [SubKeyOf(ns, Fixed, 0)], [Filter(1, {7})], []), Inserted)
  {
    var lib := OneBitLib();
    var w0 := Fresh(ns, Fixed, 1);
    assert !FoundNewestFirst(lib, w0.data, 7);
    assert Insert(lib, New(1), 7) == Filter(1, {7});
    assert Step(lib, ns, w0, 7) == (InsertLast(lib, ns, w0, 7), Inserted);
    assert InsertLast(lib, ns, w0, 7).data == w0.data[0 := Filter(1, {7})];
    assert w0.data[0 := Filter(1, {7})] == [Filter(1, {7})];
  }

  lemma FixedFirstTwo(ns: NsKey)
    ensures AddAll(OneBitLib(), ns, Fresh(ns, Fixed, 1), [7, 7]) ==
            (Work(Fixed.(size := 1), [SubKeyOf(ns, Fixed, 0)], [Filter(1, {7})], []), [Inserted, Exist])
  {
    var lib := OneBitLib();
    var w0 := Fresh(ns, Fixed, 1);
    var w1 := Work(Fixed.(size := 1), [SubKeyOf(ns, Fixed, 0)], [Filter(1, {7})], []);
    FixedFirst(ns);
    var none: seq<Hash> := [];
    var one: seq<Hash> := [7];
    var two: seq<Hash> := [7, 7];
    var noRets: seq<AddResult> := [];
    assert none + [7] == one && one + [7] == two;
    AddAllSnoc(lib, ns, w0, none, 7);
    assert AddAll(lib, ns, w0, none) == (w0, noRets);
    assert noRets + [Inserted] == [Inserted];
    assert FoundNewestFirst(lib, w1.data, 7);
    AddAllSnoc(lib, ns, w0, one, 7);
    assert [Inserted] + [Exist] == [Inserted, Exist];
  }

  /** A chain that does not scale, with room for one item: a repeat is
      `kExist`, the next new item `kFull`, and nothing grows. */
  lemma FixedChainSaturates(ns: NsKey)
    ensures var r := AddAll(OneBitLib(), ns, Fresh(ns, Fixed, 1), [7, 7, 8]);
            r.1 == [Inserted, Exist, Full] && r.0.meta.nFilters == 1 && r.0.meta.size == 1
  {
    var lib := OneBitLib();
    var w1 := Work(Fixed.(size := 1), [SubKeyOf(ns, Fixed, 0)], [Filter(1, {7})], []);
    FixedFirstTwo(ns);
    assert !FoundNewestFirst(lib, w1.data, 8);
    assert Step(lib, ns, w1, 8) == (w1, Full);
    var two: seq<Hash> := [7, 7];
    var three: seq<Hash> := [7, 7, 8];
    assert two + [8] == three;
    AddAllSnoc(lib, ns, Fresh(ns, Fixed, 1), two, 8);
    assert [Inserted, Exist] + [Full] == [Inserted, Exist, Full];
  }
}
