/** The key-value engine the chain is stored in, reduced to what the chain
    code uses: a metadata column family keyed by namespace key, a data column
    family keyed by sub-filter key, point reads that may fail, and write
    batches that commit all at once or not at all. */
module Store {
  import opened Filters
  import opened ChainMeta

  /** `AppendNamespacePrefix(user_key)`; the byte layout is left abstract. */
  datatype NsKey = NsKey(namespace: string, userKey: Bytes)

  /** `InternalKey(ns_key, fixed16(index), version).Encode()`; a datatype, so
      distinct triples give distinct keys. */
  datatype SubKey = SubKey(ns: NsKey, version: nat, index: nat)

  datatype Key = MetaKey(ns: NsKey) | DataKey(sub: SubKey)

  /** The status codes the chain code distinguishes. */
  datatype Code = NotFound | InvalidArgument | IOError

  datatype Status = OK | Err(code: Code)

  datatype Result<T> = Success(value: T) | Failure(code: Code)

  datatype Option<T> = None | Some(value: T)

  /** One staged write.  `LogData` is the replication tag every batch carries. */
  datatype BatchOp =
    | LogData(tag: string)
    | PutMeta(ns: NsKey, meta: ChainMetadata)
    | PutSub(key: SubKey, filter: Filter)

  /** The whole state of the engine as a value.  Reads of a key in
      `unreadable` fail with an I/O error; when `writeFails` holds, every
      commit fails with an I/O error and writes nothing. */
  datatype Db = Db(
    metadata: map<NsKey, ChainMetadata>,
    subkeys: map<SubKey, Filter>,
    unreadable: set<Key>,
    writeFails: bool)

  /** `Database::GetMetadata`. */
  function GetMeta(db: Db, ns: NsKey): (r: Result<ChainMetadata>)
    ensures r.Success? <==> MetaKey(ns) !in db.unreadable && ns in db.metadata
    ensures r.Success? ==> r.value == db.metadata[ns]
    ensures r.Failure? && r.code == NotFound <==> MetaKey(ns) !in db.unreadable && ns !in db.metadata
  {
    if MetaKey(ns) in db.unreadable then Failure(IOError)
    else if ns in db.metadata then Success(db.metadata[ns])
    else Failure(NotFound)
  }

  /** `storage_->Get` on the data column family. */
  function Get(db: Db, k: SubKey): (r: Result<Filter>)
    ensures r.Success? <==> DataKey(k) !in db.unreadable && k in db.subkeys
    ensures r.Success? ==> r.value == db.subkeys[k]
  {
    if DataKey(k) in db.unreadable then Failure(IOError)
    else if k in db.subkeys then Success(db.subkeys[k])
    else Failure(NotFound)
  }

  function ApplyOp(db: Db, op: BatchOp): Db
  {
    match op
    case LogData(_) => db
    case PutMeta(ns, m) => db.(metadata := db.metadata[ns := m])
    case PutSub(k, f) => db.(subkeys := db.subkeys[k := f])
  }

  /** The batch applied in order: a later put of a key wins. */
  function ApplyBatch(db: Db, ops: seq<BatchOp>): (r: Db)
    ensures r.unreadable == db.unreadable && r.writeFails == db.writeFails
  {
    if ops == [] then db else ApplyOp(ApplyBatch(db, ops[..|ops| - 1]), ops[|ops| - 1])
  }

  /** `storage_->Write(batch)`: all of the batch, or (on failure) none of it. */
  function Commit(db: Db, ops: seq<BatchOp>): (r: (Status, Db))
    ensures r.0 == OK <==> !db.writeFails
    ensures r.0 == OK ==> r.1 == ApplyBatch(db, ops)
    ensures r.0 != OK ==> r.0 == Err(IOError) && r.1 == db
  {
    if db.writeFails then (Err(IOError), db) else (OK, ApplyBatch(db, ops))
  }

  lemma ApplyBatchSnoc(db: Db, ops: seq<BatchOp>, op: BatchOp)
    ensures ApplyBatch(db, ops + [op]) == ApplyOp(ApplyBatch(db, ops), op)
  {
    assert (ops + [op])[..|ops|] == ops;
  }

  /** The engine as the chain code sees it through its `storage_` pointer. */
  class Storage {
    var metadata: map<NsKey, ChainMetadata>
    var subkeys: map<SubKey, Filter>
    const unreadable: set<Key>
    const writeFails: bool

    function View(): Db
      reads this
    {
      Db(metadata, subkeys, unreadable, writeFails)
    }

    constructor (db: Db)
      ensures View() == db
    {
      metadata, subkeys := db.metadata, db.subkeys;
      unreadable, writeFails := db.unreadable, db.writeFails;
    }

    method GetMetadata(ns: NsKey) returns (r: Result<ChainMetadata>)
      ensures r == GetMeta(View(), ns)
    {
      r := GetMeta(View(), ns);
    }

    method GetSub(k: SubKey) returns (r: Result<Filter>)
      ensures r == Get(View(), k)
    {
      r := Get(View(), k);
    }

    method Write(batch: WriteBatch) returns (s: Status)
      modifies this
      ensures (s, View()) == Commit(old(View()), batch.ops)
    {
      if writeFails {
        s := Err(IOError);
      } else {
        var db := ApplyBatch(View(), batch.ops);
        metadata, subkeys := db.metadata, db.subkeys;
        s := OK;
      }
    }
  }

  /** A write batch under construction, passed by reference to every call
      that stages writes into it. */
  class WriteBatch {
    var ops: seq<BatchOp>

    constructor ()
      ensures ops == []
    {
      ops := [];
    }

    method PutLogData(tag: string)
      modifies this
      ensures ops == old(ops) + [LogData(tag)]
    {
      ops := ops + [LogData(tag)];
    }

    method PutMetadata(ns: NsKey, m: ChainMetadata)
      modifies this
      ensures ops == old(ops) + [PutMeta(ns, m)]
    {
      ops := ops + [PutMeta(ns, m)];
    }

    method Put(k: SubKey, f: Filter)
      modifies this
      ensures ops == old(ops) + [PutSub(k, f)]
    {
      ops := ops + [PutSub(k, f)];
    }
  }
}
