/** The block-split Bloom filter that every sub-filter of a chain is made of.
    Its bit layout, hash and sizing formula belong to a library that is not part
    of this model; they are injected as a `BlockSplit` value.  A filter is its
    byte length and the set of bit positions that are set: inserting a hash sets
    the positions `bitsOf` assigns to it, and a lookup asks whether all of them
    are set.  This gives "inserted items are always found" for every choice of
    `bitsOf`, while two hashes whose positions overlap give false positives. */
module Filters {

  newtype byte = x: int | 0 <= x < 256

  type Bytes = seq<byte>

  /** A 64-bit item hash; its width plays no part in the chain logic. */
  type Hash = nat

  /** The library functions the chain uses without looking inside:
      `BlockSplitBloomFilter::Hash`, `BlockSplitBloomFilter::OptimalNumOfBytes`
      (capacity and error rate to a byte length), and the positions a hash
      sets in a filter of a given byte length. */
  datatype BlockSplit = BlockSplit(
    hash: Bytes -> Hash,
    optimalNumOfBytes: (nat, real) -> nat,
    bitsOf: (Hash, nat) -> set<nat>)

  /** The bytes of one sub-filter: its fixed length and the bits set in it. */
  datatype Filter = Filter(numBytes: nat, bits: set<nat>)

  /** `CreateBlockSplitBloomFilter`: a zeroed filter of the given length. */
  function New(numBytes: nat): (f: Filter)
    ensures f.numBytes == numBytes && f.bits == {}
  {
    Filter(numBytes, {})
  }

  /** `FindHash`, used by `bloomCheck`. */
  predicate Find(lib: BlockSplit, f: Filter, h: Hash)
  {
    lib.bitsOf(h, f.numBytes) <= f.bits
  }

  /** `InsertHash`, used by `bloomAdd`: the length never changes, the inserted
      hash is found afterwards, and nothing that was found is lost. */
  function Insert(lib: BlockSplit, f: Filter, h: Hash): (r: Filter)
    ensures r.numBytes == f.numBytes
    ensures Find(lib, r, h)
    ensures forall h' :: Find(lib, f, h') ==> Find(lib, r, h')
  {
    Filter(f.numBytes, f.bits + lib.bitsOf(h, f.numBytes))
  }
}
