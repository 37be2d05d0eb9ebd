/** The metadata record of a chain (`BloomChainMetadata`) and the two ways the
    chain code sets it: building a new chain and appending a sub-filter. */
module ChainMeta {
  import opened Filters

  /** One record per chain.  `expansion == 0` means the chain never grows. */
  datatype ChainMetadata = ChainMetadata(
    version: nat,
    nFilters: nat,
    expansion: nat,
    baseCapacity: nat,
    errorRate: real,
    bloomBytes: nat,
    size: nat)

  /** Parameters of a chain that `MAdd` creates on a missing key
      (`kBFDefaultErrorRate`, `kBFDefaultInitCapacity`, `kBFDefaultExpansion`). */
  const DefaultErrorRate: real := 0.01
  const DefaultInitCapacity: nat := 100
  const DefaultExpansion: nat := 2

  function Pow(b: nat, e: nat): nat
  {
    if e == 0 then 1 else b * Pow(b, e - 1)
  }

  lemma {:induction false} PowPositive(b: nat, e: nat)
    requires b >= 1
    ensures Pow(b, e) >= 1
  {
    if e > 0 {
      PowPositive(b, e - 1);
    }
  }

  predicate IsScaling(m: ChainMetadata)
  {
    m.expansion > 0
  }

  /** Capacity of the first `n` sub-filters of a scaling chain:
      the sum of `base * expansion^i` for `i < n`. */
  function GeometricCapacity(base: nat, expansion: nat, n: nat): nat
  {
    if n == 0 then 0 else GeometricCapacity(base, expansion, n - 1) + base * Pow(expansion, n - 1)
  }

  /** `GetCapacity()`: how many items the chain holds before it must grow. */
  function Capacity(m: ChainMetadata): nat
  {
    if IsScaling(m) then GeometricCapacity(m.baseCapacity, m.expansion, m.nFilters) else m.baseCapacity
  }

  /** The fields that identify a chain and its growth policy; neither growth
      nor insertion changes them. */
  predicate SameChain(m: ChainMetadata, m': ChainMetadata)
  {
    m'.version == m.version && m'.expansion == m.expansion &&
    m'.baseCapacity == m.baseCapacity && m'.errorRate == m.errorRate
  }

  /** The metadata `createBloomChain` writes: one empty sub-filter sized for
      the whole requested capacity. */
  function NewChainMetadata(lib: BlockSplit, errorRate: real, capacity: nat, expansion: nat, version: nat): (m: ChainMetadata)
    ensures m.nFilters == 1 && m.size == 0
    ensures m.baseCapacity == capacity && m.expansion == expansion && m.errorRate == errorRate
    ensures m.bloomBytes == lib.optimalNumOfBytes(capacity, errorRate)
    ensures m.version == version
    ensures Capacity(m) == capacity
  {
    assert GeometricCapacity(capacity, expansion, 1) == capacity * Pow(expansion, 0);
    ChainMetadata(version, 1, expansion, capacity, errorRate, lib.optimalNumOfBytes(capacity, errorRate), 0)
  }

  /** The metadata part of `createBloomFilterInBatch`: the new sub-filter is
      sized for `base * expansion^n` items where `n` is the count before the
      append, and its bytes join the running total. */
  function Grow(lib: BlockSplit, m: ChainMetadata): (r: (ChainMetadata, Filter))
    ensures r.0.nFilters == m.nFilters + 1
    ensures r.0.bloomBytes == m.bloomBytes + r.1.numBytes
    ensures r.1 == New(lib.optimalNumOfBytes(m.baseCapacity * Pow(m.expansion, m.nFilters), m.errorRate))
    ensures SameChain(m, r.0) && r.0.size == m.size
    ensures IsScaling(m) ==> Capacity(r.0) == Capacity(m) + m.baseCapacity * Pow(m.expansion, m.nFilters)
    ensures !IsScaling(m) ==> Capacity(r.0) == Capacity(m)
  {
    var bytes := lib.optimalNumOfBytes(m.baseCapacity * Pow(m.expansion, m.nFilters), m.errorRate);
    (m.(nFilters := m.nFilters + 1, bloomBytes := m.bloomBytes + bytes), New(bytes))
  }
}
