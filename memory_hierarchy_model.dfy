/** The data model of the cache-access simulator: its enumerations, cache lines,
    operations and state snapshot, the initial state, and the direct-mapped
    index/tag arithmetic (`src/models/MemoryHierarchyModel.ts`). */
module MemoryHierarchyModel {
  import opened Wrappers

  datatype MemoryComponentType = Cpu | Cache | MainMemory

  datatype MemoryOperationType = Read | Write

  datatype MemoryAccessResult = Hit | Miss

  datatype MemoryAccessStage =
    | Idle
    | CpuRequest
    | CheckCache
    | AccessMainMemory
    | UpdateCache
    | ReturnData
    | Complete

  datatype MemoryDataFlowDirection =
    | CpuToCache
    | CacheToCpu
    | CacheToMainMemory
    | MainMemoryToCache

  /** One cache line. */
  datatype CacheEntry = CacheEntry(valid: bool, tag: int, data: int, address: int)

  /** One READ or WRITE request; `data` is the value written (absent for a READ). */
  datatype MemoryAccessOperation =
    MemoryAccessOperation(opType: MemoryOperationType, address: int, data: Option<int>)

  datatype MemoryHierarchyState = MemoryHierarchyState(
    currentStage: MemoryAccessStage,
    activeComponents: seq<MemoryComponentType>,
    activeDataFlows: seq<MemoryDataFlowDirection>,
    currentOperation: Option<MemoryAccessOperation>,
    accessResult: Option<MemoryAccessResult>,
    cache: seq<CacheEntry>,
    mainMemory: map<int, int>,
    cpuRegister: Option<int>,
    cacheSize: int,
    cacheHits: int,
    cacheMisses: int)

  /** The number of cache lines of the initial state. */
  const InitialCacheSize := 4

  const InvalidLine := CacheEntry(false, 0, 0, 0)

  /** The seed contents of main memory. */
  const InitialMainMemory: map<int, int> :=
    map[100 := 42, 101 := 55, 102 := 78, 200 := 90, 201 := 65, 202 := 33]

  /** The state the simulator starts in: idle, nothing requested, four invalid lines,
      seeded main memory, both counters at zero. */
  function InitialMemoryHierarchyState(): (s: MemoryHierarchyState)
    ensures s.currentStage == Idle && s.activeComponents == [] && s.activeDataFlows == []
    ensures s.currentOperation == None && s.accessResult == None && s.cpuRegister == None
    ensures s.cacheSize == 4 == |s.cache|
    ensures forall i :: 0 <= i < |s.cache| ==> !s.cache[i].valid
    ensures s.cacheHits == 0 && s.cacheMisses == 0
    ensures s.mainMemory.Keys == {100, 101, 102, 200, 201, 202}
    ensures s.mainMemory[100] == 42 && s.mainMemory[101] == 55 && s.mainMemory[102] == 78
    ensures s.mainMemory[200] == 90 && s.mainMemory[201] == 65 && s.mainMemory[202] == 33
    ensures WellFormed(s) && LinesConsistent(s) && CacheAgreesWithMemory(s)
  {
    MemoryHierarchyState(
      Idle, [], [], None, None,
      seq(InitialCacheSize, _ => InvalidLine),
      InitialMainMemory, None, InitialCacheSize, 0, 0)
  }

  /** The line that address `address` maps to: JavaScript's `address % cacheSize`,
      whose sign follows the address. */
  function GetCacheIndex(address: int, cacheSize: int): (index: int)
    requires cacheSize > 0
    ensures address >= 0 ==> 0 <= index < cacheSize
    ensures address < 0 ==> -cacheSize < index <= 0
    ensures (address - index) % cacheSize == 0
  {
    var index := if address >= 0 then address % cacheSize else -((-address) % cacheSize);
    var quotient := if address >= 0 then address / cacheSize else -((-address) / cacheSize);
    assert address - index == quotient * cacheSize;
    MultipleHasNoRemainder(quotient, cacheSize);
    index
  }

  lemma MultipleHasNoRemainder(q: int, n: int)
    requires n > 0
    ensures (q * n) % n == 0
  {
    var k := q - (q * n) / n;
    assert (q * n) % n == n * k by {
      assert q * n == n * ((q * n) / n) + (q * n) % n;
      assert n * k == n * q - n * ((q * n) / n);
    }
  }

  /** The tag stored with address `address`: `Math.floor(address / cacheSize)`. */
  function GetCacheTag(address: int, cacheSize: int): (tag: int)
    requires cacheSize > 0
    ensures tag * cacheSize <= address < tag * cacheSize + cacheSize
  {
    address / cacheSize
  }

  /** The index of the line holding `address`, or -1 when that line is invalid or
      holds another tag.  (Unused by the simulator, which repeats the test inline.) */
  function IsCacheHit(cache: seq<CacheEntry>, address: int): (r: int)
    requires |cache| > 0 && address >= 0
    ensures r == -1 || r == address % |cache|
    ensures r >= 0 ==> cache[r].valid && cache[r].tag == address / |cache|
    ensures r == -1 ==> !(cache[address % |cache|].valid && cache[address % |cache|].tag == address / |cache|)
  {
    var index := GetCacheIndex(address, |cache|);
    var tag := GetCacheTag(address, |cache|);
    if cache[index].valid && cache[index].tag == tag then index else -1
  }

  /** The value main memory holds at `address`; an absent address reads as 0
      (`mainMemory[address] || 0`). */
  function MainMemoryRead(mainMemory: map<int, int>, address: int): int {
    if address in mainMemory then mainMemory[address] else 0
  }

  /** What every transition needs: as many lines as `cacheSize` says, and a
      non-negative address (a negative one makes the source index the cache at a
      negative position and fail). */
  predicate WellFormed(s: MemoryHierarchyState) {
    && s.cacheSize > 0
    && |s.cache| == s.cacheSize
    && (s.currentOperation.Some? ==> s.currentOperation.value.address >= 0)
  }

  /** Direct mapping: a valid line at slot `i` holds an address that maps to `i`,
      under the tag of that address. */
  predicate LinesConsistent(s: MemoryHierarchyState)
    requires WellFormed(s)
  {
    forall i :: 0 <= i < |s.cache| && s.cache[i].valid ==>
      && s.cache[i].address >= 0
      && GetCacheIndex(s.cache[i].address, s.cacheSize) == i
      && s.cache[i].tag == GetCacheTag(s.cache[i].address, s.cacheSize)
  }

  /** Write-through coherence: every valid line holds what main memory holds at its address. */
  predicate CacheAgreesWithMemory(s: MemoryHierarchyState) {
    forall i :: 0 <= i < |s.cache| && s.cache[i].valid ==>
      s.cache[i].data == MainMemoryRead(s.mainMemory, s.cache[i].address)
  }

  /** The address is the tag times the cache size plus the index. */
  lemma AddressFromIndexAndTag(address: int, cacheSize: int)
    requires address >= 0 && cacheSize > 0
    ensures GetCacheTag(address, cacheSize) * cacheSize + GetCacheIndex(address, cacheSize) == address
  {
  }

  /** Hence index and tag together identify a non-negative address. */
  lemma IndexAndTagDetermineAddress(a: int, b: int, cacheSize: int)
    requires a >= 0 && b >= 0 && cacheSize > 0
    requires GetCacheIndex(a, cacheSize) == GetCacheIndex(b, cacheSize)
    requires GetCacheTag(a, cacheSize) == GetCacheTag(b, cacheSize)
    ensures a == b
  {
    AddressFromIndexAndTag(a, cacheSize);
    AddressFromIndexAndTag(b, cacheSize);
  }

  /** `isCacheHit` finds a line exactly when the valid-and-same-tag test that the
      simulator builds from `getCacheIndex` and `getCacheTag` succeeds. */
  lemma IsCacheHitMatchesIndexTagTest(s: MemoryHierarchyState, address: int)
    requires WellFormed(s) && address >= 0
    ensures var index := GetCacheIndex(address, s.cacheSize);
      (IsCacheHit(s.cache, address) >= 0)
      <==> (s.cache[index].valid && s.cache[index].tag == GetCacheTag(address, s.cacheSize))
  {
  }

  /** Address 100 maps to line 0 under tag 25; address 104 to the same line under tag 26. */
  lemma WorkedIndexAndTag()
    ensures GetCacheIndex(100, 4) == 0 && GetCacheTag(100, 4) == 25
    ensures GetCacheIndex(104, 4) == 0 && GetCacheTag(104, 4) == 26
  {
  }

  /** A negative address that is not a multiple of the cache size maps to a negative
      slot, outside the cache; a negative multiple maps to line 0 with a negative tag
      (JavaScript's `-4 % 4` is `-0`, which indexes the same element as `0`). */
  lemma NegativeAddressHasNoSlot()
    ensures GetCacheIndex(-1, 4) == -1 && GetCacheTag(-1, 4) == -1
    ensures GetCacheIndex(-4, 4) == 0 && GetCacheTag(-4, 4) == -1
  {
  }
}
