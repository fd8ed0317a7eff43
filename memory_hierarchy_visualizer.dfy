/** The cache-access engine of `MemoryHierarchyVisualizer.tsx`: one READ or WRITE
    walks IDLE -> CPU_REQUEST -> CHECK_CACHE, then RETURN_DATA on a hit or
    ACCESS_MAIN_MEMORY -> UPDATE_CACHE -> RETURN_DATA on a miss, then
    COMPLETE -> IDLE, through a direct-mapped, write-through cache.

    Each stage function maps one snapshot to the next.  The React component that
    holds the current snapshot is the class `Visualizer` at the end. */
module MemoryHierarchyVisualizer {
  import opened Wrappers
  import opened JsNumbers
  import opened MemoryHierarchyModel

  // ---------------------------------------------------------------------------
  // Reference tables: the stage graph and the highlighted parts of each stage
  // ---------------------------------------------------------------------------

  /** The stage that follows `stage`; after CHECK_CACHE the recorded outcome decides. */
  function SuccessorStage(stage: MemoryAccessStage, result: Option<MemoryAccessResult>): MemoryAccessStage {
    match stage
    case Idle => CpuRequest
    case CpuRequest => CheckCache
    case CheckCache => if result == Some(Hit) then ReturnData else AccessMainMemory
    case AccessMainMemory => UpdateCache
    case UpdateCache => ReturnData
    case ReturnData => Complete
    case Complete => Idle
  }

  /** The components highlighted while a stage is shown. */
  function ComponentsFor(stage: MemoryAccessStage): seq<MemoryComponentType> {
    match stage
    case Idle => []
    case CpuRequest => [Cpu]
    case CheckCache => [Cpu, Cache]
    case AccessMainMemory => [Cache, MainMemory]
    case UpdateCache => [Cache, MainMemory]
    case ReturnData => [Cpu, Cache]
    case Complete => [Cpu]
  }

  /** The data flows highlighted while a stage is shown. */
  function DataFlowsFor(stage: MemoryAccessStage): seq<MemoryDataFlowDirection> {
    match stage
    case Idle => []
    case CpuRequest => []
    case CheckCache => [CpuToCache]
    case AccessMainMemory => [MainMemoryToCache]
    case UpdateCache => [MainMemoryToCache]
    case ReturnData => [CacheToCpu]
    case Complete => []
  }

  predicate ActiveSetsMatchStage(s: MemoryHierarchyState) {
    s.activeComponents == ComponentsFor(s.currentStage)
    && s.activeDataFlows == DataFlowsFor(s.currentStage)
  }

  /** The line `address` maps to is valid and carries the tag of `address`. */
  predicate LineHolds(s: MemoryHierarchyState, address: int)
    requires WellFormed(s) && address >= 0
  {
    var index := GetCacheIndex(address, s.cacheSize);
    s.cache[index].valid && s.cache[index].tag == GetCacheTag(address, s.cacheSize)
  }

  /** A recorded HIT still describes the cache: the line of the current address
      holds that address's tag.  Every transition keeps this. */
  predicate RecordedHitIsCurrent(s: MemoryHierarchyState)
    requires WellFormed(s)
  {
    s.accessResult == Some(Hit) && s.currentOperation.Some? ==>
      LineHolds(s, s.currentOperation.value.address)
  }

  // ---------------------------------------------------------------------------
  // The stage functions
  // ---------------------------------------------------------------------------

  /** CPU_REQUEST: the CPU register takes the value to write, or is cleared for a READ
      (and when there is no operation). */
  function CpuRequestStage(s: MemoryHierarchyState): MemoryHierarchyState {
    var op := s.currentOperation;
    s.(currentStage := CpuRequest,
       activeComponents := [Cpu],
       activeDataFlows := [],
       cpuRegister := if op.Some? && op.value.opType == Write then Some(op.value.data.GetOr(0)) else None)
  }

  /** CHECK_CACHE: record HIT or MISS and count it.  Without an operation the
      snapshot is returned as it is. */
  function CheckCacheStage(s: MemoryHierarchyState): MemoryHierarchyState
    requires WellFormed(s)
  {
    if s.currentOperation.None? then s
    else
      var address := s.currentOperation.value.address;
      var isHit := LineHolds(s, address);
      s.(currentStage := CheckCache,
         activeComponents := [Cpu, Cache],
         activeDataFlows := [CpuToCache],
         accessResult := Some(if isHit then Hit else Miss),
         cacheHits := if isHit then s.cacheHits + 1 else s.cacheHits,
         cacheMisses := if isHit then s.cacheMisses else s.cacheMisses + 1)
  }

  /** ACCESS_MAIN_MEMORY: only the highlighted parts change. */
  function AccessMainMemoryStage(s: MemoryHierarchyState): MemoryHierarchyState {
    s.(currentStage := AccessMainMemory,
       activeComponents := [Cache, MainMemory],
       activeDataFlows := [MainMemoryToCache])
  }

  /** UPDATE_CACHE: fill the line of the address from main memory; a WRITE with a
      value then stores the value in main memory and in the new line. */
  function UpdateCacheStage(s: MemoryHierarchyState): MemoryHierarchyState
    requires WellFormed(s)
  {
    if s.currentOperation.None? then s
    else
      var op := s.currentOperation.value;
      var index := GetCacheIndex(op.address, s.cacheSize);
      var filled := CacheEntry(true, GetCacheTag(op.address, s.cacheSize),
                               MainMemoryRead(s.mainMemory, op.address), op.address);
      var writes := op.opType == Write && op.data.Some?;
      s.(currentStage := UpdateCache,
         activeComponents := [Cache, MainMemory],
         activeDataFlows := [MainMemoryToCache],
         cache := s.cache[index := if writes then filled.(data := op.data.value) else filled],
         mainMemory := if writes then s.mainMemory[op.address := op.data.value] else s.mainMemory)
  }

  /** RETURN_DATA: a READ loads the line into the CPU register; a WRITE that hit
      stores the value in the line and in main memory. */
  function ReturnDataStage(s: MemoryHierarchyState): MemoryHierarchyState
    requires WellFormed(s)
  {
    if s.currentOperation.None? then s
    else
      var op := s.currentOperation.value;
      var index := GetCacheIndex(op.address, s.cacheSize);
      var writeHit := s.accessResult == Some(Hit) && op.opType == Write && op.data.Some?;
      s.(currentStage := ReturnData,
         activeComponents := [Cpu, Cache],
         activeDataFlows := [CacheToCpu],
         cpuRegister := if op.opType == Read then Some(s.cache[index].data) else s.cpuRegister,
         cache := if writeHit then s.cache[index := s.cache[index].(data := op.data.value)] else s.cache,
         mainMemory := if writeHit then s.mainMemory[op.address := op.data.value] else s.mainMemory)
  }

  function CompleteStage(s: MemoryHierarchyState): MemoryHierarchyState {
    s.(currentStage := Complete, activeComponents := [Cpu], activeDataFlows := [])
  }

  /** COMPLETE -> IDLE: the run is over and nothing is highlighted. */
  function FinishRun(s: MemoryHierarchyState): MemoryHierarchyState {
    s.(currentStage := Idle, activeComponents := [], activeDataFlows := [])
  }

  /** The stage functions that need an operation hand back their input without one,
      so the dispatcher makes no progress. */
  predicate Stalls(s: MemoryHierarchyState) {
    && s.currentOperation.None?
    && (|| s.currentStage == CpuRequest
        || (s.currentStage == CheckCache && s.accessResult == Some(Hit))
        || s.currentStage == AccessMainMemory
        || s.currentStage == UpdateCache)
  }

  /** One call of `executeNextStage`: dispatch on the current stage. */
  function NextState(s: MemoryHierarchyState): (r: MemoryHierarchyState)
    requires WellFormed(s)
    ensures WellFormed(r)
    ensures r.currentOperation == s.currentOperation && r.cacheSize == s.cacheSize
    ensures Stalls(s) ==> r == s
    ensures !Stalls(s) ==> r.currentStage == SuccessorStage(s.currentStage, s.accessResult)
    ensures r.cacheHits >= s.cacheHits && r.cacheMisses >= s.cacheMisses
    ensures r.cacheHits + r.cacheMisses
         == s.cacheHits + s.cacheMisses + (if s.currentStage == CpuRequest && s.currentOperation.Some? then 1 else 0)
  {
    match s.currentStage
    case Idle => CpuRequestStage(s)
    case CpuRequest => CheckCacheStage(s)
    case CheckCache =>
      // anything but a recorded HIT, including no result at all, is handled as a miss
      if s.accessResult == Some(Hit) then ReturnDataStage(s) else AccessMainMemoryStage(s)
    case AccessMainMemory => UpdateCacheStage(s)
    case UpdateCache => ReturnDataStage(s)
    case ReturnData => CompleteStage(s)
    case Complete => FinishRun(s)
  }

  // ---------------------------------------------------------------------------
  // The two stages the source writes by copying the cache array and assigning
  // into the copy
  // ---------------------------------------------------------------------------

  /** Copy the cache lines into a fresh array, as the source's `[...state.cache]`. */
  method CopyCache(cache: seq<CacheEntry>) returns (copy: array<CacheEntry>)
    ensures fresh(copy) && copy[..] == cache
  {
    copy := new CacheEntry[|cache|](i requires 0 <= i < |cache| => cache[i]);
  }

  method ExecuteUpdateCacheStage(s: MemoryHierarchyState) returns (r: MemoryHierarchyState)
    requires WellFormed(s)
    ensures r == UpdateCacheStage(s)
  {
    if s.currentOperation.None? {
      return s;
    }
    var op := s.currentOperation.value;
    var index := GetCacheIndex(op.address, s.cacheSize);
    var updatedCache := CopyCache(s.cache);
    updatedCache[index] := CacheEntry(true, GetCacheTag(op.address, s.cacheSize),
                                      MainMemoryRead(s.mainMemory, op.address), op.address);
    var updatedMainMemory := s.mainMemory;
    if op.opType == Write && op.data.Some? {
      updatedMainMemory := updatedMainMemory[op.address := op.data.value];
      updatedCache[index] := updatedCache[index].(data := op.data.value);
    }
    r := s.(currentStage := UpdateCache,
            activeComponents := [Cache, MainMemory],
            activeDataFlows := [MainMemoryToCache],
            cache := updatedCache[..],
            mainMemory := updatedMainMemory);
  }

  method ExecuteReturnDataStage(s: MemoryHierarchyState) returns (r: MemoryHierarchyState)
    requires WellFormed(s)
    ensures r == ReturnDataStage(s)
  {
    if s.currentOperation.None? {
      return s;
    }
    var op := s.currentOperation.value;
    var index := GetCacheIndex(op.address, s.cacheSize);
    var cpuRegister := s.cpuRegister;
    if op.opType == Read {
      cpuRegister := Some(s.cache[index].data);
    }
    var updatedCache := CopyCache(s.cache);
    var updatedMainMemory := s.mainMemory;
    if s.accessResult == Some(Hit) && op.opType == Write && op.data.Some? {
      // The source assigns `.data` on the line object itself, which the copied
      // array still shares with the previous snapshot.  Lines are values here,
      // so the previous snapshot keeps its old data.
      updatedCache[index] := updatedCache[index].(data := op.data.value);
      updatedMainMemory := updatedMainMemory[op.address := op.data.value];
    }
    r := s.(currentStage := ReturnData,
            activeComponents := [Cpu, Cache],
            activeDataFlows := [CacheToCpu],
            cpuRegister := cpuRegister,
            cache := updatedCache[..],
            mainMemory := updatedMainMemory);
  }

  // ---------------------------------------------------------------------------
  // Operations the user starts
  // ---------------------------------------------------------------------------

  /** The request built from the form: a WRITE carries `parseInt(writeData) || 0`. */
  function MakeOperation(opType: MemoryOperationType, address: int, writeData: string): (op: MemoryAccessOperation)
    ensures op.opType == opType && op.address == address
    ensures op.data.Some? <==> opType == Write
    ensures opType == Write ==> op.data.value == ParseInt(writeData).GetOr(0)
  {
    MemoryAccessOperation(opType, address,
      if opType == Write then Some(ParseInt(writeData).GetOr(0)) else None)
  }

  /** Install a new request: back to IDLE with nothing highlighted and no result. */
  function PrepareOperation(s: MemoryHierarchyState, op: MemoryAccessOperation): MemoryHierarchyState {
    s.(currentOperation := Some(op), currentStage := Idle,
       activeComponents := [], activeDataFlows := [], accessResult := None)
  }

  /** `startOperation`: reject an address that is not a number; otherwise install the
      request and take the first step at once. */
  function StartedState(s: MemoryHierarchyState, opType: MemoryOperationType,
                          selectedAddress: string, writeData: string): (r: MemoryHierarchyState)
    requires WellFormed(s)
    requires ParseInt(selectedAddress).Some? ==> ParseInt(selectedAddress).value >= 0
    ensures ParseInt(selectedAddress).None? ==> r == s
    ensures ParseInt(selectedAddress).Some? ==>
      && r.currentStage == CpuRequest && r.accessResult == None
      && r.currentOperation == Some(MakeOperation(opType, ParseInt(selectedAddress).value, writeData))
      && r.cache == s.cache && r.mainMemory == s.mainMemory
      && r.cacheHits == s.cacheHits && r.cacheMisses == s.cacheMisses
      && ActiveSetsMatchStage(r)
  {
    match ParseInt(selectedAddress)
    case None => s
    case Some(address) => NextState(PrepareOperation(s, MakeOperation(opType, address, writeData)))
  }

  /** `resetExecution`: the initial state, except that main memory and both counters
      are kept. */
  function ResetState(s: MemoryHierarchyState): (r: MemoryHierarchyState)
    ensures r.currentStage == Idle && r.currentOperation == None && r.accessResult == None
    ensures r.cpuRegister == None && ActiveSetsMatchStage(r)
    ensures r.cacheSize == |r.cache| == 4 && forall i :: 0 <= i < |r.cache| ==> !r.cache[i].valid
    ensures r.mainMemory == s.mainMemory
    ensures r.cacheHits == s.cacheHits && r.cacheMisses == s.cacheMisses
    ensures WellFormed(r) && LinesConsistent(r) && RecordedHitIsCurrent(r) && CacheAgreesWithMemory(r)
  {
    InitialMemoryHierarchyState().(
      mainMemory := s.mainMemory, cacheHits := s.cacheHits, cacheMisses := s.cacheMisses)
  }

  /** `handleAddMemory`: store a value at a new (or existing) address when both parse. */
  function AddMemory(s: MemoryHierarchyState, newAddress: string, newValue: string): (r: MemoryHierarchyState)
    ensures ParseInt(newAddress).None? || ParseInt(newValue).None? ==> r == s
    ensures ParseInt(newAddress).Some? && ParseInt(newValue).Some? ==>
      && r == s.(mainMemory := r.mainMemory)
      && r.mainMemory.Keys == s.mainMemory.Keys + {ParseInt(newAddress).value}
      && r.mainMemory[ParseInt(newAddress).value] == ParseInt(newValue).value
      && (forall a :: a in s.mainMemory && a != ParseInt(newAddress).value ==> r.mainMemory[a] == s.mainMemory[a])
      && MainMemoryRead(r.mainMemory, ParseInt(newAddress).value) == ParseInt(newValue).value
      && forall a :: a != ParseInt(newAddress).value ==> MainMemoryRead(r.mainMemory, a) == MainMemoryRead(s.mainMemory, a)
  {
    match (ParseInt(newAddress), ParseInt(newValue))
    case (Some(address), Some(value)) => s.(mainMemory := s.mainMemory[address := value])
    case _ => s
  }

  /** `handleMemoryChange`: overwrite the value at an address shown in the memory
      list when the new text parses. */
  function ChangeMemory(s: MemoryHierarchyState, address: int, value: string): (r: MemoryHierarchyState)
    ensures ParseInt(value).None? ==> r == s
    ensures ParseInt(value).Some? ==>
      && r == s.(mainMemory := r.mainMemory)
      && r.mainMemory.Keys == s.mainMemory.Keys + {address}
      && r.mainMemory[address] == ParseInt(value).value
      && (forall a :: a in s.mainMemory && a != address ==> r.mainMemory[a] == s.mainMemory[a])
      && MainMemoryRead(r.mainMemory, address) == ParseInt(value).value
      && forall a :: a != address ==> MainMemoryRead(r.mainMemory, a) == MainMemoryRead(s.mainMemory, a)
  {
    match ParseInt(value)
    case Some(v) => s.(mainMemory := s.mainMemory[address := v])
    case None => s
  }

  // ---------------------------------------------------------------------------
  // One stage at a time
  // ---------------------------------------------------------------------------

  lemma CpuRequestLoadsWriteValue(s: MemoryHierarchyState)
    requires WellFormed(s) && s.currentStage == Idle
    ensures var r := NextState(s);
      && r.cpuRegister == (if s.currentOperation.Some? && s.currentOperation.value.opType == Write
                           then Some(s.currentOperation.value.data.GetOr(0)) else None)
      && r == s.(currentStage := CpuRequest, activeComponents := [Cpu], activeDataFlows := [],
                 cpuRegister := r.cpuRegister)
  {
  }

  /** CHECK_CACHE records HIT exactly when the line of the address is valid with the
      address's tag (which is what `isCacheHit` tests), counts exactly one of hit
      or miss, and leaves the cache, main memory and CPU register alone. */
  lemma CheckCacheClassifies(s: MemoryHierarchyState)
    requires WellFormed(s) && s.currentStage == CpuRequest && s.currentOperation.Some?
    ensures var r := NextState(s);
      var address := s.currentOperation.value.address;
      && r.currentStage == CheckCache
      && (r.accessResult == Some(Hit) || r.accessResult == Some(Miss))
      && (r.accessResult == Some(Hit) <==> LineHolds(s, address))
      && (r.accessResult == Some(Hit) <==> IsCacheHit(s.cache, address) >= 0)
      && (r.accessResult == Some(Hit) ==> r.cacheHits == s.cacheHits + 1 && r.cacheMisses == s.cacheMisses)
      && (r.accessResult == Some(Miss) ==> r.cacheMisses == s.cacheMisses + 1 && r.cacheHits == s.cacheHits)
      && r.cache == s.cache && r.mainMemory == s.mainMemory && r.cpuRegister == s.cpuRegister
  {
    IsCacheHitMatchesIndexTagTest(s, s.currentOperation.value.address);
  }

  /** UPDATE_CACHE replaces only the line of the address, with a valid line for that
      address; main memory changes only at the address, and only for a WRITE. */
  lemma UpdateCacheFillsLine(s: MemoryHierarchyState)
    requires WellFormed(s) && s.currentStage == AccessMainMemory && s.currentOperation.Some?
    ensures var r := NextState(s);
      var op := s.currentOperation.value;
      var index := GetCacheIndex(op.address, s.cacheSize);
      var writes := op.opType == Write && op.data.Some?;
      && r.currentStage == UpdateCache
      && r.cache[index] == CacheEntry(true, GetCacheTag(op.address, s.cacheSize),
                                      if writes then op.data.value else MainMemoryRead(s.mainMemory, op.address),
                                      op.address)
      && (forall i :: 0 <= i < |s.cache| && i != index ==> r.cache[i] == s.cache[i])
      && (forall a :: a != op.address ==> MainMemoryRead(r.mainMemory, a) == MainMemoryRead(s.mainMemory, a))
      && (writes ==> r.mainMemory.Keys == s.mainMemory.Keys + {op.address})
      && (writes ==> r.mainMemory[op.address] == op.data.value)
      && (writes ==> forall a :: a in s.mainMemory && a != op.address ==> r.mainMemory[a] == s.mainMemory[a])
      && (!writes ==> r.mainMemory == s.mainMemory)
      && r.cpuRegister == s.cpuRegister
  {
  }

  /** RETURN_DATA: a READ copies the line into the CPU register; a WRITE after a HIT
      stores the value in the line and in main memory; a WRITE after a MISS changes
      neither (UPDATE_CACHE already did). */
  lemma ReturnDataDelivers(s: MemoryHierarchyState)
    requires WellFormed(s) && s.currentOperation.Some?
    requires s.currentStage == UpdateCache || (s.currentStage == CheckCache && s.accessResult == Some(Hit))
    ensures var r := NextState(s);
      var op := s.currentOperation.value;
      var index := GetCacheIndex(op.address, s.cacheSize);
      && r.currentStage == ReturnData
      && (op.opType == Read ==>
            r.cpuRegister == Some(s.cache[index].data) && r.cache == s.cache && r.mainMemory == s.mainMemory)
      && (op.opType == Write && op.data.Some? && s.accessResult == Some(Hit) ==>
            && r.cache == s.cache[index := s.cache[index].(data := op.data.value)]
            && r.mainMemory == s.mainMemory[op.address := op.data.value]
            && r.cpuRegister == s.cpuRegister)
      && (op.opType == Write && s.accessResult != Some(Hit) ==>
            r.cache == s.cache && r.mainMemory == s.mainMemory && r.cpuRegister == s.cpuRegister)
  {
  }

  /** Without an operation the engine cannot leave CPU_REQUEST. */
  lemma NoOperationStaysAtCpuRequest(s: MemoryHierarchyState)
    requires WellFormed(s) && s.currentStage == Idle && s.currentOperation.None?
    ensures NextState(s).currentStage == CpuRequest && NextState(s).cpuRegister == None
    ensures NextState(NextState(s)) == NextState(s)
  {
  }

  // ---------------------------------------------------------------------------
  // Invariants every transition keeps
  // ---------------------------------------------------------------------------

  lemma NextKeepsActiveSetsMatchStage(s: MemoryHierarchyState)
    requires WellFormed(s) && ActiveSetsMatchStage(s)
    ensures ActiveSetsMatchStage(NextState(s))
  {
  }

  lemma NextKeepsLinesConsistent(s: MemoryHierarchyState)
    requires WellFormed(s) && LinesConsistent(s)
    ensures LinesConsistent(NextState(s))
  {
    var r := NextState(s);
    if s.currentStage == AccessMainMemory && s.currentOperation.Some? {
      var address := s.currentOperation.value.address;
      var index := GetCacheIndex(address, s.cacheSize);
      forall i | 0 <= i < |r.cache| && r.cache[i].valid
        ensures r.cache[i].address >= 0 && GetCacheIndex(r.cache[i].address, r.cacheSize) == i
        ensures r.cache[i].tag == GetCacheTag(r.cache[i].address, r.cacheSize)
      {
        if i != index {
          assert r.cache[i] == s.cache[i];
        }
      }
    }
  }

  lemma NextKeepsRecordedHitIsCurrent(s: MemoryHierarchyState)
    requires WellFormed(s) && RecordedHitIsCurrent(s)
    ensures RecordedHitIsCurrent(NextState(s))
  {
  }

  /** Two valid lines of a consistent cache that both hold `address` are the same line. */
  lemma LineOfAddress(s: MemoryHierarchyState, i: int, address: int)
    requires WellFormed(s) && LinesConsistent(s) && address >= 0
    requires 0 <= i < |s.cache| && s.cache[i].valid && s.cache[i].address == address
    ensures i == GetCacheIndex(address, s.cacheSize)
  {
  }

  /** Write-through: once every valid line agrees with main memory, every transition
      keeps it so. */
  lemma NextKeepsCacheAgreesWithMemory(s: MemoryHierarchyState)
    requires WellFormed(s) && LinesConsistent(s) && RecordedHitIsCurrent(s) && CacheAgreesWithMemory(s)
    ensures CacheAgreesWithMemory(NextState(s))
  {
    var r := NextState(s);
    if s.currentOperation.Some? {
      var op := s.currentOperation.value;
      var index := GetCacheIndex(op.address, s.cacheSize);
      if r.mainMemory != s.mainMemory || r.cache != s.cache {
        forall i | 0 <= i < |r.cache| && r.cache[i].valid
          ensures r.cache[i].data == MainMemoryRead(r.mainMemory, r.cache[i].address)
        {
          if i == index {
            if s.currentStage != AccessMainMemory {
              // a WRITE hit: the line already held this very address
              IndexAndTagDetermineAddress(s.cache[i].address, op.address, s.cacheSize);
            }
          } else {
            assert r.cache[i] == s.cache[i];
            // another line holds another address, which main memory did not change
            assert s.cache[i].address != op.address by {
              if s.cache[i].address == op.address {
                LineOfAddress(s, i, op.address);
              }
            }
          }
        }
      }
    }
  }

  // ---------------------------------------------------------------------------
  // Whole runs
  // ---------------------------------------------------------------------------

  /** The snapshot after `n` steps. */
  function Iterate(s: MemoryHierarchyState, n: nat): (r: MemoryHierarchyState)
    requires WellFormed(s)
    ensures WellFormed(r) && r.currentOperation == s.currentOperation && r.cacheSize == s.cacheSize
    decreases n
  {
    if n == 0 then s else Iterate(NextState(s), n - 1)
  }

  /** The stages shown over the next `n` steps. */
  function Trace(s: MemoryHierarchyState, n: nat): (t: seq<MemoryAccessStage>)
    requires WellFormed(s)
    ensures |t| == n
    decreases n
  {
    if n == 0 then [] else [NextState(s).currentStage] + Trace(NextState(s), n - 1)
  }

  /** A run that starts at IDLE: 5 steps when the address is cached, 7 otherwise. */
  function RunLength(s: MemoryHierarchyState): nat
    requires WellFormed(s) && s.currentOperation.Some?
  {
    if LineHolds(s, s.currentOperation.value.address) then 5 else 7
  }

  /** The snapshot at the end of the run that starts at `s`. */
  function CompletedRun(s: MemoryHierarchyState): MemoryHierarchyState
    requires WellFormed(s) && s.currentOperation.Some?
  {
    Iterate(s, RunLength(s))
  }

  lemma {:induction false} IterateAgain(s: MemoryHierarchyState, n: nat)
    requires WellFormed(s)
    ensures Iterate(s, n + 1) == Iterate(NextState(s), n)
    ensures Trace(s, n + 1) == [NextState(s).currentStage] + Trace(NextState(s), n)
  {
  }

  /** The last three steps of every run: RETURN_DATA, COMPLETE, IDLE. */
  lemma RunTail(t: MemoryHierarchyState)
    requires WellFormed(t) && t.currentOperation.Some?
    requires t.currentStage == UpdateCache || (t.currentStage == CheckCache && t.accessResult == Some(Hit))
    ensures Trace(t, 3) == [ReturnData, Complete, Idle]
    ensures Iterate(t, 3) == FinishRun(CompleteStage(ReturnDataStage(t)))
  {
    var t1 := ReturnDataStage(t);
    var t2 := CompleteStage(t1);
    IterateAgain(t, 2); IterateAgain(t1, 1); IterateAgain(t2, 0);
  }

  /** A hit run: CPU_REQUEST, CHECK_CACHE, RETURN_DATA, COMPLETE, IDLE. */
  lemma HitRun(s: MemoryHierarchyState)
    requires WellFormed(s) && s.currentStage == Idle && s.currentOperation.Some?
    requires LineHolds(s, s.currentOperation.value.address)
    ensures Trace(s, 5) == [CpuRequest, CheckCache, ReturnData, Complete, Idle]
    ensures Iterate(s, 5)
         == FinishRun(CompleteStage(ReturnDataStage(CheckCacheStage(CpuRequestStage(s)))))
  {
    var s1 := CpuRequestStage(s);
    var s2 := CheckCacheStage(s1);
    assert s2.accessResult == Some(Hit);
    RunTail(s2);
    IterateAgain(s, 4); IterateAgain(s1, 3);
  }

  /** A miss run: CPU_REQUEST, CHECK_CACHE, ACCESS_MAIN_MEMORY, UPDATE_CACHE,
      RETURN_DATA, COMPLETE, IDLE. */
  lemma MissRun(s: MemoryHierarchyState)
    requires WellFormed(s) && s.currentStage == Idle && s.currentOperation.Some?
    requires !LineHolds(s, s.currentOperation.value.address)
    ensures Trace(s, 7) == [CpuRequest, CheckCache, AccessMainMemory, UpdateCache, ReturnData, Complete, Idle]
    ensures Iterate(s, 7)
         == FinishRun(CompleteStage(ReturnDataStage(UpdateCacheStage(AccessMainMemoryStage(
              CheckCacheStage(CpuRequestStage(s)))))))
  {
    var s1 := CpuRequestStage(s);
    var s2 := CheckCacheStage(s1);
    assert s2.accessResult == Some(Miss);
    var s3 := AccessMainMemoryStage(s2);
    var s4 := UpdateCacheStage(s3);
    assert NextState(s3) == s4;
    RunTail(s4);
    IterateAgain(s, 6); IterateAgain(s1, 5); IterateAgain(s2, 4); IterateAgain(s3, 3);
  }

  /** The invariants of a consistent write-through cache hold after any number of steps. */
  lemma {:induction false} IterateKeepsInvariants(s: MemoryHierarchyState, n: nat)
    requires WellFormed(s) && LinesConsistent(s) && RecordedHitIsCurrent(s) && CacheAgreesWithMemory(s)
    ensures var r := Iterate(s, n);
      LinesConsistent(r) && RecordedHitIsCurrent(r) && CacheAgreesWithMemory(r)
    decreases n
  {
    if n > 0 {
      NextKeepsLinesConsistent(s);
      NextKeepsRecordedHitIsCurrent(s);
      NextKeepsCacheAgreesWithMemory(s);
      IterateKeepsInvariants(NextState(s), n - 1);
    }
  }

  /** A run from IDLE returns to IDLE after 5 steps (hit) or 7 (miss), not before,
      and ends with nothing highlighted. */
  lemma RunReturnsToIdle(s: MemoryHierarchyState)
    requires WellFormed(s) && s.currentStage == Idle && s.currentOperation.Some?
    ensures var n := RunLength(s);
      && Iterate(s, n).currentStage == Idle
      && Iterate(s, n).activeComponents == [] && Iterate(s, n).activeDataFlows == []
      && (forall k :: 0 <= k < n - 1 ==> Trace(s, n)[k] != Idle)
      && Trace(s, n)[n - 1] == Idle
  {
    if LineHolds(s, s.currentOperation.value.address) { HitRun(s); } else { MissRun(s); }
  }

  /** Every run checks the cache exactly once: one of the two counters goes up by one. */
  lemma RunCountsOneAccess(s: MemoryHierarchyState)
    requires WellFormed(s) && s.currentStage == Idle && s.currentOperation.Some?
    ensures var r := CompletedRun(s);
      var hit := LineHolds(s, s.currentOperation.value.address);
      && r.cacheHits == s.cacheHits + (if hit then 1 else 0)
      && r.cacheMisses == s.cacheMisses + (if hit then 0 else 1)
  {
    if LineHolds(s, s.currentOperation.value.address) { HitRun(s); } else { MissRun(s); }
  }

  /** Write-through: after a WRITE run the line of the address holds the address and
      the written value, and main memory holds the value there and is otherwise
      unchanged. */
  lemma WriteRunIsWriteThrough(s: MemoryHierarchyState)
    requires WellFormed(s) && LinesConsistent(s) && s.currentStage == Idle
    requires s.currentOperation.Some? && s.currentOperation.value.opType == Write
    requires s.currentOperation.value.data.Some?
    ensures var r := CompletedRun(s);
      var op := s.currentOperation.value;
      var index := GetCacheIndex(op.address, s.cacheSize);
      && r.cache[index] == CacheEntry(true, GetCacheTag(op.address, s.cacheSize), op.data.value, op.address)
      && r.mainMemory == s.mainMemory[op.address := op.data.value]
      && r.cpuRegister == Some(op.data.value)
  {
    var op := s.currentOperation.value;
    var index := GetCacheIndex(op.address, s.cacheSize);
    if LineHolds(s, op.address) {
      HitRun(s);
      IndexAndTagDetermineAddress(s.cache[index].address, op.address, s.cacheSize);
    } else {
      MissRun(s);
    }
  }

  /** After a READ run the CPU register holds what the line of the address holds, and
      that line holds the address; if the cache agreed with main memory, the value
      read is main memory's. */
  lemma ReadRunLoadsRegister(s: MemoryHierarchyState)
    requires WellFormed(s) && LinesConsistent(s) && s.currentStage == Idle
    requires s.currentOperation.Some? && s.currentOperation.value.opType == Read
    ensures var r := CompletedRun(s);
      var address := s.currentOperation.value.address;
      var index := GetCacheIndex(address, s.cacheSize);
      && r.cpuRegister == Some(r.cache[index].data)
      && r.cache[index].valid && r.cache[index].address == address
      && r.mainMemory == s.mainMemory
      && (CacheAgreesWithMemory(s) ==> r.cpuRegister == Some(MainMemoryRead(s.mainMemory, address)))
  {
    var address := s.currentOperation.value.address;
    var index := GetCacheIndex(address, s.cacheSize);
    if LineHolds(s, address) {
      HitRun(s);
      IndexAndTagDetermineAddress(s.cache[index].address, address, s.cacheSize);
    } else {
      MissRun(s);
    }
  }

  /** After any run, the address is cached: repeating the request on that address
      takes the 5-step hit run. */
  lemma RepeatedAccessHits(s: MemoryHierarchyState, next: MemoryAccessOperation)
    requires WellFormed(s) && s.currentStage == Idle && s.currentOperation.Some?
    requires next.address == s.currentOperation.value.address
    ensures var again := PrepareOperation(CompletedRun(s), next);
      && WellFormed(again)
      && LineHolds(again, next.address)
      && RunLength(again) == 5
  {
    if LineHolds(s, s.currentOperation.value.address) { HitRun(s); } else { MissRun(s); }
  }

  // ---------------------------------------------------------------------------
  // Start and the memory editors
  // ---------------------------------------------------------------------------

  lemma StartOperationKeepsInvariants(s: MemoryHierarchyState, opType: MemoryOperationType,
                                      selectedAddress: string, writeData: string)
    requires WellFormed(s) && LinesConsistent(s) && RecordedHitIsCurrent(s)
    requires ParseInt(selectedAddress).Some? ==> ParseInt(selectedAddress).value >= 0
    ensures var r := StartedState(s, opType, selectedAddress, writeData);
      WellFormed(r) && LinesConsistent(r) && RecordedHitIsCurrent(r)
      && (CacheAgreesWithMemory(s) ==> CacheAgreesWithMemory(r))
  {
    if ParseInt(selectedAddress).Some? {
      var p := PrepareOperation(s, MakeOperation(opType, ParseInt(selectedAddress).value, writeData));
      NextKeepsLinesConsistent(p);
    }
  }

  /** Adding a memory cell never disturbs the cache's mapping... */
  lemma AddMemoryKeepsLinesConsistent(s: MemoryHierarchyState, newAddress: string, newValue: string)
    requires WellFormed(s) && LinesConsistent(s) && RecordedHitIsCurrent(s)
    ensures var r := AddMemory(s, newAddress, newValue);
      WellFormed(r) && LinesConsistent(r) && RecordedHitIsCurrent(r)
  {
  }

  /** ...nor does overwriting one... */
  lemma ChangeMemoryKeepsLinesConsistent(s: MemoryHierarchyState, address: int, value: string)
    requires WellFormed(s) && LinesConsistent(s) && RecordedHitIsCurrent(s)
    ensures var r := ChangeMemory(s, address, value);
      WellFormed(r) && LinesConsistent(r) && RecordedHitIsCurrent(r)
  {
  }

  /** ...but it can leave a cached line stale: after address 100 is read into the
      cache, changing main memory at 100 to 7 leaves the line holding 42. */
  lemma MemoryEditCanLeaveLineStale()
    ensures var cached := CompletedRun(PrepareOperation(InitialMemoryHierarchyState(),
                                                        MemoryAccessOperation(Read, 100, None)));
      && CacheAgreesWithMemory(cached)
      && !CacheAgreesWithMemory(ChangeMemory(cached, 100, "7"))
  {
    var s := PrepareOperation(InitialMemoryHierarchyState(), MemoryAccessOperation(Read, 100, None));
    ReadRunLoadsRegister(s);
    IterateKeepsInvariants(s, RunLength(s));
    var cached := CompletedRun(s);
    assert cached.cache[0].valid && cached.cache[0].address == 100 && cached.cache[0].data == 42;
    ParseIntReadsDigitPrefix("7", "");
    assert "7" + "" == "7";
    var edited := ChangeMemory(cached, 100, "7");
    assert edited.cache[0] == cached.cache[0];
    assert edited.cache[0].data != MainMemoryRead(edited.mainMemory, 100);
  }

  // ---------------------------------------------------------------------------
  // The worked example: read 100 twice, then write 104
  // ---------------------------------------------------------------------------

  lemma WorkedReadThenReadThenWrite()
    ensures var s0 := InitialMemoryHierarchyState();
      var first := PrepareOperation(s0, MemoryAccessOperation(Read, 100, None));
      var r1 := CompletedRun(first);
      var second := PrepareOperation(r1, MemoryAccessOperation(Read, 100, None));
      var r2 := CompletedRun(second);
      var third := PrepareOperation(r2, MemoryAccessOperation(Write, 104, Some(7)));
      var r3 := CompletedRun(third);
      && RunLength(first) == 7 && r1.accessResult == Some(Miss) && r1.cacheMisses == 1
      && r1.cache[0] == CacheEntry(true, 25, 42, 100)
      && RunLength(second) == 5 && r2.accessResult == Some(Hit) && r2.cacheHits == 1
      && r2.cpuRegister == Some(42)
      && RunLength(third) == 7 && r3.accessResult == Some(Miss)
      && r3.cache[0] == CacheEntry(true, 26, 7, 104) && r3.mainMemory[104] == 7
  {
    var s0 := InitialMemoryHierarchyState();
    var first := PrepareOperation(s0, MemoryAccessOperation(Read, 100, None));
    MissRun(first);
    var r1 := CompletedRun(first);
    var second := PrepareOperation(r1, MemoryAccessOperation(Read, 100, None));
    HitRun(second);
    var r2 := CompletedRun(second);
    var third := PrepareOperation(r2, MemoryAccessOperation(Write, 104, Some(7)));
    assert !LineHolds(third, 104);
    MissRun(third);
  }

  // ---------------------------------------------------------------------------
  // The component: the current snapshot and the handlers that replace it
  // ---------------------------------------------------------------------------

  class Visualizer {
    var memoryState: MemoryHierarchyState

    ghost predicate Valid()
      reads this
    {
      WellFormed(memoryState) && LinesConsistent(memoryState) && RecordedHitIsCurrent(memoryState)
    }

    constructor ()
      ensures Valid() && memoryState == InitialMemoryHierarchyState()
    {
      memoryState := InitialMemoryHierarchyState();
    }

    /** `executeNextStage`; `runFinished` is the source's `setIsExecuting(false)`. */
    method ExecuteNextStage() returns (runFinished: bool)
      requires Valid()
      modifies this
      ensures Valid() && memoryState == NextState(old(memoryState))
      ensures runFinished <==> old(memoryState).currentStage == Complete
    {
      NextKeepsLinesConsistent(memoryState);
      NextKeepsRecordedHitIsCurrent(memoryState);
      var s := memoryState;
      runFinished := false;
      match s.currentStage {
        case Idle => memoryState := CpuRequestStage(s);
        case CpuRequest => memoryState := CheckCacheStage(s);
        case CheckCache =>
          if s.accessResult == Some(Hit) {
            memoryState := ExecuteReturnDataStage(s);
          } else {
            memoryState := AccessMainMemoryStage(s);
          }
        case AccessMainMemory => memoryState := ExecuteUpdateCacheStage(s);
        case UpdateCache => memoryState := ExecuteReturnDataStage(s);
        case ReturnData => memoryState := CompleteStage(s);
        case Complete =>
          memoryState := FinishRun(s);
          runFinished := true;
      }
    }

    method StartOperation(selectedOperation: MemoryOperationType, selectedAddress: string, writeData: string)
      requires Valid()
      requires ParseInt(selectedAddress).Some? ==> ParseInt(selectedAddress).value >= 0
      modifies this
      ensures Valid()
      ensures memoryState
           == StartedState(old(memoryState), selectedOperation, selectedAddress, writeData)
    {
      StartOperationKeepsInvariants(memoryState, selectedOperation, selectedAddress, writeData);
      var address := ParseInt(selectedAddress);
      if address.None? {
        return;
      }
      var operation := MakeOperation(selectedOperation, address.value, writeData);
      memoryState := PrepareOperation(memoryState, operation);
      var _ := ExecuteNextStage();
    }

    method ResetExecution()
      modifies this
      ensures Valid() && memoryState == ResetState(old(memoryState))
    {
      memoryState := ResetState(memoryState);
    }

    method HandleAddMemory(newMemoryAddress: string, newMemoryValue: string)
      requires Valid()
      modifies this
      ensures Valid() && memoryState == AddMemory(old(memoryState), newMemoryAddress, newMemoryValue)
    {
      AddMemoryKeepsLinesConsistent(memoryState, newMemoryAddress, newMemoryValue);
      memoryState := AddMemory(memoryState, newMemoryAddress, newMemoryValue);
    }

    method HandleMemoryChange(address: int, value: string)
      requires Valid()
      modifies this
      ensures Valid() && memoryState == ChangeMemory(old(memoryState), address, value)
    {
      ChangeMemoryKeepsLinesConsistent(memoryState, address, value);
      memoryState := ChangeMemory(memoryState, address, value);
    }
  }
}
