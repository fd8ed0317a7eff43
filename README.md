# CompOrg-Core-Explorer: the two simulation engines, in Dafny

CompOrg-Core-Explorer is a teaching app with two animated simulators. This
project models their engines and proves properties of them.

- **Cache-access engine** (`MemoryHierarchyVisualizer.tsx` with
  `MemoryHierarchyModel.ts`). One READ or WRITE goes through a 4-line
  direct-mapped, write-through cache. The stages are IDLE → CPU_REQUEST →
  CHECK_CACHE. A HIT then goes to RETURN_DATA. A MISS goes to
  ACCESS_MAIN_MEMORY → UPDATE_CACHE → RETURN_DATA. Both paths end COMPLETE →
  IDLE. Cumulative hit and miss counters are kept.
- **Instruction-cycle engine** (`CPUVisualizer.tsx` with `CPUModel.ts`). One
  of five catalog instructions (ADD, SUB, LOAD, STORE, JUMP) steps through
  IDLE → FETCH → DECODE → EXECUTE → WRITEBACK → IDLE. It acts on a register
  map, a text-keyed memory map and a program counter.

Files:

| file | module | contents |
|---|---|---|
| `wrappers.dfy` | `Wrappers` | `Option`, for JavaScript's `null` / `undefined` / `NaN` |
| `js_numbers.dfy` | `JsNumbers` | `parseInt` without a radix, and `String(n)` for integers |
| `memory_hierarchy_model.dfy` | `MemoryHierarchyModel` | the cache datatypes, the initial state, and index/tag arithmetic |
| `memory_hierarchy_visualizer.dfy` | `MemoryHierarchyVisualizer` | stage functions, dispatch, invariants, whole runs, and the component class |
| `cpu_model.dfy` | `CPUModel` | CPU datatypes, the instruction catalog, and the initial state |
| `cpu_visualizer.dfy` | `CPUVisualizer` | the `M[digits]` matcher, stage functions, dispatch, cycle lemmas, and the component class |

Shape of the model:

- Each stage function of the source builds a new snapshot from the old one. In
  the model it is a Dafny `function` on a snapshot datatype. The stage
  functions (`CpuRequestStage` … `CompleteStage`, `FinishRun`; `FetchStage` …
  `WritebackStage`, `FinishCycle`, `ApplyInstruction`) are specified through the
  lemmas about them in the table below: the stage-effect lemmas
  (`CheckCacheClassifies`, `UpdateCacheFillsLine`, `ArithmeticSetsDestination`,
  …), the invariant lemmas and `NextState`'s own contract.
- Two stages of the cache engine copy the cache array and assign into the copy
  (UPDATE_CACHE and RETURN_DATA). They are also written as methods over a fresh
  `array`, each proved equal to its function.
- Each React component is a `class`. Its `useState` snapshot is a field. Each
  handler is a method whose `ensures` gives the new field value as a function
  of the old one.
- The class `Valid()` predicates are the invariants the handlers keep:
  - cache engine: direct mapping, and a recorded HIT still describes the cache;
  - CPU engine: the snapshot's instruction is the selected one.
- JavaScript numbers are mathematical integers.
- Where the source relies on JavaScript's truncating `%`, the model spells it
  out.

## Model

| member | source | states |
|---|---|---|
| JsNumbers.ParseInt | src/components/MemoryHierarchy/MemoryHierarchyVisualizer.tsx:80-81 | `parseInt` yields a number only if the text contains a decimal digit (otherwise `NaN`, i.e. `None`) |
| JsNumbers.ParseIntReadsDigitPrefix | src/components/CPUComponents/CPUVisualizer.tsx:398-399 | `parseInt` reads the longest decimal-digit prefix and ignores what follows (`"0100"` reads as 100) |
| JsNumbers.ParseIntWithoutDigits | src/components/CPUComponents/CPUVisualizer.tsx:398-399 | text without a decimal digit parses as `NaN`, so the setters ignore it; this restates `ParseInt`'s own contract in the caller's direction |
| JsNumbers.ParseIntOfIntToString | src/components/CPUComponents/CPUVisualizer.tsx:429-437 | `parseInt(String(n)) == n` for every integer `n` |
| JsNumbers.IntToString | src/components/CPUComponents/CPUVisualizer.tsx:437 | `String(n)` is non-empty and starts with `-` exactly when `n` is negative |
| MemoryHierarchyModel.InitialMemoryHierarchyState | src/models/MemoryHierarchyModel.ts:72-96 | starts IDLE with no operation, result or register value; 4 invalid lines, `cacheSize == 4`; counters 0; main memory is exactly 100→42, 101→55, 102→78, 200→90, 201→65, 202→33; all invariants hold |
| MemoryHierarchyModel.GetCacheIndex | src/models/MemoryHierarchyModel.ts:111-113 | JavaScript `%`: a slot in [0, size) for address ≥ 0, in (-size, 0] for a negative address, and address − index is a multiple of the size |
| MemoryHierarchyModel.GetCacheTag | src/models/MemoryHierarchyModel.ts:116-118 | `Math.floor(address / size)`: tag·size ≤ address < tag·size + size |
| MemoryHierarchyModel.IsCacheHit | src/models/MemoryHierarchyModel.ts:99-108 | returns -1 or `address % length`; a non-negative result is a valid line with tag `floor(address/length)`; -1 exactly when that line fails the test |
| MemoryHierarchyModel.AddressFromIndexAndTag | src/models/MemoryHierarchyModel.ts:110-118 | `tag·size + index == address` for address ≥ 0 |
| MemoryHierarchyModel.IndexAndTagDetermineAddress | src/models/MemoryHierarchyModel.ts:110-118 | two non-negative addresses with the same index and tag are equal |
| MemoryHierarchyModel.IsCacheHitMatchesIndexTagTest | src/models/MemoryHierarchyModel.ts:99-118 | `isCacheHit ≥ 0` exactly when the line at `getCacheIndex` is valid with tag `getCacheTag`, when `|cache| == cacheSize` |
| MemoryHierarchyModel.WorkedIndexAndTag | src/models/MemoryHierarchyModel.ts:110-118 | address 100 → index 0, tag 25; address 104 → index 0, tag 26 |
| MemoryHierarchyModel.NegativeAddressHasNoSlot | src/models/MemoryHierarchyModel.ts:111-113 | address -1 maps to index -1, which is outside the cache; address -4 maps to line 0 with tag -1 |
| MemoryHierarchyVisualizer.NextState | src/components/MemoryHierarchy/MemoryHierarchyVisualizer.tsx:129-179 | one step goes to the successor stage, except that it stalls without an operation; operation and size are kept; hits and misses together rise by one exactly on leaving CPU_REQUEST with an operation |
| MemoryHierarchyVisualizer.ExecuteUpdateCacheStage | src/components/MemoryHierarchy/MemoryHierarchyVisualizer.tsx:233-267 | the copy-and-assign version equals the UPDATE_CACHE stage function |
| MemoryHierarchyVisualizer.ExecuteReturnDataStage | src/components/MemoryHierarchy/MemoryHierarchyVisualizer.tsx:270-301 | the copy-and-assign version equals the RETURN_DATA stage function |
| MemoryHierarchyVisualizer.MakeOperation | src/components/MemoryHierarchy/MemoryHierarchyVisualizer.tsx:83-87 | the request has the chosen type and address, and carries data exactly for a WRITE; that data is the parsed write text, or 0 when it does not parse (`parseInt(writeData) \|\| 0`) |
| MemoryHierarchyVisualizer.StartedState | src/components/MemoryHierarchy/MemoryHierarchyVisualizer.tsx:77-100 | a non-numeric address changes nothing; otherwise the new request is at CPU_REQUEST with no result, and cache, memory and counters are kept |
| MemoryHierarchyVisualizer.ResetState | src/components/MemoryHierarchy/MemoryHierarchyVisualizer.tsx:118-126 | back to IDLE with 4 invalid lines; main memory and both counters are kept; all invariants hold |
| MemoryHierarchyVisualizer.AddMemory | src/components/MemoryHierarchy/MemoryHierarchyVisualizer.tsx:457-472 | when both texts parse, the address becomes a key of memory holding the value, every other key keeps its value, no key is removed and no other field changes; otherwise nothing changes |
| MemoryHierarchyVisualizer.ChangeMemory | src/components/MemoryHierarchy/MemoryHierarchyVisualizer.tsx:475-486 | when the text parses, the address is a key of memory holding the value, every other key keeps its value, no key is removed and no other field changes; otherwise nothing changes |
| MemoryHierarchyVisualizer.CpuRequestLoadsWriteValue | src/components/MemoryHierarchy/MemoryHierarchyVisualizer.tsx:182-192 | the CPU register becomes the write data (or 0) for a WRITE and null otherwise; only the stage and active sets change besides |
| MemoryHierarchyVisualizer.CheckCacheClassifies | src/components/MemoryHierarchy/MemoryHierarchyVisualizer.tsx:195-220 | HIT exactly when the line is valid with the address's tag, which is also exactly when `isCacheHit ≥ 0`; exactly one counter rises by 1; cache, memory and register are unchanged |
| MemoryHierarchyVisualizer.UpdateCacheFillsLine | src/components/MemoryHierarchy/MemoryHierarchyVisualizer.tsx:233-267 | only the address's slot is replaced, by a valid line for that address holding the written value or memory's (absent → 0); for a WRITE memory gains the address as a key holding the written value and every other key is kept; for a READ memory is unchanged |
| MemoryHierarchyVisualizer.ReturnDataDelivers | src/components/MemoryHierarchy/MemoryHierarchyVisualizer.tsx:270-301 | a READ loads the line into the register; a WRITE on a HIT writes the line and memory; a WRITE after a MISS changes neither |
| MemoryHierarchyVisualizer.NoOperationStaysAtCpuRequest | src/components/MemoryHierarchy/MemoryHierarchyVisualizer.tsx:182-196 | with no operation the engine reaches CPU_REQUEST and stays there |
| MemoryHierarchyVisualizer.NextKeepsActiveSetsMatchStage | src/components/MemoryHierarchy/MemoryHierarchyVisualizer.tsx:182-311 | the highlighted components and flows are a function of the stage, and every step keeps this |
| MemoryHierarchyVisualizer.NextKeepsLinesConsistent | src/components/MemoryHierarchy/MemoryHierarchyVisualizer.tsx:244-250 | every valid line at slot i holds an address that maps to i, under that address's tag |
| MemoryHierarchyVisualizer.NextKeepsRecordedHitIsCurrent | src/components/MemoryHierarchy/MemoryHierarchyVisualizer.tsx:195-301 | a recorded HIT keeps describing the line of the current address |
| MemoryHierarchyVisualizer.NextKeepsCacheAgreesWithMemory | src/components/MemoryHierarchy/MemoryHierarchyVisualizer.tsx:241-290 | write-through coherence: each valid line holds what main memory holds at its address, and every step keeps this |
| MemoryHierarchyVisualizer.IterateKeepsInvariants | src/components/MemoryHierarchy/MemoryHierarchyVisualizer.tsx:134-167 | the three cache invariants hold after any number of steps |
| MemoryHierarchyVisualizer.RunTail | src/components/MemoryHierarchy/MemoryHierarchyVisualizer.tsx:152-167 | from UPDATE_CACHE, or from CHECK_CACHE on a HIT, the run ends RETURN_DATA, COMPLETE, IDLE |
| MemoryHierarchyVisualizer.HitRun | src/components/MemoryHierarchy/MemoryHierarchyVisualizer.tsx:134-167 | a cached address runs CPU_REQUEST, CHECK_CACHE, RETURN_DATA, COMPLETE, IDLE |
| MemoryHierarchyVisualizer.MissRun | src/components/MemoryHierarchy/MemoryHierarchyVisualizer.tsx:134-167 | an uncached address runs CPU_REQUEST, CHECK_CACHE, ACCESS_MAIN_MEMORY, UPDATE_CACHE, RETURN_DATA, COMPLETE, IDLE |
| MemoryHierarchyVisualizer.RunReturnsToIdle | src/components/MemoryHierarchy/MemoryHierarchyVisualizer.tsx:158-167 | a run returns to IDLE after 5 steps (hit) or 7 (miss), not earlier, and nothing stays highlighted |
| MemoryHierarchyVisualizer.RunCountsOneAccess | src/components/MemoryHierarchy/MemoryHierarchyVisualizer.tsx:207-209 | each run adds exactly one hit (cached address) or one miss (uncached) |
| MemoryHierarchyVisualizer.WriteRunIsWriteThrough | src/components/MemoryHierarchy/MemoryHierarchyVisualizer.tsx:241-290 | after a WRITE run, the line holds the address and the value, memory equals the old memory with the value stored there, and the register holds the value |
| MemoryHierarchyVisualizer.ReadRunLoadsRegister | src/components/MemoryHierarchy/MemoryHierarchyVisualizer.tsx:276-280 | after a READ run, the register equals the line, the line holds the address, and memory is unchanged; with a coherent cache, the register equals memory's value |
| MemoryHierarchyVisualizer.RepeatedAccessHits | src/components/MemoryHierarchy/MemoryHierarchyVisualizer.tsx:244-250 | after any run, a new request for the same address takes the 5-step hit run |
| MemoryHierarchyVisualizer.StartOperationKeepsInvariants | src/components/MemoryHierarchy/MemoryHierarchyVisualizer.tsx:89-99 | starting a request keeps the mapping, recorded-hit and coherence invariants |
| MemoryHierarchyVisualizer.AddMemoryKeepsLinesConsistent | src/components/MemoryHierarchy/MemoryHierarchyVisualizer.tsx:457-472 | adding a memory cell keeps the mapping and recorded-hit invariants |
| MemoryHierarchyVisualizer.ChangeMemoryKeepsLinesConsistent | src/components/MemoryHierarchy/MemoryHierarchyVisualizer.tsx:475-486 | overwriting a memory cell keeps the mapping and recorded-hit invariants |
| MemoryHierarchyVisualizer.MemoryEditCanLeaveLineStale | src/components/MemoryHierarchy/MemoryHierarchyVisualizer.tsx:475-486 | editing main memory can break coherence: after 100 is read and cached, setting memory at 100 to 7 leaves the line holding 42 |
| MemoryHierarchyVisualizer.WorkedReadThenReadThenWrite | src/components/MemoryHierarchy/MemoryHierarchyVisualizer.tsx:134-311 | READ 100 misses (line 0 = valid, tag 25, data 42, address 100); READ 100 again hits and loads 42; WRITE 7 to 104 misses, and line 0 and memory at 104 then hold 7 |
| MemoryHierarchyVisualizer.Visualizer.constructor | src/components/MemoryHierarchy/MemoryHierarchyVisualizer.tsx:55 | the component starts from the initial state |
| MemoryHierarchyVisualizer.Visualizer.ExecuteNextStage | src/components/MemoryHierarchy/MemoryHierarchyVisualizer.tsx:129-179 | the dispatch, using the array versions of the two copying stages, equals one `NextState` step, keeps the invariants, and reports when COMPLETE → IDLE finishes a run |
| MemoryHierarchyVisualizer.Visualizer.StartOperation | src/components/MemoryHierarchy/MemoryHierarchyVisualizer.tsx:77-100 | install the request and take the first step; the new state is `StartedState` and the invariants hold |
| MemoryHierarchyVisualizer.Visualizer.ResetExecution | src/components/MemoryHierarchy/MemoryHierarchyVisualizer.tsx:118-126 | the new state is `ResetState` of the old one |
| MemoryHierarchyVisualizer.Visualizer.HandleAddMemory | src/components/MemoryHierarchy/MemoryHierarchyVisualizer.tsx:457-472 | the new state is `AddMemory` of the old one, and the invariants hold |
| MemoryHierarchyVisualizer.Visualizer.HandleMemoryChange | src/components/MemoryHierarchy/MemoryHierarchyVisualizer.tsx:475-486 | the new state is `ChangeMemory` of the old one, and the invariants hold |
| CPUModel.InitialCPUState | src/models/CPUModel.ts:89-104 | IDLE, nothing highlighted, no instruction, pc 0; registers R1=0, R2=5, R3=10, R4=15; memory {"100": 42} |
| CPUModel.CatalogOrder | src/models/CPUModel.ts:49-75 | exactly 5 instructions of distinct kinds, in the order ADD, SUB, LOAD, STORE, JUMP |
| CPUVisualizer.MatchMemAddress | src/components/CPUComponents/CPUVisualizer.tsx:238-240 | the capture of `M\[(\d+)\]`: a result is the digits of a match with no match further left; no result means no match anywhere |
| CPUVisualizer.MatchIsUnique | src/components/CPUComponents/CPUVisualizer.tsx:238 | at a given position the captured digits are determined |
| CPUVisualizer.MatchOfBracketedDigits | src/components/CPUComponents/CPUVisualizer.tsx:238-240 | `M[d]…` captures `d` exactly, leading zeros included |
| CPUVisualizer.NextState | src/components/CPUComponents/CPUVisualizer.tsx:134-173 | one step goes to the next stage of the cycle; the active sets are those of the new stage; only leaving DECODE touches registers and memory; leaving IDLE adds 1 to pc |
| CPUVisualizer.ArithmeticSetsDestination | src/components/CPUComponents/CPUVisualizer.tsx:210-232 | ADD/SUB with ≥3 operands set the destination to src1 ± src2 (absent → 0); other registers, memory and pc are unchanged |
| CPUVisualizer.LoadReadsMemory | src/components/CPUComponents/CPUVisualizer.tsx:234-247 | LOAD sets the destination to the cell keyed by the captured digits (absent → 0); nothing else changes |
| CPUVisualizer.StoreWritesMemory | src/components/CPUComponents/CPUVisualizer.tsx:249-262 | STORE sets the cell keyed by the captured digits to the source register (absent → 0); nothing else changes |
| CPUVisualizer.JumpSetsPc | src/components/CPUComponents/CPUVisualizer.tsx:264-271 | JUMP with a numeric operand sets pc to it; registers and memory are unchanged |
| CPUVisualizer.SkippedExecuteChangesNoData | src/components/CPUComponents/CPUVisualizer.tsx:205-275 | with no instruction, too few operands, no `M[…]` match, or a NaN target, the stage becomes EXECUTE and no data changes |
| CPUVisualizer.StoreThenLoadRoundTrip | src/components/CPUComponents/CPUVisualizer.tsx:234-262 | a STORE to `M[d]` followed by a LOAD from `M[d]` reads back the stored register |
| CPUVisualizer.LeadingZerosMakeADifferentKey | src/components/CPUComponents/CPUVisualizer.tsx:238-259 | STORE to `M[0100]` makes a new key "0100", and LOAD from `M[100]` still reads 42 |
| CPUVisualizer.FullCycle | src/components/CPUComponents/CPUVisualizer.tsx:139-161 | five steps from IDLE show FETCH, DECODE, EXECUTE, WRITEBACK, IDLE and end with nothing highlighted |
| CPUVisualizer.ApplyInstructionIgnoresStage | src/components/CPUComponents/CPUVisualizer.tsx:197-275 | an instruction's data change does not depend on the stage or highlights, and touches only registers, memory and pc |
| CPUVisualizer.CycleEffect | src/components/CPUComponents/CPUVisualizer.tsx:134-285 | a whole cycle leaves exactly the instruction's effect applied after pc + 1 (so a JUMP overrides the increment) |
| CPUVisualizer.SelectInstruction | src/components/CPUComponents/CPUVisualizer.tsx:82-90 | back to IDLE with the new instruction; registers are kept, memory is restored to the initial one, pc is 0 |
| CPUVisualizer.ResetState | src/components/CPUComponents/CPUVisualizer.tsx:117-131 | back to IDLE with the selected instruction (or none); registers are kept, memory is restored, pc is 0 |
| CPUVisualizer.ResetIsIdempotent | src/components/CPUComponents/CPUVisualizer.tsx:117-131 | resetting twice equals resetting once; resetting with an instruction selected equals selecting it |
| CPUVisualizer.ChangeRegister | src/components/CPUComponents/CPUVisualizer.tsx:397-408 | non-numeric text changes nothing; otherwise only the named register changes |
| CPUVisualizer.ChangeMemory | src/components/CPUComponents/CPUVisualizer.tsx:411-422 | non-numeric text changes nothing; otherwise only the named cell changes |
| CPUVisualizer.AddMemoryCell | src/components/CPUComponents/CPUVisualizer.tsx:428-443 | when both texts parse, only the cell keyed `String(address)` changes; otherwise nothing changes |
| CPUVisualizer.AddedKeyParsesBack | src/components/CPUComponents/CPUVisualizer.tsx:429-437 | the key written by `handleAddMemory` parses back to the address that was entered |
| CPUVisualizer.ArithmeticCatalogEntries | src/models/CPUModel.ts:50-59 | ADD and SUB meet their arity check, and their descriptions are "dest = src1 ± src2" |
| CPUVisualizer.MemoryCatalogEntries | src/models/CPUModel.ts:60-69 | LOAD and STORE have a matching `M[100]` operand, and their descriptions name cell 100 and R1 |
| CPUVisualizer.JumpCatalogEntry | src/models/CPUModel.ts:70-74 | JUMP's operand parses to 200, and its description is "PC = 200" |
| CPUVisualizer.CatalogTakesEffectAsDescribed | src/models/CPUModel.ts:49-75 | no catalog instruction takes the silent-skip path, and each description states the effect EXECUTE computes |
| CPUVisualizer.WorkedJump | src/components/CPUComponents/CPUVisualizer.tsx:264-270 | selected JUMP: pc is 1 after FETCH, 200 after EXECUTE, and still 200 back at IDLE |
| CPUVisualizer.WorkedArithmeticAndMemory | src/components/CPUComponents/CPUVisualizer.tsx:205-262 | from the initial registers, one cycle of ADD gives R1 = 15, SUB gives R1 = -5, LOAD gives R1 = 42, STORE gives memory "100" = 0 |
| CPUVisualizer.Visualizer.constructor | src/components/CPUComponents/CPUVisualizer.tsx:62-64 | starts from the initial state with nothing selected |
| CPUVisualizer.Visualizer.HandleInstructionSelect | src/components/CPUComponents/CPUVisualizer.tsx:82-90 | records the selection; the new state is `SelectInstruction` of the old one |
| CPUVisualizer.Visualizer.ExecuteStep | src/components/CPUComponents/CPUVisualizer.tsx:101-105 | does nothing with no selection; otherwise takes one `NextState` step and reports when WRITEBACK → IDLE finishes the cycle |
| CPUVisualizer.Visualizer.ResetExecution | src/components/CPUComponents/CPUVisualizer.tsx:117-131 | the new state is `ResetState` of the old one with the current selection |
| CPUVisualizer.Visualizer.HandleRegisterChange | src/components/CPUComponents/CPUVisualizer.tsx:397-408 | the new state is `ChangeRegister` of the old one |
| CPUVisualizer.Visualizer.HandleMemoryChange | src/components/CPUComponents/CPUVisualizer.tsx:411-422 | the new state is `ChangeMemory` of the old one |
| CPUVisualizer.Visualizer.HandleAddMemory | src/components/CPUComponents/CPUVisualizer.tsx:428-443 | the new state is `AddMemoryCell` of the old one |

## Left out

- Rendering is not modelled: the `render*` functions, component positions, SVG
  paths, JSX panels and CSS.
- Auto-run is not modelled:
  - the animation timer, `setTimeout` / `clearTimeout`, `animationSpeed` and
    the unmount cleanup;
  - the `isExecuting` flag that gates the buttons.

  A step instead returns a flag saying it finished the run or cycle.
  `startExecution` in the CPU component sets `isExecuting` and takes one step.
  The step's updater reads `isExecuting` from the render that created it, where
  it is still false (`src/components/CPUComponents/CPUVisualizer.tsx:165`), so
  no timer is scheduled. Start therefore takes exactly one step, which
  `CPUVisualizer.Visualizer.ExecuteStep` models. The flag then stays true until
  Stop or Reset, unless Start is pressed at WRITEBACK (the button is enabled
  there after single steps, `CPUVisualizer.tsx:560`): that step's updater
  clears the flag (`CPUVisualizer.tsx:160`), and `ExecuteStep` reports that
  step as `cycleFinished`. The memory component's `startOperation` has the same shape
  (`src/components/MemoryHierarchy/MemoryHierarchyVisualizer.tsx:171`): it
  installs the request and takes one step, as `StartedState` models, and no
  timer follows. `stopExecution` only touches the timer and the flag, so it
  has no counterpart.
- React's `useState` updaters and their batching are not modelled. Each handler
  is one atomic update of a class field.
- The form fields are parameters, not state: selected operation, address, write
  data, and the new-memory address and value. The reset of the new-memory
  fields to `''` and `'0'` after a successful add is not modelled.
- `src/App.tsx` is not modelled. It only mounts a component.
- Numbers are unbounded integers, not IEEE doubles. Not captured:
  - rounding of very long digit strings in `parseInt`;
  - overflow of ADD/SUB;
  - the distinction between `-0` and `0`.
- Register and memory maps are plain maps:
  - JavaScript objects also answer prototype keys (`"constructor"` …); those
    are not modelled;
  - the display order of `Object.entries` is not modelled.
- The cache engine's main memory is keyed by integers. `handleMemoryChange`
  receives a key from `Object.entries`, which is the canonical text of an
  integer, so it takes the integer.
- In RETURN_DATA, a WRITE on a HIT copies the cache array shallowly. It then
  assigns `.data` on the line object, which the previous snapshot shares.
  Lines here are values, so the previous snapshot keeps its old data. The
  snapshots the engine goes on to use are the same.
- `MemoryHierarchyVisualizer.StartedState` and
  `MemoryHierarchyVisualizer.Visualizer.StartOperation` exclude every negative
  address. The source behaves in two ways there. An address that is not a
  multiple of the cache size gives a negative slot, and reading `cache[slot].valid`
  throws (`MemoryHierarchyVisualizer.tsx:199-204`). A negative multiple of the
  cache size gives `-0`, which indexes line 0, and the run goes on with a
  negative tag. Neither case is modelled as a run; `GetCacheIndex`,
  `GetCacheTag` and `NegativeAddressHasNoSlot` model the slot and tag the source
  computes.
- `MemoryHierarchyModel.IsCacheHit`: excludes every negative address, for the
  same reason; the source throws for those that are not multiples of the
  cache size (`cache[index]` is undefined) and tests line 0 for those that are.
- The BUS component and the CACHE_TO_MAIN_MEMORY flow are declared but never
  activated. They appear only as datatype constructors.
