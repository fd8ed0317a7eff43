/** The instruction-cycle engine of `CPUVisualizer.tsx`: the selected instruction
    steps IDLE -> FETCH -> DECODE -> EXECUTE -> WRITEBACK -> IDLE, and only EXECUTE
    changes registers, memory or the program counter.

    Each stage function maps one snapshot to the next.  The React component that
    holds the current snapshot and the selected instruction is the class
    `Visualizer` at the end. */
module CPUVisualizer {
  import opened Wrappers
  import opened JsNumbers
  import opened CPUModel

  // ---------------------------------------------------------------------------
  // Reference tables: the stage cycle and the highlighted parts of each stage
  // ---------------------------------------------------------------------------

  function SuccessorStage(stage: ExecutionStage): ExecutionStage {
    match stage
    case Idle => Fetch
    case Fetch => Decode
    case Decode => Execute
    case Execute => Writeback
    case Writeback => Idle
  }

  function ComponentsFor(stage: ExecutionStage): seq<CPUComponentType> {
    match stage
    case Idle => []
    case Fetch => [Pc, Memory, Ir]
    case Decode => [Ir, Decoder]
    case Execute => [Decoder, Alu]
    case Writeback => [Alu, Register]
  }

  function DataFlowsFor(stage: ExecutionStage): seq<DataFlowDirection> {
    match stage
    case Idle => []
    case Fetch => [PcToMemory, MemoryToIr]
    case Decode => [IrToDecoder]
    case Execute => [DecoderToAlu]
    case Writeback => [AluToRegister]
  }

  predicate ActiveSetsMatchStage(s: CPUState) {
    s.activeComponents == ComponentsFor(s.currentStage)
    && s.activeDataFlows == DataFlowsFor(s.currentStage)
  }

  // ---------------------------------------------------------------------------
  // Operands
  // ---------------------------------------------------------------------------

  /** `registers[name] || 0`: an absent register reads as 0. */
  function RegisterValue(registers: map<string, int>, name: string): int {
    if name in registers then registers[name] else 0
  }

  /** `memory[key] || 0`: an absent cell reads as 0. */
  function MemoryValue(memory: map<string, int>, key: string): int {
    if key in memory then memory[key] else 0
  }

  /** Reference meaning of the pattern `M\[(\d+)\]`: the text `M[`, a non-empty run
      of the digits 0-9, and `]` occur in `s` starting at `p`, and `d` is the run. */
  predicate IsMatch(s: string, p: int, d: string) {
    && 0 <= p && |d| > 0 && AllDigits(d, 10)
    && p + |d| + 3 <= |s|
    && s[p..p + |d| + 3] == "M[" + d + "]"
  }

  /** How a regular-expression engine tries position `p`: `M`, `[`, the longest
      digit run, then `]` (a shorter run would be followed by a digit, not `]`). */
  predicate MatchesAt(s: string, p: nat) {
    && p + 2 <= |s| && s[p] == 'M' && s[p + 1] == '['
    && var n := DigitPrefixLength(s[p + 2..], 10);
       n > 0 && p + 2 + n < |s| && s[p + 2 + n] == ']'
  }

  function CaptureAt(s: string, p: nat): string
    requires MatchesAt(s, p)
  {
    s[p + 2..p + 2 + DigitPrefixLength(s[p + 2..], 10)]
  }

  lemma MatchesAtIsMatch(s: string, p: nat)
    requires MatchesAt(s, p)
    ensures IsMatch(s, p, CaptureAt(s, p))
  {
    var d := CaptureAt(s, p);
    assert d == s[p + 2..][..|d|];
    assert s[p..p + |d| + 3] == "M[" + d + "]";
  }

  lemma {:induction false} IsMatchMatchesAt(s: string, p: nat, d: string)
    requires IsMatch(s, p, d)
    ensures MatchesAt(s, p) && CaptureAt(s, p) == d
  {
    var window := s[p..p + |d| + 3];
    assert window == "M[" + d + "]";
    assert s[p] == window[0] && s[p + 1] == window[1];
    var rest := s[p + 2 + |d|..];
    assert rest[0] == window[|d| + 2] == ']';
    assert forall i :: 0 <= i < |d| ==> s[p + 2..p + 2 + |d|][i] == window[2 + i] == d[i];
    assert s[p + 2..p + 2 + |d|] == d;
    assert s[p + 2..] == d + rest;
    DigitPrefixLengthOfPrefix(d, rest, 10);
  }

  lemma NoMatchAt(s: string, p: nat)
    requires !MatchesAt(s, p)
    ensures forall d :: !IsMatch(s, p, d)
  {
    forall d | IsMatch(s, p, d)
      ensures false
    {
      IsMatchMatchesAt(s, p, d);
    }
  }

  /** The leftmost match at or after `p`. */
  function FirstMatchFrom(s: string, p: nat): (r: Option<string>)
    requires p <= |s|
    ensures r.Some? ==>
      exists q :: p <= q <= |s| && IsMatch(s, q, r.value)
                  && forall q', d :: p <= q' < q ==> !IsMatch(s, q', d)
    ensures r.None? ==> forall q, d :: p <= q ==> !IsMatch(s, q, d)
    decreases |s| - p
  {
    if MatchesAt(s, p) then
      MatchesAtIsMatch(s, p);
      Some(CaptureAt(s, p))
    else
      NoMatchAt(s, p);
      if p == |s| then None else FirstMatchFrom(s, p + 1)
  }

  /** `s.match(/M\[(\d+)\]/)?.[1]`: the digits of the leftmost `M[digits]` in `s`,
      exactly as written (leading zeros kept). */
  function MatchMemAddress(s: string): (r: Option<string>)
    ensures r.Some? ==>
      exists p :: 0 <= p <= |s| && IsMatch(s, p, r.value)
                  && forall q, d :: 0 <= q < p ==> !IsMatch(s, q, d)
    ensures r.None? ==> forall p, d :: !IsMatch(s, p, d)
  {
    FirstMatchFrom(s, 0)
  }

  /** At a given position the digits of a match are determined. */
  lemma MatchIsUnique(s: string, p: nat, d: string, e: string)
    requires IsMatch(s, p, d) && IsMatch(s, p, e)
    ensures d == e
  {
    IsMatchMatchesAt(s, p, d);
    IsMatchMatchesAt(s, p, e);
  }

  /** `M[digits]` followed by anything yields its digits, leading zeros included. */
  lemma MatchOfBracketedDigits(d: string, rest: string)
    requires |d| > 0 && AllDigits(d, 10)
    ensures MatchMemAddress("M[" + d + "]" + rest) == Some(d)
  {
    var s := "M[" + d + "]" + rest;
    assert s[0..|d| + 3] == "M[" + d + "]";
    assert IsMatch(s, 0, d);
    IsMatchMatchesAt(s, 0, d);
  }

  // ---------------------------------------------------------------------------
  // The stage functions
  // ---------------------------------------------------------------------------

  /** FETCH: the program counter moves on by one. */
  function FetchStage(s: CPUState): CPUState {
    s.(currentStage := Fetch,
       activeComponents := [Pc, Memory, Ir],
       activeDataFlows := [PcToMemory, MemoryToIr],
       pc := s.pc + 1)
  }

  function DecodeStage(s: CPUState): CPUState {
    s.(currentStage := Decode, activeComponents := [Ir, Decoder], activeDataFlows := [IrToDecoder])
  }

  /** The data change of one instruction; an instruction with too few operands, no
      `M[digits]` operand or a target that is not a number changes nothing. */
  function ApplyInstruction(s: CPUState, instruction: Instruction): CPUState {
    var operands := instruction.operands;
    match instruction.instrType
    case Add =>
      if |operands| >= 3 then
        s.(registers := s.registers[operands[0] :=
             RegisterValue(s.registers, operands[1]) + RegisterValue(s.registers, operands[2])])
      else s
    case Sub =>
      if |operands| >= 3 then
        s.(registers := s.registers[operands[0] :=
             RegisterValue(s.registers, operands[1]) - RegisterValue(s.registers, operands[2])])
      else s
    case Load =>
      if |operands| >= 2 then
        match MatchMemAddress(operands[1])
        case Some(memAddr) => s.(registers := s.registers[operands[0] := MemoryValue(s.memory, memAddr)])
        case None => s
      else s
    case Store =>
      if |operands| >= 2 then
        match MatchMemAddress(operands[0])
        case Some(memAddr) => s.(memory := s.memory[memAddr := RegisterValue(s.registers, operands[1])])
        case None => s
      else s
    case Jump =>
      if |operands| >= 1 then
        match ParseInt(operands[0])
        case Some(target) => s.(pc := target)
        case None => s
      else s
  }

  /** EXECUTE: highlight the decoder and ALU and apply the current instruction, if any. */
  function ExecuteStage(s: CPUState): CPUState {
    var newState := s.(currentStage := Execute, activeComponents := [Decoder, Alu],
                       activeDataFlows := [DecoderToAlu]);
    match s.currentInstruction
    case Some(instruction) => ApplyInstruction(newState, instruction)
    case None => newState
  }

  function WritebackStage(s: CPUState): CPUState {
    s.(currentStage := Writeback, activeComponents := [Alu, Register], activeDataFlows := [AluToRegister])
  }

  /** WRITEBACK -> IDLE: the cycle is over and nothing is highlighted. */
  function FinishCycle(s: CPUState): CPUState {
    s.(currentStage := Idle, activeComponents := [], activeDataFlows := [])
  }

  /** One call of `executeNextStage`: the next stage of the cycle; only the step out of
      DECODE touches registers and memory, and only the steps out of IDLE and DECODE
      touch the program counter. */
  function NextState(s: CPUState): (r: CPUState)
    ensures r.currentStage == SuccessorStage(s.currentStage)
    ensures ActiveSetsMatchStage(r)
    ensures r.currentInstruction == s.currentInstruction
    ensures s.currentStage != Decode ==> r.registers == s.registers && r.memory == s.memory
    ensures s.currentStage == Idle ==> r.pc == s.pc + 1
    ensures s.currentStage != Idle && s.currentStage != Decode ==> r.pc == s.pc
  {
    match s.currentStage
    case Idle => FetchStage(s)
    case Fetch => DecodeStage(s)
    case Decode => ExecuteStage(s)
    case Execute => WritebackStage(s)
    case Writeback => FinishCycle(s)
  }

  // ---------------------------------------------------------------------------
  // What EXECUTE does, instruction by instruction
  // ---------------------------------------------------------------------------

  /** The instruction meets the arity and operand format its EXECUTE case checks. */
  predicate TakesEffect(instruction: Instruction) {
    var operands := instruction.operands;
    match instruction.instrType
    case Add => |operands| >= 3
    case Sub => |operands| >= 3
    case Load => |operands| >= 2 && MatchMemAddress(operands[1]).Some?
    case Store => |operands| >= 2 && MatchMemAddress(operands[0]).Some?
    case Jump => |operands| >= 1 && ParseInt(operands[0]).Some?
  }

  /** ADD and SUB store the sum or difference of the two source registers (absent
      ones read as 0) in the destination; memory and pc are untouched. */
  lemma ArithmeticSetsDestination(s: CPUState)
    requires s.currentStage == Decode && s.currentInstruction.Some?
    requires s.currentInstruction.value.instrType in {Add, Sub}
    requires |s.currentInstruction.value.operands| >= 3
    ensures var r := NextState(s);
      var ops := s.currentInstruction.value.operands;
      var a := RegisterValue(s.registers, ops[1]);
      var b := RegisterValue(s.registers, ops[2]);
      && r.registers.Keys == s.registers.Keys + {ops[0]}
      && r.registers[ops[0]] == (if s.currentInstruction.value.instrType == Add then a + b else a - b)
      && (forall k :: k in s.registers && k != ops[0] ==> r.registers[k] == s.registers[k])
      && r.memory == s.memory && r.pc == s.pc
  {
  }

  /** LOAD copies the addressed memory cell (absent reads as 0) into the destination. */
  lemma LoadReadsMemory(s: CPUState)
    requires s.currentStage == Decode && s.currentInstruction.Some?
    requires s.currentInstruction.value.instrType == Load
    requires |s.currentInstruction.value.operands| >= 2
    requires MatchMemAddress(s.currentInstruction.value.operands[1]).Some?
    ensures var r := NextState(s);
      var ops := s.currentInstruction.value.operands;
      var key := MatchMemAddress(ops[1]).value;
      && r.registers.Keys == s.registers.Keys + {ops[0]}
      && r.registers[ops[0]] == MemoryValue(s.memory, key)
      && (forall k :: k in s.registers && k != ops[0] ==> r.registers[k] == s.registers[k])
      && r.memory == s.memory && r.pc == s.pc
  {
  }

  /** STORE copies the source register (absent reads as 0) into the addressed cell. */
  lemma StoreWritesMemory(s: CPUState)
    requires s.currentStage == Decode && s.currentInstruction.Some?
    requires s.currentInstruction.value.instrType == Store
    requires |s.currentInstruction.value.operands| >= 2
    requires MatchMemAddress(s.currentInstruction.value.operands[0]).Some?
    ensures var r := NextState(s);
      var ops := s.currentInstruction.value.operands;
      var key := MatchMemAddress(ops[0]).value;
      && r.memory.Keys == s.memory.Keys + {key}
      && r.memory[key] == RegisterValue(s.registers, ops[1])
      && (forall k :: k in s.memory && k != key ==> r.memory[k] == s.memory[k])
      && r.registers == s.registers && r.pc == s.pc
  {
  }

  /** JUMP with a numeric target replaces the program counter. */
  lemma JumpSetsPc(s: CPUState)
    requires s.currentStage == Decode && s.currentInstruction.Some?
    requires s.currentInstruction.value.instrType == Jump
    requires |s.currentInstruction.value.operands| >= 1
    requires ParseInt(s.currentInstruction.value.operands[0]).Some?
    ensures var r := NextState(s);
      && r.pc == ParseInt(s.currentInstruction.value.operands[0]).value
      && r.registers == s.registers && r.memory == s.memory
  {
  }

  /** Without an instruction, or with one that fails its arity or format check,
      EXECUTE still moves the stage on but changes no data. */
  lemma SkippedExecuteChangesNoData(s: CPUState)
    requires s.currentStage == Decode
    requires s.currentInstruction.None? || !TakesEffect(s.currentInstruction.value)
    ensures var r := NextState(s);
      && r.currentStage == Execute
      && r.registers == s.registers && r.memory == s.memory && r.pc == s.pc
  {
  }

  /** Storing a register to `M[d]` and loading `M[d]` back gives the register's value. */
  lemma StoreThenLoadRoundTrip(s: CPUState, address: string, source: string, dest: string)
    requires MatchMemAddress(address).Some?
    ensures var stored := ApplyInstruction(s, Instruction(Store, [address, source], ""));
      var loaded := ApplyInstruction(stored, Instruction(Load, [dest, address], ""));
      && RegisterValue(loaded.registers, dest) == RegisterValue(s.registers, source)
      && loaded.pc == s.pc
  {
  }

  /** Memory keys are the digit texts as written: a STORE to `M[0100]` creates a cell
      of its own, and a LOAD from `M[100]` still reads the cell "100". */
  lemma LeadingZerosMakeADifferentKey(s: CPUState)
    requires s.memory == InitialMemory
    ensures var stored := ApplyInstruction(s, Instruction(Store, ["M[0100]", "R2"], ""));
      var loaded := ApplyInstruction(stored, Instruction(Load, ["R1", "M[100]"], ""));
      && stored.memory.Keys == {"100", "0100"}
      && RegisterValue(loaded.registers, "R1") == 42
  {
    MatchOfBracketedDigits("0100", "");
    assert "M[" + "0100" + "]" + "" == "M[0100]";
    MatchOfBracketedDigits("100", "");
    assert "M[" + "100" + "]" + "" == "M[100]";
    assert "0100" != "100" by { assert |"0100"| != |"100"|; }
  }

  // ---------------------------------------------------------------------------
  // The whole cycle
  // ---------------------------------------------------------------------------

  function Iterate(s: CPUState, n: nat): CPUState
    decreases n
  {
    if n == 0 then s else Iterate(NextState(s), n - 1)
  }

  /** The stages shown over the next `n` steps. */
  function Trace(s: CPUState, n: nat): (t: seq<ExecutionStage>)
    ensures |t| == n
    decreases n
  {
    if n == 0 then [] else [NextState(s).currentStage] + Trace(NextState(s), n - 1)
  }

  lemma {:induction false} IterateAgain(s: CPUState, n: nat)
    ensures Iterate(s, n + 1) == Iterate(NextState(s), n)
    ensures Trace(s, n + 1) == [NextState(s).currentStage] + Trace(NextState(s), n)
  {
  }

  /** Five steps from IDLE show FETCH, DECODE, EXECUTE, WRITEBACK and IDLE and end
      with nothing highlighted. */
  lemma FullCycle(s: CPUState)
    requires s.currentStage == Idle
    ensures Trace(s, 5) == [Fetch, Decode, Execute, Writeback, Idle]
    ensures Iterate(s, 5) == FinishCycle(WritebackStage(ExecuteStage(DecodeStage(FetchStage(s)))))
    ensures Iterate(s, 5).activeComponents == [] && Iterate(s, 5).activeDataFlows == []
  {
    var s1 := NextState(s);
    var s2 := NextState(s1);
    var s3 := NextState(s2);
    var s4 := NextState(s3);
    IterateAgain(s, 4); IterateAgain(s1, 3); IterateAgain(s2, 2); IterateAgain(s3, 1); IterateAgain(s4, 0);
  }

  /** The data change of an instruction does not depend on the stage or on what is
      highlighted, and changes nothing else. */
  lemma ApplyInstructionIgnoresStage(t: CPUState, instruction: Instruction, stage: ExecutionStage,
                                     components: seq<CPUComponentType>, flows: seq<DataFlowDirection>)
    ensures var a := ApplyInstruction(t, instruction);
      && ApplyInstruction(t.(currentStage := stage, activeComponents := components, activeDataFlows := flows), instruction)
         == a.(currentStage := stage, activeComponents := components, activeDataFlows := flows)
      && a == t.(registers := a.registers, memory := a.memory, pc := a.pc)
  {
  }

  /** A whole cycle leaves exactly the data change of the instruction, applied after
      the program counter moved on by one. */
  lemma CycleEffect(s: CPUState)
    requires s.currentStage == Idle
    ensures var r := Iterate(s, 5);
      var fetched := s.(pc := s.pc + 1);
      && r.currentStage == Idle && r.currentInstruction == s.currentInstruction
      && (s.currentInstruction.None? ==>
            r.registers == s.registers && r.memory == s.memory && r.pc == s.pc + 1)
      && (s.currentInstruction.Some? ==>
            var applied := ApplyInstruction(fetched, s.currentInstruction.value);
            r.registers == applied.registers && r.memory == applied.memory && r.pc == applied.pc)
  {
    FullCycle(s);
    if s.currentInstruction.Some? {
      var fetched := s.(pc := s.pc + 1);
      assert DecodeStage(FetchStage(s)) == fetched.(currentStage := Decode, activeComponents := [Ir, Decoder],
                                                   activeDataFlows := [IrToDecoder]);
      ApplyInstructionIgnoresStage(fetched, s.currentInstruction.value, Execute, [Decoder, Alu], [DecoderToAlu]);
    }
  }

  // ---------------------------------------------------------------------------
  // Selection, reset and the editors
  // ---------------------------------------------------------------------------

  /** `handleInstructionSelect`: back to the initial state with the new instruction,
      keeping the registers. */
  function SelectInstruction(s: CPUState, instruction: Instruction): (r: CPUState)
    ensures r.currentStage == Idle && ActiveSetsMatchStage(r)
    ensures r.currentInstruction == Some(instruction)
    ensures r.registers == s.registers && r.memory == InitialMemory && r.pc == 0
  {
    InitialCPUState().(registers := s.registers, currentInstruction := Some(instruction))
  }

  /** `resetExecution`: back to the initial state keeping the registers and, when one
      is selected, the instruction. */
  function ResetState(s: CPUState, selectedInstruction: Option<Instruction>): (r: CPUState)
    ensures r.currentStage == Idle && ActiveSetsMatchStage(r)
    ensures r.currentInstruction == selectedInstruction
    ensures r.registers == s.registers && r.memory == InitialMemory && r.pc == 0
  {
    match selectedInstruction
    case Some(instruction) => InitialCPUState().(registers := s.registers, currentInstruction := Some(instruction))
    case None => InitialCPUState().(registers := s.registers)
  }

  /** Resetting twice is resetting once, and resetting with an instruction selected is
      selecting it again. */
  lemma ResetIsIdempotent(s: CPUState, selectedInstruction: Option<Instruction>)
    ensures ResetState(ResetState(s, selectedInstruction), selectedInstruction)
         == ResetState(s, selectedInstruction)
    ensures selectedInstruction.Some? ==>
      ResetState(s, selectedInstruction) == SelectInstruction(s, selectedInstruction.value)
  {
  }

  /** `handleRegisterChange`: set one register when the text is a number. */
  function ChangeRegister(s: CPUState, register: string, value: string): (r: CPUState)
    ensures ParseInt(value).None? ==> r == s
    ensures ParseInt(value).Some? ==>
      && r == s.(registers := r.registers)
      && r.registers.Keys == s.registers.Keys + {register}
      && r.registers[register] == ParseInt(value).value
      && forall k :: k in s.registers && k != register ==> r.registers[k] == s.registers[k]
  {
    match ParseInt(value)
    case Some(numValue) => s.(registers := s.registers[register := numValue])
    case None => s
  }

  /** `handleMemoryChange`: set the cell shown under `address` when the text is a number. */
  function ChangeMemory(s: CPUState, address: string, value: string): (r: CPUState)
    ensures ParseInt(value).None? ==> r == s
    ensures ParseInt(value).Some? ==>
      && r == s.(memory := r.memory)
      && r.memory.Keys == s.memory.Keys + {address}
      && r.memory[address] == ParseInt(value).value
      && forall k :: k in s.memory && k != address ==> r.memory[k] == s.memory[k]
  {
    match ParseInt(value)
    case Some(numValue) => s.(memory := s.memory[address := numValue])
    case None => s
  }

  /** `handleAddMemory`: when both texts are numbers, set the cell keyed by the
      address's canonical text `String(address)`. */
  function AddMemoryCell(s: CPUState, newMemoryAddress: string, newMemoryValue: string): (r: CPUState)
    ensures ParseInt(newMemoryAddress).None? || ParseInt(newMemoryValue).None? ==> r == s
    ensures ParseInt(newMemoryAddress).Some? && ParseInt(newMemoryValue).Some? ==>
      var key := IntToString(ParseInt(newMemoryAddress).value);
      && r == s.(memory := r.memory)
      && r.memory.Keys == s.memory.Keys + {key}
      && r.memory[key] == ParseInt(newMemoryValue).value
      && forall k :: k in s.memory && k != key ==> r.memory[k] == s.memory[k]
  {
    match (ParseInt(newMemoryAddress), ParseInt(newMemoryValue))
    case (Some(address), Some(value)) => s.(memory := s.memory[IntToString(address) := value])
    case _ => s
  }

  /** The key `handleAddMemory` writes reads back as the address that was entered. */
  lemma AddedKeyParsesBack(newMemoryAddress: string)
    requires ParseInt(newMemoryAddress).Some?
    ensures ParseInt(IntToString(ParseInt(newMemoryAddress).value)) == ParseInt(newMemoryAddress)
  {
    ParseIntOfIntToString(ParseInt(newMemoryAddress).value);
  }

  // ---------------------------------------------------------------------------
  // The catalog meets what EXECUTE checks, and its descriptions say what it does
  // ---------------------------------------------------------------------------

  /** The text an instruction's effect reads as, built from its operands. */
  function Describe(instruction: Instruction): string
    requires TakesEffect(instruction)
  {
    var ops := instruction.operands;
    match instruction.instrType
    case Add => ops[0] + " = " + ops[1] + " + " + ops[2]
    case Sub => ops[0] + " = " + ops[1] + " - " + ops[2]
    case Load => ops[0] + " = Memory[" + MatchMemAddress(ops[1]).value + "]"
    case Store => "Memory[" + MatchMemAddress(ops[0]).value + "] = " + ops[1]
    case Jump => "PC = " + IntToString(ParseInt(ops[0]).value)
  }

  lemma ArithmeticCatalogEntries()
    ensures TakesEffect(PredefinedInstructions[0])
    ensures Describe(PredefinedInstructions[0]) == PredefinedInstructions[0].description
    ensures TakesEffect(PredefinedInstructions[1])
    ensures Describe(PredefinedInstructions[1]) == PredefinedInstructions[1].description
  {
  }

  lemma MemoryCatalogEntries()
    ensures TakesEffect(PredefinedInstructions[2])
    ensures Describe(PredefinedInstructions[2]) == PredefinedInstructions[2].description
    ensures TakesEffect(PredefinedInstructions[3])
    ensures Describe(PredefinedInstructions[3]) == PredefinedInstructions[3].description
  {
    MatchOfBracketedDigits("100", "");
    assert "M[" + "100" + "]" + "" == "M[100]";
  }

  lemma ParseTwoHundred()
    ensures ParseInt("200") == Some(200)
    ensures IntToString(200) == "200"
  {
    assert NatToString(200) == "200" by {
      assert NatToString(2) == "2";
      assert NatToString(20) == "20";
    }
    DigitsValueOfNatToString(200);
    ParseIntReadsDigitPrefix("200", "");
    assert "200" + "" == "200";
  }

  lemma JumpCatalogEntry()
    ensures TakesEffect(PredefinedInstructions[4])
    ensures Describe(PredefinedInstructions[4]) == PredefinedInstructions[4].description
  {
    var jump := PredefinedInstructions[4];
    assert jump.instrType == Jump && jump.operands[0] == "200";
    ParseTwoHundred();
    assert Describe(jump) == "PC = " + IntToString(200);
  }

  /** No catalog instruction takes the silent-skip path of EXECUTE, and each one's
      description is the effect EXECUTE computes from its operands. */
  lemma CatalogTakesEffectAsDescribed()
    ensures forall i :: 0 <= i < |PredefinedInstructions| ==>
      && TakesEffect(PredefinedInstructions[i])
      && Describe(PredefinedInstructions[i]) == PredefinedInstructions[i].description
  {
    ArithmeticCatalogEntries();
    MemoryCatalogEntries();
    JumpCatalogEntry();
    forall i | 0 <= i < |PredefinedInstructions|
      ensures TakesEffect(PredefinedInstructions[i])
      ensures Describe(PredefinedInstructions[i]) == PredefinedInstructions[i].description
    {
      assert i == 0 || i == 1 || i == 2 || i == 3 || i == 4;
    }
  }

  // ---------------------------------------------------------------------------
  // Worked cycles from the initial registers
  // ---------------------------------------------------------------------------

  /** Selecting JUMP from the initial state: FETCH takes pc from 0 to 1, EXECUTE sets it
      to 200, and the cycle ends at IDLE with pc 200. */
  lemma WorkedJump()
    ensures var s := SelectInstruction(InitialCPUState(), PredefinedInstructions[4]);
      && Iterate(s, 1).pc == 1
      && Iterate(s, 3).pc == 200
      && Iterate(s, 5).pc == 200 && Iterate(s, 5).currentStage == Idle
  {
    var s := SelectInstruction(InitialCPUState(), PredefinedInstructions[4]);
    ParseTwoHundred();
    var s1 := NextState(s);
    assert s1.pc == 1;
    var s2 := NextState(s1);
    assert s2.currentInstruction == Some(PredefinedInstructions[4]);
    JumpSetsPc(s2);
    var s3 := NextState(s2);
    assert s3.pc == 200;
    var s4 := NextState(s3);
    var s5 := NextState(s4);
    assert s5.pc == 200 && s5.currentStage == Idle;
    IterateAgain(s, 0);
    IterateAgain(s2, 0); IterateAgain(s1, 1); IterateAgain(s, 2);
    IterateAgain(s4, 0); IterateAgain(s3, 1); IterateAgain(s2, 2); IterateAgain(s1, 3); IterateAgain(s, 4);
  }

  /** One cycle each of ADD, SUB, LOAD and STORE from the initial registers
      (R1 0, R2 5, R3 10) and memory ("100" holds 42). */
  lemma WorkedArithmeticAndMemory()
    ensures Iterate(SelectInstruction(InitialCPUState(), PredefinedInstructions[0]), 5).registers["R1"] == 15
    ensures Iterate(SelectInstruction(InitialCPUState(), PredefinedInstructions[1]), 5).registers["R1"] == -5
    ensures Iterate(SelectInstruction(InitialCPUState(), PredefinedInstructions[2]), 5).registers["R1"] == 42
    ensures Iterate(SelectInstruction(InitialCPUState(), PredefinedInstructions[3]), 5).memory["100"] == 0
  {
    MatchOfBracketedDigits("100", "");
    assert "M[" + "100" + "]" + "" == "M[100]";
    CycleEffect(SelectInstruction(InitialCPUState(), PredefinedInstructions[0]));
    CycleEffect(SelectInstruction(InitialCPUState(), PredefinedInstructions[1]));
    CycleEffect(SelectInstruction(InitialCPUState(), PredefinedInstructions[2]));
    CycleEffect(SelectInstruction(InitialCPUState(), PredefinedInstructions[3]));
  }

  // ---------------------------------------------------------------------------
  // The component: the current snapshot, the selected instruction, and the
  // handlers that replace them
  // ---------------------------------------------------------------------------

  class Visualizer {
    var cpuState: CPUState
    var selectedInstruction: Option<Instruction>

    /** The snapshot always carries the selected instruction: selecting sets both,
        reset copies one into the other, and no step changes either. */
    ghost predicate Valid()
      reads this
    {
      cpuState.currentInstruction == selectedInstruction
    }

    constructor ()
      ensures Valid() && cpuState == InitialCPUState() && selectedInstruction == None
    {
      cpuState := InitialCPUState();
      selectedInstruction := None;
    }

    method HandleInstructionSelect(instruction: Instruction)
      modifies this
      ensures Valid() && selectedInstruction == Some(instruction)
      ensures cpuState == SelectInstruction(old(cpuState), instruction)
    {
      selectedInstruction := Some(instruction);
      cpuState := SelectInstruction(cpuState, instruction);
    }

    /** `executeStep` (and the first step of `startExecution`): nothing happens until
        an instruction is selected; `cycleFinished` is the source's
        `setIsExecuting(false)` on leaving WRITEBACK. */
    method ExecuteStep() returns (cycleFinished: bool)
      requires Valid()
      modifies this
      ensures Valid() && selectedInstruction == old(selectedInstruction)
      ensures old(selectedInstruction).None? ==> cpuState == old(cpuState) && !cycleFinished
      ensures old(selectedInstruction).Some? ==>
        cpuState == NextState(old(cpuState)) && (cycleFinished <==> old(cpuState).currentStage == Writeback)
    {
      cycleFinished := false;
      if selectedInstruction.None? {
        return;
      }
      var s := cpuState;
      match s.currentStage {
        case Idle => cpuState := FetchStage(s);
        case Fetch => cpuState := DecodeStage(s);
        case Decode => cpuState := ExecuteStage(s);
        case Execute => cpuState := WritebackStage(s);
        case Writeback =>
          cpuState := FinishCycle(s);
          cycleFinished := true;
      }
    }

    method ResetExecution()
      modifies this
      ensures Valid() && selectedInstruction == old(selectedInstruction)
      ensures cpuState == ResetState(old(cpuState), selectedInstruction)
    {
      cpuState := ResetState(cpuState, selectedInstruction);
    }

    method HandleRegisterChange(register: string, value: string)
      requires Valid()
      modifies this
      ensures Valid() && selectedInstruction == old(selectedInstruction)
      ensures cpuState == ChangeRegister(old(cpuState), register, value)
    {
      cpuState := ChangeRegister(cpuState, register, value);
    }

    method HandleMemoryChange(address: string, value: string)
      requires Valid()
      modifies this
      ensures Valid() && selectedInstruction == old(selectedInstruction)
      ensures cpuState == ChangeMemory(old(cpuState), address, value)
    {
      cpuState := ChangeMemory(cpuState, address, value);
    }

    method HandleAddMemory(newMemoryAddress: string, newMemoryValue: string)
      requires Valid()
      modifies this
      ensures Valid() && selectedInstruction == old(selectedInstruction)
      ensures cpuState == AddMemoryCell(old(cpuState), newMemoryAddress, newMemoryValue)
    {
      cpuState := AddMemoryCell(cpuState, newMemoryAddress, newMemoryValue);
    }
  }
}
