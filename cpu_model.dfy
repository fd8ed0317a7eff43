/** The data model of the instruction-cycle simulator (`src/models/CPUModel.ts`):
    its enumerations, the instruction record, the catalog of five instructions and
    the initial state. */
module CPUModel {
  import opened Wrappers

  datatype CPUComponentType = Pc | Ir | Decoder | Alu | Register | Memory | Bus

  datatype ExecutionStage = Idle | Fetch | Decode | Execute | Writeback

  datatype DataFlowDirection = PcToMemory | MemoryToIr | IrToDecoder | DecoderToAlu | AluToRegister

  datatype InstructionType = Add | Sub | Load | Store | Jump

  /** An instruction: its kind, its operand texts and the text shown beside it. */
  datatype Instruction = Instruction(instrType: InstructionType, operands: seq<string>, description: string)

  /** One snapshot.  Registers are named by strings; memory is keyed by the text of
      an address, as a JavaScript object is. */
  datatype CPUState = CPUState(
    currentStage: ExecutionStage,
    activeComponents: seq<CPUComponentType>,
    activeDataFlows: seq<DataFlowDirection>,
    currentInstruction: Option<Instruction>,
    registers: map<string, int>,
    memory: map<string, int>,
    pc: int)

  /** The instructions offered for selection, in display order. */
  const PredefinedInstructions: seq<Instruction> := [
    Instruction(Add, ["R1", "R2", "R3"], "R1 = R2 + R3"),
    Instruction(Sub, ["R1", "R2", "R3"], "R1 = R2 - R3"),
    Instruction(Load, ["R1", "M[100]"], "R1 = Memory[100]"),
    Instruction(Store, ["M[100]", "R1"], "Memory[100] = R1"),
    Instruction(Jump, ["200"], "PC = 200")
  ]

  const InitialRegisters: map<string, int> := map["R1" := 0, "R2" := 5, "R3" := 10, "R4" := 15]

  /** Memory starts with the value the catalog's LOAD reads. */
  const InitialMemory: map<string, int> := map["100" := 42]

  /** The state the simulator starts in: idle, nothing highlighted, no instruction,
      pc 0, four registers and one memory cell. */
  function InitialCPUState(): (s: CPUState)
    ensures s.currentStage == Idle && s.activeComponents == [] && s.activeDataFlows == []
    ensures s.currentInstruction == None && s.pc == 0
    ensures s.registers.Keys == {"R1", "R2", "R3", "R4"}
    ensures s.registers["R1"] == 0 && s.registers["R2"] == 5
    ensures s.registers["R3"] == 10 && s.registers["R4"] == 15
    ensures s.memory.Keys == {"100"} && s.memory["100"] == 42
  {
    CPUState(Idle, [], [], None, InitialRegisters, InitialMemory, 0)
  }

  /** The catalog lists one instruction of each kind, in the order ADD, SUB, LOAD,
      STORE, JUMP. */
  lemma CatalogOrder()
    ensures |PredefinedInstructions| == 5
    ensures forall i, j :: 0 <= i < j < |PredefinedInstructions| ==>
      PredefinedInstructions[i].instrType != PredefinedInstructions[j].instrType
    ensures PredefinedInstructions[0].instrType == Add && PredefinedInstructions[1].instrType == Sub
    ensures PredefinedInstructions[2].instrType == Load && PredefinedInstructions[3].instrType == Store
    ensures PredefinedInstructions[4].instrType == Jump
  {
  }
}
