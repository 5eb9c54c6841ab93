# RISCPI frame lowering and subtarget, modelled in Dafny

This project models the target-specific core of the RISCPI LLVM backend:

- **Frame lowering** (`RISCPIFrameLowering`, module `FrameLowering` in `frame_lowering.dfy`):
  the hooks the code generator calls per machine function. `hasFP` always says no frame
  pointer is needed, `hasReservedCallFrame` always says the call frame is reserved, the
  call-frame pseudo eliminator erases one instruction from the basic block and returns
  the iterator after it, `emitPrologue`/`emitEpilogue` emit nothing, and
  `determineCalleeSaves` defers to the base class.
- **Subtarget** (`RISCPISubtarget`, module `SubtargetInfo` in `subtarget.dfy`): the
  constructor keeps the raw triple, CPU and feature string in the base class, calls
  `initializeSubtargetDependencies` (which turns an empty CPU name into `"generic"`, runs
  the generated feature parser once and returns the same object) and builds the
  instruction info from that post-parse object.
- **Machine IR** (module `MachineIR` in `machine_ir.dfy`): a basic block is a class holding
  `instrs: seq<Instr>`; an iterator is an index in `0..|instrs|`, `|instrs|` being `end()`;
  `MBB.erase(I)` removes element `i` and returns `i`. A machine function is a value holding
  the facts LLVM's usual frame-pointer rule looks at; no RISCPI hook changes it.

Library pieces whose bodies are not part of this model are passed in as functions:
the generated `ParseSubtargetFeatures` is a `FeatureParser` given to the subtarget's
constructor, and `TargetFrameLowering::determineCalleeSaves` is a
`BaseDetermineCalleeSaves` given to `DetermineCalleeSaves`. Being Dafny functions they
are deterministic, which is all the properties below rely on.

The model follows the code, not its comments: the comment above `hasFP` describes a
four-condition frame-pointer rule, the body returns `false`, and
`HasFPIgnoresCommentedRule` exhibits a function that meets every condition of the
comment yet gets no frame pointer. `EmitPrologue`/`EmitEpilogue` leave the block
unchanged for every machine function, whatever its stack size.

## Model

| member | source | states |
|---|---|---|
| `FrameLowering.HasFP` | llvm/lib/Target/RISCPI/RISCPIFrameLowering.cpp:26-28 | no machine function gets a frame pointer |
| `FrameLowering.HasFPIgnoresCommentedRule` | llvm/lib/Target/RISCPI/RISCPIFrameLowering.cpp:22-28 | a function with variable-sized allocas, realignment, FP elimination disabled and its frame address taken still gets no frame pointer; the documented rule is not what the code does |
| `FrameLowering.HasReservedCallFrame` | llvm/lib/Target/RISCPI/RISCPIFrameLowering.cpp:45-48 | every machine function has a reserved call frame |
| `FrameLowering.EliminateCallFramePseudoInstr` | llvm/lib/Target/RISCPI/RISCPIFrameLowering.cpp:30-35 | requires the iterator to name an instruction; the block becomes the old block with exactly that instruction removed, one shorter, and (the call frame being reserved) a subsequence of the old block; the returned iterator is the same position, naming the instruction that followed, or `end()` exactly when the removed one was last |
| `MachineIR.MachineBasicBlock.Erase` | llvm/lib/Target/RISCPI/RISCPIFrameLowering.cpp:34 | `MBB.erase(I)` leaves `RemoveAt(old instrs, i)` and returns `i` |
| `MachineIR.RemoveAt` | llvm/lib/Target/RISCPI/RISCPIFrameLowering.cpp:34 | erasing at `i` gives a list one shorter whose elements before `i` are unchanged and whose elements from `i` on are the old ones shifted down by one |
| `MachineIR.RemoveAtIsDeletion` | llvm/lib/Target/RISCPI/RISCPIFrameLowering.cpp:34 | erasing is pure deletion: the result plus the erased instruction is the old multiset, and the result is a subsequence of the old block, so nothing is synthesised |
| `MachineIR.RemovePseudoKeepsOthers` | llvm/lib/Target/RISCPI/RISCPIFrameLowering.cpp:34 | erasing a call-frame pseudo keeps every non-pseudo instruction, in order, and removes exactly one pseudo |
| `MachineIR.NonPseudos` | llvm/lib/Target/RISCPI/RISCPIFrameLowering.cpp:34 | the non-pseudo instructions of a block are instructions of that block and none is a call-frame pseudo |
| `MachineIR.PseudoCount` | llvm/lib/Target/RISCPI/RISCPIFrameLowering.cpp:34 | pseudos and non-pseudos together make up the block; the count is zero exactly when no instruction is a pseudo |
| `FrameLowering.EliminationKeepsOthers` | llvm/lib/Target/RISCPI/RISCPIFrameLowering.cpp:30-48 | any sequence of eliminations at pseudos keeps the non-pseudo instructions in order and removes one pseudo per call |
| `FrameLowering.EliminatingEveryPseudo` | llvm/lib/Target/RISCPI/RISCPIFrameLowering.cpp:30-48 | after as many eliminations as the block has pseudos, in any order, the block is exactly its non-pseudo instructions in original order |
| `FrameLowering.SetupCallDestroy` | llvm/lib/Target/RISCPI/RISCPIFrameLowering.cpp:34 | eliminating the setup and then the destroy pseudo of `[setup, CALL f, destroy]` leaves `[CALL f]` |
| `FrameLowering.SetupCallDestroyOnBlock` | llvm/lib/Target/RISCPI/RISCPIFrameLowering.cpp:30-43 | on a block object, after prologue, epilogue and elimination following the returned iterators, `[setup, CALL f, destroy]` becomes `[CALL f]` and the last iterator is `end()` |
| `FrameLowering.EmitPrologue` | llvm/lib/Target/RISCPI/RISCPIFrameLowering.cpp:37-39 | no object is modified (no `modifies` clause) and the block is left exactly as it was; the machine function is a value and is not changed |
| `FrameLowering.EmitEpilogue` | llvm/lib/Target/RISCPI/RISCPIFrameLowering.cpp:41-43 | no object is modified (no `modifies` clause) and the block is left exactly as it was; the machine function is a value and is not changed |
| `FrameLowering.DetermineCalleeSaves` | llvm/lib/Target/RISCPI/RISCPIFrameLowering.cpp:53-57 | the saved-register bit vector is exactly what the base hook computes from the function and the incoming bits, with nothing added or removed |
| `SubtargetInfo.EffectiveCPUName` | llvm/lib/Target/RISCPI/RISCPISubtarget.cpp:47-49 | an empty CPU name becomes `"generic"`, a non-empty one is kept unchanged, and the result is never empty |
| `SubtargetInfo.SameEffectiveCPUName` | llvm/lib/Target/RISCPI/RISCPISubtarget.cpp:47-52 | two CPU names reach the parser as the same name if and only if they are equal or are `""` and `"generic"` |
| `SubtargetInfo.EmptyCPUParsesAsGeneric` | llvm/lib/Target/RISCPI/RISCPISubtarget.cpp:47-52 | for every parser and feature string, CPU `""` yields the same parsed features as CPU `"generic"` |
| `SubtargetInfo.Subtarget.ParseSubtargetFeatures` | llvm/lib/Target/RISCPI/RISCPISubtarget.cpp:52 | sets the feature bits to the parser's result for its arguments and records one call |
| `SubtargetInfo.Subtarget.InitializeSubtargetDependencies` | llvm/lib/Target/RISCPI/RISCPISubtarget.cpp:43-55 | parses once, with the effective CPU name and the unmodified feature string, and returns the object it was called on |
| `SubtargetInfo.Subtarget.constructor` | llvm/lib/Target/RISCPI/RISCPISubtarget.cpp:33-40 | the base keeps the raw CPU, triple and feature string; the parser has been called exactly once, with the effective CPU name and the feature string; the instruction info is built from the parsed configuration |
| `SubtargetInfo.EmptyAndGenericCPUAgree` | llvm/lib/Target/RISCPI/RISCPISubtarget.cpp:33-52 | subtargets built with CPU `""` and `"generic"` record identical parser calls and have the same parsed features and instruction info, but the base keeps different CPU strings |

## Left out

- The generated `RISCPIGenSubtargetInfo.inc` and the body of `ParseSubtargetFeatures` are not part of this model: the parser is an arbitrary deterministic function, so no `+feature`/`-feature` token handling is modelled and nothing is stated about which features a given CPU or feature string enables.
- What the base `RISCPIGenSubtargetInfo` constructor does beyond keeping the triple, CPU and feature string is not part of this model.
- The bodies of `TargetFrameLowering::determineCalleeSaves` and of LLVM's `MachineBasicBlock::erase` are library code: the first is a function parameter, the second is modelled by `RemoveAt`. Whether the saved set covers every clobbered callee-saved register is the base's promise, not this code's.
- The `TSInfo`, `FrameLowering`, `TLInfo` and `RegInfo` members of the subtarget are not modelled: they are LLVM classes built with a reference to the subtarget, and their order relative to `InstrInfo` depends on a header that is not part of this model. Only the data dependency of `InstrInfo` on the parsed configuration is stated.
- The `TargetMachine` argument, the `RegScavenger` argument (forwarded to the base hook only) and target registration are left out; the triple is kept as a plain string.
- Instructions are abstracted to call-frame setup/destroy pseudos, calls and other operations; a machine function is reduced to its frame facts and stack size.
- Concurrent compilation of functions is the pipeline's concern and is not modelled.
