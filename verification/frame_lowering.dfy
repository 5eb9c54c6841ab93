/**
 * `RISCPIFrameLowering`: the per-function stack-frame hooks of the RISCPI
 * backend. The frame lowering object holds no state of its own, so its hooks
 * are module-level members; the basic block they edit is an object.
 */
module FrameLowering {
  import opened Wrappers
  import opened MachineIR

  /**
   * The frame-pointer rule that the comment above `hasFP` describes: a function
   * with variable-sized allocas, dynamic stack realignment, frame-pointer
   * elimination disabled, or its frame address taken. The hook does not use it.
   */
  predicate CommentedFramePointerRule(mf: MachineFunction) {
    mf.hasVarSizedObjects || mf.needsStackRealignment
    || mf.framePointerElimDisabled || mf.frameAddressTaken
  }

  /** `hasFP`: no RISCPI function gets a dedicated frame-pointer register. */
  function HasFP(mf: MachineFunction): (r: bool)
    ensures !r
  {
    false
  }

  /** `hasReservedCallFrame`: every RISCPI function reserves its outgoing call frame once. */
  function HasReservedCallFrame(mf: MachineFunction): (r: bool)
    ensures r
  {
    true
  }

  /**
   * The code and its comment disagree: a function that meets all four
   * conditions of the commented rule still gets no frame pointer.
   */
  lemma HasFPIgnoresCommentedRule()
    ensures exists mf :: CommentedFramePointerRule(mf) && !HasFP(mf)
  {
    var mf := MachineFunction("f", true, true, true, true, 32);
    assert CommentedFramePointerRule(mf) && !HasFP(mf);
  }

  /**
   * `eliminateCallFramePseudoInstr`: erases the instruction at `i` and returns
   * the iterator to the instruction that followed it (`end()` if it was last).
   * Nothing is inserted in its place, which is all a reserved call frame allows.
   */
  method EliminateCallFramePseudoInstr(mf: MachineFunction, mbb: MachineBasicBlock, i: nat)
    returns (next: nat)
    requires i < |mbb.instrs|
    modifies mbb
    ensures mbb.instrs == RemoveAt(old(mbb.instrs), i)
    ensures |mbb.instrs| == |old(mbb.instrs)| - 1
    ensures next == i && next <= |mbb.instrs|
    ensures next < |mbb.instrs| ==> mbb.instrs[next] == old(mbb.instrs)[i + 1]
    ensures next == |mbb.instrs| <==> i == |old(mbb.instrs)| - 1
    ensures HasReservedCallFrame(mf) ==> IsSubsequence(mbb.instrs, old(mbb.instrs))
  {
    RemoveAtIsSubsequence(mbb.instrs, i);
    next := mbb.Erase(i);
  }

  /** `emitPrologue`: RISCPI inserts no entry code; the block is left as it was. */
  method EmitPrologue(mf: MachineFunction, mbb: MachineBasicBlock)
    ensures mbb.instrs == old(mbb.instrs)
  {
  }

  /** `emitEpilogue`: RISCPI inserts no exit code; the block is left as it was. */
  method EmitEpilogue(mf: MachineFunction, mbb: MachineBasicBlock)
    ensures mbb.instrs == old(mbb.instrs)
  {
  }

  /**
   * `TargetFrameLowering::determineCalleeSaves`, the base-class hook: given
   * the function and the bit vector as it is, the bit vector it leaves.
   */
  type BaseDetermineCalleeSaves = (MachineFunction, set<Reg>) -> set<Reg>

  /** `determineCalleeSaves`: exactly what the base class computes, nothing added or removed. */
  method DetermineCalleeSaves(mf: MachineFunction, savedRegs: BitVector, base: BaseDetermineCalleeSaves)
    modifies savedRegs
    ensures savedRegs.bits == base(mf, old(savedRegs.bits))
  {
    savedRegs.bits := base(mf, savedRegs.bits);
  }

  /**
   * A pass that calls the elimination hook at the positions `ps`, one after
   * the other, on the block as each call left it; `None` if some position is
   * not a call-frame pseudo of the block at that point.
   */
  function EliminateEach(s: seq<Instr>, ps: seq<nat>): Option<seq<Instr>>
    decreases |ps|
  {
    if ps == [] then Some(s)
    else if ps[0] < |s| && IsCallFramePseudo(s[ps[0]]) then EliminateEach(RemoveAt(s, ps[0]), ps[1..])
    else None
  }

  /**
   * Elimination only deletes: whatever pseudos a pass erases, the other
   * instructions stay, in order, and one pseudo goes per call.
   */
  lemma {:induction false} EliminationKeepsOthers(s: seq<Instr>, ps: seq<nat>)
    requires EliminateEach(s, ps).Some?
    ensures NonPseudos(EliminateEach(s, ps).value) == NonPseudos(s)
    ensures PseudoCount(EliminateEach(s, ps).value) + |ps| == PseudoCount(s)
  {
    if ps != [] {
      RemovePseudoKeepsOthers(s, ps[0]);
      EliminationKeepsOthers(RemoveAt(s, ps[0]), ps[1..]);
    }
  }

  /**
   * Once a pass has erased as many pseudos as the block held, the block is
   * exactly its non-pseudo instructions in their original order, whatever
   * order the pseudos were erased in.
   */
  lemma {:induction false} EliminatingEveryPseudo(s: seq<Instr>, ps: seq<nat>)
    requires EliminateEach(s, ps).Some? && |ps| == PseudoCount(s)
    ensures EliminateEach(s, ps).value == NonPseudos(s)
  {
    EliminationKeepsOthers(s, ps);
    NoPseudosLeft(EliminateEach(s, ps).value);
  }

  /** The block `[setup, CALL f, destroy]`: erasing the setup, then the destroy, leaves `[CALL f]`. */
  lemma SetupCallDestroy(f: string, down: nat, up: nat)
    ensures EliminateEach([CallFrameSetup(down), Call(f), CallFrameDestroy(up)], [0, 1]) == Some([Call(f)])
  {
    var s := [CallFrameSetup(down), Call(f), CallFrameDestroy(up)];
    assert RemoveAt(s, 0) == [Call(f), CallFrameDestroy(up)];
    assert RemoveAt(RemoveAt(s, 0), 1) == [Call(f)];
    assert [0, 1][1..] == [1];
  }

  /**
   * The same scenario on a block object, following the iterators the hook
   * returns: erase at the setup, step over `CALL f`, erase at the destroy.
   */
  method SetupCallDestroyOnBlock(mf: MachineFunction, f: string, down: nat, up: nat)
    returns (after: seq<Instr>, end: nat)
    ensures after == [Call(f)]
    ensures end == |after|
  {
    var mbb := new MachineBasicBlock([CallFrameSetup(down), Call(f), CallFrameDestroy(up)]);
    EmitPrologue(mf, mbb);
    EmitEpilogue(mf, mbb);
    var it := EliminateCallFramePseudoInstr(mf, mbb, 0);
    assert mbb.instrs[it] == Call(f);
    it := it + 1;
    end := EliminateCallFramePseudoInstr(mf, mbb, it);
    after := mbb.instrs;
  }
}
