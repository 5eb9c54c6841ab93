/**
 * The part of LLVM's machine-code representation that the RISCPI frame
 * lowering hooks touch: machine instructions, a basic block (an ordered list
 * of instructions edited in place, whose iterators are indices `0..|instrs|`,
 * `|instrs|` being `end()`), the facts of a machine function that a
 * frame-pointer decision may consult, and the callee-saved register bit vector.
 */
module MachineIR {

  /** A physical register number (a bit position in a register bit vector). */
  type Reg = nat

  /**
   * A machine instruction, distinguished only as far as frame lowering cares:
   * the two call-frame pseudo instructions (the setup and destroy markers
   * around a call's outgoing-argument area, with their byte amounts), calls,
   * and every other instruction.
   */
  datatype Instr =
    | CallFrameSetup(bytes: nat)
    | CallFrameDestroy(bytes: nat)
    | Call(callee: string)
    | Op(opcode: string)

  predicate IsCallFramePseudo(x: Instr) {
    x.CallFrameSetup? || x.CallFrameDestroy?
  }

  /**
   * The function-level facts that decide whether a function needs a frame
   * pointer in LLVM's usual rule, and its stack size. None of the RISCPI hooks
   * changes them, so a machine function is passed by value.
   */
  datatype MachineFunction = MachineFunction(
    name: string,
    hasVarSizedObjects: bool,
    needsStackRealignment: bool,
    framePointerElimDisabled: bool,
    frameAddressTaken: bool,
    stackSize: nat)

  /** The instruction list after `erase` at iterator `i`: element `i` is gone, the rest close up. */
  function RemoveAt(s: seq<Instr>, i: nat): (r: seq<Instr>)
    requires i < |s|
    ensures |r| == |s| - 1
    ensures forall k :: 0 <= k < i ==> r[k] == s[k]
    ensures forall k :: i <= k < |r| ==> r[k] == s[k + 1]
  {
    s[..i] + s[i + 1..]
  }

  /** `t` is `s` with some elements left out and the others in their original order. */
  predicate IsSubsequence(t: seq<Instr>, s: seq<Instr>)
    decreases |s|
  {
    if t == [] then true
    else if s == [] then false
    else (t[0] == s[0] && IsSubsequence(t[1..], s[1..])) || IsSubsequence(t, s[1..])
  }

  /** The instructions of `s` that are not call-frame pseudos, in block order. */
  function NonPseudos(s: seq<Instr>): (r: seq<Instr>)
    ensures forall x :: x in r ==> x in s && !IsCallFramePseudo(x)
  {
    if s == [] then []
    else if IsCallFramePseudo(s[0]) then NonPseudos(s[1..])
    else [s[0]] + NonPseudos(s[1..])
  }

  /** How many call-frame pseudos `s` holds; together with the others they make up the block. */
  function PseudoCount(s: seq<Instr>): (n: nat)
    ensures n + |NonPseudos(s)| == |s|
    ensures n == 0 <==> forall k :: 0 <= k < |s| ==> !IsCallFramePseudo(s[k])
  {
    if s == [] then 0
    else (if IsCallFramePseudo(s[0]) then 1 else 0) + PseudoCount(s[1..])
  }

  /** Erasing one instruction inserts nothing and keeps the others in order. */
  lemma RemoveAtIsDeletion(s: seq<Instr>, i: nat)
    requires i < |s|
    ensures multiset(RemoveAt(s, i)) + multiset{s[i]} == multiset(s)
    ensures IsSubsequence(RemoveAt(s, i), s)
  {
    calc {
      multiset(s);
      { assert s == s[..i] + ([s[i]] + s[i + 1..]); }
      multiset(s[..i]) + (multiset{s[i]} + multiset(s[i + 1..]));
      multiset(s[..i] + s[i + 1..]) + multiset{s[i]};
    }
    RemoveAtIsSubsequence(s, i);
  }

  lemma {:induction false} RemoveAtIsSubsequence(s: seq<Instr>, i: nat)
    requires i < |s|
    ensures IsSubsequence(RemoveAt(s, i), s)
  {
    var r := RemoveAt(s, i);
    if i == 0 {
      assert r == s[1..];
      IsSubsequenceOfSelf(s[1..]);
    } else {
      RemoveAtIsSubsequence(s[1..], i - 1);
      assert r[0] == s[0];
      assert r[1..] == RemoveAt(s[1..], i - 1);
    }
  }

  lemma {:induction false} IsSubsequenceOfSelf(s: seq<Instr>)
    ensures IsSubsequence(s, s)
  {
    if s != [] {
      IsSubsequenceOfSelf(s[1..]);
    }
  }

  lemma {:induction false} NonPseudosAppend(a: seq<Instr>, b: seq<Instr>)
    ensures NonPseudos(a + b) == NonPseudos(a) + NonPseudos(b)
  {
    if a != [] {
      assert (a + b)[1..] == a[1..] + b;
      NonPseudosAppend(a[1..], b);
    } else {
      assert a + b == b;
    }
  }

  lemma {:induction false} PseudoCountAppend(a: seq<Instr>, b: seq<Instr>)
    ensures PseudoCount(a + b) == PseudoCount(a) + PseudoCount(b)
  {
    if a != [] {
      assert (a + b)[1..] == a[1..] + b;
      PseudoCountAppend(a[1..], b);
    } else {
      assert a + b == b;
    }
  }

  /** Erasing a call-frame pseudo leaves every other instruction, in order, and one pseudo fewer. */
  lemma {:induction false} RemovePseudoKeepsOthers(s: seq<Instr>, i: nat)
    requires i < |s| && IsCallFramePseudo(s[i])
    ensures NonPseudos(RemoveAt(s, i)) == NonPseudos(s)
    ensures PseudoCount(RemoveAt(s, i)) == PseudoCount(s) - 1
  {
    assert s == s[..i] + ([s[i]] + s[i + 1..]);
    NonPseudosAppend(s[..i], [s[i]] + s[i + 1..]);
    NonPseudosAppend(s[..i], s[i + 1..]);
    PseudoCountAppend(s[..i], [s[i]] + s[i + 1..]);
    PseudoCountAppend(s[..i], s[i + 1..]);
    assert ([s[i]] + s[i + 1..])[1..] == s[i + 1..];
  }

  /** A block without call-frame pseudos is its own list of non-pseudos. */
  lemma {:induction false} NoPseudosLeft(s: seq<Instr>)
    requires PseudoCount(s) == 0
    ensures NonPseudos(s) == s
  {
    if s != [] {
      assert !IsCallFramePseudo(s[0]);
      assert PseudoCount(s[1..]) == 0;
      NoPseudosLeft(s[1..]);
    }
  }

  /** `llvm::MachineBasicBlock`, reduced to its instruction list. */
  class MachineBasicBlock {
    var instrs: seq<Instr>

    constructor (instrs: seq<Instr>)
      ensures this.instrs == instrs
    {
      this.instrs := instrs;
    }

    /** `MBB.erase(I)`: removes the instruction at `i` and returns the iterator that now stands at `i`. */
    method Erase(i: nat) returns (next: nat)
      requires i < |instrs|
      modifies this
      ensures instrs == RemoveAt(old(instrs), i)
      ensures next == i
    {
      instrs := RemoveAt(instrs, i);
      next := i;
    }
  }

  /** `llvm::BitVector` of registers, as the set of register numbers whose bit is set. */
  class BitVector {
    var bits: set<Reg>

    constructor (bits: set<Reg>)
      ensures this.bits == bits
    {
      this.bits := bits;
    }
  }
}
