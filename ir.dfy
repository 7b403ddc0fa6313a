/**
 * The slice of the LLVM IR that the loop-metadata emitter touches: metadata
 * values, functions (only their attached metadata) and instructions (only
 * what InsertHelper asks of them).
 */
module IR {
  import opened Wrappers

  /** Opaque handles: a debug location, a basic block, a packed array. */
  type LocToken = nat
  type BlockId = nat
  type ArrayToken = nat

  /** C++ `unsigned` and `int64_t`. */
  type U32 = x: int | 0 <= x < 0x1_0000_0000
  type Int64 = x: int | -0x8000_0000_0000_0000 <= x < 0x8000_0000_0000_0000

  /** Truncation of a signed 64-bit value to `unsigned` (two's complement). */
  function TruncateToU32(v: Int64): (r: U32)
    ensures 0 <= v < 0x1_0000_0000 ==> r == v
    ensures (r - v) % 0x1_0000_0000 == 0
  {
    v % 0x1_0000_0000
  }

  /**
   * Metadata. `Self` is the operand-0 self reference of a self-referential
   * node (the node that has `Self` among its operands is the one meant);
   * `Loc` is a debug location as a node, `ArrayAddr` the address of a
   * packed array wrapped as local metadata.
   */
  datatype MD =
    | Str(s: string)
    | Int(width: nat, value: int)
    | Node(ops: seq<MD>)
    | Self
    | Loc(loc: LocToken)
    | ArrayAddr(arrayRef: ArrayToken)

  /** Metadata kind strings used on functions and instructions. */
  const LOOP_TRANSFORM: string := "looptransform"
  const MD_LOOP: string := "llvm.loop"
  const PARALLEL_LOOP_ACCESS: string := "llvm.mem.parallel_loop_access"

  /** A function, seen only through the metadata attached to it. */
  class Function {
    var metadata: map<string, MD>

    constructor (md: map<string, MD>)
      ensures metadata == md
    {
      metadata := md;
    }
  }

  /** An instruction, seen only through what the loop emitter asks of it. */
  class Instruction {
    const isTerminator: bool
    const successors: seq<BlockId>
    const mayReadOrWriteMemory: bool
    var metadata: map<string, MD>

    constructor (isTerminator: bool, successors: seq<BlockId>, mayReadOrWriteMemory: bool, md: map<string, MD>)
      ensures this.isTerminator == isTerminator && this.successors == successors
      ensures this.mayReadOrWriteMemory == mayReadOrWriteMemory && metadata == md
    {
      this.isTerminator := isTerminator;
      this.successors := successors;
      this.mayReadOrWriteMemory := mayReadOrWriteMemory;
      metadata := md;
    }
  }
}
