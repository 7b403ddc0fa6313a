# Loop-hint metadata emitter (clang `CGLoopInfo.cpp`)

This project models the part of clang's code generator that turns the
attributes on a loop statement into LLVM loop metadata, and proves
properties about it. It covers four pieces.

- **Directive translation.** `LoopInfoStack::push` with an attribute list
  folds the list, in order, into the staged `LoopAttributes`. Id directives
  set the loop name. Reversal, tiling, interchange and pack directives are
  appended to the transformation stack. Loop hints and OpenCL unroll hints
  run through an (option, state, value) table that sets scalar fields.
  Anything else is skipped.
- **`LoopAttributes`.** Its constructor and `clear()` both give "nothing
  requested".
- **`createMetadata`.** If any hint, the loop name or a debug location is
  present, it builds the self-referential loop node with its operands in a
  fixed order. It then threads the "current top loop" through the
  transformation stack, building one transform node per entry. Those nodes
  are appended to the function's `looptransform` list.
- **The `LoopInfoStack` lifecycle.** `push` snapshots the staged attributes
  into a `LoopInfo` and clears them. `pop` drops the innermost loop.
  `InsertHelper` tags a back-edge terminator with `llvm.loop`, and a
  memory access of a parallel loop with `llvm.mem.parallel_loop_access`.

Layout:

- `ir.dfy` (`IR`): metadata values (`MD`), the two IR objects whose metadata
  is updated in place (`Function` and `Instruction`), and `unsigned`
  truncation.
- `loop_attributes.dfy` (`LoopAttrs`): `LoopAttributes`, its transformation
  stack, the constructor and `clear`.
- `loop_hints.dfy` (`LoopHints`): the loop-statement attributes, the hint
  table, the fold and reference definitions for it.
- `loop_metadata.dfy` (`LoopMetadata`): `createMetadata`, imperative, with
  specification functions, a decoder for the loop node and one for
  transform nodes, and their round trips.
- `loop_info_stack.dfy` (`LoopStack`): `LoopInfo` and the `LoopInfoStack`
  class.
- `fixtures.dfy` (`Fixtures`): the two TransformPragma tests' IR check lines,
  replayed on the model.

Modelling conventions:

- A metadata node is a `Node` of operands.
- `Self` stands for operand 0 of the node that holds it, the node's
  reference to itself.
- A node that the source references by pointer (the loop node pushed as
  `TopLoopId`, or an earlier transform node) is embedded by value.
- Debug locations and pack arrays are opaque tokens.
- Integers carry their bit width: `Int(32, …)` for hint counts, `Int(1, …)`
  for flags, `Int(64, …)` for tile sizes.
- Every `assert` and `llvm_unreachable` of the source is a precondition:
  - `TransformsWellFormed` for the transformation stack;
  - `Allowed` for the option/state pairs.
- `createMetadata` only reaches its asserts when metadata is needed, so it
  requires `TransformsWellFormed` only in that case.
- The `cast<MDNode>` of each existing `looptransform` operand (line 121) is
  also only reached when metadata is needed. The model nevertheless requires
  `LoopTransformWellFormed` unconditionally. That costs nothing: line 252 is
  the only writer of `looptransform`, and it always writes a node of nodes,
  which `CreateMetadata` ensures.
- Hint values are evaluated 64-bit constants. The source stores them in an
  `unsigned`, which `TruncateToU32` models as reduction mod 2^32.

## Model

| member | source | states |
|---|---|---|
| IR.TruncateToU32 | lib/CodeGen/CGLoopInfo.cpp:369-372 | assigning the 64-bit hint value to `unsigned` keeps values in range and is congruent mod 2^32 otherwise |
| LoopAttrs.Clear | lib/CodeGen/CGLoopInfo.cpp:258-274 | `clear()` yields exactly what the constructor builds for a non-parallel loop, whatever was staged |
| LoopHints.OpenCLHintIsUnrollHint | lib/CodeGen/CGLoopInfo.cpp:353-366 | an OpenCL unroll hint 0 acts as `unroll(full)`, 1 as `unroll(disable)`, n > 1 as `unroll_count(n)`, and is always an allowed pair |
| LoopHints.HintValueOnlyForNumeric | lib/CodeGen/CGLoopInfo.cpp:377-451 | only a Numeric hint reads its value; every other state ignores it |
| LoopHints.HintKeepsStructure | lib/CodeGen/CGLoopInfo.cpp:377-471 | a hint never touches the loop name or the transformation stack |
| LoopHints.HintKeepsCanonical | lib/CodeGen/CGLoopInfo.cpp:401-427 | vectorize and distribute states are only set from booleans, so they never become Full |
| LoopHints.HintIdempotent | lib/CodeGen/CGLoopInfo.cpp:377-471 | a fact about the model, not a promise of the source: repeating a hint has no further effect, because every setter assigns a constant or the hint's own value |
| LoopHints.TranslateAppend | lib/CodeGen/CGLoopInfo.cpp:297-472 | the directives are folded left to right: one more directive applies on top of the previous result |
| LoopHints.TranslateStack | lib/CodeGen/CGLoopInfo.cpp:302-339 | the transformation stack grows by exactly the structured directives, in list order; ids, hints and other attributes add nothing |
| LoopHints.TranslateLoopId | lib/CodeGen/CGLoopInfo.cpp:298-301 | the loop name is that of the last id directive, or the earlier name if there is none |
| LoopHints.TranslateParallel | lib/CodeGen/CGLoopInfo.cpp:420-427 | the loop becomes parallel iff it already was or some vectorize/interleave hint assumes safety |
| LoopHints.TranslateCanonical | lib/CodeGen/CGLoopInfo.cpp:297-472 | the whole fold keeps vectorize and distribute states non-Full |
| LoopMetadata.NoMetadataExactlyAtDefaults | lib/CodeGen/CGLoopInfo.cpp:29-36 | no loop node iff IsParallel is false, every count is 0 and every state Unspecified, the name is empty and neither location is given; the stack is not consulted |
| LoopMetadata.LoopIdNodeRoundTrip | lib/CodeGen/CGLoopInfo.cpp:38-114 | the loop node reads back, by a strict in-order decoder, to the start location, the end location only when a start exists, and every field except IsParallel and the transformation stack, which the node does not record (IsParallel only forces the node to exist, and InsertHelper reads it from the LoopInfo). Hence the operand order is self, locations, width, interleave, unroll count, vectorize enable, unroll key, distribute, id; each present exactly when not at its default, with flag 1 iff Enable and unroll key enable/full/disable |
| LoopMetadata.HintOperandsRead | lib/CodeGen/CGLoopInfo.cpp:52-110 | the hint operands alone decode back to every field except IsParallel and the transformation stack, which they do not record |
| LoopMetadata.ReadLocsOf | lib/CodeGen/CGLoopInfo.cpp:43-50 | the end location is emitted only after a start location |
| LoopMetadata.BuildLoopId | lib/CodeGen/CGLoopInfo.cpp:38-114 | the imperative operand pushes build exactly the specified loop node |
| LoopMetadata.AppendCountHints | lib/CodeGen/CGLoopInfo.cpp:52-74 | appends width, interleave and unroll count, each only when > 0, after the given operands |
| LoopMetadata.AppendEnableHints | lib/CodeGen/CGLoopInfo.cpp:76-110 | appends vectorize enable, unroll key, distribute and id, each only when set, after the given operands |
| LoopMetadata.TransformNodesThreading | lib/CodeGen/CGLoopInfo.cpp:126-248 | the k-th stack entry yields the k-th node, built against the top loop left by the entries before it (the loop node at first, the previous node after Reversal or Pack, none after Tiling or Interchange), and its empty apply-on is always backed by a top loop |
| LoopMetadata.TransformNodeRoundTrip | lib/CodeGen/CGLoopInfo.cpp:131-246 | each transform node decodes back to its entry (kind, names, tile sizes, permutation, array) and to the top loop it refers to exactly when its apply-on is empty |
| LoopMetadata.AppendedTransforms | lib/CodeGen/CGLoopInfo.cpp:116-248 | the new list keeps the existing operands in order and adds one node per stack entry, in stack order |
| LoopMetadata.RecordedMetadataFrame | lib/CodeGen/CGLoopInfo.cpp:250-253 | createMetadata changes no function metadata other than `looptransform` |
| LoopMetadata.RecordedMetadataTransforms | lib/CodeGen/CGLoopInfo.cpp:250-253 | `looptransform` is rewritten only when a loop node is built and the stack is non-empty, and then it is the old list followed by the new nodes |
| LoopMetadata.RecordTransforms | lib/CodeGen/CGLoopInfo.cpp:116-253 | the copy loop and the loop over the stack leave the function's metadata as specified, and keep `looptransform` a list of nodes |
| LoopMetadata.CreateMetadata | lib/CodeGen/CGLoopInfo.cpp:24-256 | returns the specified loop node (or none) and leaves the function's metadata as specified |
| LoopStack.NewLoopInfo | lib/CodeGen/CGLoopInfo.cpp:276-280 | a LoopInfo holds the created loop node, the header and a copy of the attributes, and its node decodes back to those attributes apart from IsParallel and the transformation stack, which the node does not record |
| LoopStack.LoopInfoStack.Push | lib/CodeGen/CGLoopInfo.cpp:282-288 | appends one LoopInfo built from the staged attributes before they are cleared, then resets them to the defaults |
| LoopStack.LoopInfoStack.PushWithAttrs | lib/CodeGen/CGLoopInfo.cpp:290-476 | the loop over the attributes stages exactly the fold of the list, and then pushes as above |
| LoopStack.LoopInfoStack.StageAttr | lib/CodeGen/CGLoopInfo.cpp:297-348 | one attribute updates the staged attributes as the fold specifies, keeps the stack invariant and leaves the active loops alone |
| LoopStack.LoopInfoStack.StageHint | lib/CodeGen/CGLoopInfo.cpp:350-471 | the imperative option/state/value computation and the switch apply exactly the hint table and keep the stack invariant |
| LoopStack.LoopInfoStack.Pop | lib/CodeGen/CGLoopInfo.cpp:478-481 | needs an active loop and removes only the innermost one |
| LoopStack.LoopInfoStack.InsertHelper | lib/CodeGen/CGLoopInfo.cpp:483-502 | the instruction's metadata becomes the specified tagging with respect to the innermost loop; on a valid stack every tag written is a node that decodes to that loop's attributes (apart from IsParallel and the stack) |
| LoopStack.InsertedNodeIsTopNode | lib/CodeGen/CGLoopInfo.cpp:487-501 | any tag added or overwritten is the innermost loop's ID node, and that loop has one |
| LoopStack.InsertedOnlyLoopTags | lib/CodeGen/CGLoopInfo.cpp:483-502 | only `llvm.loop` and `llvm.mem.parallel_loop_access` can change |
| LoopStack.InsertedOnTerminator | lib/CodeGen/CGLoopInfo.cpp:484-498 | a terminator gets `llvm.loop` iff there is an innermost loop with a node whose header is a successor; otherwise nothing changes; it never gets the parallel tag |
| LoopStack.InsertedOnOtherInstruction | lib/CodeGen/CGLoopInfo.cpp:484-501 | any other instruction gets the parallel tag iff the innermost loop has a node, is parallel and the instruction touches memory; otherwise nothing changes; it never gets `llvm.loop` |
| LoopStack.InsertedIdempotent | lib/CodeGen/CGLoopInfo.cpp:483-502 | a fact about the model, not a promise of the source: tagging the same instruction twice has no further effect, because each tag is written with the same node |
| Fixtures.OuterLoop | test/TransformPragma/pragma-id-interchange.c:46-53 | the outer loop's directives give the node `{self, {"llvm.loop.id", "i"}}` and a `looptransform` list holding one interchange node of `{"i","j"}` and `{"j","i"}` |
| Fixtures.PragmaIdInterchange | test/TransformPragma/pragma-id-interchange.c:42-53 | the whole push/push/tag/pop/tag/pop sequence of the test gives the function and both back edges exactly the metadata the IR check lines expect |
| Fixtures.MatmulStaged | test/TransformPragma/matmul.c:11-15 | the matmul outer loop's directives stage the name "i" and the stack tile, interchange, pack, pack |
| Fixtures.MatmulTransforms | test/TransformPragma/matmul.c:61-65 | the function's `looptransform` list is a tile, an interchange and two pack nodes, in that order |

## Left out

- `CodeGenFunction::EmitLValue` is not modelled (lines 235-238). It is
  foreign code generation. A pack array is an opaque `ArrayToken`, and its
  address becomes `ArrayAddr(token)`.
- `EvaluateKnownConstInt` is not modelled (lines 317 and 370). It is
  foreign constant evaluation. Tile sizes and hint values arrive as
  already evaluated 64-bit integers.
- LLVM node identity is not modelled:
  - uniquing, `distinct`, temporaries and `replaceOperandWith`;
  - the self reference is the `Self` operand;
  - nodes referenced by pointer are embedded by value.

  So the model does not say that two loops' nodes are distinct objects.
- Debug locations are opaque optional tokens.
- The `LLVMContext`, `CodeGenFunction` and `ASTContext` parameters are
  left out. They are used only for the parts above.
- `CGLoopInfo.h` is not part of this model. Its setters are taken to assign
  the named staged field, and `addTransformation` to append to the stack.
  `setVectorizeEnable` and `setDistributeState` map `true`/`false` to
  Enable/Disable.
- Instructions are records:
  - `isTerminator`;
  - the successor list as block ids;
  - `mayReadOrWriteMemory`;
  - a metadata map.

  The LLVM class hierarchy is not modelled.
- Only the four transformation kinds that `LoopInfoStack::push` creates
  (lines 302-339) exist in `LoopTransformation`. The source's `default: llvm_unreachable`
  arm therefore cannot be reached and has no counterpart.
- `LoopHints.Attr` is a closed set of attribute kinds. `OtherAttr` stands
  for every attribute that is not a loop directive or hint.
- The tiling directive's `pit_ids` / `tile_ids` names are not modelled,
  because `push` does not pass them to `createTiling` (lines 322-324).
- A virtual-loop graph is not modelled: followups, a named-loop registry,
  the Unrolling/ThreadParallelize/AssignId kinds and pack access retagging.
  This version of `CGLoopInfo.cpp` builds a flat transformation list.
- The tests' Polly `AST`, `TRANS` and `RESULT` checks are not modelled.
  They describe the optimizer and the compiled program, not this code.
- The fixtures list each loop statement's attributes in reverse source
  order, which is how clang attaches stacked `#pragma` attributes. That
  ordering comes from the parser, which is not part of this model.
- Imperative structure. `createMetadata`'s operand pushes are split
  between `BuildLoopId`, `AppendCountHints` and `AppendEnableHints`. The
  body of `push`'s attribute loop is split between `StageAttr` and
  `StageHint`. Each helper holds the source's statements in the source's
  order.
- Fixtures.MatmulTransforms: states only the key of each of the four
  nodes, not the full nodes, because the test checks only those keys.
