/**
 * createMetadata (CGLoopInfo.cpp): builds the self-referential loop-ID node
 * from a loop's staged attributes and appends one node per structured
 * transformation to the function's "looptransform" list.
 */
module LoopMetadata {
  import opened Wrappers
  import opened IR
  import opened LoopAttrs

  const VECTORIZE_WIDTH: string := "llvm.loop.vectorize.width"
  const INTERLEAVE_COUNT: string := "llvm.loop.interleave.count"
  const UNROLL_COUNT: string := "llvm.loop.unroll.count"
  const VECTORIZE_ENABLE: string := "llvm.loop.vectorize.enable"
  const UNROLL_ENABLE: string := "llvm.loop.unroll.enable"
  const UNROLL_FULL: string := "llvm.loop.unroll.full"
  const UNROLL_DISABLE: string := "llvm.loop.unroll.disable"
  const DISTRIBUTE_ENABLE: string := "llvm.loop.distribute.enable"
  const LOOP_ID: string := "llvm.loop.id"
  const REVERSE: string := "llvm.loop.reverse"
  const TILE: string := "llvm.loop.tile"
  const INTERCHANGE: string := "llvm.loop.interchange"
  const PACK: string := "llvm.data.pack"

  // ---------------------------------------------------------------------
  // Whether a loop gets metadata at all
  // ---------------------------------------------------------------------

  /** The negation of createMetadata's early `return nullptr`. */
  predicate NeedsMetadata(a: LoopAttributes, startLoc: Option<LocToken>, endLoc: Option<LocToken>)
  {
    !(!a.isParallel && a.vectorizeWidth == 0 && a.interleaveCount == 0 && a.unrollCount == 0
      && a.vectorizeEnable == Unspecified && a.unrollEnable == Unspecified
      && a.distributeEnable == Unspecified && a.loopId == [] && startLoc.None? && endLoc.None?)
  }

  /**
   * No metadata exactly when every field except the transformation stack is
   * what a freshly cleared LoopAttributes holds and there is no debug
   * location: the stack is never consulted.
   */
  lemma NoMetadataExactlyAtDefaults(a: LoopAttributes, startLoc: Option<LocToken>, endLoc: Option<LocToken>)
    ensures CreatedLoopId(a, startLoc, endLoc) == None
            <==> a.(transformationStack := []) == Clear(a) && startLoc == None && endLoc == None
  {
    assert Clear(a) == Defaults(false);
  }

  // ---------------------------------------------------------------------
  // The loop-ID node
  // ---------------------------------------------------------------------

  /** `!{!"key", iN value}` */
  function KeyInt(key: string, width: nat, v: int): MD
  {
    Node([Str(key), Int(width, v)])
  }

  /** The i1 payload of vectorize.enable and distribute.enable. */
  function EnableBit(st: LVEnableState): int
  {
    if st == Enable then 1 else 0
  }

  function UnrollKey(st: LVEnableState): string
  {
    if st == Enable then UNROLL_ENABLE else if st == Full then UNROLL_FULL else UNROLL_DISABLE
  }

  /** The start location if present, then the end location if both are. */
  function LocOperands(startLoc: Option<LocToken>, endLoc: Option<LocToken>): seq<MD>
  {
    if startLoc.None? then []
    else [Loc(startLoc.value)] + (if endLoc.Some? then [Loc(endLoc.value)] else [])
  }

  function WidthOperand(a: LoopAttributes): seq<MD>
  {
    if a.vectorizeWidth > 0 then [KeyInt(VECTORIZE_WIDTH, 32, a.vectorizeWidth)] else []
  }

  function InterleaveOperand(a: LoopAttributes): seq<MD>
  {
    if a.interleaveCount > 0 then [KeyInt(INTERLEAVE_COUNT, 32, a.interleaveCount)] else []
  }

  function UnrollCountOperand(a: LoopAttributes): seq<MD>
  {
    if a.unrollCount > 0 then [KeyInt(UNROLL_COUNT, 32, a.unrollCount)] else []
  }

  function VectorizeEnableOperand(a: LoopAttributes): seq<MD>
  {
    if a.vectorizeEnable != Unspecified then [KeyInt(VECTORIZE_ENABLE, 1, EnableBit(a.vectorizeEnable))] else []
  }

  function UnrollEnableOperand(a: LoopAttributes): seq<MD>
  {
    if a.unrollEnable != Unspecified then [Node([Str(UnrollKey(a.unrollEnable))])] else []
  }

  function DistributeOperand(a: LoopAttributes): seq<MD>
  {
    if a.distributeEnable != Unspecified then [KeyInt(DISTRIBUTE_ENABLE, 1, EnableBit(a.distributeEnable))] else []
  }

  function LoopIdOperand(a: LoopAttributes): seq<MD>
  {
    if a.loopId != [] then [Node([Str(LOOP_ID), Str(a.loopId)])] else []
  }

  /** The hint operands, in the order createMetadata appends them. */
  function HintOperands(a: LoopAttributes): seq<MD>
  {
    WidthOperand(a) + InterleaveOperand(a) + UnrollCountOperand(a) + VectorizeEnableOperand(a)
    + UnrollEnableOperand(a) + DistributeOperand(a) + LoopIdOperand(a)
  }

  /**
   * The loop-ID node, operand by operand: the self reference (operand 0
   * refers to the node itself), the debug locations, then one operand per
   * hint that is set, in the order the emitter appends them.
   */
  function LoopIdNode(a: LoopAttributes, startLoc: Option<LocToken>, endLoc: Option<LocToken>): MD
  {
    Node([Self] + LocOperands(startLoc, endLoc) + HintOperands(a))
  }

  /** What createMetadata returns: null, or the loop-ID node. */
  function CreatedLoopId(a: LoopAttributes, startLoc: Option<LocToken>, endLoc: Option<LocToken>): Option<MD>
  {
    if NeedsMetadata(a, startLoc, endLoc) then Some(LoopIdNode(a, startLoc, endLoc)) else None
  }

  // A strict reader of loop-ID nodes, the reference the layout is proved
  // against: it accepts the hint operands only in increasing key rank.

  /** A positive `iN` constant that fits in `unsigned`. */
  function CountPayload(payload: seq<MD>): Option<U32>
  {
    if |payload| == 1 && payload[0].Int? && payload[0].width == 32
       && 0 < payload[0].value < 0x1_0000_0000
    then Some(payload[0].value) else None
  }

  /** An i1 flag: 1 reads as Enable, 0 as Disable. */
  function FlagPayload(payload: seq<MD>): Option<LVEnableState>
  {
    if |payload| == 1 && payload[0].Int? && payload[0].width == 1
       && (payload[0].value == 0 || payload[0].value == 1)
    then Some(if payload[0].value == 1 then Enable else Disable) else None
  }

  /** Reads one hint operand: the rank of its key in the fixed order, and the field it sets. */
  function ReadHint(op: MD, acc: LoopAttributes): Option<(nat, LoopAttributes)>
  {
    if !op.Node? || |op.ops| == 0 || !op.ops[0].Str? then None
    else
      var key, payload := op.ops[0].s, op.ops[1..];
      if key == VECTORIZE_WIDTH then
        match CountPayload(payload)
        case Some(v) => Some((0, acc.(vectorizeWidth := v)))
        case None => None
      else if key == INTERLEAVE_COUNT then
        match CountPayload(payload)
        case Some(v) => Some((1, acc.(interleaveCount := v)))
        case None => None
      else if key == UNROLL_COUNT then
        match CountPayload(payload)
        case Some(v) => Some((2, acc.(unrollCount := v)))
        case None => None
      else if key == VECTORIZE_ENABLE then
        match FlagPayload(payload)
        case Some(st) => Some((3, acc.(vectorizeEnable := st)))
        case None => None
      else if key == UNROLL_ENABLE && payload == [] then Some((4, acc.(unrollEnable := Enable)))
      else if key == UNROLL_FULL && payload == [] then Some((4, acc.(unrollEnable := Full)))
      else if key == UNROLL_DISABLE && payload == [] then Some((4, acc.(unrollEnable := Disable)))
      else if key == DISTRIBUTE_ENABLE then
        match FlagPayload(payload)
        case Some(st) => Some((5, acc.(distributeEnable := st)))
        case None => None
      else if key == LOOP_ID && |payload| == 1 && payload[0].Str? && payload[0].s != [] then
        Some((6, acc.(loopId := payload[0].s)))
      else None
  }

  /** Reads hint operands whose ranks are at least `next` and strictly increase. */
  function ReadHints(ops: seq<MD>, acc: LoopAttributes, next: nat): Option<LoopAttributes>
    decreases |ops|
  {
    if ops == [] then Some(acc)
    else
      match ReadHint(ops[0], acc)
      case None => None
      case Some((rank, acc')) => if rank < next then None else ReadHints(ops[1..], acc', rank + 1)
  }

  /** The debug locations leading the operands after the self reference, and how many there are. */
  function ReadLocs(ops: seq<MD>): (r: (Option<LocToken>, Option<LocToken>, nat))
    ensures r.2 <= |ops|
  {
    if |ops| >= 1 && ops[0].Loc? then
      if |ops| >= 2 && ops[1].Loc? then (Some(ops[0].loc), Some(ops[1].loc), 2)
      else (Some(ops[0].loc), None, 1)
    else (None, None, 0)
  }

  /** Reads a loop-ID node back into its locations and the attributes it records. */
  function ReadLoopIdNode(n: MD): Option<(Option<LocToken>, Option<LocToken>, LoopAttributes)>
  {
    if !n.Node? || |n.ops| == 0 || n.ops[0] != Self then None
    else
      var (startLoc, endLoc, k) := ReadLocs(n.ops[1..]);
      match ReadHints(n.ops[1 + k..], Defaults(false), 0)
      case None => None
      case Some(a) => Some((startLoc, endLoc, a))
  }

  /** The part of the attributes the loop-ID node records: all but IsParallel and the stack. */
  function Scalars(a: LoopAttributes): LoopAttributes
  {
    a.(isParallel := false, transformationStack := [])
  }

  lemma ReadHintsLowerBound(ops: seq<MD>, acc: LoopAttributes, next: nat)
    requires ReadHints(ops, acc, next + 1).Some?
    ensures ReadHints(ops, acc, next) == ReadHints(ops, acc, next + 1)
  {
  }

  /** One optional operand of rank `k` followed by the rest. */
  lemma ReadOptionalOperand(piece: seq<MD>, rest: seq<MD>, acc: LoopAttributes, acc': LoopAttributes, k: nat, r: LoopAttributes)
    requires |piece| <= 1
    requires piece == [] ==> acc' == acc
    requires piece != [] ==> ReadHint(piece[0], acc) == Some((k, acc'))
    requires ReadHints(rest, acc', k + 1) == Some(r)
    ensures ReadHints(piece + rest, acc, k) == Some(r)
  {
    if piece == [] {
      assert piece + rest == rest;
      ReadHintsLowerBound(rest, acc, k);
    } else {
      assert (piece + rest)[0] == piece[0];
      assert (piece + rest)[1..] == rest;
    }
  }

  // Each present hint operand reads back as its own field, at its rank.

  lemma ReadWidthOperand(a: LoopAttributes, acc: LoopAttributes)
    ensures WidthOperand(a) != [] ==> ReadHint(WidthOperand(a)[0], acc) == Some((0, acc.(vectorizeWidth := a.vectorizeWidth)))
  {
  }

  lemma ReadInterleaveOperand(a: LoopAttributes, acc: LoopAttributes)
    ensures InterleaveOperand(a) != [] ==> ReadHint(InterleaveOperand(a)[0], acc) == Some((1, acc.(interleaveCount := a.interleaveCount)))
  {
  }

  lemma ReadUnrollCountOperand(a: LoopAttributes, acc: LoopAttributes)
    ensures UnrollCountOperand(a) != [] ==> ReadHint(UnrollCountOperand(a)[0], acc) == Some((2, acc.(unrollCount := a.unrollCount)))
  {
  }

  lemma ReadVectorizeEnableOperand(a: LoopAttributes, acc: LoopAttributes)
    requires CanonicalStates(a)
    ensures VectorizeEnableOperand(a) != [] ==> ReadHint(VectorizeEnableOperand(a)[0], acc) == Some((3, acc.(vectorizeEnable := a.vectorizeEnable)))
  {
  }

  lemma ReadUnrollEnableOperand(a: LoopAttributes, acc: LoopAttributes)
    ensures UnrollEnableOperand(a) != [] ==> ReadHint(UnrollEnableOperand(a)[0], acc) == Some((4, acc.(unrollEnable := a.unrollEnable)))
  {
  }

  lemma ReadDistributeOperand(a: LoopAttributes, acc: LoopAttributes)
    requires CanonicalStates(a)
    ensures DistributeOperand(a) != [] ==> ReadHint(DistributeOperand(a)[0], acc) == Some((5, acc.(distributeEnable := a.distributeEnable)))
  {
  }

  lemma ReadLoopIdOperand(a: LoopAttributes, acc: LoopAttributes)
    ensures LoopIdOperand(a) != [] ==> ReadHint(LoopIdOperand(a)[0], acc) == Some((6, acc.(loopId := a.loopId)))
  {
  }

  lemma Assoc(x: seq<MD>, y: seq<MD>, z: seq<MD>)
    ensures x + y + z == x + (y + z)
  {
  }

  // The hint operands as seven slots, one per key rank, each empty or a
  // single operand.

  function Slots(a: LoopAttributes): (r: seq<seq<MD>>)
    ensures |r| == 7
  {
    [WidthOperand(a), InterleaveOperand(a), UnrollCountOperand(a), VectorizeEnableOperand(a),
     UnrollEnableOperand(a), DistributeOperand(a), LoopIdOperand(a)]
  }

  function Concat(ss: seq<seq<MD>>): seq<MD>
    decreases |ss|
  {
    if ss == [] then [] else ss[0] + Concat(ss[1..])
  }

  /** The defaults with the fields of rank below `k` taken from `a`. */
  function Prefix(a: LoopAttributes, k: nat): LoopAttributes
  {
    var d := Defaults(false);
    d.(vectorizeWidth := if k > 0 then a.vectorizeWidth else d.vectorizeWidth,
       interleaveCount := if k > 1 then a.interleaveCount else d.interleaveCount,
       unrollCount := if k > 2 then a.unrollCount else d.unrollCount,
       vectorizeEnable := if k > 3 then a.vectorizeEnable else d.vectorizeEnable,
       unrollEnable := if k > 4 then a.unrollEnable else d.unrollEnable,
       distributeEnable := if k > 5 then a.distributeEnable else d.distributeEnable,
       loopId := if k > 6 then a.loopId else d.loopId)
  }

  lemma HintOperandsAsSlots(a: LoopAttributes)
    ensures HintOperands(a) == Concat(Slots(a))
  {
    var w, i, u, ve, ue, d, id := WidthOperand(a), InterleaveOperand(a), UnrollCountOperand(a),
      VectorizeEnableOperand(a), UnrollEnableOperand(a), DistributeOperand(a), LoopIdOperand(a);
    var ss := Slots(a);
    assert Concat(ss[6..]) == id by {
      assert ss[6..][1..] == [];
      assert id + [] == id;
    }
    assert Concat(ss[5..]) == d + id by { assert ss[5..][1..] == ss[6..]; }
    assert Concat(ss[4..]) == ue + (d + id) by { assert ss[4..][1..] == ss[5..]; }
    assert Concat(ss[3..]) == ve + (ue + (d + id)) by { assert ss[3..][1..] == ss[4..]; }
    assert Concat(ss[2..]) == u + (ve + (ue + (d + id))) by { assert ss[2..][1..] == ss[3..]; }
    assert Concat(ss[1..]) == i + (u + (ve + (ue + (d + id)))) by { assert ss[1..][1..] == ss[2..]; }
    assert Concat(ss) == w + (i + (u + (ve + (ue + (d + id)))));
    Assoc(w + i + u + ve + ue, d, id);
    Assoc(w + i + u + ve, ue, d + id);
    Assoc(w + i + u, ve, ue + (d + id));
    Assoc(w + i, u, ve + (ue + (d + id)));
    Assoc(w, i, u + (ve + (ue + (d + id))));
  }

  /** The operand in slot `k`, if any, reads back as the field of rank `k`. */
  lemma ReadSlot(a: LoopAttributes, k: nat)
    requires CanonicalStates(a) && k < 7
    ensures |Slots(a)[k]| <= 1
    ensures Slots(a)[k] == [] ==> Prefix(a, k + 1) == Prefix(a, k)
    ensures Slots(a)[k] != [] ==> ReadHint(Slots(a)[k][0], Prefix(a, k)) == Some((k, Prefix(a, k + 1)))
  {
    var acc := Prefix(a, k);
    if k == 0 {
      ReadWidthOperand(a, acc);
    } else if k == 1 {
      ReadInterleaveOperand(a, acc);
    } else if k == 2 {
      ReadUnrollCountOperand(a, acc);
    } else if k == 3 {
      ReadVectorizeEnableOperand(a, acc);
    } else if k == 4 {
      ReadUnrollEnableOperand(a, acc);
    } else if k == 5 {
      ReadDistributeOperand(a, acc);
    } else {
      ReadLoopIdOperand(a, acc);
    }
  }

  /** Slots `k` onwards read back, from the prefix of rank `k`, as every recorded field. */
  lemma {:induction false} ReadSlotsFrom(a: LoopAttributes, k: nat)
    requires CanonicalStates(a) && k <= 7
    ensures ReadHints(Concat(Slots(a)[k..]), Prefix(a, k), k) == Some(Prefix(a, 7))
    decreases 7 - k
  {
    var ss := Slots(a)[k..];
    if k == 7 {
      assert ss == [];
    } else {
      ReadSlotsFrom(a, k + 1);
      assert ss[1..] == Slots(a)[k + 1..];
      assert Concat(ss) == Slots(a)[k] + Concat(Slots(a)[k + 1..]);
      ReadSlot(a, k);
      ReadOptionalOperand(Slots(a)[k], Concat(Slots(a)[k + 1..]), Prefix(a, k), Prefix(a, k + 1), k, Prefix(a, 7));
    }
  }

  lemma HintOperandsRead(a: LoopAttributes)
    requires CanonicalStates(a)
    ensures ReadHints(HintOperands(a), Defaults(false), 0) == Some(Scalars(a))
  {
    HintOperandsAsSlots(a);
    ReadSlotsFrom(a, 0);
    assert Slots(a)[0..] == Slots(a);
    assert Prefix(a, 7) == Scalars(a);
  }

  lemma ReadLocsOf(startLoc: Option<LocToken>, endLoc: Option<LocToken>, rest: seq<MD>)
    requires rest != [] ==> rest[0].Node?
    ensures ReadLocs(LocOperands(startLoc, endLoc) + rest)
            == (startLoc, if startLoc.Some? then endLoc else None, |LocOperands(startLoc, endLoc)|)
  {
  }

  /** The reader splits a node into the self reference, the locations and the rest. */
  lemma ReadLoopIdNodeOf(startLoc: Option<LocToken>, endLoc: Option<LocToken>, rest: seq<MD>)
    requires rest != [] ==> rest[0].Node?
    ensures ReadLoopIdNode(Node([Self] + LocOperands(startLoc, endLoc) + rest))
            == match ReadHints(rest, Defaults(false), 0)
               case None => None
               case Some(r) => Some((startLoc, if startLoc.Some? then endLoc else None, r))
  {
    var locs := LocOperands(startLoc, endLoc);
    var ops := [Self] + locs + rest;
    assert ops[1..] == locs + rest;
    ReadLocsOf(startLoc, endLoc, rest);
    assert ops[1 + |locs|..] == rest;
  }

  lemma HintOperandsHead(a: LoopAttributes)
    ensures HintOperands(a) != [] ==> HintOperands(a)[0].Node?
  {
    HintOperandsAsSlots(a);
    var ss := Slots(a);
    if ss[0] == [] && ss[1] == [] && ss[2] == [] && ss[3] == [] && ss[4] == [] && ss[5] == [] {
      assert Concat(ss) == Concat(ss[6..]);
    }
  }

  /**
   * Layout of the loop-ID node: operand 0 is the self reference; then the
   * start location, and the end location only with the start location;
   * then the hints, each at most once and in the fixed order
   * vectorize.width, interleave.count, unroll.count (present iff > 0),
   * vectorize.enable, unroll.{enable|full|disable}, distribute.enable
   * (present iff not Unspecified; the flag is 1 iff Enable), llvm.loop.id
   * (present iff non-empty). Reading it back recovers every field except
   * IsParallel and the transformation stack, which the node does not record.
   */
  lemma LoopIdNodeRoundTrip(a: LoopAttributes, startLoc: Option<LocToken>, endLoc: Option<LocToken>)
    requires CanonicalStates(a)
    ensures ReadLoopIdNode(LoopIdNode(a, startLoc, endLoc))
            == Some((startLoc, if startLoc.Some? then endLoc else None, Scalars(a)))
  {
    HintOperandsHead(a);
    ReadLoopIdNodeOf(startLoc, endLoc, HintOperands(a));
    HintOperandsRead(a);
  }

  // ---------------------------------------------------------------------
  // Transformation nodes
  // ---------------------------------------------------------------------

  /** The asserts one stack entry must satisfy, given whether TopLoopId is non-null. */
  predicate EntryWellFormed(t: LoopTransformation, hasTop: bool)
  {
    match t
    case Reversal(applyOn) => applyOn == "" ==> hasTop
    case Tiling(applyOns, tileSizes) =>
      && (applyOns == [] ==> hasTop)
      && (forall i :: 0 <= i < |applyOns| ==> applyOns[i] != "")
      && (forall i :: 0 <= i < |tileSizes| ==> tileSizes[i] > 0)
      && (tileSizes == [] || |tileSizes| == (if applyOns == [] then 1 else |applyOns|))
    case Interchange(applyOns, permutation) =>
      && applyOns != []
      && |applyOns| == |permutation|
      && (forall i :: 0 <= i < |applyOns| ==> applyOns[i] != "")
      && (forall i :: 0 <= i < |permutation| ==> permutation[i] != "")
    case Pack(applyOn, _) => applyOn == "" ==> hasTop
  }

  /** Tiling and Interchange have no single follow-up loop. */
  predicate ResetsTop(t: LoopTransformation)
  {
    t.Tiling? || t.Interchange?
  }

  /** The asserts of the whole loop over the stack, TopLoopId threaded through. */
  predicate TransformsWellFormed(stack: seq<LoopTransformation>, hasTop: bool)
    decreases |stack|
  {
    stack == [] || (EntryWellFormed(stack[0], hasTop) && TransformsWellFormed(stack[1..], !ResetsTop(stack[0])))
  }

  /** A named loop, or the current top loop when no name is given. */
  function ApplyOnOperand(applyOn: string, top: Option<MD>): MD
    requires applyOn == "" ==> top.Some?
  {
    if applyOn == "" then top.value else Str(applyOn)
  }

  function Strs(names: seq<string>): (r: seq<MD>)
    ensures |r| == |names|
  {
    seq(|names|, i requires 0 <= i < |names| => Str(names[i]))
  }

  function Int64s(values: seq<Int64>): (r: seq<MD>)
    ensures |r| == |values|
  {
    seq(|values|, i requires 0 <= i < |values| => Int(64, values[i]))
  }

  /** The node one stack entry yields, applied on `top` where it names no loop. */
  function TransformNode(t: LoopTransformation, top: Option<MD>): MD
    requires EntryWellFormed(t, top.Some?)
  {
    match t
    case Reversal(applyOn) => Node([Str(REVERSE), ApplyOnOperand(applyOn, top)])
    case Tiling(applyOns, tileSizes) =>
      Node([Str(TILE), Node(if applyOns == [] then [top.value] else Strs(applyOns)), Node(Int64s(tileSizes))])
    case Interchange(applyOns, permutation) =>
      Node([Str(INTERCHANGE), Node(Strs(applyOns)), Node(Strs(permutation))])
    case Pack(applyOn, arrayRef) => Node([Str(PACK), ApplyOnOperand(applyOn, top), ArrayAddr(arrayRef)])
  }

  /** TopLoopId after an entry. */
  function NextTop(t: LoopTransformation, node: MD): Option<MD>
  {
    if ResetsTop(t) then None else Some(node)
  }

  /** The nodes the loop over the stack produces, in stack order. */
  function TransformNodes(stack: seq<LoopTransformation>, top: Option<MD>): (r: seq<MD>)
    requires TransformsWellFormed(stack, top.Some?)
    ensures |r| == |stack|
    decreases |stack|
  {
    if stack == [] then []
    else
      var node := TransformNode(stack[0], top);
      [node] + TransformNodes(stack[1..], NextTop(stack[0], node))
  }

  /** The TopLoopId the k-th stack entry sees. */
  function SeenTop(stack: seq<LoopTransformation>, top: Option<MD>, k: nat): Option<MD>
    requires TransformsWellFormed(stack, top.Some?) && k < |stack|
  {
    if k == 0 then top else NextTop(stack[k - 1], TransformNodes(stack, top)[k - 1])
  }

  /**
   * The k-th node is built from the k-th entry and the TopLoopId that entry
   * sees: the loop's own node for the first entry, the previous entry's
   * node after a Reversal or a Pack, and null after a Tiling or an
   * Interchange.
   */
  lemma {:induction false} TransformNodesThreading(stack: seq<LoopTransformation>, top: Option<MD>, k: nat)
    requires TransformsWellFormed(stack, top.Some?)
    requires k < |stack|
    ensures EntryWellFormed(stack[k], SeenTop(stack, top, k).Some?)
    ensures TransformNodes(stack, top)[k] == TransformNode(stack[k], SeenTop(stack, top, k))
    decreases k
  {
    if k > 0 {
      var top' := NextTop(stack[0], TransformNode(stack[0], top));
      TransformNodesThreading(stack[1..], top', k - 1);
    }
  }

  // A reader of transformation nodes, the reference the builders are proved
  // against.

  function ReadNames(ops: seq<MD>): Option<seq<string>>
  {
    if forall i :: 0 <= i < |ops| ==> ops[i].Str? then Some(seq(|ops|, i requires 0 <= i < |ops| => ops[i].s))
    else None
  }

  predicate IsInt64(op: MD)
  {
    op.Int? && op.width == 64 && -0x8000_0000_0000_0000 <= op.value < 0x8000_0000_0000_0000
  }

  function ReadInt64s(ops: seq<MD>): Option<seq<Int64>>
  {
    if forall i :: 0 <= i < |ops| ==> IsInt64(ops[i])
    then Some(seq(|ops|, i requires 0 <= i < |ops| && IsInt64(ops[i]) => ops[i].value as Int64))
    else None
  }

  /** A non-empty name, or else the loop node applied on. */
  function ReadApplyOn(op: MD): (string, Option<MD>)
  {
    if op.Str? && op.s != "" then (op.s, None) else ("", Some(op))
  }

  /** Reads a transformation node back: the entry, and the loop node it applied on if it named none. */
  function ReadTransformNode(n: MD): Option<(LoopTransformation, Option<MD>)>
  {
    if !n.Node? || |n.ops| == 0 || !n.ops[0].Str? then None
    else
      var key, ops := n.ops[0].s, n.ops[1..];
      if key == REVERSE && |ops| == 1 then
        var (applyOn, top) := ReadApplyOn(ops[0]);
        Some((Reversal(applyOn), top))
      else if key == PACK && |ops| == 2 && ops[1].ArrayAddr? then
        var (applyOn, top) := ReadApplyOn(ops[0]);
        Some((Pack(applyOn, ops[1].arrayRef), top))
      else if key == TILE && |ops| == 2 && ops[0].Node? && ops[1].Node? then
        var loops := ops[0].ops;
        match ReadInt64s(ops[1].ops)
        case None => None
        case Some(sizes) =>
          if |loops| == 1 && !loops[0].Str? then Some((Tiling([], sizes), Some(loops[0])))
          else
            match ReadNames(loops)
            case None => None
            case Some(names) => Some((Tiling(names, sizes), None))
      else if key == INTERCHANGE && |ops| == 2 && ops[0].Node? && ops[1].Node? then
        match (ReadNames(ops[0].ops), ReadNames(ops[1].ops))
        case (Some(names), Some(perm)) => Some((Interchange(names, perm), None))
        case _ => None
      else None
  }

  /** Whether an entry applies on the current top loop rather than on named loops. */
  predicate UsesTop(t: LoopTransformation)
  {
    match t
    case Reversal(applyOn) => applyOn == ""
    case Tiling(applyOns, _) => applyOns == []
    case Interchange(_, _) => false
    case Pack(applyOn, _) => applyOn == ""
  }

  lemma ReadNamesOfStrs(names: seq<string>)
    ensures ReadNames(Strs(names)) == Some(names)
  {
    var ops := Strs(names);
    assert seq(|ops|, i requires 0 <= i < |ops| => ops[i].s) == names;
  }

  lemma ReadInt64sOfInt64s(values: seq<Int64>)
    ensures ReadInt64s(Int64s(values)) == Some(values)
  {
    var ops := Int64s(values);
    assert forall i :: 0 <= i < |ops| ==> IsInt64(ops[i]);
    assert seq(|ops|, i requires 0 <= i < |ops| && IsInt64(ops[i]) => ops[i].value as Int64) == values;
  }

  /**
   * A transformation node records its entry exactly (kind, loop names, tile
   * sizes, permutation, array) and, when the entry names no loop, the
   * TopLoopId it applied on.
   */
  lemma TransformNodeRoundTrip(t: LoopTransformation, top: Option<MD>)
    requires EntryWellFormed(t, top.Some?)
    requires top.Some? ==> top.value.Node?
    ensures ReadTransformNode(TransformNode(t, top)) == Some((t, if UsesTop(t) then top else None))
  {
    match t
    case Reversal(_) =>
    case Pack(_, _) =>
    case Tiling(applyOns, tileSizes) =>
      ReadInt64sOfInt64s(tileSizes);
      if applyOns != [] {
        ReadNamesOfStrs(applyOns);
        assert Strs(applyOns)[0].Str?;
      }
    case Interchange(applyOns, permutation) =>
      ReadNamesOfStrs(applyOns);
      ReadNamesOfStrs(permutation);
  }

  // ---------------------------------------------------------------------
  // createMetadata
  // ---------------------------------------------------------------------

  /** getMetadata("looptransform") is a node whose operands are all nodes (the cast<MDNode>). */
  predicate LoopTransformWellFormed(md: map<string, MD>)
  {
    LOOP_TRANSFORM in md ==>
      md[LOOP_TRANSFORM].Node? && forall i :: 0 <= i < |md[LOOP_TRANSFORM].ops| ==> md[LOOP_TRANSFORM].ops[i].Node?
  }

  /** The operands of the function's current "looptransform" node, if any. */
  function ExistingTransforms(md: map<string, MD>): seq<MD>
  {
    if LOOP_TRANSFORM in md && md[LOOP_TRANSFORM].Node? then md[LOOP_TRANSFORM].ops else []
  }

  /** The function metadata after createMetadata. */
  function RecordedMetadata(md: map<string, MD>, a: LoopAttributes, startLoc: Option<LocToken>, endLoc: Option<LocToken>)
    : map<string, MD>
    requires NeedsMetadata(a, startLoc, endLoc) ==> TransformsWellFormed(a.transformationStack, true)
  {
    if !NeedsMetadata(a, startLoc, endLoc) || a.transformationStack == [] then md
    else md[LOOP_TRANSFORM := Node(ExistingTransforms(md)
                                   + TransformNodes(a.transformationStack, Some(LoopIdNode(a, startLoc, endLoc))))]
  }

  /** Only the "looptransform" entry of the function metadata may change. */
  lemma RecordedMetadataFrame(md: map<string, MD>, a: LoopAttributes, startLoc: Option<LocToken>, endLoc: Option<LocToken>, key: string)
    requires NeedsMetadata(a, startLoc, endLoc) ==> TransformsWellFormed(a.transformationStack, true)
    requires key != LOOP_TRANSFORM
    ensures key in RecordedMetadata(md, a, startLoc, endLoc) <==> key in md
    ensures key in md ==> RecordedMetadata(md, a, startLoc, endLoc)[key] == md[key]
  {
  }

  /** Every transformation node is a node (so "looptransform" stays well formed). */
  lemma {:induction false} TransformNodesAreNodes(stack: seq<LoopTransformation>, top: Option<MD>)
    requires TransformsWellFormed(stack, top.Some?)
    ensures forall i :: 0 <= i < |TransformNodes(stack, top)| ==> TransformNodes(stack, top)[i].Node?
    decreases |stack|
  {
    if stack != [] {
      TransformNodesAreNodes(stack[1..], NextTop(stack[0], TransformNode(stack[0], top)));
    }
  }

  /**
   * Existing operands followed by the stack's nodes: the existing ones
   * keep their places, and the node at |existing| + k is entry k's, built
   * with the TopLoopId it sees.
   */
  lemma {:induction false} AppendedTransforms(existing: seq<MD>, stack: seq<LoopTransformation>, top: Option<MD>)
    requires TransformsWellFormed(stack, top.Some?)
    ensures var all := existing + TransformNodes(stack, top);
            && |all| == |existing| + |stack|
            && all[..|existing|] == existing
            && forall k :: 0 <= k < |stack| ==>
                 EntryWellFormed(stack[k], SeenTop(stack, top, k).Some?)
                 && all[|existing| + k] == TransformNode(stack[k], SeenTop(stack, top, k))
  {
    var all := existing + TransformNodes(stack, top);
    assert all[..|existing|] == existing;
    forall k | 0 <= k < |stack|
      ensures EntryWellFormed(stack[k], SeenTop(stack, top, k).Some?)
      ensures all[|existing| + k] == TransformNode(stack[k], SeenTop(stack, top, k))
    {
      TransformNodesThreading(stack, top, k);
    }
  }

  /**
   * "looptransform" keeps its operands, in order, followed by exactly one
   * node per stack entry, in stack order, each built with the TopLoopId it
   * sees (TransformNodesThreading); it is rewritten only when a node is
   * added, and without loop metadata the stack is ignored.
   */
  lemma RecordedMetadataTransforms(md: map<string, MD>, a: LoopAttributes, startLoc: Option<LocToken>, endLoc: Option<LocToken>)
    requires NeedsMetadata(a, startLoc, endLoc) ==> TransformsWellFormed(a.transformationStack, true)
    ensures !NeedsMetadata(a, startLoc, endLoc) || a.transformationStack == [] ==>
              RecordedMetadata(md, a, startLoc, endLoc) == md
    ensures NeedsMetadata(a, startLoc, endLoc) && a.transformationStack != [] ==>
              var md' := RecordedMetadata(md, a, startLoc, endLoc);
              && LOOP_TRANSFORM in md'
              && ExistingTransforms(md') == ExistingTransforms(md)
                   + TransformNodes(a.transformationStack, CreatedLoopId(a, startLoc, endLoc))
  {
  }

  lemma HintOperandsAppended(base: seq<MD>, a: LoopAttributes)
    ensures base + WidthOperand(a) + InterleaveOperand(a) + UnrollCountOperand(a) + VectorizeEnableOperand(a)
            + UnrollEnableOperand(a) + DistributeOperand(a) + LoopIdOperand(a)
            == base + HintOperands(a)
  {
    var w, i, u, ve, ue, d, id := WidthOperand(a), InterleaveOperand(a), UnrollCountOperand(a),
      VectorizeEnableOperand(a), UnrollEnableOperand(a), DistributeOperand(a), LoopIdOperand(a);
    Assoc(base, w, i);
    Assoc(base, w + i, u);
    Assoc(base, w + i + u, ve);
    Assoc(base, w + i + u + ve, ue);
    Assoc(base, w + i + u + ve + ue, d);
    Assoc(base, w + i + u + ve + ue + d, id);
  }

  /** One step of the loop over the stack. */
  lemma TransformNodesStep(stack: seq<LoopTransformation>, i: nat, top: Option<MD>, done: seq<MD>)
    requires i < |stack|
    requires TransformsWellFormed(stack[i..], top.Some?)
    ensures EntryWellFormed(stack[i], top.Some?)
    ensures var node := TransformNode(stack[i], top);
            && TransformsWellFormed(stack[i + 1..], NextTop(stack[i], node).Some?)
            && done + TransformNodes(stack[i..], top)
               == (done + [node]) + TransformNodes(stack[i + 1..], NextTop(stack[i], node))
  {
    assert stack[i..][0] == stack[i];
    assert stack[i..][1..] == stack[i + 1..];
  }

  /**
   * Builds the loop-ID node operand by operand (lines 38-114): the
   * self reference, the debug locations, then one operand per set hint.
   */
  method BuildLoopId(attrs: LoopAttributes, startLoc: Option<LocToken>, endLoc: Option<LocToken>)
    returns (loopId: MD)
    ensures loopId == LoopIdNode(attrs, startLoc, endLoc)
  {
    // Operand 0 is reserved for the self reference.
    var args: seq<MD> := [Self];
    if startLoc.Some? {
      args := args + [Loc(startLoc.value)];
      if endLoc.Some? {
        args := args + [Loc(endLoc.value)];
      }
    }
    assert args == [Self] + LocOperands(startLoc, endLoc);
    args := AppendCountHints(args, attrs);
    args := AppendEnableHints(args, attrs);
    HintOperandsAppended([Self] + LocOperands(startLoc, endLoc), attrs);
    loopId := Node(args);
  }

  /** Appends the vectorize width, interleave count and unroll count operands (lines 52-74). */
  method AppendCountHints(args: seq<MD>, attrs: LoopAttributes) returns (r: seq<MD>)
    ensures r == args + WidthOperand(attrs) + InterleaveOperand(attrs) + UnrollCountOperand(attrs)
  {
    r := args;
    if attrs.vectorizeWidth > 0 {
      r := r + [KeyInt(VECTORIZE_WIDTH, 32, attrs.vectorizeWidth)];
    }
    assert r == args + WidthOperand(attrs);
    ghost var prev := r;
    if attrs.interleaveCount > 0 {
      r := r + [KeyInt(INTERLEAVE_COUNT, 32, attrs.interleaveCount)];
    }
    assert r == prev + InterleaveOperand(attrs);
    prev := r;
    if attrs.unrollCount > 0 {
      r := r + [KeyInt(UNROLL_COUNT, 32, attrs.unrollCount)];
    }
    assert r == prev + UnrollCountOperand(attrs);
  }

  /**
   * Appends the vectorize enable, unroll enable/full/disable, distribute
   * enable and loop-name operands (lines 76-110).
   */
  method AppendEnableHints(args: seq<MD>, attrs: LoopAttributes) returns (r: seq<MD>)
    ensures r == args + VectorizeEnableOperand(attrs) + UnrollEnableOperand(attrs)
                 + DistributeOperand(attrs) + LoopIdOperand(attrs)
  {
    r := args;
    if attrs.vectorizeEnable != Unspecified {
      r := r + [KeyInt(VECTORIZE_ENABLE, 1, if attrs.vectorizeEnable == Enable then 1 else 0)];
    }
    assert r == args + VectorizeEnableOperand(attrs);
    ghost var prev := r;
    if attrs.unrollEnable != Unspecified {
      var name: string;
      if attrs.unrollEnable == Enable {
        name := UNROLL_ENABLE;
      } else if attrs.unrollEnable == Full {
        name := UNROLL_FULL;
      } else {
        name := UNROLL_DISABLE;
      }
      r := r + [Node([Str(name)])];
    }
    assert r == prev + UnrollEnableOperand(attrs);
    prev := r;
    if attrs.distributeEnable != Unspecified {
      r := r + [KeyInt(DISTRIBUTE_ENABLE, 1, if attrs.distributeEnable == Enable then 1 else 0)];
    }
    assert r == prev + DistributeOperand(attrs);
    prev := r;
    if attrs.loopId != [] {
      r := r + [Node([Str(LOOP_ID), Str(attrs.loopId)])];
    }
    assert r == prev + LoopIdOperand(attrs);
  }

  /**
   * The loop over the transformation stack (lines 116-253): one node per
   * entry, TopLoopId threaded from the loop's own node; "looptransform"
   * becomes the existing operands followed by the new nodes, and is
   * rewritten only if some node was added.
   */
  method RecordTransforms(f: Function, stack: seq<LoopTransformation>, loopId: MD)
    requires LoopTransformWellFormed(f.metadata)
    requires TransformsWellFormed(stack, true)
    modifies f
    ensures LoopTransformWellFormed(f.metadata)
    ensures f.metadata == if stack == [] then old(f.metadata)
                          else old(f.metadata)[LOOP_TRANSFORM := Node(ExistingTransforms(old(f.metadata))
                                                 + TransformNodes(stack, Some(loopId)))]
  {
    var additional: seq<MD> := [];
    var all: seq<MD> := [];
    if LOOP_TRANSFORM in f.metadata {
      var existing := f.metadata[LOOP_TRANSFORM].ops;
      for j := 0 to |existing|
        invariant all == existing[..j]
        invariant f.metadata == old(f.metadata)
      {
        all := all + [existing[j]];
      }
      assert existing[..|existing|] == existing;
    }
    ghost var before := all;
    assert before == ExistingTransforms(f.metadata);
    assert forall k :: 0 <= k < |before| ==> before[k].Node?;

    var top: Option<MD> := Some(loopId);
    for i := 0 to |stack|
      invariant f.metadata == old(f.metadata)
      invariant TransformsWellFormed(stack[i..], top.Some?)
      invariant additional + TransformNodes(stack[i..], top) == TransformNodes(stack, Some(loopId))
      invariant all == before + additional
    {
      TransformNodesStep(stack, i, top, additional);
      var mdTransform := TransformNode(stack[i], top);
      additional := additional + [mdTransform];
      all := all + [mdTransform];
      match stack[i]
      case Reversal(_) => top := Some(mdTransform);
      case Tiling(_, _) => top := None;
      case Interchange(_, _) => top := None;
      case Pack(_, _) => top := Some(mdTransform);
    }
    assert stack[|stack|..] == [];
    assert additional == TransformNodes(stack, Some(loopId));
    TransformNodesAreNodes(stack, Some(loopId));

    if additional != [] {
      f.metadata := f.metadata[LOOP_TRANSFORM := Node(all)];
    }
  }

  /**
   * createMetadata: returns null exactly when no loop metadata is needed
   * (NoMetadataExactlyAtDefaults), otherwise the loop-ID node
   * (LoopIdNodeRoundTrip), and records one transformation node per stack
   * entry in "looptransform" (RecordedMetadataTransforms), changing no
   * other function metadata (RecordedMetadataFrame).
   */
  method CreateMetadata(f: Function, attrs: LoopAttributes, startLoc: Option<LocToken>, endLoc: Option<LocToken>)
    returns (loopId: Option<MD>)
    requires LoopTransformWellFormed(f.metadata)
    requires NeedsMetadata(attrs, startLoc, endLoc) ==> TransformsWellFormed(attrs.transformationStack, true)
    modifies f
    ensures LoopTransformWellFormed(f.metadata)
    ensures loopId == CreatedLoopId(attrs, startLoc, endLoc)
    ensures f.metadata == RecordedMetadata(old(f.metadata), attrs, startLoc, endLoc)
  {
    if !NeedsMetadata(attrs, startLoc, endLoc) {
      return None;
    }
    var node := BuildLoopId(attrs, startLoc, endLoc);
    RecordTransforms(f, attrs.transformationStack, node);
    loopId := Some(node);
  }
}
