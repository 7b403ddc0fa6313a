/**
 * LoopInfoStack: the staged attributes for the next loop, the stack of
 * loops being emitted, and the tagging of each new instruction with the
 * innermost loop's metadata.
 */
module LoopStack {
  import opened Wrappers
  import opened IR
  import opened LoopAttrs
  import opened LoopMetadata
  import H = LoopHints

  /** One active loop: its loop-ID node (null if none was needed), header block and attributes. */
  datatype LoopInfo = LoopInfo(loopId: Option<MD>, header: BlockId, attrs: LoopAttributes)

  /**
   * A loop whose ID node, if any, reads back as its own attributes, apart
   * from IsParallel and the transformation stack, which the node does not record.
   */
  ghost predicate InfoValid(info: LoopInfo)
  {
    && CanonicalStates(info.attrs)
    && (info.loopId.Some? ==>
          && ReadLoopIdNode(info.loopId.value).Some?
          && ReadLoopIdNode(info.loopId.value).value.2 == Scalars(info.attrs))
  }

  /**
   * The LoopInfo constructor (lines 276-280): the loop's attributes are a
   * copy of `attrs`, and its ID node is what createMetadata returns.
   */
  method NewLoopInfo(header: BlockId, f: Function, attrs: LoopAttributes,
                     startLoc: Option<LocToken>, endLoc: Option<LocToken>) returns (info: LoopInfo)
    requires LoopTransformWellFormed(f.metadata)
    requires NeedsMetadata(attrs, startLoc, endLoc) ==> TransformsWellFormed(attrs.transformationStack, true)
    modifies f
    ensures info == LoopInfo(CreatedLoopId(attrs, startLoc, endLoc), header, attrs)
    ensures f.metadata == RecordedMetadata(old(f.metadata), attrs, startLoc, endLoc)
    ensures LoopTransformWellFormed(f.metadata)
    ensures CanonicalStates(attrs) ==> InfoValid(info)
  {
    var loopId := CreateMetadata(f, attrs, startLoc, endLoc);
    info := LoopInfo(loopId, header, attrs);
    if loopId.Some? && CanonicalStates(attrs) {
      LoopIdNodeRoundTrip(attrs, startLoc, endLoc);
    }
  }

  /**
   * The metadata InsertHelper leaves on an instruction (lines 483-502),
   * given the innermost active loop, if any.
   */
  function InsertedMetadata(md: map<string, MD>, isTerminator: bool, successors: seq<BlockId>,
                            mayReadOrWriteMemory: bool, top: Option<LoopInfo>): map<string, MD>
  {
    if top.None? || top.value.loopId.None? then md
    else if isTerminator then
      if top.value.header in successors then md[MD_LOOP := top.value.loopId.value] else md
    else if top.value.attrs.isParallel && mayReadOrWriteMemory then
      md[PARALLEL_LOOP_ACCESS := top.value.loopId.value]
    else md
  }

  /** The two tags InsertHelper may set. */
  predicate IsLoopTag(key: string)
  {
    key == MD_LOOP || key == PARALLEL_LOOP_ACCESS
  }

  /** No metadata other than the two loop tags ever changes. */
  lemma InsertedOnlyLoopTags(md: map<string, MD>, isTerminator: bool, successors: seq<BlockId>,
                             mayReadOrWriteMemory: bool, top: Option<LoopInfo>, key: string)
    requires !IsLoopTag(key)
    ensures var md' := InsertedMetadata(md, isTerminator, successors, mayReadOrWriteMemory, top);
            (key in md' <==> key in md) && (key in md ==> md'[key] == md[key])
  {
  }

  /**
   * A terminator gets the innermost loop's ID node as "llvm.loop" exactly
   * when that loop has one and branches to the loop's header; it never
   * gets the parallel-access tag.
   */
  lemma InsertedOnTerminator(md: map<string, MD>, successors: seq<BlockId>, mayReadOrWriteMemory: bool,
                             top: Option<LoopInfo>)
    ensures var md' := InsertedMetadata(md, true, successors, mayReadOrWriteMemory, top);
            && (top.Some? && top.value.loopId.Some? && top.value.header in successors ==>
                  md' == md[MD_LOOP := top.value.loopId.value])
            && (!(top.Some? && top.value.loopId.Some? && top.value.header in successors) ==> md' == md)
            && (PARALLEL_LOOP_ACCESS in md' <==> PARALLEL_LOOP_ACCESS in md)
  {
  }

  /**
   * Any other instruction gets the ID node as the parallel-access tag
   * exactly when the innermost loop has one, is parallel and the
   * instruction may touch memory; it never gets "llvm.loop".
   */
  lemma InsertedOnOtherInstruction(md: map<string, MD>, successors: seq<BlockId>, mayReadOrWriteMemory: bool,
                                   top: Option<LoopInfo>)
    ensures var md' := InsertedMetadata(md, false, successors, mayReadOrWriteMemory, top);
            && (top.Some? && top.value.loopId.Some? && top.value.attrs.isParallel && mayReadOrWriteMemory ==>
                  md' == md[PARALLEL_LOOP_ACCESS := top.value.loopId.value])
            && (!(top.Some? && top.value.loopId.Some? && top.value.attrs.isParallel && mayReadOrWriteMemory) ==>
                  md' == md)
            && (MD_LOOP in md' <==> MD_LOOP in md)
  {
  }

  /** Tagging twice is tagging once. */
  lemma InsertedIdempotent(md: map<string, MD>, isTerminator: bool, successors: seq<BlockId>,
                           mayReadOrWriteMemory: bool, top: Option<LoopInfo>)
    ensures var md' := InsertedMetadata(md, isTerminator, successors, mayReadOrWriteMemory, top);
            InsertedMetadata(md', isTerminator, successors, mayReadOrWriteMemory, top) == md'
  {
  }

  /** Whatever InsertHelper adds or overwrites is the innermost loop's ID node. */
  lemma InsertedNodeIsTopNode(md: map<string, MD>, isTerminator: bool, successors: seq<BlockId>,
                              mayReadOrWriteMemory: bool, top: Option<LoopInfo>, key: string)
    requires var md' := InsertedMetadata(md, isTerminator, successors, mayReadOrWriteMemory, top);
             key in md' && (key in md ==> md'[key] != md[key])
    ensures top.Some? && top.value.loopId.Some?
    ensures InsertedMetadata(md, isTerminator, successors, mayReadOrWriteMemory, top)[key] == top.value.loopId.value
  {
  }

  class LoopInfoStack {
    /** The attributes for the next loop to be pushed. */
    var staged: LoopAttributes
    /** The active loops, innermost last. */
    var active: seq<LoopInfo>

    /**
     * Staged attributes never hold a Full vectorize or distribute state, and
     * every active loop satisfies InfoValid.
     */
    ghost predicate Valid()
      reads this
    {
      CanonicalStates(staged) && forall i :: 0 <= i < |active| ==> InfoValid(active[i])
    }

    constructor ()
      ensures staged == Defaults(false) && active == []
      ensures Valid()
    {
      staged := Defaults(false);
      active := [];
    }

    predicate HasInfo()
      reads this
    {
      active != []
    }

    /** The innermost active loop. */
    function GetInfo(): LoopInfo
      requires HasInfo()
      reads this
    {
      active[|active| - 1]
    }

    /** The innermost active loop, if any. */
    function Top(): Option<LoopInfo>
      reads this
    {
      if active == [] then None else Some(active[|active| - 1])
    }

    /**
     * push without attributes (lines 282-288): a loop built from a snapshot
     * of the staged attributes becomes the innermost active loop, and the
     * staged attributes are cleared so that nested loops do not inherit
     * them.
     */
    method Push(header: BlockId, f: Function, startLoc: Option<LocToken>, endLoc: Option<LocToken>)
      requires Valid()
      requires LoopTransformWellFormed(f.metadata)
      requires NeedsMetadata(staged, startLoc, endLoc) ==> TransformsWellFormed(staged.transformationStack, true)
      modifies this, f
      ensures Valid()
      ensures active == old(active) + [LoopInfo(CreatedLoopId(old(staged), startLoc, endLoc), header, old(staged))]
      ensures staged == Defaults(false)
      ensures f.metadata == RecordedMetadata(old(f.metadata), old(staged), startLoc, endLoc)
      ensures LoopTransformWellFormed(f.metadata)
    {
      var info := NewLoopInfo(header, f, staged, startLoc, endLoc);
      active := active + [info];
      staged := Clear(staged);
    }

    /**
     * push with attributes (lines 290-476): the attributes are applied to
     * the staged attributes in order, then the loop is pushed. Hint
     * option/state pairs the translation does not handle are unreachable.
     */
    method PushWithAttrs(header: BlockId, f: Function, attrs: seq<H.Attr>,
                         startLoc: Option<LocToken>, endLoc: Option<LocToken>)
      requires Valid()
      requires H.AllAllowed(attrs)
      requires LoopTransformWellFormed(f.metadata)
      requires var t := H.Translate(staged, attrs);
               NeedsMetadata(t, startLoc, endLoc) ==> TransformsWellFormed(t.transformationStack, true)
      modifies this, f
      ensures Valid()
      ensures var t := H.Translate(old(staged), attrs);
              && active == old(active) + [LoopInfo(CreatedLoopId(t, startLoc, endLoc), header, t)]
              && f.metadata == RecordedMetadata(old(f.metadata), t, startLoc, endLoc)
      ensures staged == Defaults(false)
      ensures LoopTransformWellFormed(f.metadata)
    {
      for i := 0 to |attrs|
        invariant H.AllAllowed(attrs[i..])
        invariant H.Translate(staged, attrs[i..]) == H.Translate(old(staged), attrs)
        invariant active == old(active) && f.metadata == old(f.metadata)
        invariant Valid()
      {
        StageAttr(attrs[i]);
        assert attrs[i..][0] == attrs[i] && attrs[i..][1..] == attrs[i + 1..];
      }
      assert H.Translate(staged, []) == staged;
      H.TranslateCanonical(old(staged), attrs);
      Push(header, f, startLoc, endLoc);
    }

    /** One iteration of the loop over the attributes (lines 297-471). */
    method StageAttr(attr: H.Attr)
      requires Valid() && H.AttrAllowed(attr)
      modifies this
      ensures Valid()
      ensures staged == H.ApplyAttr(old(staged), attr)
      ensures active == old(active)
    {
      match attr {
        case LoopIdAttr(name) =>
          staged := staged.(loopId := name);
        case LoopReversalAttr(applyOn) =>
          staged := staged.(transformationStack := staged.transformationStack + [Reversal(applyOn)]);
        case LoopTilingAttr(applyOns, tileSizes) =>
          staged := staged.(transformationStack := staged.transformationStack + [Tiling(applyOns, tileSizes)]);
        case LoopInterchangeAttr(applyOns, permutation) =>
          staged := staged.(transformationStack := staged.transformationStack + [Interchange(applyOns, permutation)]);
        case PackAttr(applyOn, arrayRef) =>
          staged := staged.(transformationStack := staged.transformationStack + [Pack(applyOn, arrayRef)]);
        case OtherAttr =>
          // Not a loop hint: skipped.
        case LoopHintAttr(_, _, _) =>
          StageHint(attr);
        case OpenCLUnrollHintAttr(_) =>
          StageHint(attr);
      }
    }

    /** The translation of one loop hint or OpenCL unroll hint (lines 350-471). */
    method StageHint(attr: H.Attr)
      requires Valid() && H.IsHint(attr) && H.AttrAllowed(attr)
      modifies this
      ensures Valid()
      ensures staged == H.ApplyHint(old(staged), H.HintOf(attr))
      ensures active == old(active)
    {
      var option: H.OptionType := H.Unroll;
      var state: H.LoopHintState := H.Disable;
      var valueInt: U32 := 1;
      if attr.OpenCLUnrollHintAttr? {
        valueInt := attr.unrollHint;
        if valueInt == 0 {
          state := H.Full;
        } else if valueInt != 1 {
          option := H.UnrollCount;
          state := H.Numeric;
        }
      } else {
        if attr.value.Some? {
          valueInt := TruncateToU32(attr.value.value);
        }
        option := attr.option;
        state := attr.state;
      }
      assert H.Hint(option, state, valueInt) == H.HintOf(attr);
      match state {
        case Disable =>
          match option {
            case Vectorize => staged := staged.(vectorizeWidth := 1);
            case Interleave => staged := staged.(interleaveCount := 1);
            case Unroll => staged := staged.(unrollEnable := Disable);
            case Distribute => staged := staged.(distributeEnable := Disable);
            case UnrollCount | VectorizeWidth | InterleaveCount => assert false;
          }
        case Enable =>
          match option {
            case Vectorize | Interleave => staged := staged.(vectorizeEnable := Enable);
            case Unroll => staged := staged.(unrollEnable := Enable);
            case Distribute => staged := staged.(distributeEnable := Enable);
            case UnrollCount | VectorizeWidth | InterleaveCount => assert false;
          }
        case AssumeSafety =>
          match option {
            case Vectorize | Interleave =>
              staged := staged.(isParallel := true);
              staged := staged.(vectorizeEnable := Enable);
            case Unroll | UnrollCount | VectorizeWidth | InterleaveCount | Distribute => assert false;
          }
        case Full =>
          match option {
            case Unroll => staged := staged.(unrollEnable := Full);
            case Vectorize | Interleave | UnrollCount | VectorizeWidth | InterleaveCount | Distribute => assert false;
          }
        case Numeric =>
          match option {
            case VectorizeWidth => staged := staged.(vectorizeWidth := valueInt);
            case InterleaveCount => staged := staged.(interleaveCount := valueInt);
            case UnrollCount => staged := staged.(unrollCount := valueInt);
            case Unroll | Vectorize | Interleave | Distribute => assert false;
          }
      }
      H.HintKeepsCanonical(old(staged), H.HintOf(attr));
    }

    /** pop (lines 478-481): removes the innermost active loop and nothing else. */
    method Pop()
      requires Valid()
      requires active != []
      modifies this
      ensures Valid()
      ensures active == old(active)[..|old(active)| - 1]
      ensures staged == old(staged)
    {
      active := active[..|active| - 1];
    }

    /**
     * InsertHelper (lines 483-502): tags a new instruction according to the
     * innermost active loop; the stack itself is left alone. On a valid
     * stack, every tag it writes is a node that decodes to the attributes
     * of that loop.
     */
    method InsertHelper(inst: Instruction)
      modifies inst
      ensures inst.metadata == InsertedMetadata(old(inst.metadata), inst.isTerminator, inst.successors,
                                                inst.mayReadOrWriteMemory, Top())
      ensures Valid() ==>
                forall key | key in inst.metadata && (key in old(inst.metadata) ==> inst.metadata[key] != old(inst.metadata)[key]) ::
                  && Top().Some?
                  && ReadLoopIdNode(inst.metadata[key]).Some?
                  && ReadLoopIdNode(inst.metadata[key]).value.2 == Scalars(Top().value.attrs)
    {
      ghost var md := inst.metadata;
      if HasInfo() {
        var l := GetInfo();
        if l.loopId.Some? {
          if inst.isTerminator {
            for i := 0 to |inst.successors|
              invariant inst.metadata == md
              invariant forall j :: 0 <= j < i ==> inst.successors[j] != l.header
            {
              if inst.successors[i] == l.header {
                inst.metadata := inst.metadata[MD_LOOP := l.loopId.value];
                break;
              }
            }
          } else if l.attrs.isParallel && inst.mayReadOrWriteMemory {
            inst.metadata := inst.metadata[PARALLEL_LOOP_ACCESS := l.loopId.value];
          }
        }
      }
      if Valid() {
        forall key | key in inst.metadata && (key in md ==> inst.metadata[key] != md[key])
          ensures && Top().Some?
                  && ReadLoopIdNode(inst.metadata[key]).Some?
                  && ReadLoopIdNode(inst.metadata[key]).value.2 == Scalars(Top().value.attrs)
        {
          InsertedNodeIsTopNode(md, inst.isTerminator, inst.successors, inst.mayReadOrWriteMemory, Top(), key);
          assert InfoValid(active[|active| - 1]);
        }
      }
    }
  }
}
