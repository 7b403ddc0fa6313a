/**
 * The attributes written on a loop statement and how LoopInfoStack::push
 * folds them, in order, into the staged LoopAttributes: structured
 * directives (id, reversal, tiling, interchange, pack) set the loop name or
 * append to the transformation stack; loop hints and OpenCL unroll hints
 * are translated into an (option, state, value) triple that sets scalar
 * fields; anything else is skipped.
 */
module LoopHints {
  import opened Wrappers
  import opened IR
  import LA = LoopAttrs

  /** LoopHintAttr::OptionType */
  datatype OptionType = Vectorize | VectorizeWidth | Interleave | InterleaveCount | Unroll | UnrollCount | Distribute

  /** LoopHintAttr::LoopHintState */
  datatype LoopHintState = Enable | Disable | Numeric | AssumeSafety | Full

  /**
   * The attributes of a loop statement, as the code generator sees them.
   * Tile sizes and hint values are the already evaluated constants.
   */
  datatype Attr =
    | LoopIdAttr(loopName: string)
    | LoopReversalAttr(applyOn: string)
    | LoopTilingAttr(applyOns: seq<string>, tileSizes: seq<Int64>)
    | LoopInterchangeAttr(applyOns: seq<string>, permutation: seq<string>)
    | PackAttr(applyOn: string, arrayRef: ArrayToken)
    | LoopHintAttr(option: OptionType, state: LoopHintState, value: Option<Int64>)
    | OpenCLUnrollHintAttr(unrollHint: U32)
    | OtherAttr

  /** The translated hint: option, state and the `unsigned` value. */
  datatype Hint = Hint(option: OptionType, state: LoopHintState, value: U32)

  predicate IsHint(attr: Attr)
  {
    attr.LoopHintAttr? || attr.OpenCLUnrollHintAttr?
  }

  /**
   * The triple a hint attribute stands for. The defaults are Unroll,
   * Disable and 1; an OpenCL hint of 0 is a full unroll, 1 disables
   * unrolling, n unrolls by n; a loop hint's value is the 64-bit constant
   * truncated to `unsigned`, or 1 when the hint has no value.
   */
  function HintOf(attr: Attr): Hint
    requires IsHint(attr)
  {
    match attr
    case OpenCLUnrollHintAttr(n) =>
      if n == 0 then Hint(Unroll, Full, n)
      else if n == 1 then Hint(Unroll, Disable, n)
      else Hint(UnrollCount, Numeric, n)
    case LoopHintAttr(option, state, value) =>
      Hint(option, state, if value.Some? then TruncateToU32(value.value) else 1)
  }

  /** The option/state pairs the translation handles; every other pair is unreachable. */
  predicate Allowed(option: OptionType, state: LoopHintState)
  {
    match state
    case Disable => option in {Vectorize, Interleave, Unroll, Distribute}
    case Enable => option in {Vectorize, Interleave, Unroll, Distribute}
    case AssumeSafety => option in {Vectorize, Interleave}
    case Full => option == Unroll
    case Numeric => option in {VectorizeWidth, InterleaveCount, UnrollCount}
  }

  predicate AttrAllowed(attr: Attr)
  {
    IsHint(attr) ==> Allowed(HintOf(attr).option, HintOf(attr).state)
  }

  /** The setter calls one allowed hint makes on the staged attributes. */
  function ApplyHint(a: LA.LoopAttributes, h: Hint): LA.LoopAttributes
    requires Allowed(h.option, h.state)
  {
    match h.state
    case Disable =>
      (match h.option
       case Vectorize => a.(vectorizeWidth := 1)
       case Interleave => a.(interleaveCount := 1)
       case Unroll => a.(unrollEnable := LA.Disable)
       case Distribute => a.(distributeEnable := LA.Disable))
    case Enable =>
      (match h.option
       case Vectorize => a.(vectorizeEnable := LA.Enable)
       case Interleave => a.(vectorizeEnable := LA.Enable)
       case Unroll => a.(unrollEnable := LA.Enable)
       case Distribute => a.(distributeEnable := LA.Enable))
    case AssumeSafety => a.(isParallel := true, vectorizeEnable := LA.Enable)
    case Full => a.(unrollEnable := LA.Full)
    case Numeric =>
      (match h.option
       case VectorizeWidth => a.(vectorizeWidth := h.value)
       case InterleaveCount => a.(interleaveCount := h.value)
       case UnrollCount => a.(unrollCount := h.value))
  }

  /** What one attribute does to the staged attributes. */
  function ApplyAttr(a: LA.LoopAttributes, attr: Attr): LA.LoopAttributes
    requires AttrAllowed(attr)
  {
    match attr
    case LoopIdAttr(name) => a.(loopId := name)
    case LoopReversalAttr(applyOn) => a.(transformationStack := a.transformationStack + [LA.Reversal(applyOn)])
    case LoopTilingAttr(applyOns, tileSizes) =>
      a.(transformationStack := a.transformationStack + [LA.Tiling(applyOns, tileSizes)])
    case LoopInterchangeAttr(applyOns, permutation) =>
      a.(transformationStack := a.transformationStack + [LA.Interchange(applyOns, permutation)])
    case PackAttr(applyOn, arrayRef) => a.(transformationStack := a.transformationStack + [LA.Pack(applyOn, arrayRef)])
    case LoopHintAttr(_, _, _) => ApplyHint(a, HintOf(attr))
    case OpenCLUnrollHintAttr(_) => ApplyHint(a, HintOf(attr))
    case OtherAttr => a
  }

  predicate AllAllowed(attrs: seq<Attr>)
  {
    forall i :: 0 <= i < |attrs| ==> AttrAllowed(attrs[i])
  }

  /** The attributes folded into `a` in list order. */
  function Translate(a: LA.LoopAttributes, attrs: seq<Attr>): LA.LoopAttributes
    requires AllAllowed(attrs)
    decreases |attrs|
  {
    if attrs == [] then a else Translate(ApplyAttr(a, attrs[0]), attrs[1..])
  }

  // ---------------------------------------------------------------------
  // Reference definitions the fold is proved against
  // ---------------------------------------------------------------------

  /** The transformation a structured directive stands for. */
  function TransformationOf(attr: Attr): Option<LA.LoopTransformation>
  {
    match attr
    case LoopReversalAttr(applyOn) => Some(LA.Reversal(applyOn))
    case LoopTilingAttr(applyOns, tileSizes) => Some(LA.Tiling(applyOns, tileSizes))
    case LoopInterchangeAttr(applyOns, permutation) => Some(LA.Interchange(applyOns, permutation))
    case PackAttr(applyOn, arrayRef) => Some(LA.Pack(applyOn, arrayRef))
    case _ => None
  }

  /** The transformations of the structured directives, in list order. */
  function Transformations(attrs: seq<Attr>): seq<LA.LoopTransformation>
    decreases |attrs|
  {
    if attrs == [] then []
    else (if TransformationOf(attrs[0]).Some? then [TransformationOf(attrs[0]).value] else [])
         + Transformations(attrs[1..])
  }

  /** The name of the last id directive, or `dflt` if there is none. */
  function LastLoopName(attrs: seq<Attr>, dflt: string): string
    decreases |attrs|
  {
    if attrs == [] then dflt
    else if attrs[|attrs| - 1].LoopIdAttr? then attrs[|attrs| - 1].loopName
    else LastLoopName(attrs[..|attrs| - 1], dflt)
  }

  /** An `assume_safety` hint on vectorize or interleave. */
  predicate AssumesSafety(attr: Attr)
  {
    attr.LoopHintAttr? && attr.state == AssumeSafety && attr.option in {Vectorize, Interleave}
  }

  // ---------------------------------------------------------------------
  // Properties
  // ---------------------------------------------------------------------

  /**
   * An OpenCL unroll hint acts exactly as the corresponding loop hint:
   * 0 as `unroll(full)`, 1 as `unroll(disable)`, n as `unroll_count(n)`.
   */
  lemma OpenCLHintIsUnrollHint(a: LA.LoopAttributes, n: U32)
    ensures AttrAllowed(OpenCLUnrollHintAttr(n))
    ensures n == 0 ==> ApplyAttr(a, OpenCLUnrollHintAttr(n)) == ApplyAttr(a, LoopHintAttr(Unroll, Full, None))
    ensures n == 1 ==> ApplyAttr(a, OpenCLUnrollHintAttr(n)) == ApplyAttr(a, LoopHintAttr(Unroll, Disable, None))
    ensures n > 1 ==> ApplyAttr(a, OpenCLUnrollHintAttr(n)) == ApplyAttr(a, LoopHintAttr(UnrollCount, Numeric, Some(n)))
  {
  }

  /** A hint's value matters only for the Numeric state. */
  lemma HintValueOnlyForNumeric(a: LA.LoopAttributes, h: Hint, v: U32)
    requires Allowed(h.option, h.state) && h.state != Numeric
    ensures ApplyHint(a, h.(value := v)) == ApplyHint(a, h)
  {
  }

  /** Hints never touch the loop name or the transformation stack. */
  lemma HintKeepsStructure(a: LA.LoopAttributes, h: Hint)
    requires Allowed(h.option, h.state)
    ensures ApplyHint(a, h).loopId == a.loopId
    ensures ApplyHint(a, h).transformationStack == a.transformationStack
  {
  }

  /** A hint sets no state to Full other than the unroll state. */
  lemma HintKeepsCanonical(a: LA.LoopAttributes, h: Hint)
    requires Allowed(h.option, h.state) && LA.CanonicalStates(a)
    ensures LA.CanonicalStates(ApplyHint(a, h))
  {
  }

  /** Applying the same hint twice is applying it once. */
  lemma HintIdempotent(a: LA.LoopAttributes, h: Hint)
    requires Allowed(h.option, h.state)
    ensures ApplyHint(ApplyHint(a, h), h) == ApplyHint(a, h)
  {
  }

  lemma TranslateAppend(a: LA.LoopAttributes, attrs: seq<Attr>, attr: Attr)
    requires AllAllowed(attrs + [attr])
    ensures AllAllowed(attrs) && AttrAllowed(attr)
    ensures Translate(a, attrs + [attr]) == ApplyAttr(Translate(a, attrs), attr)
    decreases |attrs|
  {
    assert forall i :: 0 <= i < |attrs| ==> attrs[i] == (attrs + [attr])[i];
    assert (attrs + [attr])[|attrs|] == attr;
    if attrs != [] {
      assert (attrs + [attr])[1..] == attrs[1..] + [attr];
      TranslateAppend(ApplyAttr(a, attrs[0]), attrs[1..], attr);
    }
  }

  /**
   * The transformation stack grows by exactly the structured directives, in
   * list order; every other attribute leaves it alone.
   */
  lemma {:induction false} TranslateStack(a: LA.LoopAttributes, attrs: seq<Attr>)
    requires AllAllowed(attrs)
    ensures Translate(a, attrs).transformationStack == a.transformationStack + Transformations(attrs)
    decreases |attrs|
  {
    if attrs == [] {
      assert a.transformationStack + [] == a.transformationStack;
    } else {
      var a' := ApplyAttr(a, attrs[0]);
      assert AllAllowed(attrs[1..]);
      TranslateStack(a', attrs[1..]);
      if IsHint(attrs[0]) {
        HintKeepsStructure(a, HintOf(attrs[0]));
      }
      var head := if TransformationOf(attrs[0]).Some? then [TransformationOf(attrs[0]).value] else [];
      assert a'.transformationStack == a.transformationStack + head;
      assert a.transformationStack + head + Transformations(attrs[1..])
             == a.transformationStack + (head + Transformations(attrs[1..]));
    }
  }

  /** The loop name is that of the last id directive, or unchanged if there is none. */
  lemma {:induction false} TranslateLoopId(a: LA.LoopAttributes, attrs: seq<Attr>)
    requires AllAllowed(attrs)
    ensures Translate(a, attrs).loopId == LastLoopName(attrs, a.loopId)
    decreases |attrs|
  {
    if attrs != [] {
      var init, last := attrs[..|attrs| - 1], attrs[|attrs| - 1];
      assert attrs == init + [last];
      TranslateAppend(a, init, last);
      TranslateLoopId(a, init);
      if IsHint(last) {
        HintKeepsStructure(Translate(a, init), HintOf(last));
      }
    }
  }

  /** The loop becomes parallel iff it was, or some hint assumes memory safety. */
  lemma {:induction false} TranslateParallel(a: LA.LoopAttributes, attrs: seq<Attr>)
    requires AllAllowed(attrs)
    ensures Translate(a, attrs).isParallel <==> a.isParallel || exists i :: 0 <= i < |attrs| && AssumesSafety(attrs[i])
    decreases |attrs|
  {
    if attrs != [] {
      assert AllAllowed(attrs[1..]);
      var a' := ApplyAttr(a, attrs[0]);
      TranslateParallel(a', attrs[1..]);
      assert a'.isParallel <==> a.isParallel || AssumesSafety(attrs[0]);
      if exists i :: 0 <= i < |attrs| && AssumesSafety(attrs[i]) {
        var i :| 0 <= i < |attrs| && AssumesSafety(attrs[i]);
        if i > 0 {
          assert AssumesSafety(attrs[1..][i - 1]);
        }
      }
      if exists i :: 0 <= i < |attrs[1..]| && AssumesSafety(attrs[1..][i]) {
        var i :| 0 <= i < |attrs[1..]| && AssumesSafety(attrs[1..][i]);
        assert AssumesSafety(attrs[i + 1]);
      }
    }
  }

  /** Vectorize and distribute states never become Full. */
  lemma {:induction false} TranslateCanonical(a: LA.LoopAttributes, attrs: seq<Attr>)
    requires AllAllowed(attrs) && LA.CanonicalStates(a)
    ensures LA.CanonicalStates(Translate(a, attrs))
    decreases |attrs|
  {
    if attrs != [] {
      assert AllAllowed(attrs[1..]);
      if IsHint(attrs[0]) {
        HintKeepsCanonical(a, HintOf(attrs[0]));
      }
      TranslateCanonical(ApplyAttr(a, attrs[0]), attrs[1..]);
    }
  }
}
