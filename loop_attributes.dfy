/**
 * The attributes staged for the next loop to be entered: scalar hints and
 * the ordered stack of structured transformations (CGLoopInfo.h's
 * LoopAttributes and LoopTransformation).
 */
module LoopAttrs {
  import opened IR

  /** LoopAttributes::LVEnableState. */
  datatype LVEnableState = Unspecified | Enable | Disable | Full

  /**
   * One structured transformation request. An empty apply-on name (or an
   * empty apply-on list) means "the loop the previous entry produced".
   * The other kinds of the enumeration are not created here.
   */
  datatype LoopTransformation =
    | Reversal(applyOn: string)
    | Tiling(applyOns: seq<string>, tileSizes: seq<Int64>)
    | Interchange(applyOns: seq<string>, permutation: seq<string>)
    | Pack(applyOn: string, arrayRef: ArrayToken)

  datatype LoopAttributes = LoopAttributes(
    isParallel: bool,
    vectorizeEnable: LVEnableState,
    unrollEnable: LVEnableState,
    vectorizeWidth: U32,
    interleaveCount: U32,
    unrollCount: U32,
    distributeEnable: LVEnableState,
    loopId: string,
    transformationStack: seq<LoopTransformation>)

  /** The constructor LoopAttributes(IsParallel): nothing requested. */
  function Defaults(isParallel: bool): LoopAttributes
  {
    LoopAttributes(isParallel, Unspecified, Unspecified, 0, 0, 0, Unspecified, "", [])
  }

  /**
   * LoopAttributes::clear, which resets every field one by one; the result
   * is what the constructor builds for a non-parallel loop, whatever was
   * staged before.
   */
  function Clear(a: LoopAttributes): (r: LoopAttributes)
    ensures r == Defaults(false)
  {
    a.(isParallel := false)
     .(vectorizeWidth := 0)
     .(interleaveCount := 0)
     .(unrollCount := 0)
     .(vectorizeEnable := Unspecified)
     .(unrollEnable := Unspecified)
     .(distributeEnable := Unspecified)
     .(loopId := "")
     .(transformationStack := [])
  }

  /**
   * The enable states the directive translation can produce:
   * vectorize.enable and distribute.enable are only ever set from a
   * boolean, so they are never Full.
   */
  predicate CanonicalStates(a: LoopAttributes)
  {
    !a.vectorizeEnable.Full? && !a.distributeEnable.Full?
  }
}
