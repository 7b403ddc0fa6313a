/**
 * The two TransformPragma tests, replayed on the model: the metadata
 * their IR check lines expect is what the model produces. The attribute
 * lists are in the order the loop statement carries them, which is the
 * reverse of the source text.
 */
module Fixtures {
  import opened Wrappers
  import opened IR
  import opened LoopAttrs
  import opened LoopMetadata
  import opened LoopStack
  import H = LoopHints

  function Names(a: string, b: string): MD
  {
    Node([Str(a), Str(b)])
  }

  /** A loop that only has a name gets `!{self, !{"llvm.loop.id", name}}`. */
  lemma NamedLoopId(a: LoopAttributes)
    requires a.(loopId := "", transformationStack := []) == Defaults(false) && a.loopId != ""
    ensures CreatedLoopId(a, None, None) == Some(Node([Self, Names(LOOP_ID, a.loopId)]))
  {
    assert LocOperands(None, None) == [] && WidthOperand(a) == [] && InterleaveOperand(a) == [];
    assert UnrollCountOperand(a) == [] && VectorizeEnableOperand(a) == [] && UnrollEnableOperand(a) == [];
    assert DistributeOperand(a) == [] && LoopIdOperand(a) == [Names(LOOP_ID, a.loopId)];
    assert HintOperands(a) == [Names(LOOP_ID, a.loopId)] by {
      assert [] + [] + [] + [] + [] + [] + [Names(LOOP_ID, a.loopId)] == [Names(LOOP_ID, a.loopId)];
    }
    assert [Self] + [] + [Names(LOOP_ID, a.loopId)] == [Self, Names(LOOP_ID, a.loopId)];
  }

  function OuterAttrs(): seq<H.Attr>
  {
    [H.LoopIdAttr("i"), H.LoopInterchangeAttr(["i", "j"], ["j", "i"])]
  }

  function OuterStaged(): LoopAttributes
  {
    Defaults(false).(loopId := "i", transformationStack := [Interchange(["i", "j"], ["j", "i"])])
  }

  function InterchangeNode(): MD
  {
    Node([Str(INTERCHANGE), Names("i", "j"), Names("j", "i")])
  }

  lemma OuterLoop()
    ensures H.AllAllowed(OuterAttrs())
    ensures H.Translate(Defaults(false), OuterAttrs()) == OuterStaged()
    ensures TransformsWellFormed(OuterStaged().transformationStack, true)
    ensures CreatedLoopId(OuterStaged(), None, None) == Some(Node([Self, Names(LOOP_ID, "i")]))
    ensures RecordedMetadata(map[], OuterStaged(), None, None) == map[LOOP_TRANSFORM := Node([InterchangeNode()])]
  {
    var attrs := OuterAttrs();
    var a1 := H.ApplyAttr(Defaults(false), attrs[0]);
    assert H.Translate(a1, attrs[1..]) == H.Translate(H.ApplyAttr(a1, attrs[1]), []) by {
      assert attrs[1..][0] == attrs[1] && attrs[1..][1..] == [];
    }
    NamedLoopId(OuterStaged());
    var st := OuterStaged().transformationStack;
    assert Strs(["i", "j"]) == [Str("i"), Str("j")];
    assert Strs(["j", "i"]) == [Str("j"), Str("i")];
    assert TransformNodes(st, CreatedLoopId(OuterStaged(), None, None)) == [InterchangeNode()] by {
      assert st[1..] == [];
    }
    assert ExistingTransforms(map[]) + [InterchangeNode()] == [InterchangeNode()];
    assert NeedsMetadata(OuterStaged(), None, None);
    assert map[][LOOP_TRANSFORM := Node([InterchangeNode()])] == map[LOOP_TRANSFORM := Node([InterchangeNode()])];
  }

  lemma InnerLoop()
    ensures H.AllAllowed([H.LoopIdAttr("j")])
    ensures H.Translate(Defaults(false), [H.LoopIdAttr("j")]) == Defaults(false).(loopId := "j")
    ensures CreatedLoopId(Defaults(false).(loopId := "j"), None, None) == Some(Node([Self, Names(LOOP_ID, "j")]))
  {
    NamedLoopId(Defaults(false).(loopId := "j"));
  }

  /**
   * pragma-id-interchange.c: `loop(i, j) interchange permutation(j, i)` and
   * `id(i)` on the outer loop, `id(j)` on the inner one; no debug info.
   * Each back edge carries `distinct !{self, !{"llvm.loop.id", name}}` and
   * the function's "looptransform" list holds the single interchange node
   * (test lines 42-53).
   */
  method PragmaIdInterchange() returns (functionMd: map<string, MD>, innerBackEdge: map<string, MD>,
                                        outerBackEdge: map<string, MD>)
    ensures functionMd == map[LOOP_TRANSFORM := Node([InterchangeNode()])]
    ensures innerBackEdge == map[MD_LOOP := Node([Self, Names(LOOP_ID, "j")])]
    ensures outerBackEdge == map[MD_LOOP := Node([Self, Names(LOOP_ID, "i")])]
  {
    var outerHeader, innerHeader := 0, 1;
    var f := new Function(map[]);
    var loops := new LoopInfoStack();
    OuterLoop();
    loops.PushWithAttrs(outerHeader, f, OuterAttrs(), None, None);
    InnerLoop();
    loops.PushWithAttrs(innerHeader, f, [H.LoopIdAttr("j")], None, None);

    var innerBr := new Instruction(true, [innerHeader], false, map[]);
    loops.InsertHelper(innerBr);
    loops.Pop();
    var outerBr := new Instruction(true, [outerHeader], false, map[]);
    loops.InsertHelper(outerBr);
    loops.Pop();

    functionMd, innerBackEdge, outerBackEdge := f.metadata, innerBr.metadata, outerBr.metadata;
  }

  /** The outer loop's attributes in matmul.c (test lines 11-15). */
  function MatmulAttrs(): seq<H.Attr>
  {
    [H.LoopIdAttr("i"),
     H.LoopTilingAttr(["i", "j", "k"], [96, 2048, 256]),
     H.LoopInterchangeAttr(["i1", "j1", "k1", "i2", "j2"], ["j1", "k1", "i1", "j2", "i2"]),
     H.PackAttr("i2", 0),
     H.PackAttr("j2", 1)]
  }

  function MatmulStack(): seq<LoopTransformation>
  {
    [Tiling(["i", "j", "k"], [96, 2048, 256]),
     Interchange(["i1", "j1", "k1", "i2", "j2"], ["j1", "k1", "i1", "j2", "i2"]),
     Pack("i2", 0), Pack("j2", 1)]
  }

  /** The staged attributes of matmul.c's outer loop. */
  function MatmulAttributes(): LoopAttributes
  {
    Defaults(false).(loopId := "i", transformationStack := MatmulStack())
  }

  lemma MatmulStaged()
    ensures H.AllAllowed(MatmulAttrs())
    ensures H.Translate(Defaults(false), MatmulAttrs()) == MatmulAttributes()
  {
    var attrs, st := MatmulAttrs(), MatmulStack();
    var a1 := Defaults(false).(loopId := "i");
    var a2 := a1.(transformationStack := st[..1]);
    var a3 := a1.(transformationStack := st[..2]);
    var a4 := a1.(transformationStack := st[..3]);
    assert H.Translate(a1.(transformationStack := st), attrs[5..]) == MatmulAttributes() by {
      assert attrs[5..] == [];
    }
    assert H.Translate(a4, attrs[4..]) == MatmulAttributes() by {
      assert attrs[4..][0] == attrs[4] && attrs[4..][1..] == attrs[5..];
      assert st[..3] + [st[3]] == st;
    }
    assert H.Translate(a3, attrs[3..]) == MatmulAttributes() by {
      assert attrs[3..][0] == attrs[3] && attrs[3..][1..] == attrs[4..];
      assert st[..2] + [st[2]] == st[..3];
    }
    assert H.Translate(a2, attrs[2..]) == MatmulAttributes() by {
      assert attrs[2..][0] == attrs[2] && attrs[2..][1..] == attrs[3..];
      assert st[..1] + [st[1]] == st[..2];
    }
    assert H.Translate(a1, attrs[1..]) == MatmulAttributes() by {
      assert attrs[1..][0] == attrs[1] && attrs[1..][1..] == attrs[2..];
      assert [] + [st[0]] == st[..1];
    }
  }

  lemma MatmulStackWellFormed()
    ensures TransformsWellFormed(MatmulStack(), true)
  {
    var st := MatmulStack();
    assert st[1..][1..] == st[2..] && st[2..][1..] == st[3..] && st[3..][1..] == [];
    assert TransformsWellFormed(st[3..], true);
    assert TransformsWellFormed(st[2..], true);
    assert TransformsWellFormed(st[1..], false);
  }

  /** The key a transformation node starts with. */
  function Key(t: LoopTransformation): string
  {
    match t
    case Reversal(_) => REVERSE
    case Tiling(_, _) => TILE
    case Interchange(_, _) => INTERCHANGE
    case Pack(_, _) => PACK
  }

  lemma TransformNodeKey(stack: seq<LoopTransformation>, top: Option<MD>, k: nat)
    requires TransformsWellFormed(stack, top.Some?) && k < |stack|
    ensures TransformNodes(stack, top)[k].Node? && TransformNodes(stack, top)[k].ops != []
    ensures TransformNodes(stack, top)[k].ops[0] == Str(Key(stack[k]))
  {
    TransformNodesThreading(stack, top, k);
  }

  /** Whatever the loop node is, the matmul stack yields tile, interchange, pack, pack. */
  lemma MatmulKeys(top: Option<MD>)
    requires top.Some?
    ensures var nodes := TransformNodes(MatmulStack(), top);
            && |nodes| == 4
            && nodes[0].ops[0] == Str(TILE) && nodes[1].ops[0] == Str(INTERCHANGE)
            && nodes[2].ops[0] == Str(PACK) && nodes[3].ops[0] == Str(PACK)
  {
    MatmulStackWellFormed();
    TransformNodeKey(MatmulStack(), top, 0);
    TransformNodeKey(MatmulStack(), top, 1);
    TransformNodeKey(MatmulStack(), top, 2);
    TransformNodeKey(MatmulStack(), top, 3);
  }

  /**
   * matmul.c: "looptransform" lists a tile, an interchange and two pack
   * nodes, in that order (test lines 61-65).
   */
  lemma MatmulTransforms()
    ensures TransformsWellFormed(MatmulAttributes().transformationStack, true)
    ensures var md := RecordedMetadata(map[], MatmulAttributes(), None, None);
            && |ExistingTransforms(md)| == 4
            && ExistingTransforms(md)[0].ops[0] == Str(TILE)
            && ExistingTransforms(md)[1].ops[0] == Str(INTERCHANGE)
            && ExistingTransforms(md)[2].ops[0] == Str(PACK)
            && ExistingTransforms(md)[3].ops[0] == Str(PACK)
  {
    MatmulStackWellFormed();
    var a := MatmulAttributes();
    assert NeedsMetadata(a, None, None);
    RecordedMetadataTransforms(map[], a, None, None);
    assert ExistingTransforms(map[]) == [];
    MatmulKeys(CreatedLoopId(a, None, None));
  }
}
