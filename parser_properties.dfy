/**
 * Properties of the IDL parser model: the shape the context stack keeps
 * through the main loop, and what a successful parse returns.
 */
module ParserProperties {
  import opened Options
  import opened Tokens
  import opened Ast
  import opened ParseState
  import opened Grammar
  import opened Constructs
  import opened Driver

  /** The number of Module frames on a context stack. */
  function ModuleFrames(stack: seq<Frame>): nat
  {
    if |stack| == 0 then 0
    else ModuleFrames(stack[..|stack| - 1]) + (if stack[|stack| - 1].kind == ModuleCtx then 1 else 0)
  }

  /** The contexts declarations can be written in. */
  predicate IsScope(k: ContextKind)
  {
    k == GlobalCtx || k == ModuleCtx
  }

  /**
   * The shape of the parser's builder between two turns of the main loop:
   * the Global frame only at the bottom, struct/enum/interface/union frames
   * only on top, one open module beside the root per Module frame, and an
   * unnamed root.
   */
  predicate WellNested(b: Builder)
  {
    (forall i | 0 <= i < |b.stack| :: (b.stack[i].kind == GlobalCtx <==> i == 0)) &&
    (forall i | 0 <= i < |b.stack| - 1 :: IsScope(b.stack[i].kind)) &&
    ModuleFrames(b.stack) == |b.open| - 1 &&
    b.open[0].name == ""
  }

  lemma ModuleFramesPush(stack: seq<Frame>, f: Frame)
    ensures ModuleFrames(stack + [f]) == ModuleFrames(stack) + (if f.kind == ModuleCtx then 1 else 0)
  {
    assert (stack + [f])[..|stack|] == stack;
  }

  /** The builder `Parse` starts with is well nested. */
  lemma InitialWellNested()
    ensures WellNested(InitialState().b)
  {
    var b := InitialState().b;
    assert b.stack == [] + [Frame(GlobalCtx, "")];
    ModuleFramesPush([], Frame(GlobalCtx, ""));
  }

  /** Opening a frame on top of a scope frame keeps the shape. */
  lemma PushKeepsNesting(b: Builder, r: Builder, f: Frame)
    requires WellNested(b) && |b.stack| > 0 && IsScope(CurrentContext(b).kind)
    requires f.kind != GlobalCtx
    requires r.stack == b.stack + [f]
    requires |r.open| == |b.open| + (if f.kind == ModuleCtx then 1 else 0) && r.open[0].name == b.open[0].name
    ensures WellNested(r)
  {
    ModuleFramesPush(b.stack, f);
  }

  /** Closing the top frame keeps the shape. */
  lemma PopKeepsNesting(b: Builder)
    requires WellNested(b) && |b.stack| > 0
    ensures WellNested(PopContext(b))
  {
    var n := |b.stack|;
    ModuleFramesPush(b.stack[..n - 1], b.stack[n - 1]);
    assert b.stack[..n - 1] + [b.stack[n - 1]] == b.stack;
  }

  /**
   * `r` has the nesting of `b`, or one more non-Global frame on top (with its
   * own open module when it is a Module frame).
   */
  predicate Grows(b: Builder, r: Builder)
  {
    SameNesting(b, r) ||
    (|r.stack| > 0 && r.stack == b.stack + [CurrentContext(r)] && CurrentContext(r).kind != GlobalCtx &&
     |r.open| == |b.open| + (if CurrentContext(r).kind == ModuleCtx then 1 else 0) &&
     r.open[0].name == b.open[0].name)
  }

  /** Growing a well-nested builder from a scope context keeps the shape. */
  lemma GrowKeepsNesting(b: Builder, r: Builder)
    requires WellNested(b) && |b.stack| > 0 && IsScope(CurrentContext(b).kind)
    requires Grows(b, r)
    ensures WellNested(r)
  {
    if !SameNesting(b, r) {
      PushKeepsNesting(b, r, CurrentContext(r));
    }
  }

  /** A pushed frame that is not Global grows the builder. */
  lemma PushGrows(b: Builder, r: Builder, kind: ContextKind)
    requires |b.open| > 0 && kind != GlobalCtx
    requires r == b || (|r.stack| > 0 && r == PushContext(b, kind, CurrentContext(r).value))
    ensures Grows(b, r)
  {
    if r != b {
      assert r.open[0] == r.open[..|b.open|][0];
    }
  }

  /** An aggregate frame on top of the same modules grows the builder. */
  lemma AggregateGrows(b: Builder, r: Builder, f: Frame)
    requires f.kind in {StructCtx, InterfaceCtx, UnionCtx}
    requires |b.open| > 0 && r.stack == b.stack + [f] && r.open == b.open
    ensures Grows(b, r)
  {
    assert CurrentContext(r) == f;
  }

  /** Every declaration keyword grows the builder. */
  lemma KeywordGrows(toks: seq<Token>, s: PState, word: string)
    requires !s.cur.isEOF && |s.b.open| > 0
    ensures Grows(s.b, ParseKeyword(toks, s, word).b)
  {
    var r := ParseKeyword(toks, s, word).b;
    if r == s.b {
    } else if word == "module" {
      PushGrows(s.b, r, ModuleCtx);
    } else if word == "struct" {
      AggregateGrows(s.b, r, Frame(StructCtx, r.curStruct.name));
    } else if word == "enum" {
      PushGrows(s.b, r, EnumCtx);
    } else if word == "interface" {
      if r.stack != s.b.stack {
        AggregateGrows(s.b, r, Frame(InterfaceCtx, r.curIface.name));
      }
    } else if word == "union" {
      AggregateGrows(s.b, r, Frame(UnionCtx, r.curUnion.name));
    }
  }

  /** A declaration keyword in a scope context keeps the shape. */
  lemma KeywordKeepsNesting(toks: seq<Token>, s: PState, word: string)
    requires !s.cur.isEOF && WellNested(s.b) && |s.b.stack| > 0 && IsScope(CurrentContext(s.b).kind)
    ensures WellNested(ParseKeyword(toks, s, word).b)
  {
    KeywordGrows(toks, s, word);
    GrowKeepsNesting(s.b, ParseKeyword(toks, s, word).b);
  }

  /** Every turn of the main loop keeps the shape. */
  lemma StepKeepsNesting(toks: seq<Token>, s: PState)
    requires !AtEnd(toks, s.cur) && !s.cur.isEOF && WellNested(s.b)
    ensures Step(toks, s).Some? ==> WellNested(Step(toks, s).value.b)
  {
    var t := toks[s.cur.ppos];
    if t.id == CloseBrace && |s.b.stack| > 0 {
      PopKeepsNesting(s.b);
    } else if t.id == Identifier && |s.b.stack| > 0 {
      if IsScope(CurrentContext(s.b).kind) {
        KeywordKeepsNesting(toks, s, t.value);
      }
    }
  }

  /** The main loop ends, if it does not panic, with a well-nested builder. */
  lemma {:induction false} RunLoopKeepsNesting(toks: seq<Token>, s: PState)
    requires s.cur.isEOF ==> AtEnd(toks, s.cur)
    requires WellNested(s.b)
    ensures RunLoop(toks, s).Finished? ==> WellNested(RunLoop(toks, s).s.b)
    decreases |toks| - s.cur.ppos, if HasError(s.cur) then 0 else 1
  {
    if !(AtEnd(toks, s.cur) || HasError(s.cur)) {
      StepKeepsNesting(toks, s);
      match Step(toks, s)
      case None =>
      case Some(s1) => RunLoopKeepsNesting(toks, s1);
    }
  }

  /** `Parse` panics only on an out-of-range index or with "too many contexts". */
  lemma ParsePanics(toks: seq<Token>)
    ensures ParseSpec(toks).Panicked? ==> ParseSpec(toks).reason in {IndexOutOfRange, TooManyContexts}
  {
  }

  /** A failed parse reports the first error the main loop recorded. */
  lemma ParseFailsWithFirstError(toks: seq<Token>)
    ensures ParseSpec(toks).Failed? ==>
              RunLoop(toks, InitialState()).Finished? &&
              HasError(RunLoop(toks, InitialState()).s.cur) &&
              ParseSpec(toks).error == RunLoop(toks, InitialState()).s.cur.errors[0]
  {
  }

  /**
   * A successful parse leaves exactly the Global frame for the final pop,
   * and returns the unnamed root module with every child module folded in.
   */
  lemma ParsedShape(toks: seq<Token>)
    ensures ParseSpec(toks).Parsed? ==>
              RunLoop(toks, InitialState()).Finished? &&
              |RunLoop(toks, InitialState()).s.b.stack| == 1 &&
              RunLoop(toks, InitialState()).s.b.stack[0].kind == GlobalCtx &&
              |RunLoop(toks, InitialState()).s.b.open| == 1 &&
              ParseSpec(toks).root == RunLoop(toks, InitialState()).s.b.open[0] &&
              ParseSpec(toks).root.name == ""
  {
    InitialWellNested();
    RunLoopKeepsNesting(toks, InitialState());
    match RunLoop(toks, InitialState())
    case Crashed =>
    case Finished(s) =>
      if ParseSpec(toks).Parsed? {
        assert |s.b.stack| == 1;
        assert s.b.stack[0].kind == GlobalCtx;
        assert ModuleFrames(s.b.stack) == ModuleFrames(s.b.stack[..0]);
      }
  }
}
