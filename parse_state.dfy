/**
 * The state of the IDL parser (idl/parse.go) as values.
 *
 * A `Cursor` is the token-stream half of the Go `parser` struct: the
 * position `ppos`, the `isEOF` flag and the recorded errors. A `Builder` is
 * the AST half: the context stack and the modules and aggregate being
 * filled. The Go pointers `currentModule`/`parent` become a stack of open
 * modules (the root first, the current module last): a child module is
 * folded into its parent when its frame is popped. The aggregate being
 * filled (`currentStruct` and friends) is kept apart and appended to the
 * current module when its frame is popped; since no declaration keyword is
 * accepted inside an aggregate, nothing else is appended to that module
 * meanwhile and the order of the collections is the one Go builds.
 */
module ParseState {
  import opened Options
  import opened Tokens
  import opened Ast

  datatype Cursor = Cursor(ppos: nat, isEOF: bool, errors: seq<string>)

  /** The position `len(tokens)-1` already counts as the end: the last token is never looked at. */
  predicate AtEnd(toks: seq<Token>, c: Cursor)
  {
    c.ppos >= |toks| - 1
  }

  predicate HasError(c: Cursor)
  {
    |c.errors| != 0
  }

  /** Records an error, unless EOF has been flagged. */
  function Report(c: Cursor, err: string): (r: Cursor)
    ensures Fails(c, r) && r.ppos == c.ppos && r.isEOF == c.isEOF
    ensures !c.isEOF ==> r.errors == c.errors + [err]
    ensures c.isEOF ==> r == c
  {
    if c.isEOF then c else c.(errors := c.errors + [err])
  }

  /**
   * How a cursor may evolve: the position never moves back, EOF is only
   * ever flagged at the end of the stream and never cleared, errors are never
   * dropped and the first one stays first, and none is added once EOF is
   * flagged.
   */
  predicate Follows(toks: seq<Token>, a: Cursor, b: Cursor)
  {
    a.ppos <= b.ppos && (b.isEOF ==> a.isEOF || AtEnd(toks, b)) &&
    (a.isEOF ==> b.isEOF && b.errors == a.errors) &&
    |a.errors| <= |b.errors| && (|a.errors| > 0 ==> b.errors[0] == a.errors[0])
  }

  /** Between `a` and `b` an error was recorded, or EOF was reached. */
  predicate Fails(a: Cursor, b: Cursor)
  {
    b.isEOF || |b.errors| > |a.errors|
  }

  /**
   * The current token. At the end it flags EOF and yields an `Invalid`
   * token; the "unexpected EOF" error it reports is then always discarded.
   */
  function Tok(toks: seq<Token>, c: Cursor): (r: (Token, Cursor))
    ensures !AtEnd(toks, c) ==> r.0 == toks[c.ppos] && r.1 == c
    ensures AtEnd(toks, c) ==> r.0 == Token(Invalid, "") && r.1 == c.(isEOF := true)
    ensures Follows(toks, c, r.1)
  {
    if AtEnd(toks, c) then
      var eof := c.(isEOF := true);
      (Token(Invalid, ""), Report(eof, "unexpected EOF"))
    else
      (toks[c.ppos], c)
  }

  /** `advanceAndDontSkipNewLines`. */
  function AdvanceNoSkip(c: Cursor): Cursor
  {
    c.(ppos := c.ppos + 1)
  }

  /** Every token strictly between positions `lo` and `hi` is a visible `EndLine`. */
  predicate EndLinesBetween(toks: seq<Token>, lo: nat, hi: nat)
  {
    forall i | lo < i < hi :: i < |toks| - 1 && toks[i].id == EndLine
  }

  lemma EndLinesBetweenExtend(toks: seq<Token>, lo: nat, hi: nat)
    requires lo + 1 < |toks| - 1 && toks[lo + 1].id == EndLine
    requires EndLinesBetween(toks, lo + 1, hi)
    ensures EndLinesBetween(toks, lo, hi)
  {
  }

  /**
   * `advance`: moves one position, then on over `EndLine` tokens. It stops
   * on the first other token or at the end (flagging EOF there).
   */
  function Advance(toks: seq<Token>, c: Cursor): (r: Cursor)
    ensures r.ppos > c.ppos && r.errors == c.errors && Follows(toks, c, r)
    ensures !AtEnd(toks, r) ==> toks[r.ppos].id != EndLine
    decreases |toks| - c.ppos
  {
    var c1 := AdvanceNoSkip(c);
    var (t, c2) := Tok(toks, c1);
    if t.id != EndLine then c2
    else Advance(toks, c2)
  }

  /** What `advance` passes over is line breaks only. */
  lemma {:induction false} AdvanceSkipsLineBreaks(toks: seq<Token>, c: Cursor)
    ensures EndLinesBetween(toks, c.ppos, Advance(toks, c).ppos)
    decreases |toks| - c.ppos
  {
    var c1 := AdvanceNoSkip(c);
    var (t, c2) := Tok(toks, c1);
    if t.id == EndLine {
      AdvanceSkipsLineBreaks(toks, c2);
      EndLinesBetweenExtend(toks, c.ppos, Advance(toks, c).ppos);
    }
  }

  /** Once an error is recorded, every later cursor still has one. */
  lemma HasErrorKept(toks: seq<Token>, a: Cursor, b: Cursor)
    requires Follows(toks, a, b) && HasError(a)
    ensures HasError(b) && b.errors[0] == a.errors[0]
  {
  }

  /** Once the end is reached, every later cursor is at the end too. */
  lemma AtEndKept(toks: seq<Token>, a: Cursor, b: Cursor)
    requires Follows(toks, a, b) && AtEnd(toks, a)
    ensures AtEnd(toks, b)
  {
  }

  /**
   * `advanceAndDontSkipNewLines` stops on a line break, where `advance`
   * would go on past it.
   */
  lemma NoSkipStopsAtLineBreak(toks: seq<Token>, c: Cursor)
    requires c.ppos + 1 < |toks| - 1 && toks[c.ppos + 1].id == EndLine
    ensures AdvanceNoSkip(c).ppos == c.ppos + 1 < Advance(toks, c).ppos
    ensures AdvanceNoSkip(c).errors == c.errors && AdvanceNoSkip(c).isEOF == c.isEOF
  {
  }

  /** The kinds of parsing context; Go's `contextID` values in order. */
  datatype ContextKind = GlobalCtx | ModuleCtx | StructCtx | EnumCtx | InterfaceCtx | UnionCtx

  /** One entry of the context stack: its kind and the name it was opened with. */
  datatype Frame = Frame(kind: ContextKind, value: string)

  /** The modules being filled, outermost (the unnamed root) first. */
  type OpenModules = s: seq<Module> | |s| >= 1 witness [EmptyModule("")]

  datatype Builder = Builder(
    stack: seq<Frame>,
    open: OpenModules,
    curStruct: Struct,
    curEnum: Enum,
    curIface: Interface,
    curUnion: Union)

  /** The whole parser state. */
  datatype PState = PState(cur: Cursor, b: Builder)

  /** The module declarations currently go to (`currentModule`). */
  function Top(b: Builder): Module
  {
    b.open[|b.open| - 1]
  }

  /** Replaces the current module. */
  function WithTop(b: Builder, m: Module): (r: Builder)
    ensures Top(r) == m && |r.open| == |b.open| && r.open[..|r.open| - 1] == b.open[..|b.open| - 1]
    ensures r.stack == b.stack
  {
    b.(open := b.open[..|b.open| - 1] + [m])
  }

  /** `pushContext`: opens a frame and starts the aggregate or child module it names. */
  function PushContext(b: Builder, kind: ContextKind, val: string): (r: Builder)
    ensures r.stack == b.stack + [Frame(kind, val)]
    ensures |r.open| == |b.open| + (if kind == ModuleCtx then 1 else 0) && r.open[..|b.open|] == b.open
    ensures kind == ModuleCtx ==> Top(r) == EmptyModule(val)
    ensures r.curStruct == if kind == StructCtx then Struct(val, [], []) else b.curStruct
    ensures r.curEnum == if kind == EnumCtx then Enum(val, []) else b.curEnum
    ensures r.curIface == if kind == InterfaceCtx then Interface(val, [], []) else b.curIface
    ensures r.curUnion == if kind == UnionCtx then Union(val, NoType, []) else b.curUnion
  {
    var b1 :=
      match kind
      case InterfaceCtx => b.(curIface := Interface(val, [], []))
      case StructCtx => b.(curStruct := Struct(val, [], []))
      case EnumCtx => b.(curEnum := Enum(val, []))
      case UnionCtx => b.(curUnion := Union(val, NoType, []))
      case ModuleCtx => b.(open := b.open + [EmptyModule(val)])
      case GlobalCtx => b;
    b1.(stack := b.stack + [Frame(kind, val)])
  }

  /** `currentContext`: the top frame. */
  function CurrentContext(b: Builder): Frame
    requires |b.stack| > 0
  {
    b.stack[|b.stack| - 1]
  }

  /**
   * The frame just pushed is the current one, and popping it gives back
   * the context stack as it was.
   */
  lemma PushedIsCurrent(b: Builder, kind: ContextKind, val: string)
    ensures CurrentContext(PushContext(b, kind, val)) == Frame(kind, val)
    ensures PopContext(PushContext(b, kind, val)).stack == b.stack
  {
  }

  /**
   * `popContext`: removes the top frame. An aggregate is attached to the
   * current module; a module is folded into its parent, when it has one.
   */
  function PopContext(b: Builder): (r: Builder)
    requires |b.stack| > 0
    ensures r.stack == b.stack[..|b.stack| - 1]
    ensures |r.open| == if CurrentContext(b).kind == ModuleCtx && |b.open| > 1 then |b.open| - 1 else |b.open|
    ensures r.open[0].name == b.open[0].name
    ensures CurrentContext(b).kind == InterfaceCtx ==> Top(r).interfaces == Top(b).interfaces + [b.curIface]
    ensures CurrentContext(b).kind == StructCtx ==> Top(r).structs == Top(b).structs + [b.curStruct]
    ensures CurrentContext(b).kind == EnumCtx ==> Top(r).enums == Top(b).enums + [b.curEnum]
    ensures CurrentContext(b).kind == UnionCtx ==> Top(r).unions == Top(b).unions + [b.curUnion]
    ensures CurrentContext(b).kind == ModuleCtx && |b.open| > 1 ==>
              Top(r).modules == b.open[|b.open| - 2].modules + [Top(b)]
    ensures CurrentContext(b).kind != ModuleCtx ==> r.open[..|r.open| - 1] == b.open[..|b.open| - 1]
    ensures CurrentContext(b).kind == InterfaceCtx ==> Top(r) == Top(b).(interfaces := Top(b).interfaces + [b.curIface])
    ensures CurrentContext(b).kind == StructCtx ==> Top(r) == Top(b).(structs := Top(b).structs + [b.curStruct])
    ensures CurrentContext(b).kind == EnumCtx ==> Top(r) == Top(b).(enums := Top(b).enums + [b.curEnum])
    ensures CurrentContext(b).kind == UnionCtx ==> Top(r) == Top(b).(unions := Top(b).unions + [b.curUnion])
    ensures CurrentContext(b).kind == ModuleCtx && |b.open| > 1 ==>
              r.open[..|r.open| - 1] == b.open[..|b.open| - 2] &&
              Top(r) == b.open[|b.open| - 2].(modules := b.open[|b.open| - 2].modules + [Top(b)])
    ensures CurrentContext(b).kind == GlobalCtx || (CurrentContext(b).kind == ModuleCtx && |b.open| == 1) ==>
              r.open == b.open
    ensures r.curStruct == b.curStruct && r.curEnum == b.curEnum && r.curIface == b.curIface && r.curUnion == b.curUnion
  {
    var b1 :=
      match CurrentContext(b).kind
      case InterfaceCtx =>
        var m := Top(b); WithTop(b, m.(interfaces := m.interfaces + [b.curIface]))
      case StructCtx =>
        var m := Top(b); WithTop(b, m.(structs := m.structs + [b.curStruct]))
      case EnumCtx =>
        var m := Top(b); WithTop(b, m.(enums := m.enums + [b.curEnum]))
      case UnionCtx =>
        var m := Top(b); WithTop(b, m.(unions := m.unions + [b.curUnion]))
      case ModuleCtx =>
        if |b.open| > 1 then
          var child := Top(b);
          var rest := b.(open := b.open[..|b.open| - 1]);
          var parent := Top(rest);
          WithTop(rest, parent.(modules := parent.modules + [child]))
        else b
      case GlobalCtx => b;
    b1.(stack := b.stack[..|b.stack| - 1])
  }

  /** The context stack and the module nesting are as before; only contents may have grown. */
  predicate SameNesting(b: Builder, r: Builder)
  {
    r.stack == b.stack && |r.open| == |b.open| && r.open[0].name == b.open[0].name
  }

  /**
   * Only the current module differs: the context stack, the outer open
   * modules and the aggregates being filled are as before.
   */
  predicate OnlyTopChanged(b: Builder, r: Builder)
  {
    SameNesting(b, r) && r.open[..|r.open| - 1] == b.open[..|b.open| - 1] &&
    r.curStruct == b.curStruct && r.curEnum == b.curEnum && r.curIface == b.curIface && r.curUnion == b.curUnion
  }

  /** Only the aggregates being filled may differ. */
  predicate OnlyAggregatesChanged(b: Builder, r: Builder)
  {
    r.stack == b.stack && r.open == b.open
  }

  /** Appends a typedef to the current module. */
  function AddTypeDef(b: Builder, td: TypeDef): (r: Builder)
    ensures OnlyTopChanged(b, r) && Top(r) == Top(b).(typeDefs := Top(b).typeDefs + [td])
  {
    var m := Top(b); WithTop(b, m.(typeDefs := m.typeDefs + [td]))
  }

  /** Appends a constant to the current module. */
  function AddConstant(b: Builder, k: Constant): (r: Builder)
    ensures OnlyTopChanged(b, r) && Top(r) == Top(b).(constants := Top(b).constants + [k])
  {
    var m := Top(b); WithTop(b, m.(constants := m.constants + [k]))
  }

  /** `interface N;`: an empty interface opened and closed at once, so appended to the current module. */
  function DeclareInterface(b: Builder, name: string): (r: Builder)
    ensures SameNesting(b, r) && r.open[..|r.open| - 1] == b.open[..|b.open| - 1]
    ensures Top(r) == Top(b).(interfaces := Top(b).interfaces + [Interface(name, [], [])])
    ensures r.curStruct == b.curStruct && r.curEnum == b.curEnum && r.curUnion == b.curUnion
    ensures r.curIface == Interface(name, [], [])
  {
    var b1 := PushContext(b, InterfaceCtx, name);
    assert CurrentContext(b1).kind == InterfaceCtx && b1.curIface == Interface(name, [], []);
    assert Top(b1) == Top(b);
    PopContext(b1)
  }

  /** Appends a member to the struct being filled. */
  function AddStructMember(b: Builder, m: Member): (r: Builder)
    ensures OnlyAggregatesChanged(b, r) && r.curEnum == b.curEnum && r.curIface == b.curIface && r.curUnion == b.curUnion
    ensures r.curStruct.name == b.curStruct.name && r.curStruct.inherits == b.curStruct.inherits
    ensures r.curStruct.members == b.curStruct.members + [m]
  {
    b.(curStruct := b.curStruct.(members := b.curStruct.members + [m]))
  }

  /** Appends a member to the enum being filled. */
  function AddEnumMember(b: Builder, m: Member): (r: Builder)
    ensures OnlyAggregatesChanged(b, r) && r.curStruct == b.curStruct && r.curIface == b.curIface && r.curUnion == b.curUnion
    ensures r.curEnum.name == b.curEnum.name && r.curEnum.members == b.curEnum.members + [m]
  {
    b.(curEnum := b.curEnum.(members := b.curEnum.members + [m]))
  }

  /** Appends a method to the interface being filled. */
  function AddMethod(b: Builder, m: Method): (r: Builder)
    ensures OnlyAggregatesChanged(b, r) && r.curStruct == b.curStruct && r.curEnum == b.curEnum && r.curUnion == b.curUnion
    ensures r.curIface.name == b.curIface.name && r.curIface.inherits == b.curIface.inherits
    ensures r.curIface.methods == b.curIface.methods + [m]
  {
    b.(curIface := b.curIface.(methods := b.curIface.methods + [m]))
  }

  /** Appends a case to the union being filled. */
  function AddUnionMember(b: Builder, m: UnionMember): (r: Builder)
    ensures OnlyAggregatesChanged(b, r) && r.curStruct == b.curStruct && r.curEnum == b.curEnum && r.curIface == b.curIface
    ensures r.curUnion.name == b.curUnion.name && r.curUnion.discriminant == b.curUnion.discriminant
    ensures r.curUnion.members == b.curUnion.members + [m]
  {
    b.(curUnion := b.curUnion.(members := b.curUnion.members + [m]))
  }
}
