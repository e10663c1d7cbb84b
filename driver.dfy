/**
 * The driver of the IDL parser (idl/parse.go): keyword dispatch, the main
 * loop and the final checks of `Parse`. Go panics (indexing an empty
 * context stack, "too many contexts") are results here.
 */
module Driver {
  import opened Options
  import opened Tokens
  import opened Ast
  import opened ParseState
  import opened Grammar
  import opened Constructs

  /** The message of Go's runtime panic on an out-of-range index. */
  const IndexOutOfRange := "index out of range"

  /** The message of the panic for braces left open at the end of input. */
  const TooManyContexts := "too many contexts"

  /** What `Parse` yields: the root module, the first error, or a panic. */
  datatype ParseResult = Parsed(root: Module) | Failed(error: string) | Panicked(reason: string)

  /** The declaration keywords accepted in the global or a module context. */
  predicate IsDeclarationKeyword(word: string)
  {
    word in {"module", "typedef", "struct", "const", "enum", "interface", "union"}
  }

  /** The keyword switch of `parseTokenWord` for the global and module contexts. */
  function ParseKeyword(toks: seq<Token>, s: PState, word: string): (r: PState)
    requires !s.cur.isEOF
    ensures Follows(toks, s.cur, r.cur) && r.cur.ppos >= s.cur.ppos
    ensures IsDeclarationKeyword(word) ==> r.cur.ppos > s.cur.ppos
    ensures !IsDeclarationKeyword(word) ==>
              r == PState(s.cur.(errors := s.cur.errors + ["unexpected keyword in global/module context: " + word]), s.b)
  {
    if word == "module" then ParseModule(toks, s)
    else if word == "typedef" then ParseTypedef(toks, s)
    else if word == "struct" then ParseStruct(toks, s)
    else if word == "const" then ParseConst(toks, s)
    else if word == "enum" then ParseEnum(toks, s)
    else if word == "interface" then ParseInterface(toks, s)
    else if word == "union" then ParseUnion(toks, s)
    else Fail(s.cur, s.b, "unexpected keyword in global/module context: " + word)
  }

  /**
   * `parseTokenWord`: a word is a declaration keyword in the global and
   * module contexts and the start of a member in the others. `None` when the
   * context stack is empty.
   */
  function ParseTokenWord(toks: seq<Token>, s: PState): (r: Option<PState>)
    requires AtWord(toks, s.cur) && !s.cur.isEOF
    ensures r.None? <==> |s.b.stack| == 0
    ensures r.Some? ==> Follows(toks, s.cur, r.value.cur) && (r.value.cur.ppos > s.cur.ppos || HasError(r.value.cur))
  {
    if |s.b.stack| == 0 then None
    else
      var kind := CurrentContext(s.b).kind;
      if kind == GlobalCtx || kind == ModuleCtx then Some(ParseKeyword(toks, s, toks[s.cur.ppos].value))
      else Some(ParseMember(toks, s, kind))
  }

  /** `parseTokenWord` with a frame to dispatch on is a keyword or a member. */
  lemma TokenWordDispatch(toks: seq<Token>, s: PState)
    requires AtWord(toks, s.cur) && !s.cur.isEOF && |s.b.stack| > 0
    ensures var kind := CurrentContext(s.b).kind;
            ParseTokenWord(toks, s) ==
              Some(if kind == GlobalCtx || kind == ModuleCtx then ParseKeyword(toks, s, toks[s.cur.ppos].value)
                   else ParseMember(toks, s, kind))
  {
  }

  /** A word inside a struct, enum, interface or union starts a member. */
  function ParseMember(toks: seq<Token>, s: PState, kind: ContextKind): (r: PState)
    requires AtWord(toks, s.cur) && !s.cur.isEOF
    ensures Follows(toks, s.cur, r.cur) && (r.cur.ppos > s.cur.ppos || HasError(r.cur))
    ensures r.b.stack == s.b.stack && r.b.open == s.b.open
  {
    if kind == StructCtx then ParseStructMember(toks, s)
    else if kind == EnumCtx then ParseEnumMember(toks, s)
    else if kind == InterfaceCtx then ParseInterfaceMember(toks, s)
    else ParseUnionMember(toks, s)
  }

  /**
   * One turn of the main loop: `#` starts a directive, a word goes to
   * `parseTokenWord`, `}` closes the current context, anything else is
   * skipped. `None` when the context stack is empty where a frame is needed.
   */
  function Step(toks: seq<Token>, s: PState): (r: Option<PState>)
    requires !AtEnd(toks, s.cur) && !s.cur.isEOF
    ensures r.None? <==> |s.b.stack| == 0 && toks[s.cur.ppos].id in {Identifier, CloseBrace}
    ensures r.Some? ==> Follows(toks, s.cur, r.value.cur) && (r.value.cur.ppos > s.cur.ppos || HasError(r.value.cur))
  {
    var t := toks[s.cur.ppos];
    match t.id
    case Hash => Some(PState(ParseTokenHash(toks, s.cur), s.b))
    case Identifier => ParseTokenWord(toks, s)
    case CloseBrace =>
      if |s.b.stack| == 0 then None else Some(PState(Advance(toks, s.cur), PopContext(s.b)))
    case _ => Some(PState(Advance(toks, s.cur), s.b))
  }

  /** How the main loop ends: with a state, or in a panic. */
  datatype LoopEnd = Finished(s: PState) | Crashed

  /** The main loop: runs while not at the end and no error is recorded. */
  function RunLoop(toks: seq<Token>, s: PState): (r: LoopEnd)
    requires s.cur.isEOF ==> AtEnd(toks, s.cur)
    ensures r.Finished? ==> AtEnd(toks, r.s.cur) || HasError(r.s.cur)
    decreases |toks| - s.cur.ppos, if HasError(s.cur) then 0 else 1
  {
    if AtEnd(toks, s.cur) || HasError(s.cur) then Finished(s)
    else
      match Step(toks, s)
      case None => Crashed
      case Some(s1) => RunLoop(toks, s1)
  }

  /** The builder `Parse` starts from: an unnamed root module and nothing else. */
  const EmptyBuilder := Builder([], [EmptyModule("")], Struct("", [], []), Enum("", []),
                                Interface("", [], []), Union("", NoType, []))

  /** The state `Parse` starts the loop in: position 0 and a single Global frame. */
  function InitialState(): (r: PState)
    ensures r.b.stack == [Frame(GlobalCtx, "")] && r.b.open == [EmptyModule("")]
  {
    PState(Cursor(0, false, []), PushContext(EmptyBuilder, GlobalCtx, ""))
  }

  /**
   * `Parse`: the main loop, then the pop of the last frame (a panic when
   * there is none), then the first error if any, then the "too many
   * contexts" panic when frames remain, and otherwise the root module.
   */
  function ParseSpec(toks: seq<Token>): ParseResult
  {
    match RunLoop(toks, InitialState())
    case Crashed => Panicked(IndexOutOfRange)
    case Finished(s) =>
      if |s.b.stack| == 0 then Panicked(IndexOutOfRange)
      else
        var b := PopContext(s.b);
        if HasError(s.cur) then Failed(s.cur.errors[0])
        else if |b.stack| > 0 then Panicked(TooManyContexts)
        else Parsed(b.open[0])
  }
}
