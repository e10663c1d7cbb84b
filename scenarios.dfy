/**
 * Worked inputs for the lexer and the parser: a small IDL text, its tokens,
 * and the module the parser builds from them.
 */
module Scenarios {
  import opened Options
  import opened Tokens
  import opened Ast
  import opened Lexer
  import opened LexerProperties
  import opened ParseState
  import opened Grammar
  import Constructs
  import opened Driver

  /** `module M { };` followed by a newline. */
  const ModuleText := "module M { };\n"

  const ModuleTokens := [
    Token(Identifier, "module"), Token(Identifier, "M"), Token(OpenBrace, ""),
    Token(CloseBrace, ""), Token(Semicolon, ""), Token(EndLine, "")]

  /** The end of the text: `};` and the newline. */
  lemma LexModuleEnd(t: string)
    requires t == ModuleText
    ensures Scan(t, 11) == Lexed(ModuleTokens[3..])
  {
    assert Scan(t, 14) == Lexed([]);
    PunctuatorToken(t, 13);
    PunctuatorToken(t, 12);
    PunctuatorToken(t, 11);
  }

  /** The punctuation at the end of the text: `{ };` and the newline. */
  lemma LexModuleTail(t: string)
    requires t == ModuleText
    ensures Scan(t, 9) == Lexed(ModuleTokens[2..])
  {
    LexModuleEnd(t);
    BlanksProduceNothing(t, 10, 1);
    PunctuatorToken(t, 9);
    assert [ModuleTokens[2]] + ModuleTokens[3..] == ModuleTokens[2..];
  }

  /** The word at `p`, ending before the blank at `e`, is one identifier token. */
  lemma LexWordBeforeBlank(t: string, p: nat, e: nat)
    requires p < e < |t| && t[e] == ' '
    requires forall i | p <= i < e :: IsIdentifierByte(t[i])
    ensures Scan(t, p) == Prepend([Token(Identifier, t[p..e])], Scan(t, e + 1))
  {
    WordEnd(t, p, e);
    WordToken(t, p);
    BlanksProduceNothing(t, e, 1);
  }

  /** The module name `M` and the punctuation after it. */
  lemma LexModuleName(t: string)
    requires t == ModuleText
    ensures Scan(t, 7) == Lexed([ModuleTokens[1]] + ModuleTokens[2..])
  {
    LexModuleTail(t);
    LexWordBeforeBlank(t, 7, 8);
    assert t[7..8] == "M";
    assert Scan(t, 7) == Prepend([ModuleTokens[1]], Lexed(ModuleTokens[2..]));
  }

  /** Lexing the text yields the two words, the braces, the `;` and the end of line. */
  lemma LexModuleText(t: string)
    requires t == ModuleText
    ensures Scan(t, 0) == Lexed(ModuleTokens)
  {
    LexWordBeforeBlank(t, 0, 6);
    assert t[0..6] == "module";
    LexModuleName(t);
    assert [ModuleTokens[0]] + ([ModuleTokens[1]] + ModuleTokens[2..]) == ModuleTokens;
  }

  /** The builder after `module M {`: the Global and the Module frame, and `M` open beside the root. */
  function InModuleM(): Builder
  {
    PushContext(InitialState().b, ModuleCtx, "M")
  }

  /** `module M {` opens module `M` and stops on the `}`. */
  lemma ParseModuleHeading(toks: seq<Token>)
    requires toks == ModuleTokens
    ensures Step(toks, InitialState()) == Some(PState(Cursor(3, false, []), InModuleM()))
  {
    var s0 := InitialState();
    assert Advance(toks, Cursor(0, false, [])) == Cursor(1, false, []);
    assert ParseIdentifier(toks, Cursor(1, false, [])) == ("M", Cursor(2, false, []));
    assert Advance(toks, Cursor(2, false, [])) == Cursor(3, false, []);
    assert Constructs.ParseModule(toks, s0) == PState(Cursor(3, false, []), InModuleM());
  }

  /** The builder after `module M { }`: only the Global frame, and `M` folded into the root. */
  function ClosedModuleM(): Builder
  {
    PopContext(InModuleM())
  }

  lemma ClosedModuleShape()
    ensures ClosedModuleM().stack == [Frame(GlobalCtx, "")]
    ensures ClosedModuleM().open == [EmptyModule("").(modules := [EmptyModule("M")])]
  {
    var b := InModuleM();
    assert b.open[..1] == [EmptyModule("")];
    assert b.open == [EmptyModule(""), EmptyModule("M")];
    assert CurrentContext(b).kind == ModuleCtx;
    var r := ClosedModuleM();
    assert |r.open| == 1;
    assert Top(r) == EmptyModule("").(modules := [EmptyModule("M")]);
    assert r.open == [Top(r)];
  }

  /** `}` closes `M`. */
  lemma ParseModuleClose(toks: seq<Token>)
    requires toks == ModuleTokens
    ensures Step(toks, PState(Cursor(3, false, []), InModuleM())) == Some(PState(Cursor(4, false, []), ClosedModuleM()))
  {
    assert Advance(toks, Cursor(3, false, [])) == Cursor(4, false, []);
  }

  /** `;` outside any declaration is skipped, which reaches the end of the tokens. */
  lemma ParseModuleSemicolon(toks: seq<Token>)
    requires toks == ModuleTokens
    ensures Step(toks, PState(Cursor(4, false, []), ClosedModuleM())) == Some(PState(Cursor(5, true, []), ClosedModuleM()))
  {
    assert Advance(toks, Cursor(4, false, [])) == Cursor(5, true, []);
    var b := ClosedModuleM();
    assert toks[4].id == Semicolon;
    assert Step(toks, PState(Cursor(4, false, []), b)) == Some(PState(Advance(toks, Cursor(4, false, [])), b));
  }

  /** One turn of the main loop, for a state that is neither at the end nor failed. */
  lemma RunLoopTurn(toks: seq<Token>, s: PState, s1: PState)
    requires s.cur.isEOF ==> AtEnd(toks, s.cur)
    requires !AtEnd(toks, s.cur) && !HasError(s.cur) && Step(toks, s) == Some(s1)
    ensures RunLoop(toks, s) == RunLoop(toks, s1)
  {
  }

  /** From the `;` on, the main loop ends at the end of the tokens with `M` closed. */
  lemma RunModuleTail(toks: seq<Token>)
    requires toks == ModuleTokens
    ensures RunLoop(toks, PState(Cursor(4, false, []), ClosedModuleM())) == Finished(PState(Cursor(5, true, []), ClosedModuleM()))
  {
    ParseModuleSemicolon(toks);
    var s3 := PState(Cursor(5, true, []), ClosedModuleM());
    RunLoopTurn(toks, PState(Cursor(4, false, []), ClosedModuleM()), s3);
    assert RunLoop(toks, s3) == Finished(s3);
  }

  /** From the `}` on, the main loop closes `M` and ends. */
  lemma RunModuleClose(toks: seq<Token>)
    requires toks == ModuleTokens
    ensures RunLoop(toks, PState(Cursor(3, false, []), InModuleM())) == Finished(PState(Cursor(5, true, []), ClosedModuleM()))
  {
    ParseModuleClose(toks);
    RunModuleTail(toks);
    RunLoopTurn(toks, PState(Cursor(3, false, []), InModuleM()), PState(Cursor(4, false, []), ClosedModuleM()));
  }

  /** The main loop over the tokens: three steps, then the end. */
  lemma RunModuleTokens(toks: seq<Token>)
    requires toks == ModuleTokens
    ensures RunLoop(toks, InitialState()) == Finished(PState(Cursor(5, true, []), ClosedModuleM()))
  {
    ParseModuleHeading(toks);
    RunModuleClose(toks);
    RunLoopTurn(toks, InitialState(), PState(Cursor(3, false, []), InModuleM()));
  }

  /** Parsing those tokens yields an unnamed root holding one empty module `M`. */
  lemma ParseModuleTokens(toks: seq<Token>)
    requires toks == ModuleTokens
    ensures ParseSpec(toks) == Parsed(EmptyModule("").(modules := [EmptyModule("M")]))
  {
    RunModuleTokens(toks);
    ClosedModuleShape();
  }
}
