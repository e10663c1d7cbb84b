/**
 * The IDL lexer (idl/lex.go): one left-to-right pass over a byte buffer with
 * a position cursor, emitting classified tokens.
 *
 * `Scan` is the specification: the result of lexing the buffer from a given
 * position with no error recorded yet. The `Lexer` class mirrors the Go
 * `lexer` struct (buffer, cursor, error list, token list) and its methods;
 * the `Lex` method runs the Go driver loop and is proved to return
 * `Scan(d, 0)`.
 */
module Lexer {
  import opened Options
  import opened Tokens

  /**
   * What `Lex` returns. Go returns an empty token list together with the
   * first error; `LexFailed` carries that error and no tokens. `LexPanicked`
   * stands for the index-out-of-range panics of `next()` and `cur()`.
   */
  datatype LexResult =
    | Lexed(tokens: seq<Token>)
    | LexFailed(error: string)
    | LexPanicked(reason: string)

  /** What `readUntilNot` / `readUntilMany` return: the bytes read, or an error. */
  datatype ReadResult = Found(bytes: string) | NotFound(error: string)

  const IndexOutOfRange := "index out of range"

  /** Tokens emitted before a lexing result; errors and panics discard them. */
  function Prepend(ts: seq<Token>, r: LexResult): LexResult
  {
    match r
    case Lexed(us) => Lexed(ts + us)
    case _ => r
  }

  /** The kind of a one-byte token other than `/`, `"` and `:`. */
  function SingleCharToken(c: char): Option<TokenId>
  {
    match c
    case '#' => Some(Hash)
    case '{' => Some(OpenBrace)
    case '}' => Some(CloseBrace)
    case '[' => Some(OpenSquareBracket)
    case ']' => Some(CloseSquareBracket)
    case '(' => Some(OpenBracket)
    case ')' => Some(CloseBracket)
    case ';' => Some(Semicolon)
    case '=' => Some(Equals)
    case '\n' => Some(EndLine)
    case ',' => Some(Comma)
    case '<' => Some(LessThan)
    case '>' => Some(GreaterThan)
    case _ => None
  }

  /** Exactly the thirteen punctuator bytes have a token of their own, and none of them is a word, literal or colon kind. */
  lemma SingleCharTokenIff(c: char)
    ensures SingleCharToken(c).Some? <==> c in "#{}[]();=\n,<>"
    ensures SingleCharToken(c).Some? ==> SingleCharToken(c).value !in {Identifier, StringLiteral, Colon, Namespace, Invalid}
  {
  }

  /** An identifier byte is never a blank, a newline or a byte with a token of its own. */
  lemma IdentifierByteIsWord(c: char)
    requires c in ValidInIdentifiers
    ensures c != ' ' && c != '\t' && c != '\n' && c != '/' && c != '"' && c != ':'
    ensures SingleCharToken(c).None?
  {
    IdentifierByteIff(c);
  }

  /** The first position at or after `pos` that is not a space or a tab. */
  function SkipBlanks(buf: string, pos: nat): (p: nat)
    requires pos <= |buf|
    ensures pos <= p <= |buf|
    ensures forall i | pos <= i < p :: buf[i] == ' ' || buf[i] == '\t'
    ensures p < |buf| ==> buf[p] != ' ' && buf[p] != '\t'
    decreases |buf| - pos
  {
    if pos < |buf| && (buf[pos] == ' ' || buf[pos] == '\t') then SkipBlanks(buf, pos + 1) else pos
  }

  /** The first position at or after `pos` holding one of `delims`, or the buffer length. */
  function FindFrom(buf: string, pos: nat, delims: string): (p: nat)
    requires pos <= |buf|
    ensures pos <= p <= |buf|
    ensures forall i | pos <= i < p :: buf[i] !in delims
    ensures p < |buf| ==> buf[p] in delims
    decreases |buf| - pos
  {
    if pos < |buf| && buf[pos] !in delims then FindFrom(buf, pos + 1, delims) else pos
  }

  /** The end of the run of `delims` bytes starting at `pos`. */
  function RunEnd(buf: string, pos: nat, delims: string): (p: nat)
    requires pos <= |buf|
    ensures pos <= p <= |buf|
    ensures forall i | pos <= i < p :: buf[i] in delims
    ensures p < |buf| ==> buf[p] !in delims
    decreases |buf| - pos
  {
    if pos < |buf| && buf[pos] in delims then RunEnd(buf, pos + 1, delims) else pos
  }

  /** What one iteration of the lexer loop does at a non-blank position. */
  datatype Move =
    | Emit(tokens: seq<Token>, next: nat)  // emits `tokens` and goes on at `next`
    | Stop(result: LexResult)              // lexing ends with `result`

  /**
   * One iteration of the lexer loop at position `p`, which holds neither a
   * space nor a tab: what it emits and where the next iteration starts.
   */
  function StepAt(buf: string, p: nat): (m: Move)
    requires p < |buf|
    ensures m.Emit? ==> m.next > p
  {
    var c := buf[p];
    if c == '/' then
      if p + 1 >= |buf| then Stop(LexPanicked(IndexOutOfRange))
      else if buf[p + 1] == '/' then Emit([], FindFrom(buf, p, "\n") + 1)
      else Emit([], p + 1)
    else if c == '"' then
      var q := FindFrom(buf, p + 1, "\"");
      if q == |buf| then Stop(LexFailed("unterminated string literal"))
      else Emit([Token(StringLiteral, buf[p + 1..q])], q + 1)
    else if c == ':' then
      if p + 1 >= |buf| then Stop(LexPanicked(IndexOutOfRange))
      else if buf[p + 1] == ':' then Emit([Token(Namespace, "")], p + 2)
      else Emit([Token(Colon, "")], p + 1)
    else if SingleCharToken(c).Some? then
      Emit([Token(SingleCharToken(c).value, "")], p + 1)
    else if c in ValidInIdentifiers then
      var e := RunEnd(buf, p, ValidInIdentifiers);
      if e == |buf| then Stop(LexFailed("EOF on a word?"))
      else Emit([Token(Identifier, buf[p..e])], e)
    else Emit([], p + 1)
  }

  /** The specification of lexing `buf` from `pos` on, one loop iteration per call. */
  function Scan(buf: string, pos: nat): (r: LexResult)
    decreases |buf| - pos
  {
    if pos >= |buf| then Lexed([])
    else
      var p := SkipBlanks(buf, pos);
      if p >= |buf| then Lexed([])
      else
        match StepAt(buf, p)
        case Emit(ts, next) => Prepend(ts, Scan(buf, next))
        case Stop(r) => r
  }

  /** Blanks before the next token produce nothing. */
  lemma ScanSkipsBlanks(buf: string, pos: nat)
    requires pos < |buf|
    ensures Scan(buf, pos) == Scan(buf, SkipBlanks(buf, pos))
  {
    var p := SkipBlanks(buf, pos);
    if p < |buf| {
      assert SkipBlanks(buf, p) == p;
    }
  }

  /** Lexing from a non-blank position is one step followed by the rest. */
  lemma ScanAt(buf: string, p: nat)
    requires p < |buf| && SkipBlanks(buf, p) == p
    ensures StepAt(buf, p).Emit? ==>
      Scan(buf, p) == Prepend(StepAt(buf, p).tokens, Scan(buf, StepAt(buf, p).next))
    ensures StepAt(buf, p).Stop? ==> Scan(buf, p) == StepAt(buf, p).result
  {
  }

  /** One turn of the lexer loop from `pos`: skip the blanks, then one step. */
  lemma ScanTurn(buf: string, pos: nat)
    requires pos < |buf| && SkipBlanks(buf, pos) < |buf|
    ensures var m := StepAt(buf, SkipBlanks(buf, pos));
      (m.Emit? ==> Scan(buf, pos) == Prepend(m.tokens, Scan(buf, m.next))) &&
      (m.Stop? ==> Scan(buf, pos) == m.result)
  {
  }

  lemma PrependBoth(ts: seq<Token>, us: seq<Token>, r: LexResult)
    ensures Prepend(ts + us, r) == Prepend(ts, Prepend(us, r))
  {
    if r.Lexed? {
      assert (ts + us) + r.tokens == ts + (us + r.tokens);
    }
  }

  /** The lexer state of one `Lex` call. */
  class Lexer {
    const buf: string
    var pos: int
    var errors: seq<string>
    var tokens: seq<Token>

    constructor (d: string)
      ensures buf == d && pos == 0 && errors == [] && tokens == []
    {
      buf := d;
      pos := 0;
      errors := [];
      tokens := [];
    }

    method PushToken(id: TokenId, val: string)
      modifies this`tokens
      ensures tokens == old(tokens) + [Token(id, val)]
    {
      tokens := tokens + [Token(id, val)];
    }

    method ReportError(err: string)
      modifies this`errors
      ensures errors == old(errors) + [err]
    {
      errors := errors + [err];
    }

    predicate HasError()
      reads this
    {
      |errors| != 0
    }

    predicate AtEnd()
      reads this
    {
      pos >= |buf|
    }

    function Cur(): char
      reads this
      requires 0 <= pos < |buf|
    {
      buf[pos]
    }

    function Next(): char
      reads this
      requires 0 <= pos && pos + 1 < |buf|
    {
      buf[pos + 1]
    }

    method Advance()
      modifies this`pos
      ensures pos == old(pos) + 1
    {
      pos := pos + 1;
    }

    method Rewind()
      modifies this`pos
      ensures pos == old(pos) - 1
    {
      pos := pos - 1;
    }

    method SkipWhitespace()
      requires 0 <= pos <= |buf|
      modifies this`pos
      ensures pos == SkipBlanks(buf, old(pos))
    {
      while !AtEnd() && (Cur() == ' ' || Cur() == '\t')
        invariant old(pos) <= pos <= |buf|
        invariant SkipBlanks(buf, pos) == SkipBlanks(buf, old(pos))
        decreases |buf| - pos
      {
        Advance();
      }
    }

    /**
     * Reads the run of `delims` bytes starting at the cursor, leaving the
     * cursor on the run's last byte; fails when the run reaches the end.
     */
    method ReadUntilNot(delims: string) returns (r: ReadResult)
      requires 0 <= pos <= |buf|
      modifies this`pos
      ensures var e := RunEnd(buf, old(pos), delims);
        if e == |buf| then pos == |buf| && r == NotFound("didn't find " + delims + ", when I wanted it")
        else pos == e - 1 && r == Found(buf[old(pos)..e])
    {
      var acc := "";
      var found := true;
      while !AtEnd() && found
        invariant 0 <= old(pos) <= |buf|
        invariant found ==> old(pos) <= pos <= |buf|
        invariant found ==> RunEnd(buf, pos, delims) == RunEnd(buf, old(pos), delims)
        invariant found ==> acc == buf[old(pos)..pos]
        invariant !found ==> pos + 1 == RunEnd(buf, old(pos), delims) < |buf|
        invariant !found ==> acc == buf[old(pos)..pos + 1]
        decreases if found then |buf| - pos + 1 else 0
      {
        found := Cur() in delims;
        if found {
          acc := acc + [Cur()];
          Advance();
        } else {
          Rewind();
        }
      }
      if AtEnd() {
        return NotFound("didn't find " + delims + ", when I wanted it");
      }
      return Found(acc);
    }

    /**
     * Reads bytes up to (not including) the first of `delims`, leaving the
     * cursor on that delimiter; fails when none is left.
     */
    method ReadUntilMany(delims: string) returns (r: ReadResult)
      requires 0 <= pos <= |buf|
      modifies this`pos
      ensures pos == FindFrom(buf, old(pos), delims)
      ensures r == if pos == |buf| then NotFound("didn't find " + delims + ", when I wanted it")
                   else Found(buf[old(pos)..pos])
    {
      var acc := "";
      var found := false;
      while !AtEnd() && !found
        invariant old(pos) <= pos <= |buf|
        invariant FindFrom(buf, pos, delims) == FindFrom(buf, old(pos), delims)
        invariant found ==> pos < |buf| && buf[pos] in delims
        invariant acc == buf[old(pos)..pos]
        decreases |buf| - pos, !found
      {
        found := Cur() in delims;
        if !found {
          acc := acc + [Cur()];
          Advance();
        }
      }
      if AtEnd() {
        return NotFound("didn't find " + delims + ", when I wanted it");
      }
      return Found(acc);
    }

    method ReadUntil(delim: char) returns (r: ReadResult)
      requires 0 <= pos <= |buf|
      modifies this`pos
      ensures pos == FindFrom(buf, old(pos), [delim])
      ensures r == if pos == |buf| then NotFound("didn't find " + [delim] + ", when I wanted it")
                   else Found(buf[old(pos)..pos])
    {
      r := ReadUntilMany([delim]);
    }

    /** A `//` comment runs up to its newline; a lone `/` is left for the driver to skip. */
    method LexComment()
      requires 0 <= pos && pos + 1 < |buf|
      modifies this`pos
      ensures pos == if buf[old(pos) + 1] == '/' then FindFrom(buf, old(pos), "\n") else old(pos)
    {
      if Next() == '/' {
        var _ := ReadUntil('\n');
      }
    }

    method LexStringLiteral()
      requires 0 <= pos < |buf|
      modifies this`pos, this`errors, this`tokens
      ensures buf[old(pos)] != '"' ==>
        pos == old(pos) && tokens == old(tokens) &&
        errors == old(errors) + ["expected: \", got: " + [buf[old(pos)]]]
      ensures buf[old(pos)] == '"' ==>
        var q := FindFrom(buf, old(pos) + 1, "\"");
        pos == q &&
        (q == |buf| ==>
          errors == old(errors) + ["unterminated string literal"] &&
          tokens == old(tokens) + [Token(StringLiteral, "")]) &&
        (q < |buf| ==>
          errors == old(errors) &&
          tokens == old(tokens) + [Token(StringLiteral, buf[old(pos) + 1..q])])
    {
      if Cur() != '"' {
        ReportError("expected: \", got: " + [Cur()]);
        return;
      }
      Advance();
      var r := ReadUntil('"');
      if r.NotFound? {
        ReportError("unterminated string literal");
      }
      PushToken(StringLiteral, if r.Found? then r.bytes else "");
    }

    method LexWord()
      requires 0 <= pos < |buf|
      modifies this`pos, this`errors, this`tokens
      ensures var e := RunEnd(buf, old(pos), ValidInIdentifiers);
        (e == |buf| ==>
          pos == |buf| &&
          errors == old(errors) + ["EOF on a word?"] &&
          tokens == old(tokens) + [Token(Identifier, "")]) &&
        (e < |buf| ==>
          pos == e - 1 && errors == old(errors) &&
          tokens == old(tokens) + [Token(Identifier, buf[old(pos)..e])])
    {
      var r := ReadUntilNot(ValidInIdentifiers);
      if r.NotFound? {
        ReportError("EOF on a word?");
      }
      PushToken(Identifier, if r.Found? then r.bytes else "");
    }

    /**
     * The body of the driver loop at a non-blank byte: dispatches on the byte
     * and lexes one token. `panicked` reports an out-of-range read of the
     * byte after a trailing `/` or `:`.
     */
    method LexToken() returns (panicked: bool)
      requires 0 <= pos < |buf| && SkipBlanks(buf, pos) == pos && errors == []
      modifies this`pos, this`errors, this`tokens
      ensures !panicked ==> pos >= old(pos)
      ensures var m := StepAt(buf, old(pos));
        (m.Emit? ==> !panicked && errors == [] && tokens == old(tokens) + m.tokens && pos + 1 == m.next) &&
        (m.Stop? ==> match m.result
          case LexPanicked(why) => panicked && why == IndexOutOfRange
          case LexFailed(e) => !panicked && errors != [] && errors[0] == e
          case Lexed(_) => false)
    {
      ghost var p := pos;
      ghost var m := StepAt(buf, p);
      var c := Cur();
      if c == '/' {
        if pos + 1 >= |buf| {
          return true;
        }
        LexComment();
        assert m == Emit([], pos + 1);
      } else if c == '"' {
        LexStringLiteral();
      } else if c == ':' {
        Advance();
        if AtEnd() {
          return true;
        }
        if Cur() == ':' {
          PushToken(Namespace, "");
        } else {
          Rewind();
          PushToken(Colon, "");
        }
      } else if SingleCharToken(c).Some? {
        PushToken(SingleCharToken(c).value, "");
      } else if c in ValidInIdentifiers {
        LexWord();
      }
      return false;
    }
  }

  /** Lexes a buffer into tokens; the first error wins and discards the tokens. */
  method Lex(d: string) returns (r: LexResult)
    ensures r == Scan(d, 0)
  {
    var l := new Lexer(d);
    while !l.AtEnd() && !l.HasError()
      invariant l.buf == d && 0 <= l.pos
      invariant !l.HasError() ==> Scan(d, 0) == Prepend(l.tokens, Scan(d, l.pos))
      invariant l.HasError() ==> Scan(d, 0) == LexFailed(l.errors[0])
      decreases |d| - l.pos
    {
      ghost var p0 := l.pos;
      ghost var ts := l.tokens;
      l.SkipWhitespace();
      if l.AtEnd() {
        assert Scan(d, p0) == Lexed([]);
        assert ts + [] == ts;
        break;
      }
      ghost var m := StepAt(d, l.pos);
      ScanTurn(d, p0);
      var panicked := l.LexToken();
      if panicked {
        return LexPanicked(IndexOutOfRange);
      }
      if !l.HasError() {
        PrependBoth(ts, m.tokens, Scan(d, m.next));
      }
      l.Advance();
    }
    if l.HasError() {
      return LexFailed(l.errors[0]);
    }
    assert Scan(d, l.pos) == Lexed([]);
    assert l.tokens + [] == l.tokens;
    return Lexed(l.tokens);
  }
}
