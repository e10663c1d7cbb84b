/**
 * Properties of the lexer specification `Lexer.Scan`: what each kind of
 * byte produces, which tokens can come out at all, and how end-of-line
 * tokens correspond to newlines in the buffer.
 *
 * The step lemmas speak of a position `p` holding neither a space nor a tab,
 * which is where the driver loop of `Lex` dispatches after skipping blanks.
 */
module LexerProperties {
  import opened Options
  import opened Tokens
  import opened Lexer

  /** A token of a shape the lexer can produce. */
  predicate WellFormed(t: Token)
  {
    match t.id
    case Identifier => |t.value| > 0 && forall i | 0 <= i < |t.value| :: t.value[i] in ValidInIdentifiers
    case StringLiteral => forall i | 0 <= i < |t.value| :: t.value[i] != '"'
    case Invalid => false
    case _ => t.value == ""
  }

  /** The number of newline bytes in `s`. */
  function Newlines(s: string): nat
  {
    if s == [] then 0 else (if s[0] == '\n' then 1 else 0) + Newlines(s[1..])
  }

  /** The number of `EndLine` tokens in `ts`. */
  function EndLines(ts: seq<Token>): nat
  {
    if ts == [] then 0 else (if ts[0].id == EndLine then 1 else 0) + EndLines(ts[1..])
  }

  lemma {:induction false} NewlinesAppend(a: string, b: string)
    ensures Newlines(a + b) == Newlines(a) + Newlines(b)
  {
    if a == [] {
      assert a + b == b;
    } else {
      assert (a + b)[1..] == a[1..] + b;
      NewlinesAppend(a[1..], b);
    }
  }

  lemma {:induction false} NoNewlines(s: string)
    requires forall i | 0 <= i < |s| :: s[i] != '\n'
    ensures Newlines(s) == 0
  {
    if s != [] {
      NoNewlines(s[1..]);
    }
  }

  lemma {:induction false} EndLinesAppend(a: seq<Token>, b: seq<Token>)
    ensures EndLines(a + b) == EndLines(a) + EndLines(b)
  {
    if a == [] {
      assert a + b == b;
    } else {
      assert (a + b)[1..] == a[1..] + b;
      EndLinesAppend(a[1..], b);
    }
  }

  /** Spaces and tabs before a token produce nothing. */
  lemma BlanksProduceNothing(buf: string, pos: nat, k: nat)
    requires pos + k <= |buf|
    requires forall i | pos <= i < pos + k :: buf[i] == ' ' || buf[i] == '\t'
    ensures Scan(buf, pos) == Scan(buf, pos + k)
  {
    if pos < |buf| {
      if pos + k < |buf| {
        SkipBlanksAcross(buf, pos, k);
      }
      ScanSkipsBlanks(buf, pos);
      if pos + k < |buf| {
        ScanSkipsBlanks(buf, pos + k);
      }
    }
  }

  lemma {:induction false} SkipBlanksAcross(buf: string, pos: nat, k: nat)
    requires pos + k < |buf|
    requires forall i | pos <= i < pos + k :: buf[i] == ' ' || buf[i] == '\t'
    ensures SkipBlanks(buf, pos) == SkipBlanks(buf, pos + k)
    decreases k
  {
    if k > 0 {
      SkipBlanksAcross(buf, pos + 1, k - 1);
    }
  }

  /** A `//` comment yields no token and swallows its terminating newline. */
  lemma LineComment(buf: string, p: nat)
    requires p + 1 < |buf| && buf[p] == '/' && buf[p + 1] == '/'
    ensures var nl := FindFrom(buf, p, "\n");
      Scan(buf, p) == Scan(buf, nl + 1) &&
      (forall i | p <= i < nl :: buf[i] != '\n') &&
      (nl < |buf| ==> buf[nl] == '\n')
  {
    assert SkipBlanks(buf, p) == p;
  }

  /** A `/` not followed by another `/` is dropped. */
  lemma LoneSlash(buf: string, p: nat)
    requires p + 1 < |buf| && buf[p] == '/' && buf[p + 1] != '/'
    ensures Scan(buf, p) == Scan(buf, p + 1)
  {
    assert SkipBlanks(buf, p) == p;
  }

  /** A `/` as the last byte makes the lexer read past the buffer. */
  lemma TrailingSlash(buf: string)
    requires |buf| > 0 && buf[|buf| - 1] == '/'
    ensures Scan(buf, |buf| - 1) == LexPanicked(IndexOutOfRange)
  {
    assert SkipBlanks(buf, |buf| - 1) == |buf| - 1;
  }

  /** `::` is one `Namespace` token; a `:` before anything else is a `Colon` and the next byte is lexed on its own. */
  lemma ColonTokens(buf: string, p: nat)
    requires p < |buf| && buf[p] == ':'
    ensures p + 1 == |buf| ==> Scan(buf, p) == LexPanicked(IndexOutOfRange)
    ensures p + 1 < |buf| && buf[p + 1] == ':' ==>
      Scan(buf, p) == Prepend([Token(Namespace, "")], Scan(buf, p + 2))
    ensures p + 1 < |buf| && buf[p + 1] != ':' ==>
      Scan(buf, p) == Prepend([Token(Colon, "")], Scan(buf, p + 1))
  {
    assert SkipBlanks(buf, p) == p;
  }

  /**
   * A string literal is the raw bytes up to the next `"`, with no escape
   * processing; without a closing quote lexing fails.
   */
  lemma StringLiteralToken(buf: string, p: nat)
    requires p < |buf| && buf[p] == '"'
    ensures var q := FindFrom(buf, p + 1, "\"");
      (q == |buf| ==> Scan(buf, p) == LexFailed("unterminated string literal")) &&
      (q < |buf| ==>
        buf[q] == '"' && (forall i | p < i < q :: buf[i] != '"') &&
        Scan(buf, p) == Prepend([Token(StringLiteral, buf[p + 1..q])], Scan(buf, q + 1)))
  {
    assert SkipBlanks(buf, p) == p;
  }

  /**
   * A maximal run of identifier bytes, digits included, is one `Identifier`
   * token holding exactly that run; a run that reaches the end of the buffer
   * fails with "EOF on a word?".
   */
  lemma WordToken(buf: string, p: nat)
    requires p < |buf| && buf[p] in ValidInIdentifiers
    ensures var e := RunEnd(buf, p, ValidInIdentifiers);
      p < e &&
      (forall i | p <= i < e :: buf[i] in ValidInIdentifiers) &&
      (e == |buf| ==> Scan(buf, p) == LexFailed("EOF on a word?")) &&
      (e < |buf| ==>
        buf[e] !in ValidInIdentifiers &&
        Scan(buf, p) == Prepend([Token(Identifier, buf[p..e])], Scan(buf, e)))
  {
    IdentifierByteIsWord(buf[p]);
    assert SkipBlanks(buf, p) == p;
    ScanAt(buf, p);
  }

  /** A word ends at the first byte that is not a letter, a digit or `_`. */
  lemma {:induction false} WordEnd(buf: string, p: nat, e: nat)
    requires p <= e < |buf|
    requires forall i | p <= i < e :: IsIdentifierByte(buf[i])
    requires !IsIdentifierByte(buf[e])
    ensures RunEnd(buf, p, ValidInIdentifiers) == e
    decreases e - p
  {
    IdentifierByteIff(buf[p]);
    if p < e {
      WordEnd(buf, p + 1, e);
    }
  }

  /** Each one-byte punctuator, `\n` included, is a token of its own kind with an empty value. */
  lemma PunctuatorToken(buf: string, p: nat)
    requires p < |buf| && SingleCharToken(buf[p]).Some?
    ensures Scan(buf, p) == Prepend([Token(SingleCharToken(buf[p]).value, "")], Scan(buf, p + 1))
    ensures buf[p] == '\n' ==> SingleCharToken(buf[p]) == Some(EndLine)
  {
    var c := buf[p];
    assert c != ' ' && c != '\t' && c != '/' && c != '"' && c != ':';
    assert SkipBlanks(buf, p) == p;
    assert StepAt(buf, p) == Emit([Token(SingleCharToken(c).value, "")], p + 1);
  }

  /** A byte of no recognised class (such as `-`, `.` or `\r`) is skipped without a token. */
  lemma UnknownByteSkipped(buf: string, p: nat)
    requires p < |buf|
    requires buf[p] !in " \t/\":" && SingleCharToken(buf[p]).None? && buf[p] !in ValidInIdentifiers
    ensures Scan(buf, p) == Scan(buf, p + 1)
  {
    assert SkipBlanks(buf, p) == p;
  }

  predicate AllWellFormed(ts: seq<Token>)
  {
    forall i | 0 <= i < |ts| :: WellFormed(ts[i])
  }

  /** What lexing can end in: well-formed tokens, one of the two lexer errors, or the out-of-range panic. */
  predicate PossibleOutcome(r: LexResult)
  {
    match r
    case Lexed(ts) => AllWellFormed(ts)
    case LexFailed(e) => e == "unterminated string literal" || e == "EOF on a word?"
    case LexPanicked(why) => why == IndexOutOfRange
  }

  lemma AllWellFormedAppend(ts: seq<Token>, us: seq<Token>)
    requires AllWellFormed(ts) && AllWellFormed(us)
    ensures AllWellFormed(ts + us)
  {
    forall i | 0 <= i < |ts + us|
      ensures WellFormed((ts + us)[i])
    {
      if i < |ts| {
        assert (ts + us)[i] == ts[i];
      } else {
        assert (ts + us)[i] == us[i - |ts|];
      }
    }
  }

  /** The tokens one step emits are well-formed, and a step that stops ends in a possible outcome. */
  lemma StepWellFormed(buf: string, p: nat)
    requires p < |buf|
    ensures StepAt(buf, p).Emit? ==> AllWellFormed(StepAt(buf, p).tokens)
    ensures StepAt(buf, p).Stop? ==> PossibleOutcome(StepAt(buf, p).result)
  {
    var c := buf[p];
    if c != '/' && c != '"' && c != ':' && SingleCharToken(c).None? && c in ValidInIdentifiers {
      var e := RunEnd(buf, p, ValidInIdentifiers);
      assert p < e;
      if e < |buf| {
        var t := Token(Identifier, buf[p..e]);
        assert StepAt(buf, p).tokens == [t];
        assert forall i | 0 <= i < |t.value| :: t.value[i] == buf[p + i];
      }
    } else if c == '"' {
      var q := FindFrom(buf, p + 1, "\"");
      if q < |buf| {
        var t := Token(StringLiteral, buf[p + 1..q]);
        assert forall i | 0 <= i < |t.value| :: t.value[i] == buf[p + 1 + i];
      }
    }
  }

  /**
   * Every outcome of lexing: a successful result holds only well-formed
   * tokens, the only errors are the two the lexer reports, and the only
   * panic is the out-of-range read.
   */
  lemma {:induction false} ScanOutcome(buf: string, pos: nat)
    ensures PossibleOutcome(Scan(buf, pos))
    decreases |buf| - pos
  {
    if pos < |buf| {
      ScanSkipsBlanks(buf, pos);
      var p := SkipBlanks(buf, pos);
      if p < |buf| {
        ScanAt(buf, p);
        StepWellFormed(buf, p);
        var m := StepAt(buf, p);
        if m.Emit? {
          ScanOutcome(buf, m.next);
          var rest := Scan(buf, m.next);
          if rest.Lexed? {
            AllWellFormedAppend(m.tokens, rest.tokens);
          }
        }
      }
    }
  }

  /**
   * One step at a non-blank byte that is neither `/` nor `"` emits one
   * `EndLine` token for a newline byte and none otherwise, and consumes no
   * other newline.
   */
  lemma StepNewlines(buf: string, p: nat)
    requires p < |buf| && buf[p] != ' ' && buf[p] != '\t' && buf[p] != '/' && buf[p] != '"'
    ensures var m := StepAt(buf, p);
      m.Stop? ||
      (m.next <= |buf| && EndLines(m.tokens) == Newlines(buf[p..m.next]))
  {
    var c := buf[p];
    var m := StepAt(buf, p);
    if m.Emit? {
      var next := m.next;
      IdentifierByteIff(c);
      if c == ':' {
        assert forall i | p <= i < next :: buf[i] == ':';
      } else if SingleCharToken(c).Some? {
        assert next == p + 1;
      } else if IsIdentifierByte(c) {
        assert forall i | p <= i < next :: buf[i] in ValidInIdentifiers;
        forall i | p <= i < next
          ensures buf[i] != '\n'
        {
          IdentifierByteIff(buf[i]);
        }
      } else {
        assert next == p + 1;
      }
      assert next <= |buf|;
      assert buf[p..next] == [c] + buf[p + 1..next];
      NewlinesAppend([c], buf[p + 1..next]);
      NoNewlines(buf[p + 1..next]);
      assert EndLines(m.tokens) == if c == '\n' then 1 else 0;
    }
  }

  /** Skipped blanks hold no newline. */
  lemma BlanksHaveNoNewline(buf: string, pos: nat)
    requires pos <= |buf|
    ensures Newlines(buf[pos..]) == Newlines(buf[SkipBlanks(buf, pos)..])
  {
    var p := SkipBlanks(buf, pos);
    assert buf[pos..] == buf[pos..p] + buf[p..];
    NewlinesAppend(buf[pos..p], buf[p..]);
    NoNewlines(buf[pos..p]);
  }

  /** The newlines from a step's position on are those it turns into tokens and those after it. */
  lemma StepSplitsNewlines(buf: string, p: nat)
    requires p < |buf| && buf[p] != ' ' && buf[p] != '\t' && buf[p] != '/' && buf[p] != '"'
    requires StepAt(buf, p).Emit?
    ensures StepAt(buf, p).next <= |buf|
    ensures Newlines(buf[p..]) == EndLines(StepAt(buf, p).tokens) + Newlines(buf[StepAt(buf, p).next..])
  {
    var next := StepAt(buf, p).next;
    StepNewlines(buf, p);
    assert buf[p..] == buf[p..next] + buf[next..];
    NewlinesAppend(buf[p..next], buf[next..]);
  }

  /**
   * In a buffer with no comment and no string literal, every newline becomes
   * exactly one `EndLine` token and no other byte does.
   */
  lemma {:induction false} EndLinePerNewline(buf: string, pos: nat)
    requires pos <= |buf|
    requires forall i | pos <= i < |buf| :: buf[i] != '/' && buf[i] != '"'
    requires Scan(buf, pos).Lexed?
    ensures EndLines(Scan(buf, pos).tokens) == Newlines(buf[pos..])
    decreases |buf| - pos
  {
    if pos == |buf| {
      return;
    }
    var p := SkipBlanks(buf, pos);
    BlanksHaveNoNewline(buf, pos);
    if p == |buf| {
      return;
    }
    var m := StepAt(buf, p);
    StepSplitsNewlines(buf, p);
    EndLinePerNewline(buf, m.next);
    EndLinesAppend(m.tokens, Scan(buf, m.next).tokens);
  }
}
