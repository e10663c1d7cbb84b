/**
 * What `parseType`, `parseIdentifier` and `parseValue` (idl/parse.go) read
 * from the tokens in front of them.
 *
 * Each lemma names the tokens at the cursor position one by one and states
 * the exact result: the text or type built and the cursor after it, or the
 * error recorded. `Room(toks, c, n)` says that the `n` tokens at the cursor
 * are followed by one more token that is neither a line break nor the last
 * token of the stream; the named tokens are never line breaks. `Advance`
 * skips line breaks (its own contract says so), so the same tokens with
 * line breaks between them give the same result at a later position.
 */
module GrammarProperties {
  import opened Options
  import opened Tokens
  import opened Ast
  import opened ParseState
  import opened Grammar

  /** An identifier token. */
  function Word(v: string): Token
  {
    Token(Identifier, v)
  }

  /**
   * The cursor (EOF not flagged) has `n` tokens in front of it, followed by
   * one more token that is neither a line break nor the last token.
   */
  predicate Room(toks: seq<Token>, c: Cursor, n: nat)
  {
    !c.isEOF && c.ppos + n < |toks| - 1 && toks[c.ppos + n].id != EndLine
  }

  /** The cursor `n` tokens further on, errors and EOF flag unchanged. */
  function Skip(c: Cursor, n: nat): Cursor
  {
    c.(ppos := c.ppos + n)
  }

  /** The cursor with `err` recorded. */
  function Err(c: Cursor, err: string): Cursor
  {
    c.(errors := c.errors + [err])
  }

  /** `advance` onto a token that is not a line break moves exactly one token. */
  lemma Step(toks: seq<Token>, c: Cursor)
    requires !c.isEOF && c.ppos + 1 < |toks| - 1 && toks[c.ppos + 1].id != EndLine
    ensures Advance(toks, c) == Skip(c, 1)
  {
  }

  /** A plain word is a type with no parameters. */
  lemma TypeOfWord(toks: seq<Token>, c: Cursor, w: string)
    requires Room(toks, c, 1) && toks[c.ppos] == Word(w)
    requires toks[c.ppos + 1].id != LessThan && toks[c.ppos + 1].id != Namespace
    requires w != "unsigned" && (w == "long" ==> toks[c.ppos + 1] != Word("long"))
    ensures ParseType(toks, c) == (Type(w, None, []), Skip(c, 1))
  {
    Step(toks, c);
  }

  /** After the type name: no widening applies and no `::` follows, so the type is complete. */
  lemma PlainTail(toks: seq<Token>, c: Cursor, name: string, params: seq<Type>)
    requires !c.isEOF && !AtEnd(toks, c) && toks[c.ppos].id != Namespace
    requires name != "unsigned" && (name == "long" ==> toks[c.ppos] != Word("long"))
    ensures TypeWidening(toks, c, name, params) == (Type(name, None, params), c)
  {
  }

  /** `, B` then a token other than a comma: the parameter list gains B and ends. */
  lemma TemplateTailLast(toks: seq<Token>, c: Cursor, acc: seq<Type>, b: string)
    requires Room(toks, c, 2) && toks[c.ppos].id == Comma && toks[c.ppos + 1] == Word(b)
    requires toks[c.ppos + 2].id !in {LessThan, Namespace, Comma}
    requires b != "unsigned" && b != "long"
    ensures TemplateTail(toks, c, acc) == (acc + [Type(b, None, [])], Skip(c, 2))
  {
    Step(toks, c);
    TypeOfWord(toks, Skip(c, 1), b);
  }

  /** A type name followed by `<`: the rest is read as a template type. */
  lemma TypeWithTemplate(toks: seq<Token>, c: Cursor, t: string)
    requires Room(toks, c, 2) && toks[c.ppos] == Word(t) && toks[c.ppos + 1].id == LessThan
    ensures ParseType(toks, c) == TemplateType(toks, Skip(c, 2), t)
  {
    Step(toks, c);
    Step(toks, Skip(c, 1));
  }

  /**
   * After `<`, the parameters are those the parameter loop reads. A `>`
   * after them is consumed and widening goes on after it; without a `>`
   * the type ends there, and no error is recorded.
   */
  lemma TemplateTypeParts(toks: seq<Token>, c: Cursor, t: string, first: Type, c4: Cursor, params: seq<Type>, c5: Cursor)
    requires ParseType(toks, c) == (first, c4) && TemplateTail(toks, c4, [first]) == (params, c5)
    ensures TemplateType(toks, c, t) ==
              if !AtEnd(toks, c5) && toks[c5.ppos].id == GreaterThan
              then TypeWidening(toks, Advance(toks, c5), t, params)
              else (Type(t, None, params), Tok(toks, c5).1)
  {
  }

  /** `A, B` inside `<...>`: the parameters A and B, in this order. */
  lemma ParameterPair(toks: seq<Token>, c: Cursor, a: string, b: string)
    requires Room(toks, c, 4) && toks[c.ppos] == Word(a) && toks[c.ppos + 1].id == Comma
    requires toks[c.ppos + 2] == Word(b) && toks[c.ppos + 3].id == GreaterThan
    requires a != "unsigned" && a != "long" && b != "unsigned" && b != "long"
    ensures ParseType(toks, c) == (Type(a, None, []), Skip(c, 1))
    ensures TemplateTail(toks, Skip(c, 1), [Type(a, None, [])]) ==
              ([Type(a, None, []), Type(b, None, [])], Skip(c, 3))
  {
    TypeOfWord(toks, c, a);
    TemplateTailLast(toks, Skip(c, 1), [Type(a, None, [])], b);
    assert [Type(a, None, [])] + [Type(b, None, [])] == [Type(a, None, []), Type(b, None, [])];
  }

  /** `T<A, B>` has the two parameters in order. */
  lemma TypeWithParameters(toks: seq<Token>, c: Cursor, t: string, a: string, b: string)
    requires Room(toks, c, 6) && toks[c.ppos] == Word(t) && toks[c.ppos + 1].id == LessThan
    requires toks[c.ppos + 2] == Word(a) && toks[c.ppos + 3].id == Comma
    requires toks[c.ppos + 4] == Word(b) && toks[c.ppos + 5].id == GreaterThan
    requires toks[c.ppos + 6].id != Namespace && t != "unsigned" && t != "long"
    requires a != "unsigned" && a != "long" && b != "unsigned" && b != "long"
    ensures ParseType(toks, c) == (Type(t, None, [Type(a, None, []), Type(b, None, [])]), Skip(c, 6))
  {
    var params := [Type(a, None, []), Type(b, None, [])];
    var c2 := Skip(c, 2);
    var c5 := Skip(c2, 3);
    assert Skip(c5, 1) == Skip(c, 6);
    Step(toks, c5);
    PlainTail(toks, Skip(c5, 1), t, params);
    ParameterPair(toks, c2, a, b);
    TypeWithTemplate(toks, c, t);
    TemplateTypeParts(toks, c2, t, Type(a, None, []), Skip(c2, 1), params, c5);
  }

  /** A missing `>` ends the type where the parameters end, and records nothing. */
  lemma TypeMissingGreater(toks: seq<Token>, c: Cursor, t: string, a: string)
    requires Room(toks, c, 3) && toks[c.ppos] == Word(t) && toks[c.ppos + 1].id == LessThan
    requires toks[c.ppos + 2] == Word(a)
    requires toks[c.ppos + 3].id !in {LessThan, Namespace, Comma, GreaterThan}
    requires a != "unsigned" && a != "long"
    ensures ParseType(toks, c) == (Type(t, None, [Type(a, None, [])]), Skip(c, 3))
  {
    TypeOfWord(toks, Skip(c, 2), a);
    assert TemplateTail(toks, Skip(c, 3), [Type(a, None, [])]) == ([Type(a, None, [])], Skip(c, 3));
    TypeWithTemplate(toks, c, t);
    TemplateTypeParts(toks, Skip(c, 2), t, Type(a, None, []), Skip(c, 3), [Type(a, None, [])], Skip(c, 3));
  }

  /** `unsigned X` is one type named "unsigned X". */
  lemma TypeUnsigned(toks: seq<Token>, c: Cursor, x: string)
    requires Room(toks, c, 2) && toks[c.ppos] == Word("unsigned") && toks[c.ppos + 1] == Word(x)
    requires toks[c.ppos + 2].id != Namespace
    ensures ParseType(toks, c) == (Type("unsigned " + x, None, []), Skip(c, 2))
  {
    Step(toks, c);
    Step(toks, Skip(c, 1));
    assert "unsigned" + " " + x == "unsigned " + x;
  }

  /** `unsigned` followed by something other than a word records "expected numeric type". */
  lemma TypeUnsignedError(toks: seq<Token>, c: Cursor)
    requires Room(toks, c, 1) && toks[c.ppos] == Word("unsigned")
    requires toks[c.ppos + 1].id != Identifier && toks[c.ppos + 1].id != LessThan
    ensures ParseType(toks, c) == (Type("unsigned", None, []), Err(Skip(c, 1), "expected numeric type"))
  {
    Step(toks, c);
  }

  /** `long long` is one type named "long long". */
  lemma TypeLongLong(toks: seq<Token>, c: Cursor)
    requires Room(toks, c, 2) && toks[c.ppos] == Word("long") && toks[c.ppos + 1] == Word("long")
    requires toks[c.ppos + 2].id != Namespace
    ensures ParseType(toks, c) == (Type("long long", None, []), Skip(c, 2))
  {
    Step(toks, c);
    Step(toks, Skip(c, 1));
    assert "long" + " " + "long" == "long long";
  }

  /** `A::B` is one type named "A::B". */
  lemma TypeInNamespace(toks: seq<Token>, c: Cursor, a: string, b: string)
    requires Room(toks, c, 3) && toks[c.ppos] == Word(a) && toks[c.ppos + 1].id == Namespace
    requires toks[c.ppos + 2] == Word(b) && a != "unsigned" && a != "long"
    ensures ParseType(toks, c) == (Type(a + "::" + b, None, []), Skip(c, 3))
  {
    Step(toks, c);
    Step(toks, Skip(c, 1));
    Step(toks, Skip(c, 2));
  }

  /** A type must start with a word: otherwise "expected type name". */
  lemma TypeNameError(toks: seq<Token>, c: Cursor)
    requires !c.isEOF && !AtEnd(toks, c) && toks[c.ppos].id != Identifier
    ensures ParseType(toks, c) == (NoType, Err(c, "expected type name"))
  {
  }

  /** A plain word is the identifier itself. */
  lemma IdentifierOfWord(toks: seq<Token>, c: Cursor, w: string)
    requires Room(toks, c, 1) && toks[c.ppos] == Word(w)
    requires toks[c.ppos + 1].id != Namespace && toks[c.ppos + 1].id != OpenSquareBracket
    ensures ParseIdentifier(toks, c) == (w, Skip(c, 1))
  {
    Step(toks, c);
  }

  /** `w::x` is read as the one identifier "w::x". */
  lemma IdentifierInNamespace(toks: seq<Token>, c: Cursor, w: string, x: string)
    requires Room(toks, c, 3) && toks[c.ppos] == Word(w) && toks[c.ppos + 1].id == Namespace
    requires toks[c.ppos + 2] == Word(x) && toks[c.ppos + 3].id != OpenSquareBracket
    ensures ParseIdentifier(toks, c) == (w + "::" + x, Skip(c, 3))
  {
    Step(toks, c);
    Step(toks, Skip(c, 1));
    Step(toks, Skip(c, 2));
  }

  /** `w[q]` is read as the one identifier "w[q]". */
  lemma IdentifierWithQuantity(toks: seq<Token>, c: Cursor, w: string, q: string)
    requires Room(toks, c, 4) && toks[c.ppos] == Word(w) && toks[c.ppos + 1].id == OpenSquareBracket
    requires toks[c.ppos + 2] == Word(q) && toks[c.ppos + 3].id == CloseSquareBracket
    ensures ParseIdentifier(toks, c) == (w + "[" + q + "]", Skip(c, 4))
  {
    Step(toks, c);
    Step(toks, Skip(c, 1));
    Step(toks, Skip(c, 2));
    Step(toks, Skip(c, 3));
  }

  /** An identifier must start with a word: otherwise "" and "expected identifier". */
  lemma IdentifierError(toks: seq<Token>, c: Cursor)
    requires !c.isEOF && !AtEnd(toks, c) && toks[c.ppos].id != Identifier
    ensures ParseIdentifier(toks, c) == ("", Err(c, "expected identifier"))
  {
  }

  /** `w::` not followed by a word gives "" and "expected type name in namespace". */
  lemma IdentifierNamespaceError(toks: seq<Token>, c: Cursor, w: string)
    requires Room(toks, c, 2) && toks[c.ppos] == Word(w) && toks[c.ppos + 1].id == Namespace
    requires toks[c.ppos + 2].id != Identifier
    ensures ParseIdentifier(toks, c) == ("", Err(Skip(c, 2), "expected type name in namespace"))
  {
    Step(toks, c);
    Step(toks, Skip(c, 1));
  }

  /** `w[` not followed by a word gives "" and "expected quantity". */
  lemma IdentifierQuantityError(toks: seq<Token>, c: Cursor, w: string)
    requires Room(toks, c, 2) && toks[c.ppos] == Word(w) && toks[c.ppos + 1].id == OpenSquareBracket
    requires toks[c.ppos + 2].id != Identifier
    ensures ParseIdentifier(toks, c) == ("", Err(Skip(c, 2), "expected quantity"))
  {
    Step(toks, c);
    Step(toks, Skip(c, 1));
  }

  /** `w[q` not followed by `]` gives "" and "expected close bracket". */
  lemma IdentifierBracketError(toks: seq<Token>, c: Cursor, w: string, q: string)
    requires Room(toks, c, 3) && toks[c.ppos] == Word(w) && toks[c.ppos + 1].id == OpenSquareBracket
    requires toks[c.ppos + 2] == Word(q) && toks[c.ppos + 3].id != CloseSquareBracket
    ensures ParseIdentifier(toks, c) == ("", Err(Skip(c, 3), "expected close bracket"))
  {
    Step(toks, c);
    Step(toks, Skip(c, 1));
    Step(toks, Skip(c, 2));
  }

  /** The texts of the tokens at positions `from` up to `to`, in order. */
  function Texts(toks: seq<Token>, from: nat, to: nat): string
    requires from <= to <= |toks|
    decreases (to as int) - from
  {
    if from == to then "" else toks[from].value + Texts(toks, from + 1, to)
  }

  /** Every token from the cursor up to position `to` can be part of a value. */
  predicate ValueRunUpTo(toks: seq<Token>, c: Cursor, to: nat)
  {
    !c.isEOF && c.ppos <= to < |toks| - 1 && !IsValuePart(toks[to].id) &&
    forall i | c.ppos <= i < to :: IsValuePart(toks[i].id)
  }

  /**
   * The value loop over the run of value tokens up to position `to`: it
   * appends their texts in order and stops right after the run.
   */
  lemma {:induction false} ValueRunReadsRun(toks: seq<Token>, c: Cursor, to: nat, acc: string)
    requires ValueRunUpTo(toks, c, to) && toks[to].id != EndLine
    ensures ValueRun(toks, c, acc) == (acc + Texts(toks, c.ppos, to), c.(ppos := to))
    decreases (to as int) - c.ppos
  {
    if c.ppos == to {
      assert acc + Texts(toks, c.ppos, to) == acc;
    } else {
      var v := toks[c.ppos].value;
      ValueRunStep(toks, c, acc);
      ValueRunReadsRun(toks, Skip(c, 1), to, acc + v);
      var rest := Texts(toks, c.ppos + 1, to);
      Associative(acc, v, rest);
    }
  }

  lemma Associative(a: string, b: string, c: string)
    ensures a + b + c == a + (b + c)
  {
  }

  /** One turn of the value loop on a value token followed by a visible one. */
  lemma ValueRunStep(toks: seq<Token>, c: Cursor, acc: string)
    requires !c.isEOF && c.ppos + 1 < |toks| - 1 && toks[c.ppos + 1].id != EndLine
    requires IsValuePart(toks[c.ppos].id)
    ensures ValueRun(toks, c, acc) == ValueRun(toks, Skip(c, 1), acc + toks[c.ppos].value)
  {
    Step(toks, c);
  }

  /**
   * `parseValue` on a run of value tokens up to position `to`: their texts
   * run together, in quotes exactly when the first token is a string
   * literal.
   */
  lemma ValueOfRun(toks: seq<Token>, c: Cursor, to: nat)
    requires ValueRunUpTo(toks, c, to) && c.ppos < to && toks[to].id != EndLine
    ensures var text := Texts(toks, c.ppos, to);
            ParseValue(toks, c) ==
              (if toks[c.ppos].id == StringLiteral then "\"" + text + "\"" else text, c.(ppos := to))
  {
    if toks[c.ppos].id == StringLiteral {
      ValueRunReadsRun(toks, c, to, "\"");
    } else {
      ValueRunReadsRun(toks, c, to, "");
      assert "" + Texts(toks, c.ppos, to) == Texts(toks, c.ppos, to);
    }
  }

  /** A word followed by a token that cannot continue a value is the value itself. */
  lemma ValueOfWord(toks: seq<Token>, c: Cursor, w: string)
    requires Room(toks, c, 1) && toks[c.ppos] == Word(w) && !IsValuePart(toks[c.ppos + 1].id)
    ensures ParseValue(toks, c) == (w, Skip(c, 1))
  {
    ValueRunStep(toks, c, "");
    assert "" + w == w;
  }

  /** A string literal on its own is the value with its quotes put back. */
  lemma ValueOfString(toks: seq<Token>, c: Cursor, text: string)
    requires Room(toks, c, 1) && toks[c.ppos] == Token(StringLiteral, text) && !IsValuePart(toks[c.ppos + 1].id)
    ensures ParseValue(toks, c) == ("\"" + text + "\"", Skip(c, 1))
  {
    ValueRunStep(toks, c, "\"");
  }

  /** A value must start with a word, `<` or a string literal: otherwise "expected value". */
  lemma ValueError(toks: seq<Token>, c: Cursor)
    requires !c.isEOF && !AtEnd(toks, c) && !IsValuePart(toks[c.ppos].id)
    ensures ParseValue(toks, c) == ("", Err(c, "expected value"))
  {
  }
}
