/**
 * What the construct parsers (idl/parse_*.go) add to the AST and where
 * they leave the cursor, for the tokens in front of them.
 *
 * Each lemma starts on the keyword (or, for members, on the first token),
 * names the tokens that follow one by one and states the exact resulting
 * state: the AST as `PushContext`, `AddTypeDef` and friends build it, and
 * the cursor. The error lemmas give the message recorded and show that the
 * AST is left as it was. As in `GrammarProperties`, the named tokens are
 * not line breaks; a construct that ends with `;` leaves the cursor where
 * `advance` from the `;` lands, so what follows does not matter.
 */
module ConstructProperties {
  import opened Options
  import opened Tokens
  import opened Ast
  import opened ParseState
  import opened Grammar
  import opened Constructs
  import opened GrammarProperties

  /** The `n` tokens from the cursor on all come before the end token, and EOF is not flagged. */
  predicate Ahead(toks: seq<Token>, c: Cursor, n: nat)
  {
    !c.isEOF && c.ppos + n < |toks|
  }

  /** The token at `i` is neither a line break nor the end token. */
  predicate Visible(toks: seq<Token>, i: nat)
  {
    i < |toks| - 1 && toks[i].id != EndLine
  }

  // Modules

  /** `module M {` opens module M, and the cursor moves past the `{`. */
  lemma ModuleOpens(toks: seq<Token>, s: PState, m: string)
    requires Ahead(toks, s.cur, 3) && toks[s.cur.ppos + 1] == Word(m) && toks[s.cur.ppos + 2].id == OpenBrace
    ensures ParseModule(toks, s) == PState(Advance(toks, Skip(s.cur, 2)), PushContext(s.b, ModuleCtx, m))
  {
    Step(toks, s.cur);
    IdentifierOfWord(toks, Skip(s.cur, 1), m);
  }

  /** `module` must be followed by a name: otherwise "expected module name" at that token. */
  lemma ModuleNameError(toks: seq<Token>, s: PState)
    requires !s.cur.isEOF && Visible(toks, s.cur.ppos + 1) && toks[s.cur.ppos + 1].id != Identifier
    ensures ParseModule(toks, s) == PState(Err(Skip(s.cur, 1), "expected module name"), s.b)
  {
    Step(toks, s.cur);
  }

  /** `module M` must be followed by `{`: otherwise "expected module contents" at that token. */
  lemma ModuleBraceError(toks: seq<Token>, s: PState, m: string)
    requires Ahead(toks, s.cur, 2) && toks[s.cur.ppos + 1] == Word(m) && Visible(toks, s.cur.ppos + 2)
    requires toks[s.cur.ppos + 2].id !in {OpenBrace, Namespace, OpenSquareBracket}
    ensures ParseModule(toks, s) == PState(Err(Skip(s.cur, 2), "expected module contents"), s.b)
  {
    Step(toks, s.cur);
    IdentifierOfWord(toks, Skip(s.cur, 1), m);
  }

  // Typedefs

  /**
   * `typedef T N;` in terms of its parts: the type and the name read by the
   * shared sub-parsers, then `;`. TypeDef(N, T) is appended to the current
   * module and the cursor moves past the `;`.
   */
  lemma TypedefFromParts(toks: seq<Token>, s: PState, from: Type, c1: Cursor, name: string, c2: Cursor)
    requires ParseType(toks, Advance(toks, s.cur)) == (from, c1) && !AtEnd(toks, c1) && toks[c1.ppos].id == Identifier
    requires ParseIdentifier(toks, c1) == (name, c2) && !AtEnd(toks, c2) && toks[c2.ppos].id == Semicolon
    ensures ParseTypedef(toks, s) == PState(Advance(toks, c2), AddTypeDef(s.b, TypeDef(name, from)))
  {
  }

  /** A typedef type followed by anything but a word: "expected to name" there. */
  lemma TypedefNameFromParts(toks: seq<Token>, s: PState, from: Type, c1: Cursor)
    requires ParseType(toks, Advance(toks, s.cur)) == (from, c1) && !c1.isEOF && !AtEnd(toks, c1)
    requires toks[c1.ppos].id != Identifier
    ensures ParseTypedef(toks, s) == PState(Err(c1, "expected to name"), s.b)
  {
  }

  /** A typedef name followed by anything but `;`: "expected semicolon, got: " and the kind found. */
  lemma TypedefSemicolonFromParts(toks: seq<Token>, s: PState, from: Type, c1: Cursor, name: string, c2: Cursor)
    requires ParseType(toks, Advance(toks, s.cur)) == (from, c1) && !AtEnd(toks, c1) && toks[c1.ppos].id == Identifier
    requires ParseIdentifier(toks, c1) == (name, c2) && !c2.isEOF && !AtEnd(toks, c2)
    requires toks[c2.ppos].id != Semicolon
    ensures ParseTypedef(toks, s) == PState(Err(c2, "expected semicolon, got: " + TokenIdText(toks[c2.ppos].id)), s.b)
  {
  }

  /**
   * `typedef T N;` appends TypeDef(N, T) to the current module; the cursor
   * moves past the `;`.
   */
  lemma TypedefAppends(toks: seq<Token>, s: PState, t: string, n: string)
    requires Ahead(toks, s.cur, 4) && toks[s.cur.ppos + 1] == Word(t) && toks[s.cur.ppos + 2] == Word(n)
    requires toks[s.cur.ppos + 3].id == Semicolon && t != "unsigned" && t != "long"
    ensures ParseTypedef(toks, s) ==
              PState(Advance(toks, Skip(s.cur, 3)), AddTypeDef(s.b, TypeDef(n, Type(t, None, []))))
  {
    var c1 := Skip(s.cur, 1);
    var c2 := Skip(c1, 1);
    assert Skip(c2, 1) == Skip(s.cur, 3);
    Step(toks, s.cur);
    TypeOfWord(toks, c1, t);
    IdentifierOfWord(toks, c2, n);
    TypedefFromParts(toks, s, Type(t, None, []), c2, n, Skip(c2, 1));
  }

  /** `typedef T N[Q];` appends a typedef named "N[Q]". */
  lemma TypedefArray(toks: seq<Token>, s: PState, t: string, n: string, q: string)
    requires Ahead(toks, s.cur, 7) && toks[s.cur.ppos + 1] == Word(t) && toks[s.cur.ppos + 2] == Word(n)
    requires toks[s.cur.ppos + 3].id == OpenSquareBracket && toks[s.cur.ppos + 4] == Word(q)
    requires toks[s.cur.ppos + 5].id == CloseSquareBracket && toks[s.cur.ppos + 6].id == Semicolon
    requires t != "unsigned" && t != "long"
    ensures ParseTypedef(toks, s) ==
              PState(Advance(toks, Skip(s.cur, 6)), AddTypeDef(s.b, TypeDef(n + "[" + q + "]", Type(t, None, []))))
  {
    var c1 := Skip(s.cur, 1);
    var c2 := Skip(c1, 1);
    var c6 := Skip(c2, 4);
    assert c6 == Skip(s.cur, 6);
    Step(toks, s.cur);
    TypeOfWord(toks, c1, t);
    IdentifierWithQuantity(toks, c2, n, q);
    TypedefFromParts(toks, s, Type(t, None, []), c2, n + "[" + q + "]", c6);
  }

  /** A typedef type must be followed by a name: otherwise "expected to name" at that token. */
  lemma TypedefNameError(toks: seq<Token>, s: PState, t: string)
    requires Ahead(toks, s.cur, 2) && toks[s.cur.ppos + 1] == Word(t) && Visible(toks, s.cur.ppos + 2)
    requires toks[s.cur.ppos + 2].id !in {Identifier, LessThan, Namespace} && t != "unsigned"
    ensures ParseTypedef(toks, s) == PState(Err(Skip(s.cur, 2), "expected to name"), s.b)
  {
    var c1 := Skip(s.cur, 1);
    assert Skip(c1, 1) == Skip(s.cur, 2);
    Step(toks, s.cur);
    TypeOfWord(toks, c1, t);
    TypedefNameFromParts(toks, s, Type(t, None, []), Skip(c1, 1));
  }

  /**
   * A typedef name must be followed by `;`: otherwise "expected semicolon,
   * got: " and the kind of the token found.
   */
  lemma TypedefSemicolonError(toks: seq<Token>, s: PState, t: string, n: string)
    requires Ahead(toks, s.cur, 3) && toks[s.cur.ppos + 1] == Word(t) && toks[s.cur.ppos + 2] == Word(n)
    requires Visible(toks, s.cur.ppos + 3) && t != "unsigned" && t != "long"
    requires toks[s.cur.ppos + 3].id !in {Semicolon, Namespace, OpenSquareBracket}
    ensures ParseTypedef(toks, s) ==
              PState(Err(Skip(s.cur, 3), "expected semicolon, got: " + TokenIdText(toks[s.cur.ppos + 3].id)), s.b)
  {
    var c1 := Skip(s.cur, 1);
    var c2 := Skip(c1, 1);
    assert Skip(c2, 1) == Skip(s.cur, 3);
    Step(toks, s.cur);
    TypeOfWord(toks, c1, t);
    IdentifierOfWord(toks, c2, n);
    TypedefSemicolonFromParts(toks, s, Type(t, None, []), c2, n, Skip(c2, 1));
  }

  // Constants

  /**
   * `const T N = V;` in terms of its parts: the type, the name and the value
   * read by the shared sub-parsers, then `;`. The constant is appended to the
   * current module and the cursor moves past the `;`.
   */
  lemma ConstFromParts(toks: seq<Token>, s: PState, typ: Type, c1: Cursor, name: string, c2: Cursor, value: string, c3: Cursor)
    requires ParseType(toks, Advance(toks, s.cur)) == (typ, c1) && !AtEnd(toks, c1) && toks[c1.ppos].id == Identifier
    requires ParseIdentifier(toks, c1) == (name, c2) && !AtEnd(toks, c2) && toks[c2.ppos].id == Equals
    requires var c := Advance(toks, c2); !AtEnd(toks, c) && toks[c.ppos].id in {Identifier, StringLiteral}
    requires ParseValue(toks, Advance(toks, c2)) == (value, c3) && !AtEnd(toks, c3) && toks[c3.ppos].id == Semicolon
    ensures ParseConst(toks, s) == PState(Advance(toks, c3), AddConstant(s.b, Constant(Member(name, typ), value)))
  {
  }

  /** A constant type followed by anything but a word: "expected constant name" there. */
  lemma ConstNameFromParts(toks: seq<Token>, s: PState, typ: Type, c1: Cursor)
    requires ParseType(toks, Advance(toks, s.cur)) == (typ, c1) && !c1.isEOF && !AtEnd(toks, c1)
    requires toks[c1.ppos].id != Identifier
    ensures ParseConst(toks, s) == PState(Err(c1, "expected constant name"), s.b)
  {
  }

  /** A constant name followed by anything but `=`: "expected equals" there. */
  lemma ConstEqualsFromParts(toks: seq<Token>, s: PState, typ: Type, c1: Cursor, name: string, c2: Cursor)
    requires ParseType(toks, Advance(toks, s.cur)) == (typ, c1) && !AtEnd(toks, c1) && toks[c1.ppos].id == Identifier
    requires ParseIdentifier(toks, c1) == (name, c2) && !c2.isEOF && !AtEnd(toks, c2) && toks[c2.ppos].id != Equals
    ensures ParseConst(toks, s) == PState(Err(c2, "expected equals"), s.b)
  {
  }

  /**
   * `=` followed by neither a word nor a string literal: "expected constant
   * value" there (`<` may continue a value but not start one).
   */
  lemma ConstValueFromParts(toks: seq<Token>, s: PState, typ: Type, c1: Cursor, name: string, c2: Cursor)
    requires ParseType(toks, Advance(toks, s.cur)) == (typ, c1) && !AtEnd(toks, c1) && toks[c1.ppos].id == Identifier
    requires ParseIdentifier(toks, c1) == (name, c2) && !AtEnd(toks, c2) && toks[c2.ppos].id == Equals
    requires var c := Advance(toks, c2); !c.isEOF && !AtEnd(toks, c) && toks[c.ppos].id !in {Identifier, StringLiteral}
    ensures ParseConst(toks, s) == PState(Err(Advance(toks, c2), "expected constant value"), s.b)
  {
  }

  /** A value followed by anything but `;`: "expected semicolon" there. */
  lemma ConstSemicolonFromParts(toks: seq<Token>, s: PState, typ: Type, c1: Cursor, name: string, c2: Cursor, value: string, c3: Cursor)
    requires ParseType(toks, Advance(toks, s.cur)) == (typ, c1) && !AtEnd(toks, c1) && toks[c1.ppos].id == Identifier
    requires ParseIdentifier(toks, c1) == (name, c2) && !AtEnd(toks, c2) && toks[c2.ppos].id == Equals
    requires var c := Advance(toks, c2); !AtEnd(toks, c) && toks[c.ppos].id in {Identifier, StringLiteral}
    requires ParseValue(toks, Advance(toks, c2)) == (value, c3) && !c3.isEOF && !AtEnd(toks, c3)
    requires toks[c3.ppos].id != Semicolon
    ensures ParseConst(toks, s) == PState(Err(c3, "expected semicolon"), s.b)
  {
  }

  /** `const T N = V;` with V a word appends Constant(Member(N, T), V); the cursor moves past the `;`. */
  lemma ConstAppends(toks: seq<Token>, s: PState, t: string, n: string, v: string)
    requires Ahead(toks, s.cur, 6) && toks[s.cur.ppos + 1] == Word(t) && toks[s.cur.ppos + 2] == Word(n)
    requires toks[s.cur.ppos + 3].id == Equals && toks[s.cur.ppos + 4] == Word(v)
    requires toks[s.cur.ppos + 5].id == Semicolon && t != "unsigned" && t != "long"
    ensures ParseConst(toks, s) ==
              PState(Advance(toks, Skip(s.cur, 5)), AddConstant(s.b, Constant(Member(n, Type(t, None, [])), v)))
  {
    var c1 := Skip(s.cur, 1);
    var c2 := Skip(c1, 1);
    var c3 := Skip(c2, 1);
    var c4 := Skip(c3, 1);
    assert Skip(c4, 1) == Skip(s.cur, 5);
    Step(toks, s.cur);
    TypeOfWord(toks, c1, t);
    IdentifierOfWord(toks, c2, n);
    Step(toks, c3);
    ValueOfWord(toks, c4, v);
    ConstFromParts(toks, s, Type(t, None, []), c2, n, c3, v, Skip(c4, 1));
  }

  /** A constant type must be followed by a name: otherwise "expected constant name". */
  lemma ConstNameError(toks: seq<Token>, s: PState, t: string)
    requires Ahead(toks, s.cur, 2) && toks[s.cur.ppos + 1] == Word(t) && Visible(toks, s.cur.ppos + 2)
    requires toks[s.cur.ppos + 2].id !in {Identifier, LessThan, Namespace} && t != "unsigned"
    ensures ParseConst(toks, s) == PState(Err(Skip(s.cur, 2), "expected constant name"), s.b)
  {
    var c1 := Skip(s.cur, 1);
    assert Skip(c1, 1) == Skip(s.cur, 2);
    Step(toks, s.cur);
    TypeOfWord(toks, c1, t);
    ConstNameFromParts(toks, s, Type(t, None, []), Skip(c1, 1));
  }

  /** A constant name must be followed by `=`: otherwise "expected equals". */
  lemma ConstEqualsError(toks: seq<Token>, s: PState, t: string, n: string)
    requires Ahead(toks, s.cur, 3) && toks[s.cur.ppos + 1] == Word(t) && toks[s.cur.ppos + 2] == Word(n)
    requires Visible(toks, s.cur.ppos + 3) && t != "unsigned" && t != "long"
    requires toks[s.cur.ppos + 3].id !in {Equals, Namespace, OpenSquareBracket}
    ensures ParseConst(toks, s) == PState(Err(Skip(s.cur, 3), "expected equals"), s.b)
  {
    var c1 := Skip(s.cur, 1);
    var c2 := Skip(c1, 1);
    assert Skip(c2, 1) == Skip(s.cur, 3);
    Step(toks, s.cur);
    TypeOfWord(toks, c1, t);
    IdentifierOfWord(toks, c2, n);
    ConstEqualsFromParts(toks, s, Type(t, None, []), c2, n, Skip(c2, 1));
  }

  /** The value of a constant must start with a word or a string literal: otherwise "expected constant value". */
  lemma ConstValueError(toks: seq<Token>, s: PState, t: string, n: string)
    requires Ahead(toks, s.cur, 4) && toks[s.cur.ppos + 1] == Word(t) && toks[s.cur.ppos + 2] == Word(n)
    requires toks[s.cur.ppos + 3].id == Equals && Visible(toks, s.cur.ppos + 4)
    requires toks[s.cur.ppos + 4].id !in {Identifier, StringLiteral} && t != "unsigned" && t != "long"
    ensures ParseConst(toks, s) == PState(Err(Skip(s.cur, 4), "expected constant value"), s.b)
  {
    var c1 := Skip(s.cur, 1);
    var c2 := Skip(c1, 1);
    var c3 := Skip(c2, 1);
    Step(toks, s.cur);
    TypeOfWord(toks, c1, t);
    IdentifierOfWord(toks, c2, n);
    Step(toks, c3);
    ConstValueFromParts(toks, s, Type(t, None, []), c2, n, c3);
    assert Skip(c3, 1) == Skip(s.cur, 4);
  }

  /** The value of a constant must be followed by `;`: otherwise "expected semicolon". */
  lemma ConstSemicolonError(toks: seq<Token>, s: PState, t: string, n: string, v: string)
    requires Ahead(toks, s.cur, 5) && toks[s.cur.ppos + 1] == Word(t) && toks[s.cur.ppos + 2] == Word(n)
    requires toks[s.cur.ppos + 3].id == Equals && toks[s.cur.ppos + 4] == Word(v)
    requires Visible(toks, s.cur.ppos + 5) && toks[s.cur.ppos + 5].id !in {Semicolon, Identifier, LessThan, StringLiteral}
    requires t != "unsigned" && t != "long"
    ensures ParseConst(toks, s) == PState(Err(Skip(s.cur, 5), "expected semicolon"), s.b)
  {
    var c1 := Skip(s.cur, 1);
    var c2 := Skip(c1, 1);
    var c3 := Skip(c2, 1);
    var c4 := Skip(c3, 1);
    assert Skip(c4, 1) == Skip(s.cur, 5);
    Step(toks, s.cur);
    TypeOfWord(toks, c1, t);
    IdentifierOfWord(toks, c2, n);
    Step(toks, c3);
    ValueOfWord(toks, c4, v);
    ConstSemicolonFromParts(toks, s, Type(t, None, []), c2, n, c3, v, Skip(c4, 1));
  }

  // Structs

  /** `struct N {` in terms of its parts: opens struct N with no bases; the cursor moves past the `{`. */
  lemma StructFromParts(toks: seq<Token>, s: PState, name: string, c2: Cursor)
    requires var c1 := Advance(toks, s.cur); !AtEnd(toks, c1) && toks[c1.ppos].id == Identifier && ParseIdentifier(toks, c1) == (name, c2)
    requires !AtEnd(toks, c2) && toks[c2.ppos].id == OpenBrace
    ensures ParseStruct(toks, s) == PState(Advance(toks, c2), PushContext(s.b, StructCtx, name))
  {
  }

  /**
   * `struct N : Bases {` in terms of its parts: opens struct N with the
   * base names read, in order; the cursor moves past the `{`.
   */
  lemma StructBasesFromParts(toks: seq<Token>, s: PState, name: string, c2: Cursor, bases: seq<string>, c4: Cursor)
    requires var c1 := Advance(toks, s.cur); !AtEnd(toks, c1) && toks[c1.ppos].id == Identifier && ParseIdentifier(toks, c1) == (name, c2)
    requires !AtEnd(toks, c2) && toks[c2.ppos].id == Colon
    requires var c3 := Advance(toks, c2); !AtEnd(toks, c3) && toks[c3.ppos].id == Identifier && StructBases(toks, c3, []) == (bases, c4)
    requires !AtEnd(toks, c4) && toks[c4.ppos].id == OpenBrace
    ensures ParseStruct(toks, s) ==
              PState(Advance(toks, c4), PushContext(s.b, StructCtx, name).(curStruct := Struct(name, bases, [])))
  {
  }

  /** `struct N :` followed by anything but a word: "expected struct inheritance" there. */
  lemma StructInheritanceFromParts(toks: seq<Token>, s: PState, name: string, c2: Cursor)
    requires var c1 := Advance(toks, s.cur); !AtEnd(toks, c1) && toks[c1.ppos].id == Identifier && ParseIdentifier(toks, c1) == (name, c2)
    requires !AtEnd(toks, c2) && toks[c2.ppos].id == Colon
    requires var c3 := Advance(toks, c2); !c3.isEOF && !AtEnd(toks, c3) && toks[c3.ppos].id != Identifier
    ensures ParseStruct(toks, s) == PState(Err(Advance(toks, c2), "expected struct inheritance"), s.b)
  {
  }

  /** `struct N` followed by neither `:` nor `{`: "expected struct contents" there. */
  lemma StructContentsFromParts(toks: seq<Token>, s: PState, name: string, c2: Cursor)
    requires var c1 := Advance(toks, s.cur); !AtEnd(toks, c1) && toks[c1.ppos].id == Identifier && ParseIdentifier(toks, c1) == (name, c2)
    requires !c2.isEOF && !AtEnd(toks, c2) && toks[c2.ppos].id !in {Colon, OpenBrace}
    ensures ParseStruct(toks, s) == PState(Err(c2, "expected struct contents"), s.b)
  {
  }

  /** A base list not followed by `{`: "expected struct contents" there. */
  lemma StructBasesContentsFromParts(toks: seq<Token>, s: PState, name: string, c2: Cursor, bases: seq<string>, c4: Cursor)
    requires var c1 := Advance(toks, s.cur); !AtEnd(toks, c1) && toks[c1.ppos].id == Identifier && ParseIdentifier(toks, c1) == (name, c2)
    requires !AtEnd(toks, c2) && toks[c2.ppos].id == Colon
    requires var c3 := Advance(toks, c2); !AtEnd(toks, c3) && toks[c3.ppos].id == Identifier && StructBases(toks, c3, []) == (bases, c4)
    requires !c4.isEOF && !AtEnd(toks, c4) && toks[c4.ppos].id != OpenBrace
    ensures ParseStruct(toks, s) == PState(Err(c4, "expected struct contents"), s.b)
  {
  }

  /** A base name followed by a comma: both are consumed and the name is appended. */
  lemma StructBasesComma(toks: seq<Token>, c: Cursor, acc: seq<string>, a: string)
    requires Room(toks, c, 2) && toks[c.ppos] == Word(a) && toks[c.ppos + 1].id == Comma
    ensures StructBases(toks, c, acc) == StructBases(toks, Skip(c, 2), acc + [a])
  {
    IdentifierOfWord(toks, c, a);
    Step(toks, Skip(c, 1));
    assert Skip(Skip(c, 1), 1) == Skip(c, 2);
  }

  /** A base name not followed by a comma is appended all the same: the comma is not required. */
  lemma StructBasesAdjacent(toks: seq<Token>, c: Cursor, acc: seq<string>, a: string)
    requires Room(toks, c, 1) && toks[c.ppos] == Word(a)
    requires toks[c.ppos + 1].id !in {Comma, Namespace, OpenSquareBracket}
    ensures StructBases(toks, c, acc) == StructBases(toks, Skip(c, 1), acc + [a])
  {
    IdentifierOfWord(toks, c, a);
  }

  /** The base list ends at the first token that is not a word, which is left unconsumed. */
  lemma StructBasesEnd(toks: seq<Token>, c: Cursor, acc: seq<string>)
    requires !c.isEOF && !AtEnd(toks, c) && toks[c.ppos].id != Identifier
    ensures StructBases(toks, c, acc) == (acc, c)
  {
  }

  /** `A , B {` is the base list [A, B], ending on the `{`. */
  lemma StructBasesPair(toks: seq<Token>, c: Cursor, a: string, b: string)
    requires Room(toks, c, 3) && toks[c.ppos] == Word(a) && toks[c.ppos + 1].id == Comma
    requires toks[c.ppos + 2] == Word(b) && toks[c.ppos + 3].id == OpenBrace
    ensures StructBases(toks, c, []) == ([a, b], Skip(c, 3))
  {
    var c2 := Skip(c, 2);
    assert Skip(c2, 1) == Skip(c, 3);
    assert [] + [a] == [a] && [a] + [b] == [a, b];
    StructBasesComma(toks, c, [], a);
    StructBasesAdjacent(toks, c2, [a], b);
    StructBasesEnd(toks, Skip(c2, 1), [a, b]);
  }

  /** `struct S {` opens struct S with no bases and no members. */
  lemma StructOpens(toks: seq<Token>, s: PState, n: string)
    requires Ahead(toks, s.cur, 3) && toks[s.cur.ppos + 1] == Word(n) && toks[s.cur.ppos + 2].id == OpenBrace
    ensures ParseStruct(toks, s) == PState(Advance(toks, Skip(s.cur, 2)), PushContext(s.b, StructCtx, n))
  {
    var c1 := Skip(s.cur, 1);
    assert Skip(c1, 1) == Skip(s.cur, 2);
    Step(toks, s.cur);
    IdentifierOfWord(toks, c1, n);
    StructFromParts(toks, s, n, Skip(c1, 1));
  }

  /** `struct S : A , B {` opens struct S with the bases [A, B] and no members. */
  lemma StructWithBases(toks: seq<Token>, s: PState, n: string, a: string, b: string)
    requires Ahead(toks, s.cur, 7) && toks[s.cur.ppos + 1] == Word(n) && toks[s.cur.ppos + 2].id == Colon
    requires toks[s.cur.ppos + 3] == Word(a) && toks[s.cur.ppos + 4].id == Comma
    requires toks[s.cur.ppos + 5] == Word(b) && toks[s.cur.ppos + 6].id == OpenBrace
    ensures ParseStruct(toks, s) ==
              PState(Advance(toks, Skip(s.cur, 6)), PushContext(s.b, StructCtx, n).(curStruct := Struct(n, [a, b], [])))
  {
    var c1 := Skip(s.cur, 1);
    var c2 := Skip(c1, 1);
    var c3 := Skip(c2, 1);
    assert Skip(c3, 3) == Skip(s.cur, 6);
    Step(toks, s.cur);
    IdentifierOfWord(toks, c1, n);
    Step(toks, c2);
    StructBasesPair(toks, c3, a, b);
    StructBasesFromParts(toks, s, n, c2, [a, b], Skip(c3, 3));
  }

  /** `struct` must be followed by a name: otherwise "expected struct name" at that token. */
  lemma StructNameError(toks: seq<Token>, s: PState)
    requires !s.cur.isEOF && Visible(toks, s.cur.ppos + 1) && toks[s.cur.ppos + 1].id != Identifier
    ensures ParseStruct(toks, s) == PState(Err(Skip(s.cur, 1), "expected struct name"), s.b)
  {
    Step(toks, s.cur);
  }

  /** `struct S :` must be followed by a base name: otherwise "expected struct inheritance". */
  lemma StructInheritanceError(toks: seq<Token>, s: PState, n: string)
    requires Ahead(toks, s.cur, 3) && toks[s.cur.ppos + 1] == Word(n) && toks[s.cur.ppos + 2].id == Colon
    requires Visible(toks, s.cur.ppos + 3) && toks[s.cur.ppos + 3].id != Identifier
    ensures ParseStruct(toks, s) == PState(Err(Skip(s.cur, 3), "expected struct inheritance"), s.b)
  {
    var c1 := Skip(s.cur, 1);
    var c2 := Skip(c1, 1);
    assert Skip(c2, 1) == Skip(s.cur, 3);
    Step(toks, s.cur);
    IdentifierOfWord(toks, c1, n);
    Step(toks, c2);
    StructInheritanceFromParts(toks, s, n, c2);
  }

  /** `struct S` must be followed by `:` or `{`: otherwise "expected struct contents". */
  lemma StructContentsError(toks: seq<Token>, s: PState, n: string)
    requires Ahead(toks, s.cur, 2) && toks[s.cur.ppos + 1] == Word(n) && Visible(toks, s.cur.ppos + 2)
    requires toks[s.cur.ppos + 2].id !in {Colon, OpenBrace, Namespace, OpenSquareBracket}
    ensures ParseStruct(toks, s) == PState(Err(Skip(s.cur, 2), "expected struct contents"), s.b)
  {
    var c1 := Skip(s.cur, 1);
    assert Skip(c1, 1) == Skip(s.cur, 2);
    Step(toks, s.cur);
    IdentifierOfWord(toks, c1, n);
    StructContentsFromParts(toks, s, n, Skip(c1, 1));
  }

  // Struct members

  /**
   * `T n;` inside a struct, in terms of its parts: Member(n, T) is appended
   * to the struct being filled, and the cursor is left on the `;`.
   */
  lemma StructMemberFromParts(toks: seq<Token>, s: PState, typ: Type, c0: Cursor, name: string, c1: Cursor)
    requires ParseType(toks, s.cur) == (typ, c0) && !AtEnd(toks, c0) && toks[c0.ppos].id == Identifier
    requires ParseIdentifier(toks, c0) == (name, c1) && !AtEnd(toks, c1) && toks[c1.ppos].id == Semicolon
    ensures ParseStructMember(toks, s) == PState(c1, AddStructMember(s.b, Member(name, typ)))
  {
  }

  /** A member type followed by anything but a word: "expected member name" there. */
  lemma StructMemberNameFromParts(toks: seq<Token>, s: PState, typ: Type, c0: Cursor)
    requires ParseType(toks, s.cur) == (typ, c0) && !c0.isEOF && !AtEnd(toks, c0) && toks[c0.ppos].id != Identifier
    ensures ParseStructMember(toks, s) == PState(Err(c0, "expected member name"), s.b)
  {
  }

  /** A member name followed by anything but `;`: "expected semicolon" there. */
  lemma StructMemberSemicolonFromParts(toks: seq<Token>, s: PState, typ: Type, c0: Cursor, name: string, c1: Cursor)
    requires ParseType(toks, s.cur) == (typ, c0) && !AtEnd(toks, c0) && toks[c0.ppos].id == Identifier
    requires ParseIdentifier(toks, c0) == (name, c1) && !c1.isEOF && !AtEnd(toks, c1) && toks[c1.ppos].id != Semicolon
    ensures ParseStructMember(toks, s) == PState(Err(c1, "expected semicolon"), s.b)
  {
  }

  /** `T n;` appends Member(n, T) to the struct being filled, leaving the cursor on the `;`. */
  lemma StructMemberAppends(toks: seq<Token>, s: PState, t: string, n: string)
    requires Ahead(toks, s.cur, 3) && toks[s.cur.ppos] == Word(t) && toks[s.cur.ppos + 1] == Word(n)
    requires toks[s.cur.ppos + 2].id == Semicolon && t != "unsigned" && t != "long"
    ensures ParseStructMember(toks, s) == PState(Skip(s.cur, 2), AddStructMember(s.b, Member(n, Type(t, None, []))))
  {
    var c1 := Skip(s.cur, 1);
    assert Skip(c1, 1) == Skip(s.cur, 2);
    TypeOfWord(toks, s.cur, t);
    IdentifierOfWord(toks, c1, n);
    StructMemberFromParts(toks, s, Type(t, None, []), c1, n, Skip(c1, 1));
  }

  /** `T` must be followed by a member name: otherwise "expected member name". */
  lemma StructMemberNameError(toks: seq<Token>, s: PState, t: string)
    requires Ahead(toks, s.cur, 2) && toks[s.cur.ppos] == Word(t) && Visible(toks, s.cur.ppos + 1)
    requires toks[s.cur.ppos + 1].id !in {Identifier, LessThan, Namespace} && t != "unsigned"
    ensures ParseStructMember(toks, s) == PState(Err(Skip(s.cur, 1), "expected member name"), s.b)
  {
    TypeOfWord(toks, s.cur, t);
    StructMemberNameFromParts(toks, s, Type(t, None, []), Skip(s.cur, 1));
  }

  /** `T n` must be followed by `;`: otherwise "expected semicolon". */
  lemma StructMemberSemicolonError(toks: seq<Token>, s: PState, t: string, n: string)
    requires Ahead(toks, s.cur, 3) && toks[s.cur.ppos] == Word(t) && toks[s.cur.ppos + 1] == Word(n)
    requires Visible(toks, s.cur.ppos + 2) && toks[s.cur.ppos + 2].id !in {Semicolon, Namespace, OpenSquareBracket}
    requires t != "unsigned" && t != "long"
    ensures ParseStructMember(toks, s) == PState(Err(Skip(s.cur, 2), "expected semicolon"), s.b)
  {
    var c1 := Skip(s.cur, 1);
    assert Skip(c1, 1) == Skip(s.cur, 2);
    TypeOfWord(toks, s.cur, t);
    IdentifierOfWord(toks, c1, n);
    StructMemberSemicolonFromParts(toks, s, Type(t, None, []), c1, n, Skip(c1, 1));
  }

  // Enums

  /** `enum E {` opens enum E with no members; the cursor moves past the `{`. */
  lemma EnumOpens(toks: seq<Token>, s: PState, e: string)
    requires Ahead(toks, s.cur, 3) && toks[s.cur.ppos + 1] == Word(e) && toks[s.cur.ppos + 2].id == OpenBrace
    ensures ParseEnum(toks, s) == PState(Advance(toks, Skip(s.cur, 2)), PushContext(s.b, EnumCtx, e))
  {
    Step(toks, s.cur);
    IdentifierOfWord(toks, Skip(s.cur, 1), e);
  }

  /** `enum` must be followed by a name: otherwise "expected enum name" at that token. */
  lemma EnumNameError(toks: seq<Token>, s: PState)
    requires !s.cur.isEOF && Visible(toks, s.cur.ppos + 1) && toks[s.cur.ppos + 1].id != Identifier
    ensures ParseEnum(toks, s) == PState(Err(Skip(s.cur, 1), "expected enum name"), s.b)
  {
    Step(toks, s.cur);
  }

  /** `enum E` must be followed by `{`: otherwise "expected enum contents" at that token. */
  lemma EnumBraceError(toks: seq<Token>, s: PState, e: string)
    requires Ahead(toks, s.cur, 2) && toks[s.cur.ppos + 1] == Word(e) && Visible(toks, s.cur.ppos + 2)
    requires toks[s.cur.ppos + 2].id !in {OpenBrace, Namespace, OpenSquareBracket}
    ensures ParseEnum(toks, s) == PState(Err(Skip(s.cur, 2), "expected enum contents"), s.b)
  {
    Step(toks, s.cur);
    IdentifierOfWord(toks, Skip(s.cur, 1), e);
  }

  // Enum members

  /**
   * An enum member is the raw text of one word, with no type: the word is
   * not read by `parseIdentifier`, and the commas after it are skipped.
   */
  lemma EnumMemberFromParts(toks: seq<Token>, s: PState)
    requires !AtEnd(toks, s.cur) && toks[s.cur.ppos].id == Identifier
    ensures ParseEnumMember(toks, s) ==
              PState(SkipCommas(toks, Advance(toks, s.cur)), AddEnumMember(s.b, Member(toks[s.cur.ppos].value, NoType)))
  {
  }

  /** An enum member must be a word: otherwise "expected enum value" at the token found. */
  lemma EnumMemberError(toks: seq<Token>, s: PState)
    requires !s.cur.isEOF && Visible(toks, s.cur.ppos) && toks[s.cur.ppos].id != Identifier
    ensures ParseEnumMember(toks, s) == PState(Err(s.cur, "expected enum value"), s.b)
  {
  }

  /** From the cursor up to `to` there are only commas, and `to` is a visible token that is not one. */
  predicate CommaRunUpTo(toks: seq<Token>, c: Cursor, to: nat)
  {
    !c.isEOF && c.ppos <= to < |toks| - 1 && toks[to].id !in {Comma, EndLine} &&
    forall i | c.ppos <= i < to :: toks[i].id == Comma
  }

  /** The comma loop skips a whole run of commas and stops on the token after it. */
  lemma {:induction false} SkipCommasRun(toks: seq<Token>, c: Cursor, to: nat)
    requires CommaRunUpTo(toks, c, to)
    ensures SkipCommas(toks, c) == c.(ppos := to)
    decreases (to as int) - c.ppos
  {
    if c.ppos < to {
      Step(toks, c);
      SkipCommasRun(toks, Skip(c, 1), to);
    }
  }

  /** `V ,` then a token that is not a comma: appends the member V; the cursor moves past the comma. */
  lemma EnumMemberComma(toks: seq<Token>, s: PState, v: string)
    requires Ahead(toks, s.cur, 3) && toks[s.cur.ppos] == Word(v) && toks[s.cur.ppos + 1].id == Comma
    requires toks[s.cur.ppos + 2].id !in {Comma, EndLine}
    ensures ParseEnumMember(toks, s) == PState(Skip(s.cur, 2), AddEnumMember(s.b, Member(v, NoType)))
  {
    var c1 := Skip(s.cur, 1);
    Step(toks, s.cur);
    SkipCommasRun(toks, c1, s.cur.ppos + 2);
    assert c1.(ppos := s.cur.ppos + 2) == Skip(s.cur, 2);
    EnumMemberFromParts(toks, s);
  }

  /** The last member, `V` then no comma: appends the member V; the cursor moves past it. */
  lemma EnumMemberLast(toks: seq<Token>, s: PState, v: string)
    requires Ahead(toks, s.cur, 2) && toks[s.cur.ppos] == Word(v) && toks[s.cur.ppos + 1].id !in {Comma, EndLine}
    ensures ParseEnumMember(toks, s) == PState(Skip(s.cur, 1), AddEnumMember(s.b, Member(v, NoType)))
  {
    var c1 := Skip(s.cur, 1);
    Step(toks, s.cur);
    SkipCommasRun(toks, c1, s.cur.ppos + 1);
    assert c1.(ppos := s.cur.ppos + 1) == c1;
    EnumMemberFromParts(toks, s);
  }

  // Interfaces

  /** `interface N;` in terms of its parts: an empty interface N is appended to the current module at once. */
  lemma InterfaceDeclaresFromParts(toks: seq<Token>, s: PState, name: string, c2: Cursor)
    requires var c1 := Advance(toks, s.cur); !AtEnd(toks, c1) && toks[c1.ppos].id == Identifier && ParseIdentifier(toks, c1) == (name, c2)
    requires !AtEnd(toks, c2) && toks[c2.ppos].id == Semicolon
    ensures ParseInterface(toks, s) == PState(Advance(toks, c2), DeclareInterface(s.b, name))
  {
  }

  /** `interface N {` in terms of its parts: opens interface N with no bases; the cursor moves past the `{`. */
  lemma InterfaceOpensFromParts(toks: seq<Token>, s: PState, name: string, c2: Cursor)
    requires var c1 := Advance(toks, s.cur); !AtEnd(toks, c1) && toks[c1.ppos].id == Identifier && ParseIdentifier(toks, c1) == (name, c2)
    requires !AtEnd(toks, c2) && toks[c2.ppos].id == OpenBrace
    ensures ParseInterface(toks, s) == PState(Advance(toks, c2), PushContext(s.b, InterfaceCtx, name))
  {
  }

  /**
   * `interface N : Bases {` in terms of its parts: opens interface N with
   * the base names read, in order; the cursor moves past the `{`.
   */
  lemma InterfaceBasesFromParts(toks: seq<Token>, s: PState, name: string, c2: Cursor, bases: seq<string>, c4: Cursor)
    requires var c1 := Advance(toks, s.cur); !AtEnd(toks, c1) && toks[c1.ppos].id == Identifier && ParseIdentifier(toks, c1) == (name, c2)
    requires !AtEnd(toks, c2) && toks[c2.ppos].id == Colon
    requires var c3 := Advance(toks, c2); !AtEnd(toks, c3) && toks[c3.ppos].id == Identifier && InterfaceBases(toks, c3, []) == (bases, c4, true)
    requires !AtEnd(toks, c4) && toks[c4.ppos].id == OpenBrace
    ensures ParseInterface(toks, s) ==
              PState(Advance(toks, c4), PushContext(s.b, InterfaceCtx, name).(curIface := Interface(name, bases, [])))
  {
  }

  /** `interface N` followed by none of `;`, `{` and `:`: "invalid interface definition" there. */
  lemma InterfaceShapeFromParts(toks: seq<Token>, s: PState, name: string, c2: Cursor)
    requires var c1 := Advance(toks, s.cur); !AtEnd(toks, c1) && toks[c1.ppos].id == Identifier && ParseIdentifier(toks, c1) == (name, c2)
    requires !c2.isEOF && !AtEnd(toks, c2) && toks[c2.ppos].id !in {Semicolon, OpenBrace, Colon}
    ensures ParseInterface(toks, s) == PState(Err(c2, "invalid interface definition"), s.b)
  {
  }

  /** `interface N :` followed by anything but a word: "expected interface inheritance name" there. */
  lemma InterfaceInheritanceFromParts(toks: seq<Token>, s: PState, name: string, c2: Cursor)
    requires var c1 := Advance(toks, s.cur); !AtEnd(toks, c1) && toks[c1.ppos].id == Identifier && ParseIdentifier(toks, c1) == (name, c2)
    requires !AtEnd(toks, c2) && toks[c2.ppos].id == Colon
    requires var c3 := Advance(toks, c2); !c3.isEOF && !AtEnd(toks, c3) && toks[c3.ppos].id != Identifier
    ensures ParseInterface(toks, s) == PState(Err(Advance(toks, c2), "expected interface inheritance name"), s.b)
  {
  }

  /** A base list that failed keeps the error it recorded and leaves the AST as it was. */
  lemma InterfaceBasesFailFromParts(toks: seq<Token>, s: PState, name: string, c2: Cursor, bases: seq<string>, c4: Cursor)
    requires var c1 := Advance(toks, s.cur); !AtEnd(toks, c1) && toks[c1.ppos].id == Identifier && ParseIdentifier(toks, c1) == (name, c2)
    requires !AtEnd(toks, c2) && toks[c2.ppos].id == Colon
    requires var c3 := Advance(toks, c2); !AtEnd(toks, c3) && toks[c3.ppos].id == Identifier && InterfaceBases(toks, c3, []) == (bases, c4, false)
    ensures ParseInterface(toks, s) == PState(c4, s.b)
  {
  }

  /** A base list that ended on anything but `{`: "expected open brace" there. */
  lemma InterfaceBraceFromParts(toks: seq<Token>, s: PState, name: string, c2: Cursor, bases: seq<string>, c4: Cursor)
    requires var c1 := Advance(toks, s.cur); !AtEnd(toks, c1) && toks[c1.ppos].id == Identifier && ParseIdentifier(toks, c1) == (name, c2)
    requires !AtEnd(toks, c2) && toks[c2.ppos].id == Colon
    requires var c3 := Advance(toks, c2); !AtEnd(toks, c3) && toks[c3.ppos].id == Identifier && InterfaceBases(toks, c3, []) == (bases, c4, true)
    requires !c4.isEOF && !AtEnd(toks, c4) && toks[c4.ppos].id != OpenBrace
    ensures ParseInterface(toks, s) == PState(Err(c4, "expected open brace"), s.b)
  {
  }

  /** A base name followed by a comma: both are consumed and the name is appended. */
  lemma InterfaceBasesComma(toks: seq<Token>, c: Cursor, acc: seq<string>, a: string)
    requires Room(toks, c, 2) && toks[c.ppos] == Word(a) && toks[c.ppos + 1].id == Comma
    ensures InterfaceBases(toks, c, acc) == InterfaceBases(toks, Skip(c, 2), acc + [a])
  {
    IdentifierOfWord(toks, c, a);
    Step(toks, Skip(c, 1));
    assert Skip(Skip(c, 1), 1) == Skip(c, 2);
  }

  /** A base name followed by `{` is the last one; the list ends on the `{`. */
  lemma InterfaceBasesBrace(toks: seq<Token>, c: Cursor, acc: seq<string>, a: string)
    requires Room(toks, c, 1) && toks[c.ppos] == Word(a) && toks[c.ppos + 1].id == OpenBrace
    ensures InterfaceBases(toks, c, acc) == (acc + [a], Skip(c, 1), true)
  {
    IdentifierOfWord(toks, c, a);
  }

  /** A base name followed by neither `,` nor `{`: "expected open brace" there, and the list fails. */
  lemma InterfaceBasesMissingBrace(toks: seq<Token>, c: Cursor, acc: seq<string>, a: string)
    requires Room(toks, c, 1) && toks[c.ppos] == Word(a)
    requires toks[c.ppos + 1].id !in {Comma, OpenBrace, Namespace, OpenSquareBracket}
    ensures InterfaceBases(toks, c, acc) == (acc + [a], Err(Skip(c, 1), "expected open brace"), false)
  {
    IdentifierOfWord(toks, c, a);
  }

  /** The base list ends at the first token that is not a word, which is left unconsumed. */
  lemma InterfaceBasesEnd(toks: seq<Token>, c: Cursor, acc: seq<string>)
    requires !c.isEOF && !AtEnd(toks, c) && toks[c.ppos].id != Identifier
    ensures InterfaceBases(toks, c, acc) == (acc, c, true)
  {
  }

  /** `A , B {` is the base list [A, B], ending on the `{`. */
  lemma InterfaceBasesPair(toks: seq<Token>, c: Cursor, a: string, b: string)
    requires Room(toks, c, 3) && toks[c.ppos] == Word(a) && toks[c.ppos + 1].id == Comma
    requires toks[c.ppos + 2] == Word(b) && toks[c.ppos + 3].id == OpenBrace
    ensures InterfaceBases(toks, c, []) == ([a, b], Skip(c, 3), true)
  {
    var c2 := Skip(c, 2);
    assert Skip(c2, 1) == Skip(c, 3);
    assert [] + [a] == [a] && [a] + [b] == [a, b];
    InterfaceBasesComma(toks, c, [], a);
    InterfaceBasesBrace(toks, c2, [a], b);
  }

  /** `interface I;` appends an empty interface I to the current module; the cursor moves past the `;`. */
  lemma InterfaceDeclares(toks: seq<Token>, s: PState, n: string)
    requires Ahead(toks, s.cur, 3) && toks[s.cur.ppos + 1] == Word(n) && toks[s.cur.ppos + 2].id == Semicolon
    ensures ParseInterface(toks, s) == PState(Advance(toks, Skip(s.cur, 2)), DeclareInterface(s.b, n))
  {
    var c1 := Skip(s.cur, 1);
    assert Skip(c1, 1) == Skip(s.cur, 2);
    Step(toks, s.cur);
    IdentifierOfWord(toks, c1, n);
    InterfaceDeclaresFromParts(toks, s, n, Skip(c1, 1));
  }

  /** `interface I {` opens interface I with no bases and no methods. */
  lemma InterfaceOpens(toks: seq<Token>, s: PState, n: string)
    requires Ahead(toks, s.cur, 3) && toks[s.cur.ppos + 1] == Word(n) && toks[s.cur.ppos + 2].id == OpenBrace
    ensures ParseInterface(toks, s) == PState(Advance(toks, Skip(s.cur, 2)), PushContext(s.b, InterfaceCtx, n))
  {
    var c1 := Skip(s.cur, 1);
    assert Skip(c1, 1) == Skip(s.cur, 2);
    Step(toks, s.cur);
    IdentifierOfWord(toks, c1, n);
    InterfaceOpensFromParts(toks, s, n, Skip(c1, 1));
  }

  /** `interface I : A , B {` opens interface I with the bases [A, B] and no methods. */
  lemma InterfaceWithBases(toks: seq<Token>, s: PState, n: string, a: string, b: string)
    requires Ahead(toks, s.cur, 7) && toks[s.cur.ppos + 1] == Word(n) && toks[s.cur.ppos + 2].id == Colon
    requires toks[s.cur.ppos + 3] == Word(a) && toks[s.cur.ppos + 4].id == Comma
    requires toks[s.cur.ppos + 5] == Word(b) && toks[s.cur.ppos + 6].id == OpenBrace
    ensures ParseInterface(toks, s) ==
              PState(Advance(toks, Skip(s.cur, 6)), PushContext(s.b, InterfaceCtx, n).(curIface := Interface(n, [a, b], [])))
  {
    var c1 := Skip(s.cur, 1);
    var c2 := Skip(c1, 1);
    var c3 := Skip(c2, 1);
    assert Skip(c3, 3) == Skip(s.cur, 6);
    Step(toks, s.cur);
    IdentifierOfWord(toks, c1, n);
    Step(toks, c2);
    InterfaceBasesPair(toks, c3, a, b);
    InterfaceBasesFromParts(toks, s, n, c2, [a, b], Skip(c3, 3));
  }

  /** `interface` must be followed by a name: otherwise "expected interface name" at that token. */
  lemma InterfaceNameError(toks: seq<Token>, s: PState)
    requires !s.cur.isEOF && Visible(toks, s.cur.ppos + 1) && toks[s.cur.ppos + 1].id != Identifier
    ensures ParseInterface(toks, s) == PState(Err(Skip(s.cur, 1), "expected interface name"), s.b)
  {
    Step(toks, s.cur);
  }

  /** `interface I` must be followed by `;`, `{` or `:`: otherwise "invalid interface definition". */
  lemma InterfaceShapeError(toks: seq<Token>, s: PState, n: string)
    requires Ahead(toks, s.cur, 2) && toks[s.cur.ppos + 1] == Word(n) && Visible(toks, s.cur.ppos + 2)
    requires toks[s.cur.ppos + 2].id !in {Semicolon, OpenBrace, Colon, Namespace, OpenSquareBracket}
    ensures ParseInterface(toks, s) == PState(Err(Skip(s.cur, 2), "invalid interface definition"), s.b)
  {
    var c1 := Skip(s.cur, 1);
    assert Skip(c1, 1) == Skip(s.cur, 2);
    Step(toks, s.cur);
    IdentifierOfWord(toks, c1, n);
    InterfaceShapeFromParts(toks, s, n, Skip(c1, 1));
  }

  /** `interface I :` must be followed by a base name: otherwise "expected interface inheritance name". */
  lemma InterfaceInheritanceError(toks: seq<Token>, s: PState, n: string)
    requires Ahead(toks, s.cur, 3) && toks[s.cur.ppos + 1] == Word(n) && toks[s.cur.ppos + 2].id == Colon
    requires Visible(toks, s.cur.ppos + 3) && toks[s.cur.ppos + 3].id != Identifier
    ensures ParseInterface(toks, s) == PState(Err(Skip(s.cur, 3), "expected interface inheritance name"), s.b)
  {
    var c1 := Skip(s.cur, 1);
    var c2 := Skip(c1, 1);
    assert Skip(c2, 1) == Skip(s.cur, 3);
    Step(toks, s.cur);
    IdentifierOfWord(toks, c1, n);
    Step(toks, c2);
    InterfaceInheritanceFromParts(toks, s, n, c2);
  }

  /** `interface I : A` then neither `,` nor `{`: "expected open brace", and the AST is left as it was. */
  lemma InterfaceBaseBraceError(toks: seq<Token>, s: PState, n: string, a: string)
    requires Ahead(toks, s.cur, 5) && toks[s.cur.ppos + 1] == Word(n) && toks[s.cur.ppos + 2].id == Colon
    requires toks[s.cur.ppos + 3] == Word(a) && Visible(toks, s.cur.ppos + 4)
    requires toks[s.cur.ppos + 4].id !in {Comma, OpenBrace, Namespace, OpenSquareBracket}
    ensures ParseInterface(toks, s) == PState(Err(Skip(s.cur, 4), "expected open brace"), s.b)
  {
    var c1 := Skip(s.cur, 1);
    var c2 := Skip(c1, 1);
    var c3 := Skip(c2, 1);
    assert Skip(c3, 1) == Skip(s.cur, 4);
    Step(toks, s.cur);
    IdentifierOfWord(toks, c1, n);
    Step(toks, c2);
    assert toks[c3.ppos + 1] == toks[s.cur.ppos + 4];
    InterfaceBasesMissingBrace(toks, c3, [], a);
    assert [] + [a] == [a];
    InterfaceBasesFailFromParts(toks, s, n, c2, [a], Err(Skip(c3, 1), "expected open brace"));
  }

  /** `interface I : A ,` then neither a word nor `{`: "expected open brace" on that token. */
  lemma InterfaceTrailingCommaError(toks: seq<Token>, s: PState, n: string, a: string)
    requires Ahead(toks, s.cur, 6) && toks[s.cur.ppos + 1] == Word(n) && toks[s.cur.ppos + 2].id == Colon
    requires toks[s.cur.ppos + 3] == Word(a) && toks[s.cur.ppos + 4].id == Comma && Visible(toks, s.cur.ppos + 5)
    requires toks[s.cur.ppos + 5].id !in {Identifier, OpenBrace}
    ensures ParseInterface(toks, s) == PState(Err(Skip(s.cur, 5), "expected open brace"), s.b)
  {
    var c1 := Skip(s.cur, 1);
    var c2 := Skip(c1, 1);
    var c3 := Skip(c2, 1);
    assert Skip(c3, 2) == Skip(s.cur, 5);
    assert [] + [a] == [a];
    Step(toks, s.cur);
    IdentifierOfWord(toks, c1, n);
    Step(toks, c2);
    InterfaceBasesComma(toks, c3, [], a);
    InterfaceBasesEnd(toks, Skip(c3, 2), [a]);
    InterfaceBraceFromParts(toks, s, n, c2, [a], Skip(c3, 2));
  }

  // Interface members (methods)

  /** The head `Ret name (` of a member: what follows is its parameter list. */
  lemma MethodHeadFromParts(toks: seq<Token>, s: PState, ret: Type, c0: Cursor, name: string, c1: Cursor)
    requires ParseType(toks, s.cur) == (ret, c0)
    requires !AtEnd(toks, c0) && toks[c0.ppos].id == Identifier && ParseIdentifier(toks, c0) == (name, c1)
    requires !AtEnd(toks, c1) && toks[c1.ppos].id == OpenBracket
    ensures ParseInterfaceMember(toks, s) == MethodParams(toks, Advance(toks, c1), s.b, name, ret)
  {
  }

  /** An empty parameter list `) ;`: the method is appended and the cursor moves past the `;`. */
  lemma MethodEmptyParams(toks: seq<Token>, c3: Cursor, b: Builder, name: string, ret: Type, c4: Cursor)
    requires !AtEnd(toks, c3) && toks[c3.ppos].id == CloseBracket
    requires c4 == Advance(toks, c3) && !AtEnd(toks, c4) && toks[c4.ppos].id == Semicolon
    ensures MethodParams(toks, c3, b, name, ret) == PState(Advance(toks, c4), AddMethod(b, Method(name, ret, [])))
  {
  }

  /** `Ret name ( ) ;` in terms of its parts: a method without parameters is appended to the open interface. */
  lemma MethodFromParts(toks: seq<Token>, s: PState, ret: Type, c0: Cursor, name: string, c1: Cursor, c3: Cursor, c4: Cursor)
    requires ParseType(toks, s.cur) == (ret, c0)
    requires !AtEnd(toks, c0) && toks[c0.ppos].id == Identifier && ParseIdentifier(toks, c0) == (name, c1)
    requires !AtEnd(toks, c1) && toks[c1.ppos].id == OpenBracket
    requires c3 == Advance(toks, c1) && !AtEnd(toks, c3) && toks[c3.ppos].id == CloseBracket
    requires c4 == Advance(toks, c3) && !AtEnd(toks, c4) && toks[c4.ppos].id == Semicolon
    ensures ParseInterfaceMember(toks, s) == PState(Advance(toks, c4), AddMethod(s.b, Method(name, ret, [])))
  {
    MethodHeadFromParts(toks, s, ret, c0, name, c1);
    MethodEmptyParams(toks, c3, s.b, name, ret, c4);
  }

  /**
   * `Ret name ( params )` in terms of its parts: the method with the
   * parameters read, in order, is appended; the cursor stays on the `)`.
   */
  lemma MethodWithParamsFromParts(toks: seq<Token>, s: PState, ret: Type, c0: Cursor, name: string, c1: Cursor, c3: Cursor,
                                  params: seq<Parameter>, c4: Cursor)
    requires ParseType(toks, s.cur) == (ret, c0)
    requires !AtEnd(toks, c0) && toks[c0.ppos].id == Identifier && ParseIdentifier(toks, c0) == (name, c1)
    requires !AtEnd(toks, c1) && toks[c1.ppos].id == OpenBracket
    requires c3 == Advance(toks, c1) && !AtEnd(toks, c3) && toks[c3.ppos].id != CloseBracket
    requires Params(toks, c3, []) == (params, c4, true)
    ensures ParseInterfaceMember(toks, s) == PState(c4, AddMethod(s.b, Method(name, ret, params)))
  {
  }

  /** A parameter list that failed keeps the error it recorded and leaves the AST as it was. */
  lemma MethodParamsFailFromParts(toks: seq<Token>, s: PState, ret: Type, c0: Cursor, name: string, c1: Cursor, c3: Cursor,
                                  params: seq<Parameter>, c4: Cursor)
    requires ParseType(toks, s.cur) == (ret, c0)
    requires !AtEnd(toks, c0) && toks[c0.ppos].id == Identifier && ParseIdentifier(toks, c0) == (name, c1)
    requires !AtEnd(toks, c1) && toks[c1.ppos].id == OpenBracket
    requires c3 == Advance(toks, c1) && !AtEnd(toks, c3) && toks[c3.ppos].id != CloseBracket
    requires Params(toks, c3, []) == (params, c4, false)
    ensures ParseInterfaceMember(toks, s) == PState(c4, s.b)
  {
  }

  /** A member whose type is not followed by a name: "expected interface member name" there. */
  lemma MethodNameFromParts(toks: seq<Token>, s: PState, ret: Type, c0: Cursor)
    requires ParseType(toks, s.cur) == (ret, c0)
    requires !c0.isEOF && !AtEnd(toks, c0) && toks[c0.ppos].id != Identifier
    ensures ParseInterfaceMember(toks, s) == PState(Err(c0, "expected interface member name"), s.b)
  {
  }

  /** A method name not followed by `(`: "expected open bracket" there. */
  lemma MethodBracketFromParts(toks: seq<Token>, s: PState, ret: Type, c0: Cursor, name: string, c1: Cursor)
    requires ParseType(toks, s.cur) == (ret, c0)
    requires !AtEnd(toks, c0) && toks[c0.ppos].id == Identifier && ParseIdentifier(toks, c0) == (name, c1)
    requires !c1.isEOF && !AtEnd(toks, c1) && toks[c1.ppos].id != OpenBracket
    ensures ParseInterfaceMember(toks, s) == PState(Err(c1, "expected open bracket"), s.b)
  {
  }

  /** `Ret name ( )` not followed by `;`: "expected semicolon" there. */
  lemma MethodSemicolonFromParts(toks: seq<Token>, s: PState, ret: Type, c0: Cursor, name: string, c1: Cursor, c3: Cursor, c4: Cursor)
    requires ParseType(toks, s.cur) == (ret, c0)
    requires !AtEnd(toks, c0) && toks[c0.ppos].id == Identifier && ParseIdentifier(toks, c0) == (name, c1)
    requires !AtEnd(toks, c1) && toks[c1.ppos].id == OpenBracket
    requires c3 == Advance(toks, c1) && !AtEnd(toks, c3) && toks[c3.ppos].id == CloseBracket
    requires c4 == Advance(toks, c3) && !c4.isEOF && !AtEnd(toks, c4) && toks[c4.ppos].id != Semicolon
    ensures ParseInterfaceMember(toks, s) == PState(Err(c4, "expected semicolon"), s.b)
  {
  }

  /** `dir T n )`: a named parameter that closes the list; the cursor stays on the `)`. */
  lemma ParamClosing(toks: seq<Token>, c: Cursor, dir: Direction, t: string, n: string)
    requires Room(toks, c, 3) && toks[c.ppos + 1] == Word(t) && toks[c.ppos + 2] == Word(n)
    requires toks[c.ppos + 3].id == CloseBracket && t != "unsigned" && (t == "long" ==> n != "long")
    requires Visible(toks, c.ppos + 1) && Visible(toks, c.ppos + 2)
    ensures Param(toks, c, dir) == (Parameter(dir, Type(t, None, []), n), Skip(c, 3), true)
  {
    Step(toks, c);
    TypeOfWord(toks, Skip(c, 1), t);
    assert Skip(Skip(c, 1), 1) == Skip(c, 2);
    IdentifierOfWord(toks, Skip(c, 2), n);
    assert Skip(Skip(c, 2), 1) == Skip(c, 3);
  }

  /** `dir T n ,`: a named parameter followed by a comma, which is consumed. */
  lemma ParamComma(toks: seq<Token>, c: Cursor, dir: Direction, t: string, n: string)
    requires Room(toks, c, 3) && toks[c.ppos + 1] == Word(t) && toks[c.ppos + 2] == Word(n)
    requires toks[c.ppos + 3].id == Comma && t != "unsigned" && (t == "long" ==> n != "long")
    requires Visible(toks, c.ppos + 1) && Visible(toks, c.ppos + 2)
    ensures Param(toks, c, dir) == (Parameter(dir, Type(t, None, []), n), Advance(toks, Skip(c, 3)), false)
  {
    Step(toks, c);
    TypeOfWord(toks, Skip(c, 1), t);
    assert Skip(Skip(c, 1), 1) == Skip(c, 2);
    IdentifierOfWord(toks, Skip(c, 2), n);
    assert Skip(Skip(c, 2), 1) == Skip(c, 3);
  }

  /** A direction word whose parameter does not close the list: the loop goes on after it. */
  lemma ParamsStep(toks: seq<Token>, c: Cursor, acc: seq<Parameter>, dir: Direction, p: Parameter, c1: Cursor)
    requires !AtEnd(toks, c) && toks[c.ppos].id == Identifier && DirectionOf(toks[c.ppos].value) == Some(dir)
    requires Param(toks, c, dir) == (p, c1, false)
    ensures Params(toks, c, acc) == Params(toks, c1, acc + [p])
  {
  }

  /** A direction word whose parameter closes the list: the loop ends on the `)`. */
  lemma ParamsLast(toks: seq<Token>, c: Cursor, acc: seq<Parameter>, dir: Direction, p: Parameter, c1: Cursor)
    requires !AtEnd(toks, c) && toks[c.ppos].id == Identifier && DirectionOf(toks[c.ppos].value) == Some(dir)
    requires Param(toks, c, dir) == (p, c1, true)
    ensures Params(toks, c, acc) == (acc + [p], c1, true)
  {
  }

  /** A parameter must start with a word: otherwise "expected direction" there. */
  lemma ParamsDirectionMissing(toks: seq<Token>, c: Cursor, acc: seq<Parameter>)
    requires !c.isEOF && !AtEnd(toks, c) && toks[c.ppos].id != Identifier
    ensures Params(toks, c, acc) == (acc, Err(c, "expected direction"), false)
  {
  }

  /** A parameter must start with `in`, `out` or `inout`: otherwise "unexpected direction" there. */
  lemma ParamsDirectionUnknown(toks: seq<Token>, c: Cursor, acc: seq<Parameter>)
    requires !c.isEOF && !AtEnd(toks, c) && toks[c.ppos].id == Identifier
    requires toks[c.ppos].value !in {"in", "out", "inout"}
    ensures Params(toks, c, acc) == (acc, Err(c, "unexpected direction"), false)
  {
  }

  /** `R m ( ) ;` appends the method m returning R, without parameters, to the open interface. */
  lemma MethodWithoutParams(toks: seq<Token>, s: PState, r: string, m: string)
    requires Ahead(toks, s.cur, 5) && toks[s.cur.ppos] == Word(r) && toks[s.cur.ppos + 1] == Word(m)
    requires toks[s.cur.ppos + 2].id == OpenBracket && toks[s.cur.ppos + 3].id == CloseBracket
    requires toks[s.cur.ppos + 4].id == Semicolon && r != "unsigned" && (r == "long" ==> m != "long")
    requires forall i :: s.cur.ppos < i <= s.cur.ppos + 4 ==> Visible(toks, i)
    ensures ParseInterfaceMember(toks, s) ==
              PState(Advance(toks, Skip(s.cur, 4)), AddMethod(s.b, Method(m, Type(r, None, []), [])))
  {
    var c1 := Skip(s.cur, 1);
    assert Visible(toks, s.cur.ppos + 1) && Visible(toks, s.cur.ppos + 2);
    assert Visible(toks, s.cur.ppos + 3) && Visible(toks, s.cur.ppos + 4);
    TypeOfWord(toks, s.cur, r);
    IdentifierOfWord(toks, c1, m);
    Step(toks, Skip(c1, 1));
    Step(toks, Skip(c1, 2));
    assert Skip(c1, 1) == Skip(s.cur, 2) && Skip(Skip(c1, 1), 1) == Skip(c1, 2) && Skip(Skip(c1, 2), 1) == Skip(s.cur, 4);
    MethodFromParts(toks, s, Type(r, None, []), c1, m, Skip(c1, 1), Skip(c1, 2), Skip(s.cur, 4));
  }

  /** The head `R m (` of a member, in words: what follows the `(` is its parameter list. */
  lemma MethodHeadWords(toks: seq<Token>, s: PState, r: string, m: string)
    requires Ahead(toks, s.cur, 4) && toks[s.cur.ppos] == Word(r) && toks[s.cur.ppos + 1] == Word(m)
    requires toks[s.cur.ppos + 2].id == OpenBracket && r != "unsigned" && (r == "long" ==> m != "long")
    requires Visible(toks, s.cur.ppos + 1) && Visible(toks, s.cur.ppos + 2) && Visible(toks, s.cur.ppos + 3)
    ensures ParseInterfaceMember(toks, s) == MethodParams(toks, Skip(s.cur, 3), s.b, m, Type(r, None, []))
  {
    TypeOfWord(toks, s.cur, r);
    IdentifierOfWord(toks, Skip(s.cur, 1), m);
    Step(toks, Skip(s.cur, 2));
    assert Skip(Skip(s.cur, 1), 1) == Skip(s.cur, 2) && Skip(Skip(s.cur, 2), 1) == Skip(s.cur, 3);
    MethodHeadFromParts(toks, s, Type(r, None, []), Skip(s.cur, 1), m, Skip(s.cur, 2));
  }

  /** The parameter list `d T x )`: the method with that one parameter is appended; the cursor stays on the `)`. */
  lemma MethodOneParam(toks: seq<Token>, c: Cursor, b: Builder, m: string, ret: Type, d: Direction, t: string, x: string)
    requires Room(toks, c, 3) && toks[c.ppos].id == Identifier && DirectionOf(toks[c.ppos].value) == Some(d)
    requires toks[c.ppos + 1] == Word(t) && toks[c.ppos + 2] == Word(x) && toks[c.ppos + 3].id == CloseBracket
    requires t != "unsigned" && (t == "long" ==> x != "long")
    requires Visible(toks, c.ppos + 1) && Visible(toks, c.ppos + 2)
    ensures MethodParams(toks, c, b, m, ret) == PState(Skip(c, 3), AddMethod(b, Method(m, ret, [Parameter(d, Type(t, None, []), x)])))
  {
    var p := Parameter(d, Type(t, None, []), x);
    ParamsClosingStep(toks, c, [], d, t, x);
    assert [] + [p] == [p];
  }

  /** `R m ( d T x )` appends the method m returning R with the one parameter (d T x); the cursor stays on the `)`. */
  lemma MethodWithOneParam(toks: seq<Token>, s: PState, r: string, m: string, d: Direction, t: string, x: string)
    requires Ahead(toks, s.cur, 7) && toks[s.cur.ppos] == Word(r) && toks[s.cur.ppos + 1] == Word(m)
    requires toks[s.cur.ppos + 2].id == OpenBracket
    requires toks[s.cur.ppos + 3].id == Identifier && DirectionOf(toks[s.cur.ppos + 3].value) == Some(d)
    requires toks[s.cur.ppos + 4] == Word(t) && toks[s.cur.ppos + 5] == Word(x) && toks[s.cur.ppos + 6].id == CloseBracket
    requires r != "unsigned" && (r == "long" ==> m != "long") && t != "unsigned" && (t == "long" ==> x != "long")
    requires forall i :: s.cur.ppos < i <= s.cur.ppos + 6 ==> Visible(toks, i)
    ensures ParseInterfaceMember(toks, s) ==
              PState(Skip(s.cur, 6), AddMethod(s.b, Method(m, Type(r, None, []), [Parameter(d, Type(t, None, []), x)])))
  {
    var c3 := Skip(s.cur, 3);
    assert Visible(toks, s.cur.ppos + 1) && Visible(toks, s.cur.ppos + 2) && Visible(toks, s.cur.ppos + 3);
    assert Visible(toks, c3.ppos + 1) && Visible(toks, c3.ppos + 2) && Visible(toks, c3.ppos + 3);
    MethodOneParam(toks, c3, s.b, m, Type(r, None, []), d, t, x);
    assert Skip(c3, 3) == Skip(s.cur, 6);
    MethodHeadWords(toks, s, r, m);
  }

  /** `d T x ,` at the head of the list: the parameter (d T x) is taken and the loop goes on after the comma. */
  lemma ParamsCommaStep(toks: seq<Token>, c: Cursor, acc: seq<Parameter>, d: Direction, t: string, x: string)
    requires Room(toks, c, 4) && toks[c.ppos].id == Identifier && DirectionOf(toks[c.ppos].value) == Some(d)
    requires toks[c.ppos + 1] == Word(t) && toks[c.ppos + 2] == Word(x) && toks[c.ppos + 3].id == Comma
    requires t != "unsigned" && (t == "long" ==> x != "long")
    requires Visible(toks, c.ppos + 1) && Visible(toks, c.ppos + 2)
    ensures Params(toks, c, acc) == Params(toks, Skip(c, 4), acc + [Parameter(d, Type(t, None, []), x)])
  {
    ParamComma(toks, c, d, t, x);
    Step(toks, Skip(c, 3));
    assert Skip(Skip(c, 3), 1) == Skip(c, 4);
    ParamsStep(toks, c, acc, d, Parameter(d, Type(t, None, []), x), Skip(c, 4));
  }

  /** `d T x )` at the head of the list: the parameter (d T x) is the last one and the loop ends on the `)`. */
  lemma ParamsClosingStep(toks: seq<Token>, c: Cursor, acc: seq<Parameter>, d: Direction, t: string, x: string)
    requires Room(toks, c, 3) && toks[c.ppos].id == Identifier && DirectionOf(toks[c.ppos].value) == Some(d)
    requires toks[c.ppos + 1] == Word(t) && toks[c.ppos + 2] == Word(x) && toks[c.ppos + 3].id == CloseBracket
    requires t != "unsigned" && (t == "long" ==> x != "long")
    requires Visible(toks, c.ppos + 1) && Visible(toks, c.ppos + 2)
    ensures Params(toks, c, acc) == (acc + [Parameter(d, Type(t, None, []), x)], Skip(c, 3), true)
  {
    ParamClosing(toks, c, d, t, x);
    ParamsLast(toks, c, acc, d, Parameter(d, Type(t, None, []), x), Skip(c, 3));
  }

  /** The parameter list `d1 T x , d2 U y )`, ending on the `)`. */
  lemma ParamsTwo(toks: seq<Token>, c: Cursor, d1: Direction, t: string, x: string, d2: Direction, u: string, y: string)
    requires Room(toks, c, 7) && toks[c.ppos].id == Identifier && DirectionOf(toks[c.ppos].value) == Some(d1)
    requires toks[c.ppos + 1] == Word(t) && toks[c.ppos + 2] == Word(x) && toks[c.ppos + 3].id == Comma
    requires toks[c.ppos + 4].id == Identifier && DirectionOf(toks[c.ppos + 4].value) == Some(d2)
    requires toks[c.ppos + 5] == Word(u) && toks[c.ppos + 6] == Word(y) && toks[c.ppos + 7].id == CloseBracket
    requires t != "unsigned" && (t == "long" ==> x != "long") && u != "unsigned" && (u == "long" ==> y != "long")
    requires forall i :: c.ppos < i <= c.ppos + 7 ==> Visible(toks, i)
    ensures Params(toks, c, []) == ([Parameter(d1, Type(t, None, []), x), Parameter(d2, Type(u, None, []), y)], Skip(c, 7), true)
  {
    var p1 := Parameter(d1, Type(t, None, []), x);
    var p2 := Parameter(d2, Type(u, None, []), y);
    var c4 := Skip(c, 4);
    assert Visible(toks, c.ppos + 1) && Visible(toks, c.ppos + 2) && Visible(toks, c.ppos + 4);
    assert Visible(toks, c4.ppos + 1) && Visible(toks, c4.ppos + 2);
    assert toks[c4.ppos] == toks[c.ppos + 4] && toks[c4.ppos + 1] == toks[c.ppos + 5];
    assert toks[c4.ppos + 2] == toks[c.ppos + 6] && toks[c4.ppos + 3] == toks[c.ppos + 7];
    ParamsClosingStep(toks, c4, [p1], d2, u, y);
    assert Skip(c4, 3) == Skip(c, 7);
    ParamsCommaStep(toks, c, [], d1, t, x);
    assert [] + [p1] == [p1] && [p1] + [p2] == [p1, p2];
  }

  /** A member type not followed by a name: "expected interface member name" on that token. */
  lemma MethodNameError(toks: seq<Token>, s: PState, r: string)
    requires Ahead(toks, s.cur, 2) && toks[s.cur.ppos] == Word(r) && Visible(toks, s.cur.ppos + 1)
    requires toks[s.cur.ppos + 1].id !in {Identifier, LessThan, Namespace} && r != "unsigned"
    ensures ParseInterfaceMember(toks, s) == PState(Err(Skip(s.cur, 1), "expected interface member name"), s.b)
  {
    TypeOfWord(toks, s.cur, r);
    MethodNameFromParts(toks, s, Type(r, None, []), Skip(s.cur, 1));
  }

  /** `R m` followed by anything but `(`: "expected open bracket" on that token. */
  lemma MethodBracketError(toks: seq<Token>, s: PState, r: string, m: string)
    requires Ahead(toks, s.cur, 3) && toks[s.cur.ppos] == Word(r) && toks[s.cur.ppos + 1] == Word(m)
    requires Visible(toks, s.cur.ppos + 1) && Visible(toks, s.cur.ppos + 2)
    requires toks[s.cur.ppos + 2].id !in {OpenBracket, Namespace, OpenSquareBracket}
    requires r != "unsigned" && (r == "long" ==> m != "long")
    ensures ParseInterfaceMember(toks, s) == PState(Err(Skip(s.cur, 2), "expected open bracket"), s.b)
  {
    TypeOfWord(toks, s.cur, r);
    IdentifierOfWord(toks, Skip(s.cur, 1), m);
    assert Skip(Skip(s.cur, 1), 1) == Skip(s.cur, 2);
    MethodBracketFromParts(toks, s, Type(r, None, []), Skip(s.cur, 1), m, Skip(s.cur, 2));
  }

  /** `R m ( )` followed by anything but `;`: "expected semicolon" on that token. */
  lemma MethodSemicolonError(toks: seq<Token>, s: PState, r: string, m: string)
    requires Ahead(toks, s.cur, 5) && toks[s.cur.ppos] == Word(r) && toks[s.cur.ppos + 1] == Word(m)
    requires toks[s.cur.ppos + 2].id == OpenBracket && toks[s.cur.ppos + 3].id == CloseBracket
    requires toks[s.cur.ppos + 4].id != Semicolon && r != "unsigned" && (r == "long" ==> m != "long")
    requires forall i :: s.cur.ppos < i <= s.cur.ppos + 4 ==> Visible(toks, i)
    ensures ParseInterfaceMember(toks, s) == PState(Err(Skip(s.cur, 4), "expected semicolon"), s.b)
  {
    var c1 := Skip(s.cur, 1);
    assert Visible(toks, s.cur.ppos + 1) && Visible(toks, s.cur.ppos + 2);
    assert Visible(toks, s.cur.ppos + 3) && Visible(toks, s.cur.ppos + 4);
    TypeOfWord(toks, s.cur, r);
    IdentifierOfWord(toks, c1, m);
    Step(toks, Skip(c1, 1));
    Step(toks, Skip(c1, 2));
    assert Skip(c1, 1) == Skip(s.cur, 2) && Skip(Skip(c1, 1), 1) == Skip(c1, 2) && Skip(Skip(c1, 2), 1) == Skip(s.cur, 4);
    MethodSemicolonFromParts(toks, s, Type(r, None, []), c1, m, Skip(c1, 1), Skip(c1, 2), Skip(s.cur, 4));
  }

  /** `R m (` followed by a word that is no direction: "unexpected direction", and the AST is left as it was. */
  lemma MethodDirectionError(toks: seq<Token>, s: PState, r: string, m: string)
    requires Ahead(toks, s.cur, 4) && toks[s.cur.ppos] == Word(r) && toks[s.cur.ppos + 1] == Word(m)
    requires toks[s.cur.ppos + 2].id == OpenBracket && toks[s.cur.ppos + 3].id == Identifier
    requires toks[s.cur.ppos + 3].value !in {"in", "out", "inout"} && r != "unsigned" && (r == "long" ==> m != "long")
    requires forall i :: s.cur.ppos < i <= s.cur.ppos + 3 ==> Visible(toks, i)
    ensures ParseInterfaceMember(toks, s) == PState(Err(Skip(s.cur, 3), "unexpected direction"), s.b)
  {
    var c1 := Skip(s.cur, 1);
    assert Visible(toks, s.cur.ppos + 1) && Visible(toks, s.cur.ppos + 2) && Visible(toks, s.cur.ppos + 3);
    TypeOfWord(toks, s.cur, r);
    IdentifierOfWord(toks, c1, m);
    Step(toks, Skip(c1, 1));
    assert Skip(c1, 1) == Skip(s.cur, 2) && Skip(Skip(c1, 1), 1) == Skip(s.cur, 3);
    ParamsDirectionUnknown(toks, Skip(s.cur, 3), []);
    MethodParamsFailFromParts(toks, s, Type(r, None, []), c1, m, Skip(s.cur, 2), Skip(s.cur, 3), [],
                              Err(Skip(s.cur, 3), "unexpected direction"));
  }

  // Unions. Each step of the heading and of a case is stated on its own
  // cursor; `UnionOpens` and `UnionMemberAppends` chain them.

  /** A union name in terms of its parts: the rest of the heading follows it. */
  lemma UnionNameFromParts(toks: seq<Token>, s: PState, u: string, c2: Cursor)
    requires ParseIdentifier(toks, Advance(toks, s.cur)) == (u, c2) && u != ""
    ensures ParseUnion(toks, s) == UnionKeyword(toks, c2, s.b, u)
  {
  }

  /** `union U` then the rest of the heading after the name. */
  lemma UnionNameWords(toks: seq<Token>, s: PState, u: string)
    requires Ahead(toks, s.cur, 3) && toks[s.cur.ppos + 1] == Word(u) && Visible(toks, s.cur.ppos + 2) && u != ""
    requires toks[s.cur.ppos + 2].id != Namespace && toks[s.cur.ppos + 2].id != OpenSquareBracket
    ensures ParseUnion(toks, s) == UnionKeyword(toks, Skip(s.cur, 2), s.b, u)
  {
    Step(toks, s.cur);
    IdentifierOfWord(toks, Skip(s.cur, 1), u);
    assert Skip(Skip(s.cur, 1), 1) == Skip(s.cur, 2);
    UnionNameFromParts(toks, s, u, Skip(s.cur, 2));
  }

  /** `union` must be followed by a name: otherwise "expected identifier" and then "expected type in union". */
  lemma UnionNameError(toks: seq<Token>, s: PState)
    requires !s.cur.isEOF && Visible(toks, s.cur.ppos + 1) && toks[s.cur.ppos + 1].id != Identifier
    ensures ParseUnion(toks, s) == PState(Err(Err(Skip(s.cur, 1), "expected identifier"), "expected type in union"), s.b)
  {
    Step(toks, s.cur);
    IdentifierError(toks, Skip(s.cur, 1));
  }

  /** `switch (` in terms of its parts: the discriminant follows. */
  lemma UnionKeywordFromParts(toks: seq<Token>, c: Cursor, b: Builder, u: string, c1: Cursor)
    requires ParseIdentifier(toks, c) == ("switch", c1) && !AtEnd(toks, c1) && toks[c1.ppos].id == OpenBracket
    ensures UnionKeyword(toks, c, b, u) == UnionSwitch(toks, Advance(toks, c1), b, u)
  {
  }

  /** `switch (` after the union name, then the discriminant. */
  lemma UnionKeywordWords(toks: seq<Token>, c: Cursor, b: Builder, u: string)
    requires Room(toks, c, 2) && toks[c.ppos] == Word("switch") && toks[c.ppos + 1].id == OpenBracket
    ensures UnionKeyword(toks, c, b, u) == UnionSwitch(toks, Skip(c, 2), b, u)
  {
    IdentifierOfWord(toks, c, "switch");
    Step(toks, Skip(c, 1));
    assert Skip(Skip(c, 1), 1) == Skip(c, 2);
    UnionKeywordFromParts(toks, c, b, u, Skip(c, 1));
  }

  /** A union name must be followed by `switch`: otherwise "expected switch after type in union". */
  lemma UnionKeywordError(toks: seq<Token>, c: Cursor, b: Builder, u: string, w: string)
    requires Room(toks, c, 1) && toks[c.ppos] == Word(w) && w != "switch"
    requires toks[c.ppos + 1].id != Namespace && toks[c.ppos + 1].id != OpenSquareBracket
    ensures UnionKeyword(toks, c, b, u) == PState(Err(Skip(c, 1), "expected switch after type in union"), b)
  {
    IdentifierOfWord(toks, c, w);
  }

  /** `switch` must be followed by `(`: otherwise "expected open bracket before type in union". */
  lemma UnionBracketError(toks: seq<Token>, c: Cursor, b: Builder, u: string)
    requires Room(toks, c, 1) && toks[c.ppos] == Word("switch")
    requires toks[c.ppos + 1].id !in {OpenBracket, Namespace, OpenSquareBracket}
    ensures UnionKeyword(toks, c, b, u) == PState(Err(Skip(c, 1), "expected open bracket before type in union"), b)
  {
    IdentifierOfWord(toks, c, "switch");
    UnionBracketFromParts(toks, c, b, u, Skip(c, 1));
  }

  /** `switch` then anything but `(`, in terms of its parts. */
  lemma UnionBracketFromParts(toks: seq<Token>, c: Cursor, b: Builder, u: string, c1: Cursor)
    requires ParseIdentifier(toks, c) == ("switch", c1) && !c1.isEOF && !AtEnd(toks, c1) && toks[c1.ppos].id != OpenBracket
    ensures UnionKeyword(toks, c, b, u) == PState(Err(c1, "expected open bracket before type in union"), b)
  {
  }

  /** The discriminant `D` then the closing part of the heading. */
  lemma UnionSwitchWords(toks: seq<Token>, c: Cursor, b: Builder, u: string, d: string)
    requires Room(toks, c, 1) && toks[c.ppos] == Word(d) && !HasError(c)
    requires toks[c.ppos + 1].id != LessThan && toks[c.ppos + 1].id != Namespace && toks[c.ppos + 1].id != Identifier
    requires d != "unsigned"
    ensures UnionSwitch(toks, c, b, u) == UnionOpen(toks, Skip(c, 1), b, u, Type(d, None, []))
  {
    TypeOfWord(toks, c, d);
  }

  /** A discriminant that is not a type: "expected type name" and then "expected switch on type in union". */
  lemma UnionSwitchError(toks: seq<Token>, c: Cursor, b: Builder, u: string)
    requires !c.isEOF && !AtEnd(toks, c) && toks[c.ppos].id != Identifier
    ensures UnionSwitch(toks, c, b, u) == PState(Err(Err(c, "expected type name"), "expected switch on type in union"), b)
  {
    TypeNameError(toks, c);
  }

  /** `) {` after the discriminant: the union opens with no cases, and the cursor stays on the `{`. */
  lemma UnionOpenWords(toks: seq<Token>, c: Cursor, b: Builder, u: string, typ: Type)
    requires Room(toks, c, 1) && toks[c.ppos].id == CloseBracket && toks[c.ppos + 1].id == OpenBrace
    ensures UnionOpen(toks, c, b, u, typ) == PState(Skip(c, 1), PushContext(b, UnionCtx, u).(curUnion := Union(u, typ, [])))
  {
    Step(toks, c);
  }

  /** The discriminant must be followed by `)`: otherwise "expected close bracket after type in union". */
  lemma UnionCloseError(toks: seq<Token>, c: Cursor, b: Builder, u: string, typ: Type)
    requires !c.isEOF && !AtEnd(toks, c) && toks[c.ppos].id != CloseBracket
    ensures UnionOpen(toks, c, b, u, typ) == PState(Err(c, "expected close bracket after type in union"), b)
  {
  }

  /** The `)` must be followed by `{`: otherwise "expected open brace after type in union". */
  lemma UnionBraceError(toks: seq<Token>, c: Cursor, b: Builder, u: string, typ: Type)
    requires Room(toks, c, 1) && toks[c.ppos].id == CloseBracket && toks[c.ppos + 1].id != OpenBrace
    ensures UnionOpen(toks, c, b, u, typ) == PState(Err(Skip(c, 1), "expected open brace after type in union"), b)
  {
    Step(toks, c);
  }

  /** `union U switch (`: what follows is the discriminant of union U. */
  lemma UnionHead(toks: seq<Token>, s: PState, u: string)
    requires Ahead(toks, s.cur, 5) && toks[s.cur.ppos + 1] == Word(u) && toks[s.cur.ppos + 2] == Word("switch")
    requires toks[s.cur.ppos + 3].id == OpenBracket && u != ""
    requires Visible(toks, s.cur.ppos + 2) && Visible(toks, s.cur.ppos + 3) && Visible(toks, s.cur.ppos + 4)
    ensures ParseUnion(toks, s) == UnionSwitch(toks, Skip(s.cur, 4), s.b, u)
  {
    var c2 := Skip(s.cur, 2);
    assert Skip(c2, 2) == Skip(s.cur, 4);
    assert toks[c2.ppos] == toks[s.cur.ppos + 2] && toks[c2.ppos + 1] == toks[s.cur.ppos + 3];
    UnionKeywordWords(toks, c2, s.b, u);
    UnionNameWords(toks, s, u);
  }

  /** `D ) {` after `switch (`: the union opens with discriminant D, and the cursor stays on the `{`. */
  lemma UnionTail(toks: seq<Token>, c: Cursor, b: Builder, u: string, d: string)
    requires Room(toks, c, 2) && toks[c.ppos] == Word(d) && toks[c.ppos + 1].id == CloseBracket
    requires toks[c.ppos + 2].id == OpenBrace && Visible(toks, c.ppos + 1) && !HasError(c) && d != "unsigned"
    ensures UnionSwitch(toks, c, b, u) == PState(Skip(c, 2), PushContext(b, UnionCtx, u).(curUnion := Union(u, Type(d, None, []), [])))
  {
    UnionSwitchWords(toks, c, b, u, d);
    UnionOpenWords(toks, Skip(c, 1), b, u, Type(d, None, []));
    assert Skip(Skip(c, 1), 1) == Skip(c, 2);
  }

  /**
   * `union U switch ( D ) {` opens union U with discriminant D and no
   * cases; the cursor stays on the `{`.
   */
  lemma UnionOpens(toks: seq<Token>, s: PState, u: string, d: string)
    requires Ahead(toks, s.cur, 7) && toks[s.cur.ppos + 1] == Word(u) && toks[s.cur.ppos + 2] == Word("switch")
    requires toks[s.cur.ppos + 3].id == OpenBracket && toks[s.cur.ppos + 4] == Word(d)
    requires toks[s.cur.ppos + 5].id == CloseBracket && toks[s.cur.ppos + 6].id == OpenBrace
    requires forall i :: s.cur.ppos < i <= s.cur.ppos + 6 ==> Visible(toks, i)
    requires !HasError(s.cur) && u != "" && d != "unsigned"
    ensures ParseUnion(toks, s) ==
              PState(Skip(s.cur, 6), PushContext(s.b, UnionCtx, u).(curUnion := Union(u, Type(d, None, []), [])))
  {
    var c4 := Skip(s.cur, 4);
    assert Visible(toks, s.cur.ppos + 2) && Visible(toks, s.cur.ppos + 3) && Visible(toks, s.cur.ppos + 4);
    assert Visible(toks, c4.ppos + 1) && Visible(toks, c4.ppos + 2);
    assert toks[c4.ppos] == toks[s.cur.ppos + 4] && toks[c4.ppos + 1] == toks[s.cur.ppos + 5];
    assert toks[c4.ppos + 2] == toks[s.cur.ppos + 6] && Skip(c4, 2) == Skip(s.cur, 6);
    UnionTail(toks, c4, s.b, u, d);
    UnionHead(toks, s, u);
  }

  /** `case (` in terms of its parts: the case value follows. */
  lemma UnionCaseFromParts(toks: seq<Token>, s: PState, c1: Cursor)
    requires ParseIdentifier(toks, s.cur) == ("case", c1) && !AtEnd(toks, c1) && toks[c1.ppos].id == OpenBracket
    ensures ParseUnionMember(toks, s) == UnionCaseType(toks, Advance(toks, c1), s.b)
  {
  }

  /** `case (` opens a union case; then its value type. */
  lemma UnionCaseWords(toks: seq<Token>, s: PState)
    requires Room(toks, s.cur, 2) && toks[s.cur.ppos] == Word("case") && toks[s.cur.ppos + 1].id == OpenBracket
    ensures ParseUnionMember(toks, s) == UnionCaseType(toks, Skip(s.cur, 2), s.b)
  {
    var c1 := Skip(s.cur, 1);
    Step(toks, c1);
    assert Skip(c1, 1) == Skip(s.cur, 2);
    IdentifierOfWord(toks, s.cur, "case");
    UnionCaseFromParts(toks, s, c1);
  }

  /** A union case must start with `case`: otherwise "expected case in union member". */
  lemma UnionCaseError(toks: seq<Token>, s: PState, w: string)
    requires Room(toks, s.cur, 1) && toks[s.cur.ppos] == Word(w) && w != "case"
    requires toks[s.cur.ppos + 1].id != Namespace && toks[s.cur.ppos + 1].id != OpenSquareBracket
    ensures ParseUnionMember(toks, s) == PState(Err(Skip(s.cur, 1), "expected case in union member"), s.b)
  {
    IdentifierOfWord(toks, s.cur, w);
  }

  /** `case` must be followed by `(`: otherwise "expected open bracket before type in union member". */
  lemma UnionCaseBracketError(toks: seq<Token>, s: PState)
    requires Room(toks, s.cur, 1) && toks[s.cur.ppos] == Word("case")
    requires toks[s.cur.ppos + 1].id !in {OpenBracket, Namespace, OpenSquareBracket}
    ensures ParseUnionMember(toks, s) == PState(Err(Skip(s.cur, 1), "expected open bracket before type in union member"), s.b)
  {
    IdentifierOfWord(toks, s.cur, "case");
  }

  /** The case value `V`, then the rest of the case. */
  lemma UnionCaseTypeWords(toks: seq<Token>, c: Cursor, b: Builder, v: string)
    requires Room(toks, c, 1) && toks[c.ppos] == Word(v) && !HasError(c)
    requires toks[c.ppos + 1].id != LessThan && toks[c.ppos + 1].id != Namespace && toks[c.ppos + 1].id != Identifier
    requires v != "unsigned"
    ensures UnionCaseType(toks, c, b) == UnionCaseTail(toks, Skip(c, 1), b, Type(v, None, []))
  {
    TypeOfWord(toks, c, v);
  }

  /** A case value that is not a type: "expected type name" and then "expected type in union member". */
  lemma UnionCaseTypeError(toks: seq<Token>, c: Cursor, b: Builder)
    requires !c.isEOF && !AtEnd(toks, c) && toks[c.ppos].id != Identifier
    ensures UnionCaseType(toks, c, b) == PState(Err(Err(c, "expected type name"), "expected type in union member"), b)
  {
    TypeNameError(toks, c);
  }

  /** `) :` after the case value, then the case variable. */
  lemma UnionCaseTailWords(toks: seq<Token>, c: Cursor, b: Builder, v: Type)
    requires Room(toks, c, 2) && toks[c.ppos].id == CloseBracket && toks[c.ppos + 1].id == Colon
    ensures UnionCaseTail(toks, c, b, v) == UnionCaseVariable(toks, Skip(c, 2), b, v)
  {
    Step(toks, c);
    Step(toks, Skip(c, 1));
    assert Skip(Skip(c, 1), 1) == Skip(c, 2);
  }

  /** The case value must be followed by `)`: otherwise "expected close bracket after type in union member". */
  lemma UnionCaseCloseError(toks: seq<Token>, c: Cursor, b: Builder, v: Type)
    requires !c.isEOF && !AtEnd(toks, c) && toks[c.ppos].id != CloseBracket
    ensures UnionCaseTail(toks, c, b, v) == PState(Err(c, "expected close bracket after type in union member"), b)
  {
  }

  /** The `)` must be followed by `:`: otherwise "expected colon after close bracket in union member". */
  lemma UnionCaseColonError(toks: seq<Token>, c: Cursor, b: Builder, v: Type)
    requires Room(toks, c, 1) && toks[c.ppos].id == CloseBracket && toks[c.ppos + 1].id != Colon
    ensures UnionCaseTail(toks, c, b, v) == PState(Err(Skip(c, 1), "expected colon after close bracket in union member"), b)
  {
    Step(toks, c);
    UnionCaseColonFromParts(toks, c, b, v, Skip(c, 1));
  }

  /** `)` then anything but `:`, in terms of its parts. */
  lemma UnionCaseColonFromParts(toks: seq<Token>, c: Cursor, b: Builder, v: Type, c1: Cursor)
    requires !AtEnd(toks, c) && toks[c.ppos].id == CloseBracket
    requires c1 == Advance(toks, c) && !c1.isEOF && !AtEnd(toks, c1) && toks[c1.ppos].id != Colon
    ensures UnionCaseTail(toks, c, b, v) == PState(Err(c1, "expected colon after close bracket in union member"), b)
  {
  }

  /** The variable type in terms of its parts: the variable name follows. */
  lemma UnionCaseVariableFromParts(toks: seq<Token>, c: Cursor, b: Builder, v: Type, mt: Type, c1: Cursor)
    requires !AtEnd(toks, c) && toks[c.ppos].id == Identifier && ParseType(toks, c) == (mt, c1)
    ensures UnionCaseVariable(toks, c, b, v) == UnionMemberName(toks, c1, b, UnionMember(v, mt, ""))
  {
  }

  /** The variable type `T`, then the variable name. */
  lemma UnionCaseVariableWords(toks: seq<Token>, c: Cursor, b: Builder, v: Type, t: string, n: string)
    requires Room(toks, c, 1) && toks[c.ppos] == Word(t) && toks[c.ppos + 1] == Word(n)
    requires t != "unsigned" && (t == "long" ==> n != "long")
    ensures UnionCaseVariable(toks, c, b, v) == UnionMemberName(toks, Skip(c, 1), b, UnionMember(v, Type(t, None, []), ""))
  {
    TypeOfWord(toks, c, t);
    UnionCaseVariableFromParts(toks, c, b, v, Type(t, None, []), Skip(c, 1));
  }

  /** The case variable must start with a word: otherwise "expected var type in union member". */
  lemma UnionCaseVariableError(toks: seq<Token>, c: Cursor, b: Builder, v: Type)
    requires !c.isEOF && !AtEnd(toks, c) && toks[c.ppos].id != Identifier
    ensures UnionCaseVariable(toks, c, b, v) == PState(Err(c, "expected var type in union member"), b)
  {
  }

  /** A name and `;` in terms of their parts: the case is completed with that name and appended. */
  lemma UnionMemberNameFromParts(toks: seq<Token>, c: Cursor, b: Builder, m: UnionMember, n: string, c1: Cursor)
    requires !AtEnd(toks, c) && toks[c.ppos].id == Identifier && ParseIdentifier(toks, c) == (n, c1)
    requires !AtEnd(toks, c1) && toks[c1.ppos].id == Semicolon
    ensures UnionMemberName(toks, c, b, m) == PState(Advance(toks, c1), AddUnionMember(b, m.(memberName := n)))
  {
  }

  /** `n ;` completes the case with the name n, appends it, and moves past the `;`. */
  lemma UnionMemberNameWords(toks: seq<Token>, c: Cursor, b: Builder, m: UnionMember, n: string)
    requires Room(toks, c, 1) && toks[c.ppos] == Word(n) && toks[c.ppos + 1].id == Semicolon
    ensures UnionMemberName(toks, c, b, m) == PState(Advance(toks, Skip(c, 1)), AddUnionMember(b, m.(memberName := n)))
  {
    IdentifierOfWord(toks, c, n);
    UnionMemberNameFromParts(toks, c, b, m, n, Skip(c, 1));
  }

  /** The variable type must be followed by a name: otherwise "expected var name in union member". */
  lemma UnionMemberNameError(toks: seq<Token>, c: Cursor, b: Builder, m: UnionMember)
    requires !c.isEOF && !AtEnd(toks, c) && toks[c.ppos].id != Identifier
    ensures UnionMemberName(toks, c, b, m) == PState(Err(c, "expected var name in union member"), b)
  {
  }

  /** The name must be followed by `;`: otherwise "expected semicolon at the end of  union member". */
  lemma UnionMemberSemicolonError(toks: seq<Token>, c: Cursor, b: Builder, m: UnionMember, n: string)
    requires Room(toks, c, 1) && toks[c.ppos] == Word(n)
    requires toks[c.ppos + 1].id !in {Semicolon, Namespace, OpenSquareBracket}
    ensures UnionMemberName(toks, c, b, m) == PState(Err(Skip(c, 1), "expected semicolon at the end of  union member"), b)
  {
    IdentifierOfWord(toks, c, n);
  }

  /** `case ( V`: what follows is the rest of a case with value V. */
  lemma UnionCaseHead(toks: seq<Token>, s: PState, v: string)
    requires Room(toks, s.cur, 3) && toks[s.cur.ppos] == Word("case") && toks[s.cur.ppos + 1].id == OpenBracket
    requires toks[s.cur.ppos + 2] == Word(v) && Visible(toks, s.cur.ppos + 2) && !HasError(s.cur) && v != "unsigned"
    requires toks[s.cur.ppos + 3].id !in {LessThan, Namespace, Identifier}
    ensures ParseUnionMember(toks, s) == UnionCaseTail(toks, Skip(s.cur, 3), s.b, Type(v, None, []))
  {
    var c2 := Skip(s.cur, 2);
    assert toks[c2.ppos] == toks[s.cur.ppos + 2] && toks[c2.ppos + 1] == toks[s.cur.ppos + 3];
    assert Skip(c2, 1) == Skip(s.cur, 3);
    UnionCaseTypeWords(toks, c2, s.b, v);
    UnionCaseWords(toks, s);
  }

  /** `) : T n ;` after the case value V: the case (V, T, n) is appended and the cursor moves past the `;`. */
  lemma UnionCaseRest(toks: seq<Token>, c: Cursor, b: Builder, v: Type, t: string, n: string)
    requires Room(toks, c, 4) && toks[c.ppos].id == CloseBracket && toks[c.ppos + 1].id == Colon
    requires toks[c.ppos + 2] == Word(t) && toks[c.ppos + 3] == Word(n) && toks[c.ppos + 4].id == Semicolon
    requires Visible(toks, c.ppos + 1) && Visible(toks, c.ppos + 2) && Visible(toks, c.ppos + 3)
    requires t != "unsigned" && (t == "long" ==> n != "long")
    ensures UnionCaseTail(toks, c, b, v) == PState(Advance(toks, Skip(c, 4)), AddUnionMember(b, UnionMember(v, Type(t, None, []), n)))
  {
    var c2 := Skip(c, 2);
    var c3 := Skip(c, 3);
    assert Skip(c2, 1) == c3 && Skip(c3, 1) == Skip(c, 4);
    UnionMemberNameWords(toks, c3, b, UnionMember(v, Type(t, None, []), ""), n);
    UnionCaseVariableWords(toks, c2, b, v, t, n);
    UnionCaseTailWords(toks, c, b, v);
  }

  /**
   * `case ( V ) : T n ;` appends the case (V, T, n) to the open union and
   * moves past the `;`.
   */
  lemma UnionMemberAppends(toks: seq<Token>, s: PState, v: string, t: string, n: string)
    requires Ahead(toks, s.cur, 8) && toks[s.cur.ppos] == Word("case") && toks[s.cur.ppos + 1].id == OpenBracket
    requires toks[s.cur.ppos + 2] == Word(v) && toks[s.cur.ppos + 3].id == CloseBracket && toks[s.cur.ppos + 4].id == Colon
    requires toks[s.cur.ppos + 5] == Word(t) && toks[s.cur.ppos + 6] == Word(n) && toks[s.cur.ppos + 7].id == Semicolon
    requires forall i :: s.cur.ppos < i <= s.cur.ppos + 7 ==> Visible(toks, i)
    requires !HasError(s.cur) && v != "unsigned" && t != "unsigned" && (t == "long" ==> n != "long")
    ensures ParseUnionMember(toks, s) ==
              PState(Advance(toks, Skip(s.cur, 7)), AddUnionMember(s.b, UnionMember(Type(v, None, []), Type(t, None, []), n)))
  {
    var c3 := Skip(s.cur, 3);
    assert Visible(toks, s.cur.ppos + 2) && Visible(toks, s.cur.ppos + 3);
    assert Visible(toks, c3.ppos + 1) && Visible(toks, c3.ppos + 2) && Visible(toks, c3.ppos + 3) && Visible(toks, c3.ppos + 4);
    assert toks[c3.ppos] == toks[s.cur.ppos + 3] && toks[c3.ppos + 1] == toks[s.cur.ppos + 4];
    assert toks[c3.ppos + 2] == toks[s.cur.ppos + 5] && toks[c3.ppos + 3] == toks[s.cur.ppos + 6];
    assert toks[c3.ppos + 4] == toks[s.cur.ppos + 7] && Skip(c3, 4) == Skip(s.cur, 7);
    UnionCaseRest(toks, c3, s.b, Type(v, None, []), t, n);
    UnionCaseHead(toks, s, v);
  }

  // Preprocessor directives: the cursor starts on the `#`.

  /** `# define N V`: the value is the next word on the same line, and both are consumed. */
  lemma DefineWithValue(toks: seq<Token>, c: Cursor, n: string, v: string)
    requires Ahead(toks, c, 4) && toks[c.ppos + 1] == Word("define") && toks[c.ppos + 2] == Word(n) && toks[c.ppos + 3] == Word(v)
    requires Visible(toks, c.ppos + 1) && Visible(toks, c.ppos + 2)
    ensures ParseTokenHash(toks, c) == Skip(c, 4)
  {
    Step(toks, c);
    Step(toks, Skip(c, 1));
    assert Skip(Skip(c, 1), 1) == Skip(c, 2);
  }

  /**
   * `# define N` followed by anything but a word (a line break included)
   * or by the end: there is no value, and only the name is consumed.
   */
  lemma DefineWithoutValue(toks: seq<Token>, c: Cursor, n: string)
    requires Ahead(toks, c, 3) && toks[c.ppos + 1] == Word("define") && toks[c.ppos + 2] == Word(n)
    requires Visible(toks, c.ppos + 1) && Visible(toks, c.ppos + 2)
    requires c.ppos + 3 >= |toks| - 1 || toks[c.ppos + 3].id != Identifier
    ensures ParseTokenHash(toks, c) == Skip(c, 3)
  {
    Step(toks, c);
    Step(toks, Skip(c, 1));
    assert Skip(Skip(c, 1), 1) == Skip(c, 2);
  }

  /** `# define` must be followed by a name: otherwise "unexpected non-word" there. */
  lemma DefineNameError(toks: seq<Token>, c: Cursor)
    requires Ahead(toks, c, 3) && toks[c.ppos + 1] == Word("define") && Visible(toks, c.ppos + 1)
    requires Visible(toks, c.ppos + 2) && toks[c.ppos + 2].id != Identifier
    ensures ParseTokenHash(toks, c) == Err(Skip(c, 2), "unexpected non-word")
  {
    Step(toks, c);
    Step(toks, Skip(c, 1));
    assert Skip(Skip(c, 1), 1) == Skip(c, 2);
  }

  /** `# include "f"`: the file name is consumed, and the cursor moves past it. */
  lemma IncludeFile(toks: seq<Token>, c: Cursor, f: string)
    requires Ahead(toks, c, 3) && toks[c.ppos + 1] == Word("include") && toks[c.ppos + 2] == Token(StringLiteral, f)
    requires Visible(toks, c.ppos + 1) && Visible(toks, c.ppos + 2)
    ensures ParseTokenHash(toks, c) == Advance(toks, Skip(c, 2))
  {
    Step(toks, c);
    Step(toks, Skip(c, 1));
    assert Skip(Skip(c, 1), 1) == Skip(c, 2);
  }

  /** `# include` must be followed by a string literal: otherwise "unexpected non-string-literal" there. */
  lemma IncludeError(toks: seq<Token>, c: Cursor)
    requires Ahead(toks, c, 3) && toks[c.ppos + 1] == Word("include") && Visible(toks, c.ppos + 1)
    requires Visible(toks, c.ppos + 2) && toks[c.ppos + 2].id != StringLiteral
    ensures ParseTokenHash(toks, c) == Err(Skip(c, 2), "unexpected non-string-literal")
  {
    Step(toks, c);
    Step(toks, Skip(c, 1));
    assert Skip(Skip(c, 1), 1) == Skip(c, 2);
  }

  /** `#` must be followed by a word: otherwise "unexpected non-word" there. */
  lemma DirectiveNonWord(toks: seq<Token>, c: Cursor)
    requires !c.isEOF && Visible(toks, c.ppos + 1) && toks[c.ppos + 1].id != Identifier
    ensures ParseTokenHash(toks, c) == Err(Skip(c, 1), "unexpected non-word")
  {
    Step(toks, c);
  }

  /** A directive other than `define` and `include`: "unexpected directive: " and its name. */
  lemma DirectiveUnknown(toks: seq<Token>, c: Cursor, d: string)
    requires !c.isEOF && Visible(toks, c.ppos + 1) && toks[c.ppos + 1] == Word(d) && d != "define" && d != "include"
    ensures ParseTokenHash(toks, c) == Err(Skip(c, 1), "unexpected directive: " + d)
  {
    Step(toks, c);
  }
}
