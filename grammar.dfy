/**
 * The shared sub-grammar of the IDL parser (idl/parse.go): type names,
 * identifiers and constant values. Each function takes the cursor before
 * the construct and returns what was read together with the cursor after
 * it; failures record an error and return the zero value.
 */
module Grammar {
  import opened Options
  import opened Tokens
  import opened Ast
  import opened ParseState

  /** The current token is a visible identifier. */
  predicate AtWord(toks: seq<Token>, c: Cursor)
  {
    !AtEnd(toks, c) && toks[c.ppos].id == Identifier
  }

  /**
   * `parseType`: a name, optionally `<T, ...>` template parameters, then
   * `unsigned X` / `long long` widening and a `::Name` suffix. A missing `>`
   * ends the type without recording any error.
   */
  function ParseType(toks: seq<Token>, c: Cursor): (r: (Type, Cursor))
    ensures Follows(toks, c, r.1)
    ensures AtWord(toks, c) ==> r.1.ppos > c.ppos
    ensures r.0.quantity == None
    ensures !AtWord(toks, c) ==> r.0 == NoType && Fails(c, r.1)
    decreases |toks| - c.ppos, 1
  {
    var (t0, c0) := Tok(toks, c);
    if t0.id != Identifier then
      (NoType, Report(c0, "expected type name"))
    else
      var c1 := Advance(toks, c0);
      var (t1, c2) := Tok(toks, c1);
      if t1.id == LessThan then
        var r := TemplateType(toks, Advance(toks, c2), t0.value);
        r
      else
        var r := TypeWidening(toks, c2, t0.value, []);
        r
  }

  /**
   * The rest of `parseType` after `name <`: the parameters, then `>` and
   * widening; without the `>` the type ends after the parameters.
   */
  function TemplateType(toks: seq<Token>, c: Cursor, name: string): (r: (Type, Cursor))
    ensures Follows(toks, c, r.1)
    ensures r.0.quantity == None
    decreases |toks| - c.ppos, 2
  {
    var (first, c4) := ParseType(toks, c);
    var (params, c5) := TemplateTail(toks, c4, [first]);
    var (t5, c6) := Tok(toks, c5);
    if t5.id != GreaterThan then
      (Type(name, None, params), c6)
    else
      var c7 := Advance(toks, c6);
      var r := TypeWidening(toks, c7, name, params);
      r
  }

  /** The `, T` loop inside `<...>`: appends each further parameter in order. */
  function TemplateTail(toks: seq<Token>, c: Cursor, acc: seq<Type>): (r: (seq<Type>, Cursor))
    ensures Follows(toks, c, r.1)
    decreases |toks| - c.ppos, 0
  {
    var (t, c0) := Tok(toks, c);
    if t.id != Comma then
      (acc, c0)
    else
      var c1 := Advance(toks, c0);
      var (p, c2) := ParseType(toks, c1);
      TemplateTail(toks, c2, acc + [p])
  }

  /** `unsigned` takes the next word; `long` takes a second `long`; then the `::` suffix. */
  function TypeWidening(toks: seq<Token>, c: Cursor, name: string, params: seq<Type>): (r: (Type, Cursor))
    ensures Follows(toks, c, r.1)
    ensures r.0.quantity == None && r.0.templateParameters == params
  {
    var (t, c0) := Tok(toks, c);
    if name == "unsigned" then
      if t.id != Identifier then
        (Type(name, None, params), Report(c0, "expected numeric type"))
      else
        var c1 := Advance(toks, c0);
        var r := TypeNamespace(toks, c1, name + " " + t.value, params);
        r
    else if name == "long" && t.id == Identifier && t.value == "long" then
      var c1 := Advance(toks, c0);
      var r := TypeNamespace(toks, c1, name + " " + t.value, params);
      r
    else
      var r := TypeNamespace(toks, c0, name, params);
      r
  }

  /** `Foo::Bar`: the value of whatever token follows `::` is appended. */
  function TypeNamespace(toks: seq<Token>, c: Cursor, name: string, params: seq<Type>): (r: (Type, Cursor))
    ensures Follows(toks, c, r.1)
    ensures r.0.quantity == None && r.0.templateParameters == params
  {
    var (t, c0) := Tok(toks, c);
    if t.id == Namespace then
      var c1 := Advance(toks, c0);
      var (t1, c2) := Tok(toks, c1);
      var c3 := Advance(toks, c2);
      (Type(name + "::" + t1.value, None, params), c3)
    else
      (Type(name, None, params), c0)
  }

  /**
   * `parseIdentifier`: a word, then optionally `::Word`, then optionally
   * `[Word]`, all as one text. Any missing piece records an error and
   * yields "".
   */
  function ParseIdentifier(toks: seq<Token>, c: Cursor): (r: (string, Cursor))
    ensures Follows(toks, c, r.1)
    ensures AtWord(toks, c) ==> r.1.ppos > c.ppos
    ensures !AtWord(toks, c) ==> r.0 == "" && Fails(c, r.1)
    ensures r.0 != "" ==> AtWord(toks, c)
  {
    var (t, c0) := Tok(toks, c);
    if t.id != Identifier then
      ("", Report(c0, "expected identifier"))
    else
      var c1 := Advance(toks, c0);
      var (t1, c2) := Tok(toks, c1);
      if t1.id == Namespace then
        var c3 := Advance(toks, c2);
        var (t3, c4) := Tok(toks, c3);
        if t3.id != Identifier then
          ("", Report(c4, "expected type name in namespace"))
        else
          var c5 := Advance(toks, c4);
          var r := IdentifierQuantity(toks, c5, t.value + "::" + t3.value);
          r
      else
        var r := IdentifierQuantity(toks, c2, t.value);
        r
  }

  /** The `[n]` suffix of an identifier. */
  function IdentifierQuantity(toks: seq<Token>, c: Cursor, name: string): (r: (string, Cursor))
    ensures Follows(toks, c, r.1)
    ensures r.0 == "" ==> name == "" || Fails(c, r.1)
  {
    var (t, c0) := Tok(toks, c);
    if t.id != OpenSquareBracket then
      (name, c0)
    else
      var c1 := Advance(toks, c0);
      var (t1, c2) := Tok(toks, c1);
      if t1.id != Identifier then
        ("", Report(c2, "expected quantity"))
      else
        var c3 := Advance(toks, c2);
        var (t3, c4) := Tok(toks, c3);
        if t3.id != CloseSquareBracket then
          ("", Report(c4, "expected close bracket"))
        else
          var c5 := Advance(toks, c4);
          (name + "[" + t1.value + "]", c5)
  }

  /** The token kinds a value is made of. */
  predicate IsValuePart(id: TokenId)
  {
    id == Identifier || id == LessThan || id == StringLiteral
  }

  /**
   * `parseValue`: the texts of consecutive identifier, `<` and string
   * literal tokens, wrapped in quotes when the first one is a string
   * literal.
   */
  function ParseValue(toks: seq<Token>, c: Cursor): (r: (string, Cursor))
    ensures Follows(toks, c, r.1)
    ensures (AtEnd(toks, c) || !IsValuePart(toks[c.ppos].id)) ==> r.0 == "" && Fails(c, r.1)
  {
    var (t, c0) := Tok(toks, c);
    if !IsValuePart(t.id) then
      ("", Report(c0, "expected value"))
    else
      var isString := t.id == StringLiteral;
      var (v, c1) := ValueRun(toks, c0, if isString then "\"" else "");
      (if isString then v + "\"" else v, c1)
  }

  /** The concatenation loop of `parseValue`. */
  function ValueRun(toks: seq<Token>, c: Cursor, acc: string): (r: (string, Cursor))
    ensures Follows(toks, c, r.1)
    decreases |toks| - c.ppos
  {
    var (t, c0) := Tok(toks, c);
    if !IsValuePart(t.id) then
      (acc, c0)
    else
      var c1 := Advance(toks, c0);
      ValueRun(toks, c1, acc + t.value)
  }
}
