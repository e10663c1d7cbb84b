/**
 * The construct parsers of the IDL parser (idl/parse_*.go), each as a
 * function from the parser state before the construct to the state after
 * it. A construct that fails records its error and leaves the AST being
 * built as it was, except where noted: the Go code goes on after a failure
 * inside `parseIdentifier`, and so does the model.
 *
 * Directives only move the cursor, so they take and return a `Cursor`.
 */
module Constructs {
  import opened Options
  import opened Tokens
  import opened Ast
  import opened ParseState
  import opened Grammar

  /** The state with an error recorded and the AST as it was. */
  function Fail(c: Cursor, b: Builder, err: string): PState
  {
    PState(Report(c, err), b)
  }

  /** `module Name {`: opens a child module. */
  function ParseModule(toks: seq<Token>, s: PState): (r: PState)
    ensures r.b == s.b ==> Fails(s.cur, r.cur)
    ensures Follows(toks, s.cur, r.cur) && r.cur.ppos > s.cur.ppos
    ensures r.b == s.b || (|r.b.stack| > 0 && r.b == PushContext(s.b, ModuleCtx, CurrentContext(r.b).value))
  {
    var c0 := Advance(toks, s.cur);
    var (t, c1) := Tok(toks, c0);
    if t.id != Identifier then Fail(c1, s.b, "expected module name")
    else
      var (name, c2) := ParseIdentifier(toks, c1);
      var (t2, c3) := Tok(toks, c2);
      if t2.id != OpenBrace then Fail(c3, s.b, "expected module contents")
      else
        var c4 := Advance(toks, c3);
        PushedIsCurrent(s.b, ModuleCtx, name);
        PState(c4, PushContext(s.b, ModuleCtx, name))
  }

  /** `typedef Type Name;`: appends a typedef to the current module. */
  function ParseTypedef(toks: seq<Token>, s: PState): (r: PState)
    ensures r.b == s.b ==> Fails(s.cur, r.cur)
    ensures Follows(toks, s.cur, r.cur) && r.cur.ppos > s.cur.ppos
    ensures r.b == s.b || (|Top(r.b).typeDefs| > 0 && r.b == AddTypeDef(s.b, Top(r.b).typeDefs[|Top(r.b).typeDefs| - 1]))
  {
    var c0 := Advance(toks, s.cur);
    var (from, c1) := ParseType(toks, c0);
    TypedefName(toks, c1, s.b, from)
  }

  /** The `Name;` that ends a typedef of `from`. */
  function TypedefName(toks: seq<Token>, c: Cursor, b: Builder, from: Type): (r: PState)
    ensures r.b == b ==> Fails(c, r.cur)
    ensures Follows(toks, c, r.cur)
    ensures r.b == b || (|Top(r.b).typeDefs| > 0 && r.b == AddTypeDef(b, Top(r.b).typeDefs[|Top(r.b).typeDefs| - 1]))
  {
    var (t, c0) := Tok(toks, c);
    if t.id != Identifier then Fail(c0, b, "expected to name")
    else
      var (to, c1) := ParseIdentifier(toks, c0);
      var (t1, c2) := Tok(toks, c1);
      if t1.id != Semicolon then Fail(c2, b, "expected semicolon, got: " + TokenIdText(t1.id))
      else
        var c3 := Advance(toks, c2);
        PState(c3, AddTypeDef(b, TypeDef(to, from)))
  }

  /** `const Type Name = Value;`: appends a constant to the current module. */
  function ParseConst(toks: seq<Token>, s: PState): (r: PState)
    ensures r.b == s.b ==> Fails(s.cur, r.cur)
    ensures Follows(toks, s.cur, r.cur) && r.cur.ppos > s.cur.ppos
    ensures r.b == s.b || (|Top(r.b).constants| > 0 && r.b == AddConstant(s.b, Top(r.b).constants[|Top(r.b).constants| - 1]))
  {
    var c0 := Advance(toks, s.cur);
    var (typ, c1) := ParseType(toks, c0);
    ConstName(toks, c1, s.b, typ)
  }

  /** The `Name =` of a constant of type `typ`. */
  function ConstName(toks: seq<Token>, c: Cursor, b: Builder, typ: Type): (r: PState)
    ensures r.b == b ==> Fails(c, r.cur)
    ensures Follows(toks, c, r.cur)
    ensures r.b == b || (|Top(r.b).constants| > 0 && r.b == AddConstant(b, Top(r.b).constants[|Top(r.b).constants| - 1]))
  {
    var (t, c0) := Tok(toks, c);
    if t.id != Identifier then Fail(c0, b, "expected constant name")
    else
      var (name, c1) := ParseIdentifier(toks, c0);
      var (t1, c2) := Tok(toks, c1);
      if t1.id != Equals then Fail(c2, b, "expected equals")
      else
        var c3 := Advance(toks, c2);
        assert Follows(toks, c, c3);
        ConstValue(toks, c3, b, Member(name, typ))
  }

  /** The `Value;` that ends the constant `m`. */
  function ConstValue(toks: seq<Token>, c: Cursor, b: Builder, m: Member): (r: PState)
    ensures r.b == b ==> Fails(c, r.cur)
    ensures Follows(toks, c, r.cur)
    ensures r.b == b || (|Top(r.b).constants| > 0 && r.b == AddConstant(b, Top(r.b).constants[|Top(r.b).constants| - 1]))
  {
    var (t, c0) := Tok(toks, c);
    if t.id != Identifier && t.id != StringLiteral then Fail(c0, b, "expected constant value")
    else
      var (value, c1) := ParseValue(toks, c0);
      var (t1, c2) := Tok(toks, c1);
      if t1.id != Semicolon then Fail(c2, b, "expected semicolon")
      else
        var c3 := Advance(toks, c2);
        PState(c3, AddConstant(b, Constant(m, value)))
  }

  /**
   * The base list of `struct N : A, B {`. A comma between names is consumed
   * but not required; the list ends at the first token that is not a word.
   */
  function StructBases(toks: seq<Token>, c: Cursor, acc: seq<string>): (r: (seq<string>, Cursor))
    ensures Follows(toks, c, r.1)
    decreases |toks| - c.ppos
  {
    var (t, c0) := Tok(toks, c);
    if t.id != Identifier then (acc, c0)
    else
      var (name, c1) := ParseIdentifier(toks, c0);
      var (t1, c2) := Tok(toks, c1);
      var c3 := if t1.id == Comma then Advance(toks, c2) else c2;
      assert Follows(toks, c, c3);
      StructBases(toks, c3, acc + [name])
  }

  /** `: Bases` after a struct name; the flag is false when no base name follows the colon. */
  function StructInheritance(toks: seq<Token>, c: Cursor): (r: (seq<string>, Cursor, bool))
    ensures !r.2 ==> Fails(c, r.1)
    ensures Follows(toks, c, r.1)
  {
    var c0 := Advance(toks, c);
    var (t, c1) := Tok(toks, c0);
    if t.id != Identifier then ([], Report(c1, "expected struct inheritance"), false)
    else
      var (bases, c2) := StructBases(toks, c1, []);
      (bases, c2, true)
  }

  /** `struct N {` or `struct N : Bases {`: opens a struct with those bases and no members. */
  function ParseStruct(toks: seq<Token>, s: PState): (r: PState)
    ensures r.b == s.b ==> Fails(s.cur, r.cur)
    ensures Follows(toks, s.cur, r.cur) && r.cur.ppos > s.cur.ppos
    ensures r.b == s.b ||
            (r.b.stack == s.b.stack + [Frame(StructCtx, r.b.curStruct.name)] && r.b.open == s.b.open &&
             r.b.curStruct.members == [])
  {
    var c0 := Advance(toks, s.cur);
    var (t, c1) := Tok(toks, c0);
    if t.id != Identifier then Fail(c1, s.b, "expected struct name")
    else
      var (name, c2) := ParseIdentifier(toks, c1);
      StructBody(toks, c2, s.b, name)
  }

  /** What follows a struct name: optional bases, then `{`. */
  function StructBody(toks: seq<Token>, c: Cursor, b: Builder, name: string): (r: PState)
    ensures r.b == b ==> Fails(c, r.cur)
    ensures Follows(toks, c, r.cur)
    ensures r.b == b ||
            (r.b.stack == b.stack + [Frame(StructCtx, r.b.curStruct.name)] && r.b.open == b.open &&
             r.b.curStruct.members == [])
  {
    var (t, c0) := Tok(toks, c);
    var (bases, c1, ok) := if t.id != Colon then ([], c0, true) else StructInheritance(toks, c0);
    if !ok then PState(c1, b)
    else StructOpen(toks, c1, b, name, bases)
  }

  /** The `{` of a struct: opens it with the bases read before. */
  function StructOpen(toks: seq<Token>, c: Cursor, b: Builder, name: string, bases: seq<string>): (r: PState)
    ensures r.b == b ==> Fails(c, r.cur)
    ensures Follows(toks, c, r.cur)
    ensures r.b == b ||
            (r.b.stack == b.stack + [Frame(StructCtx, name)] && r.b.open == b.open &&
             r.b.curStruct == Struct(name, bases, []))
  {
    var (t, c0) := Tok(toks, c);
    if t.id != OpenBrace then Fail(c0, b, "expected struct contents")
    else
      var c1 := Advance(toks, c0);
      var b1 := PushContext(b, StructCtx, name);
      PState(c1, b1.(curStruct := b1.curStruct.(inherits := bases)))
  }

  /** `Type name;` inside a struct: appends a member; the `;` is left for the driver. */
  function ParseStructMember(toks: seq<Token>, s: PState): (r: PState)
    ensures r.b == s.b ==> Fails(s.cur, r.cur)
    ensures Follows(toks, s.cur, r.cur)
    ensures AtWord(toks, s.cur) ==> r.cur.ppos > s.cur.ppos
    ensures r.b == s.b ||
            (|r.b.curStruct.members| > 0 && r.b == AddStructMember(s.b, r.b.curStruct.members[|r.b.curStruct.members| - 1]))
  {
    var (typ, c0) := ParseType(toks, s.cur);
    var (t, c1) := Tok(toks, c0);
    if t.id != Identifier then Fail(c1, s.b, "expected member name")
    else
      var (name, c2) := ParseIdentifier(toks, c1);
      var (t2, c3) := Tok(toks, c2);
      if t2.id != Semicolon then Fail(c3, s.b, "expected semicolon")
      else PState(c3, AddStructMember(s.b, Member(name, typ)))
  }

  /** `enum N {`: opens an enum with no members. */
  function ParseEnum(toks: seq<Token>, s: PState): (r: PState)
    ensures r.b == s.b ==> Fails(s.cur, r.cur)
    ensures Follows(toks, s.cur, r.cur) && r.cur.ppos > s.cur.ppos
    ensures r.b == s.b || (|r.b.stack| > 0 && r.b == PushContext(s.b, EnumCtx, CurrentContext(r.b).value))
  {
    var c0 := Advance(toks, s.cur);
    var (t, c1) := Tok(toks, c0);
    if t.id != Identifier then Fail(c1, s.b, "expected enum name")
    else
      var (name, c2) := ParseIdentifier(toks, c1);
      var (t2, c3) := Tok(toks, c2);
      if t2.id != OpenBrace then Fail(c3, s.b, "expected enum contents")
      else
        var c4 := Advance(toks, c3);
        assert Follows(toks, s.cur, c4);
        PState(c4, PushContext(s.b, EnumCtx, name))
  }

  /** The comma-eating loop after an enum member. */
  function SkipCommas(toks: seq<Token>, c: Cursor): (r: Cursor)
    ensures Follows(toks, c, r)
    ensures !AtEnd(toks, r) ==> toks[r.ppos].id != Comma
    decreases |toks| - c.ppos
  {
    var (t, c0) := Tok(toks, c);
    if t.id != Comma then c0
    else
      var c1 := Advance(toks, c0);
      var r := SkipCommas(toks, c1);
      r
  }

  /** `Name,` inside an enum: appends a member named by the raw word, with no type. */
  function ParseEnumMember(toks: seq<Token>, s: PState): (r: PState)
    ensures r.b == s.b ==> Fails(s.cur, r.cur)
    ensures Follows(toks, s.cur, r.cur)
    ensures AtWord(toks, s.cur) ==> r.cur.ppos > s.cur.ppos
    ensures r.b == s.b ||
            (|r.b.curEnum.members| > 0 && r.b == AddEnumMember(s.b, r.b.curEnum.members[|r.b.curEnum.members| - 1]))
  {
    var (t, c0) := Tok(toks, s.cur);
    if t.id != Identifier then Fail(c0, s.b, "expected enum value")
    else
      var c1 := Advance(toks, c0);
      var c2 := SkipCommas(toks, c1);
      PState(c2, AddEnumMember(s.b, Member(t.value, NoType)))
  }

  /**
   * The base list of `interface N : A, B {`. After each name there must be a
   * `,` or a `{`; the flag is false when that check failed.
   */
  function InterfaceBases(toks: seq<Token>, c: Cursor, acc: seq<string>): (r: (seq<string>, Cursor, bool))
    ensures !r.2 ==> Fails(c, r.1)
    ensures Follows(toks, c, r.1)
    decreases |toks| - c.ppos
  {
    var (t, c0) := Tok(toks, c);
    if t.id != Identifier then (acc, c0, true)
    else
      var (name, c1) := ParseIdentifier(toks, c0);
      var (t1, c2) := Tok(toks, c1);
      if t1.id == Comma then
        var c3 := Advance(toks, c2);
        InterfaceBases(toks, c3, acc + [name])
      else if t1.id != OpenBrace then
        (acc + [name], Report(c2, "expected open brace"), false)
      else
        InterfaceBases(toks, c2, acc + [name])
  }

  /**
   * `interface N;` registers an empty interface at once; `interface N {` and
   * `interface N : Bases {` open one.
   */
  function ParseInterface(toks: seq<Token>, s: PState): (r: PState)
    ensures r.b == s.b ==> Fails(s.cur, r.cur)
    ensures Follows(toks, s.cur, r.cur) && r.cur.ppos > s.cur.ppos
    ensures r.b == s.b ||
            (r.b.stack == s.b.stack + [Frame(InterfaceCtx, r.b.curIface.name)] && r.b.open == s.b.open &&
             r.b.curIface.methods == []) ||
            (SameNesting(s.b, r.b) && |Top(r.b).interfaces| > 0 &&
             r.b == DeclareInterface(s.b, Top(r.b).interfaces[|Top(r.b).interfaces| - 1].name))
  {
    var c0 := Advance(toks, s.cur);
    var (t, c1) := Tok(toks, c0);
    if t.id != Identifier then Fail(c1, s.b, "expected interface name")
    else
      var (name, c2) := ParseIdentifier(toks, c1);
      InterfaceBodyShape(toks, c2, s.b, name);
      InterfaceBody(toks, c2, s.b, name)
  }

  /** What follows an interface name: `;`, `{`, or `: Bases {`. */
  function InterfaceBody(toks: seq<Token>, c: Cursor, b: Builder, name: string): (r: PState)
    ensures Follows(toks, c, r.cur)
  {
    var (t, c0) := Tok(toks, c);
    if t.id == Semicolon then
      var c1 := Advance(toks, c0);
      PState(c1, DeclareInterface(b, name))
    else if t.id == OpenBrace then
      var c1 := Advance(toks, c0);
      PState(c1, PushContext(b, InterfaceCtx, name))
    else if t.id == Colon then
      var c1 := Advance(toks, c0);
      var r := InterfaceInheritance(toks, c1, b, name);
      r
    else Fail(c0, b, "invalid interface definition")
  }

  /**
   * What an interface heading does to the AST: nothing, open an interface
   * frame, or (for `interface N;`) append an empty interface N.
   */
  lemma InterfaceBodyShape(toks: seq<Token>, c: Cursor, b: Builder, name: string)
    ensures var r := InterfaceBody(toks, c, b, name);
            r.b == b ||
            (r.b.stack == b.stack + [Frame(InterfaceCtx, r.b.curIface.name)] && r.b.open == b.open &&
             r.b.curIface.methods == []) ||
            (SameNesting(b, r.b) && |Top(r.b).interfaces| > 0 &&
             r.b == DeclareInterface(b, Top(r.b).interfaces[|Top(r.b).interfaces| - 1].name))
    ensures var r := InterfaceBody(toks, c, b, name); r.b == b ==> Fails(c, r.cur)
  {
  }

  /** `Bases {` after `interface N :`. */
  function InterfaceInheritance(toks: seq<Token>, c: Cursor, b: Builder, name: string): (r: PState)
    ensures r.b == b ==> Fails(c, r.cur)
    ensures Follows(toks, c, r.cur)
    ensures r.b == b ||
            (r.b.stack == b.stack + [Frame(InterfaceCtx, r.b.curIface.name)] && r.b.open == b.open &&
             r.b.curIface.methods == [])
  {
    var (t, c0) := Tok(toks, c);
    if t.id != Identifier then Fail(c0, b, "expected interface inheritance name")
    else
      var (bases, c1, ok) := InterfaceBases(toks, c0, []);
      if !ok then PState(c1, b)
      else
        var (t1, c2) := Tok(toks, c1);
        if t1.id != OpenBrace then Fail(c2, b, "expected open brace")
        else
          var c3 := Advance(toks, c2);
          var b1 := PushContext(b, InterfaceCtx, name);
          PState(c3, b1.(curIface := b1.curIface.(inherits := bases)))
  }

  /** The direction keywords `in`, `out` and `inout`. */
  function DirectionOf(word: string): (r: Option<Direction>)
    ensures r.Some? <==> word in {"in", "out", "inout"}
  {
    if word == "in" then Some(In)
    else if word == "out" then Some(Out)
    else if word == "inout" then Some(InOut)
    else None
  }

  /**
   * The parameter loop of `parseInterfaceMember`: `dir Type [name]`
   * separated by commas and ended by a `)` that is left unconsumed. The flag
   * is false when a direction was missing or unknown.
   */
  function Params(toks: seq<Token>, c: Cursor, acc: seq<Parameter>): (r: (seq<Parameter>, Cursor, bool))
    ensures !r.2 ==> Fails(c, r.1)
    ensures Follows(toks, c, r.1)
    decreases |toks| - c.ppos
  {
    var (t, c0) := Tok(toks, c);
    if t.id != Identifier then (acc, Report(c0, "expected direction"), false)
    else
      match DirectionOf(t.value)
      case None => (acc, Report(c0, "unexpected direction"), false)
      case Some(dir) =>
        var (param, c1, closed) := Param(toks, c0, dir);
        var acc1 := acc + [param];
        if closed then (acc1, c1, true)
        else
          var r := Params(toks, c1, acc1);
          assert Follows(toks, c, c1);
          r
  }

  /**
   * One parameter from its direction word on: a type, an optional name, and
   * then either the closing `)` (left unconsumed; the flag is true) or an
   * optional comma.
   */
  function Param(toks: seq<Token>, c: Cursor, dir: Direction): (r: (Parameter, Cursor, bool))
    ensures Follows(toks, c, r.1) && r.1.ppos > c.ppos
    ensures r.0.direction == dir
  {
    var c0 := Advance(toks, c);
    var (typ, c1) := ParseType(toks, c0);
    var (t, c2) := Tok(toks, c1);
    var (name, c3) := if t.id == Identifier then ParseIdentifier(toks, c2) else ("", c2);
    var (t1, c4) := Tok(toks, c3);
    if t1.id == CloseBracket then (Parameter(dir, typ, name), c4, true)
    else (Parameter(dir, typ, name), if t1.id == Comma then Advance(toks, c4) else c4, false)
  }

  /** `Type name(params);` inside an interface: appends a method. */
  function ParseInterfaceMember(toks: seq<Token>, s: PState): (r: PState)
    ensures r.b == s.b ==> Fails(s.cur, r.cur)
    ensures Follows(toks, s.cur, r.cur)
    ensures AtWord(toks, s.cur) ==> r.cur.ppos > s.cur.ppos
    ensures r.b == s.b ||
            (|r.b.curIface.methods| > 0 && r.b == AddMethod(s.b, r.b.curIface.methods[|r.b.curIface.methods| - 1]))
  {
    var (ret, c0) := ParseType(toks, s.cur);
    MethodName(toks, c0, s.b, ret)
  }

  /** The name and `(` of a method returning `ret`, then its parameters. */
  function MethodName(toks: seq<Token>, c: Cursor, b: Builder, ret: Type): (r: PState)
    ensures r.b == b ==> Fails(c, r.cur)
    ensures Follows(toks, c, r.cur)
    ensures r.b == b ||
            (|r.b.curIface.methods| > 0 && r.b == AddMethod(b, r.b.curIface.methods[|r.b.curIface.methods| - 1]))
  {
    var (t, c0) := Tok(toks, c);
    if t.id != Identifier then Fail(c0, b, "expected interface member name")
    else
      var (name, c1) := ParseIdentifier(toks, c0);
      var (t1, c2) := Tok(toks, c1);
      if t1.id != OpenBracket then Fail(c2, b, "expected open bracket")
      else
        var c3 := Advance(toks, c2);
        MethodParams(toks, c3, b, name, ret)
  }

  /** The parameter list of method `name` after its `(`: `);` or the parameter loop. */
  function MethodParams(toks: seq<Token>, c: Cursor, b: Builder, name: string, ret: Type): (r: PState)
    ensures r.b == b ==> Fails(c, r.cur)
    ensures Follows(toks, c, r.cur)
    ensures r.b == b ||
            (|r.b.curIface.methods| > 0 && r.b == AddMethod(b, r.b.curIface.methods[|r.b.curIface.methods| - 1]))
  {
    var (t, c0) := Tok(toks, c);
    if t.id == CloseBracket then
      var c1 := Advance(toks, c0);
      var (t1, c2) := Tok(toks, c1);
      if t1.id != Semicolon then Fail(c2, b, "expected semicolon")
      else
        var c3 := Advance(toks, c2);
        PState(c3, AddMethod(b, Method(name, ret, [])))
    else
      var (params, c1, ok) := Params(toks, c0, []);
      if !ok then PState(c1, b)
      else PState(c1, AddMethod(b, Method(name, ret, params)))
  }

  /**
   * `union N switch (T) {`: opens a union with discriminant T. The `{` is
   * checked but left for the driver.
   */
  function ParseUnion(toks: seq<Token>, s: PState): (r: PState)
    ensures r.b == s.b ==> Fails(s.cur, r.cur)
    ensures Follows(toks, s.cur, r.cur) && r.cur.ppos > s.cur.ppos
    ensures r.b == s.b ||
            (r.b.stack == s.b.stack + [Frame(UnionCtx, r.b.curUnion.name)] && r.b.open == s.b.open &&
             r.b.curUnion.members == [])
  {
    var c0 := Advance(toks, s.cur);
    var (name, c1) := ParseIdentifier(toks, c0);
    if name == "" then Fail(c1, s.b, "expected type in union")
    else UnionKeyword(toks, c1, s.b, name)
  }

  /** The `switch (` after a union name. */
  function UnionKeyword(toks: seq<Token>, c: Cursor, b: Builder, name: string): (r: PState)
    ensures r.b == b ==> Fails(c, r.cur)
    ensures Follows(toks, c, r.cur)
    ensures r.b == b ||
            (r.b.stack == b.stack + [Frame(UnionCtx, r.b.curUnion.name)] && r.b.open == b.open &&
             r.b.curUnion.members == [])
  {
    var (keyword, c0) := ParseIdentifier(toks, c);
    if keyword != "switch" then Fail(c0, b, "expected switch after type in union")
    else
      var (t, c1) := Tok(toks, c0);
      if t.id != OpenBracket then Fail(c1, b, "expected open bracket before type in union")
      else
        var c2 := Advance(toks, c1);
        UnionSwitch(toks, c2, b, name)
  }

  /** The rest of a union heading after `switch (`: `Type) {`. */
  function UnionSwitch(toks: seq<Token>, c: Cursor, b: Builder, name: string): (r: PState)
    ensures r.b == b ==> Fails(c, r.cur)
    ensures Follows(toks, c, r.cur)
    ensures r.b == b ||
            (r.b.stack == b.stack + [Frame(UnionCtx, r.b.curUnion.name)] && r.b.open == b.open &&
             r.b.curUnion.members == [])
  {
    var (typ, c0) := ParseType(toks, c);
    if HasError(c0) then Fail(c0, b, "expected switch on type in union")
    else UnionOpen(toks, c0, b, name, typ)
  }

  /**
   * The `) {` after the discriminant type: opens the union, leaving the
   * cursor on the `{`.
   */
  function UnionOpen(toks: seq<Token>, c: Cursor, b: Builder, name: string, typ: Type): (r: PState)
    ensures r.b == b ==> Fails(c, r.cur)
    ensures Follows(toks, c, r.cur)
    ensures r.b == b ||
            (r.b.stack == b.stack + [Frame(UnionCtx, name)] && r.b.open == b.open &&
             r.b.curUnion == Union(name, typ, []))
  {
    var (t, c0) := Tok(toks, c);
    if t.id != CloseBracket then Fail(c0, b, "expected close bracket after type in union")
    else
      var c1 := Advance(toks, c0);
      var (t1, c2) := Tok(toks, c1);
      if t1.id != OpenBrace then Fail(c2, b, "expected open brace after type in union")
      else
        assert Follows(toks, c, c2);
        var b1 := PushContext(b, UnionCtx, name);
        PState(c2, b1.(curUnion := b1.curUnion.(discriminant := typ)))
  }

  /** `case (V): Type name;` inside a union: appends a case and consumes the `;`. */
  function ParseUnionMember(toks: seq<Token>, s: PState): (r: PState)
    ensures r.b == s.b ==> Fails(s.cur, r.cur)
    ensures Follows(toks, s.cur, r.cur)
    ensures AtWord(toks, s.cur) ==> r.cur.ppos > s.cur.ppos
    ensures r.b == s.b ||
            (|r.b.curUnion.members| > 0 && r.b == AddUnionMember(s.b, r.b.curUnion.members[|r.b.curUnion.members| - 1]))
  {
    var (keyword, c0) := ParseIdentifier(toks, s.cur);
    if keyword != "case" then Fail(c0, s.b, "expected case in union member")
    else UnionCaseValue(toks, c0, s.b)
  }

  /** The `(V` after `case`. */
  function UnionCaseValue(toks: seq<Token>, c: Cursor, b: Builder): (r: PState)
    ensures r.b == b ==> Fails(c, r.cur)
    ensures Follows(toks, c, r.cur)
    ensures r.b == b ||
            (|r.b.curUnion.members| > 0 && r.b == AddUnionMember(b, r.b.curUnion.members[|r.b.curUnion.members| - 1]))
  {
    var (t, c0) := Tok(toks, c);
    if t.id != OpenBracket then Fail(c0, b, "expected open bracket before type in union member")
    else
      var c1 := Advance(toks, c0);
      assert Follows(toks, c, c1);
      UnionCaseType(toks, c1, b)
  }

  /** The case value type of a union case, then the rest of the case. */
  function UnionCaseType(toks: seq<Token>, c: Cursor, b: Builder): (r: PState)
    ensures r.b == b ==> Fails(c, r.cur)
    ensures Follows(toks, c, r.cur)
    ensures r.b == b ||
            (|r.b.curUnion.members| > 0 && r.b == AddUnionMember(b, r.b.curUnion.members[|r.b.curUnion.members| - 1]))
  {
    var (caseValue, c0) := ParseType(toks, c);
    if HasError(c0) then Fail(c0, b, "expected type in union member")
    else UnionCaseTail(toks, c0, b, caseValue)
  }

  /** The part of a union case after its value: `): Type name;`. */
  function UnionCaseTail(toks: seq<Token>, c: Cursor, b: Builder, caseValue: Type): (r: PState)
    ensures r.b == b ==> Fails(c, r.cur)
    ensures Follows(toks, c, r.cur)
    ensures r.b == b ||
            (|r.b.curUnion.members| > 0 && r.b == AddUnionMember(b, r.b.curUnion.members[|r.b.curUnion.members| - 1]))
  {
    var (t, c0) := Tok(toks, c);
    if t.id != CloseBracket then Fail(c0, b, "expected close bracket after type in union member")
    else
      var c1 := Advance(toks, c0);
      var (t1, c2) := Tok(toks, c1);
      if t1.id != Colon then Fail(c2, b, "expected colon after close bracket in union member")
      else
        var c3 := Advance(toks, c2);
        assert Follows(toks, c, c3);
        UnionCaseVariable(toks, c3, b, caseValue)
  }

  /** The variable of a union case: `Type name;`. */
  function UnionCaseVariable(toks: seq<Token>, c: Cursor, b: Builder, caseValue: Type): (r: PState)
    ensures r.b == b ==> Fails(c, r.cur)
    ensures Follows(toks, c, r.cur)
    ensures r.b == b ||
            (|r.b.curUnion.members| > 0 && r.b == AddUnionMember(b, r.b.curUnion.members[|r.b.curUnion.members| - 1]))
  {
    var (t, c0) := Tok(toks, c);
    if t.id != Identifier then Fail(c0, b, "expected var type in union member")
    else
      var (memberType, c1) := ParseType(toks, c0);
      UnionMemberName(toks, c1, b, UnionMember(caseValue, memberType, ""))
  }

  /** The name and `;` that complete union case `m`, which appends it with that name. */
  function UnionMemberName(toks: seq<Token>, c: Cursor, b: Builder, m: UnionMember): (r: PState)
    ensures r.b == b ==> Fails(c, r.cur)
    ensures Follows(toks, c, r.cur)
    ensures r.b == b ||
            (|r.b.curUnion.members| > 0 &&
             r.b == AddUnionMember(b, m.(memberName := r.b.curUnion.members[|r.b.curUnion.members| - 1].memberName)))
  {
    var (t, c0) := Tok(toks, c);
    if t.id != Identifier then Fail(c0, b, "expected var name in union member")
    else
      var (memberName, c1) := ParseIdentifier(toks, c0);
      var (t1, c2) := Tok(toks, c1);
      if t1.id != Semicolon then Fail(c2, b, "expected semicolon at the end of  union member")
      else
        var c3 := Advance(toks, c2);
        assert Follows(toks, c, c3);
        PState(c3, AddUnionMember(b, m.(memberName := memberName)))
  }

  /** `#define NAME [VALUE]`: the value is taken only from the very next token. */
  function ParseDefine(toks: seq<Token>, c: Cursor): (r: Cursor)
    ensures Follows(toks, c, r) && r.ppos > c.ppos
  {
    var c0 := Advance(toks, c);
    var (t, c1) := Tok(toks, c0);
    if t.id != Identifier then Report(c1, "unexpected non-word")
    else
      var c2 := AdvanceNoSkip(c1);
      if !AtEnd(toks, c2) && toks[c2.ppos].id == Identifier then AdvanceNoSkip(c2) else c2
  }

  /** `#include "file"`. */
  function ParseInclude(toks: seq<Token>, c: Cursor): (r: Cursor)
    ensures Follows(toks, c, r) && r.ppos > c.ppos
  {
    var c0 := Advance(toks, c);
    var (t, c1) := Tok(toks, c0);
    if t.id != StringLiteral then Report(c1, "unexpected non-string-literal")
    else
      var c2 := Advance(toks, c1);
      c2
  }

  /** `#` followed by `define` or `include`. */
  function ParseTokenHash(toks: seq<Token>, c: Cursor): (r: Cursor)
    ensures Follows(toks, c, r) && r.ppos > c.ppos
  {
    var c0 := Advance(toks, c);
    var (t, c1) := Tok(toks, c0);
    if t.id != Identifier then Report(c1, "unexpected non-word")
    else if t.value == "define" then
      var r := ParseDefine(toks, c1);
      r
    else if t.value == "include" then
      var r := ParseInclude(toks, c1);
      r
    else Report(c1, "unexpected directive: " + t.value)
  }
}
