/**
 * The IDL parser (idl/parse.go and idl/parse_*.go) as a class over the
 * fields of the Go `parser` struct. Every method is proved to leave the
 * parser in the state the matching function of the model describes;
 * `Parse` is proved to return `ParseSpec`.
 *
 * The Go pointers into the module tree are replaced by the stack of open
 * modules and the detached aggregates described in the `ParseState` module.
 */
module Parsing {
  import opened Options
  import opened Tokens
  import opened Ast
  import opened ParseState
  import Grammar
  import Constructs
  import Driver

  class Parser {
    const tokens: seq<Token>
    var contextStack: seq<Frame>
    var ppos: nat
    var errors: seq<string>
    var isEOF: bool
    var openModules: OpenModules
    var currentStruct: Struct
    var currentEnum: Enum
    var currentIface: Interface
    var currentUnion: Union

    /** The token-stream half of the state. */
    function Cur(): Cursor
      reads this`ppos, this`isEOF, this`errors
    {
      Cursor(ppos, isEOF, errors)
    }

    /** The AST half of the state. */
    function Tree(): Builder
      reads this`contextStack, this`openModules, this`currentStruct, this`currentEnum, this`currentIface, this`currentUnion
    {
      Builder(contextStack, openModules, currentStruct, currentEnum, currentIface, currentUnion)
    }

    function State(): PState
      reads this
    {
      PState(Cur(), Tree())
    }

    /** The set-up `Parse` does before its loop: an unnamed root module and a Global frame. */
    constructor (toks: seq<Token>)
      ensures tokens == toks && State() == Driver.InitialState()
    {
      tokens := toks;
      contextStack := [];
      ppos := 0;
      errors := [];
      isEOF := false;
      openModules := [EmptyModule("")];
      currentStruct := Struct("", [], []);
      currentEnum := Enum("", []);
      currentIface := Interface("", [], []);
      currentUnion := Union("", NoType, []);
      new;
      PushContext(GlobalCtx, "");
    }

    method ReportError(err: string)
      modifies this`errors
      ensures Cur() == Report(old(Cur()), err)
      ensures Tree() == old(Tree())
    {
      if !isEOF {
        errors := errors + [err];
      }
    }

    predicate HasError()
      reads this`errors
    {
      |errors| != 0
    }

    predicate AtEnd()
      reads this`ppos
    {
      ppos >= |tokens| - 1
    }

    method Tok() returns (t: Token)
      modifies this`isEOF, this`errors
      ensures (t, Cur()) == ParseState.Tok(tokens, old(Cur()))
      ensures Tree() == old(Tree())
    {
      if AtEnd() {
        isEOF := true;
        ReportError("unexpected EOF");
        return Token(Invalid, "");
      }
      return tokens[ppos];
    }

    method AdvanceNoSkip()
      modifies this`ppos
      ensures Cur() == ParseState.AdvanceNoSkip(old(Cur()))
      ensures Tree() == old(Tree())
    {
      ppos := ppos + 1;
    }

    method Advance()
      modifies this`ppos, this`isEOF, this`errors
      ensures Cur() == ParseState.Advance(tokens, old(Cur()))
      ensures Tree() == old(Tree())
    {
      ghost var goal := ParseState.Advance(tokens, Cur());
      while true
        invariant ParseState.Advance(tokens, Cur()) == goal
        decreases |tokens| - ppos
      {
        AdvanceNoSkip();
        var t := Tok();
        if t.id != EndLine {
          return;
        }
      }
    }

    method ParseType() returns (t: Type)
      modifies this`ppos, this`isEOF, this`errors
      ensures (t, Cur()) == Grammar.ParseType(tokens, old(Cur()))
      ensures Tree() == old(Tree())
      decreases |tokens| - ppos, 0
    {
      var tk := Tok();
      if tk.id != Identifier {
        ReportError("expected type name");
        return NoType;
      }
      var name := tk.value;
      Advance();
      tk := Tok();
      var params: seq<Type> := [];
      if tk.id == LessThan {
        Advance();
        params := TemplateParameters();
        tk := Tok();
        if tk.id != GreaterThan {
          return Type(name, None, params);
        }
        Advance();
      }
      t := TypeWidening(name, params);
    }

    /** The `<T, ...>` list of `parseType`, after the `<`. */
    method TemplateParameters() returns (params: seq<Type>)
      modifies this`ppos, this`isEOF, this`errors
      ensures (params, Cur()) == Grammar.TemplateTail(tokens, Grammar.ParseType(tokens, old(Cur())).1,
                                                       [Grammar.ParseType(tokens, old(Cur())).0])
      ensures Tree() == old(Tree())
      decreases |tokens| - ppos, 1
    {
      var first := ParseType();
      params := [first];
      ghost var goal := Grammar.TemplateTail(tokens, Cur(), params);
      while true
        invariant Grammar.TemplateTail(tokens, Cur(), params) == goal
        decreases |tokens| - ppos
      {
        var tk := Tok();
        if tk.id != Comma {
          break;
        }
        Advance();
        var p := ParseType();
        params := params + [p];
      }
    }

    /** `unsigned X`, `long long` and the `::Name` suffix of `parseType`. */
    method TypeWidening(name0: string, params: seq<Type>) returns (t: Type)
      modifies this`ppos, this`isEOF, this`errors
      ensures (t, Cur()) == Grammar.TypeWidening(tokens, old(Cur()), name0, params)
      ensures Tree() == old(Tree())
    {
      var name := name0;
      var tk := Tok();
      if name == "unsigned" {
        if tk.id != Identifier {
          ReportError("expected numeric type");
          return Type(name, None, params);
        }
        name := name + " " + tk.value;
        Advance();
        tk := Tok();
      } else if name == "long" {
        if tk.id == Identifier && tk.value == "long" {
          name := name + " " + tk.value;
          Advance();
          tk := Tok();
        }
      }
      if tk.id == Namespace {
        Advance();
        tk := Tok();
        name := name + "::" + tk.value;
        Advance();
      }
      return Type(name, None, params);
    }

    method ParseIdentifier() returns (name: string)
      modifies this`ppos, this`isEOF, this`errors
      ensures (name, Cur()) == Grammar.ParseIdentifier(tokens, old(Cur()))
      ensures Tree() == old(Tree())
    {
      var tk := Tok();
      if tk.id != Identifier {
        ReportError("expected identifier");
        return "";
      }
      name := tk.value;
      Advance();
      tk := Tok();
      if tk.id == Namespace {
        Advance();
        tk := Tok();
        if tk.id != Identifier {
          ReportError("expected type name in namespace");
          return "";
        }
        name := name + "::" + tk.value;
        Advance();
        tk := Tok();
      }
      if tk.id == OpenSquareBracket {
        Advance();
        tk := Tok();
        if tk.id != Identifier {
          ReportError("expected quantity");
          return "";
        }
        var quantity := tk.value;
        Advance();
        tk := Tok();
        if tk.id != CloseSquareBracket {
          ReportError("expected close bracket");
          return "";
        }
        Advance();
        name := name + "[" + quantity + "]";
      }
    }

    method ParseValue() returns (v: string)
      modifies this`ppos, this`isEOF, this`errors
      ensures (v, Cur()) == Grammar.ParseValue(tokens, old(Cur()))
      ensures Tree() == old(Tree())
    {
      var tk := Tok();
      if !Grammar.IsValuePart(tk.id) {
        ReportError("expected value");
        return "";
      }
      var isString := tk.id == StringLiteral;
      v := if isString then "\"" else "";
      ghost var goal := Grammar.ValueRun(tokens, Cur(), v);
      while true
        invariant Grammar.ValueRun(tokens, Cur(), v) == goal
        decreases |tokens| - ppos
      {
        tk := Tok();
        if !Grammar.IsValuePart(tk.id) {
          break;
        }
        v := v + tk.value;
        Advance();
      }
      if isString {
        v := v + "\"";
      }
    }

    method PushContext(kind: ContextKind, val: string)
      modifies this`contextStack, this`openModules, this`currentStruct, this`currentEnum, this`currentIface,
               this`currentUnion
      ensures Tree() == ParseState.PushContext(old(Tree()), kind, val)
      ensures Cur() == old(Cur())
    {
      match kind {
        case InterfaceCtx => currentIface := Interface(val, [], []);
        case StructCtx => currentStruct := Struct(val, [], []);
        case EnumCtx => currentEnum := Enum(val, []);
        case UnionCtx => currentUnion := Union(val, NoType, []);
        case ModuleCtx => openModules := openModules + [EmptyModule(val)];
        case GlobalCtx =>
      }
      contextStack := contextStack + [Frame(kind, val)];
    }

    function CurrentContext(): Frame
      reads this`contextStack
      requires |contextStack| > 0
    {
      contextStack[|contextStack| - 1]
    }

    method PopContext()
      requires |contextStack| > 0
      modifies this`contextStack, this`openModules
      ensures Tree() == ParseState.PopContext(old(Tree()))
      ensures Cur() == old(Cur())
    {
      var n := |openModules|;
      var m := openModules[n - 1];
      match CurrentContext().kind {
        case InterfaceCtx => openModules := openModules[..n - 1] + [m.(interfaces := m.interfaces + [currentIface])];
        case StructCtx => openModules := openModules[..n - 1] + [m.(structs := m.structs + [currentStruct])];
        case EnumCtx => openModules := openModules[..n - 1] + [m.(enums := m.enums + [currentEnum])];
        case UnionCtx => openModules := openModules[..n - 1] + [m.(unions := m.unions + [currentUnion])];
        case ModuleCtx =>
          if n > 1 {
            var parent := openModules[n - 2];
            assert openModules[..n - 1][..n - 2] == openModules[..n - 2];
            openModules := openModules[..n - 2] + [parent.(modules := parent.modules + [m])];
          }
        case GlobalCtx =>
      }
      contextStack := contextStack[..|contextStack| - 1];
    }
  
    method ParseModule()
      modifies this
      ensures State() == Constructs.ParseModule(tokens, old(State()))
    {
      Advance();
      var tk := Tok();
      if tk.id != Identifier {
        ReportError("expected module name");
        return;
      }
      var name := ParseIdentifier();
      tk := Tok();
      if tk.id != OpenBrace {
        ReportError("expected module contents");
        return;
      }
      Advance();
      PushContext(ModuleCtx, name);
    }

    method ParseTypedef()
      modifies this
      ensures State() == Constructs.ParseTypedef(tokens, old(State()))
    {
      Advance();
      var from := ParseType();
      ghost var c1 := Cur();
      TypedefName(from);
      assert State() == Constructs.TypedefName(tokens, c1, old(Tree()), from);
    }

    method TypedefName(from: Type)
      modifies this
      ensures State() == Constructs.TypedefName(tokens, old(Cur()), old(Tree()), from)
    {
      var tk := Tok();
      if tk.id != Identifier {
        ReportError("expected to name");
        return;
      }
      var to := ParseIdentifier();
      tk := Tok();
      if tk.id != Semicolon {
        ReportError("expected semicolon, got: " + TokenIdText(tk.id));
        return;
      }
      Advance();
      AddTypeDef(TypeDef(to, from));
    }

    /** Appends to the typedefs of the current module. */
    method AddTypeDef(td: TypeDef)
      modifies this`openModules
      ensures Tree() == ParseState.AddTypeDef(old(Tree()), td)
      ensures Cur() == old(Cur())
    {
      var m := openModules[|openModules| - 1];
      openModules := openModules[..|openModules| - 1] + [m.(typeDefs := m.typeDefs + [td])];
    }

    method ParseConst()
      modifies this
      ensures State() == Constructs.ParseConst(tokens, old(State()))
    {
      Advance();
      var typ := ParseType();
      ConstName(typ);
    }

    method ConstName(typ: Type)
      modifies this
      ensures State() == Constructs.ConstName(tokens, old(Cur()), old(Tree()), typ)
    {
      var tk := Tok();
      if tk.id != Identifier {
        ReportError("expected constant name");
        return;
      }
      var name := ParseIdentifier();
      tk := Tok();
      if tk.id != Equals {
        ReportError("expected equals");
        return;
      }
      Advance();
      ConstValue(Member(name, typ));
    }

    method ConstValue(m: Member)
      modifies this
      ensures State() == Constructs.ConstValue(tokens, old(Cur()), old(Tree()), m)
    {
      var tk := Tok();
      if tk.id != Identifier && tk.id != StringLiteral {
        ReportError("expected constant value");
        return;
      }
      var value := ParseValue();
      tk := Tok();
      if tk.id != Semicolon {
        ReportError("expected semicolon");
        return;
      }
      Advance();
      AddConstant(Constant(m, value));
    }

    /** Appends to the constants of the current module. */
    method AddConstant(k: Constant)
      modifies this`openModules
      ensures Tree() == ParseState.AddConstant(old(Tree()), k)
      ensures Cur() == old(Cur())
    {
      var m := openModules[|openModules| - 1];
      openModules := openModules[..|openModules| - 1] + [m.(constants := m.constants + [k])];
    }

    method ParseStruct()
      modifies this
      ensures State() == Constructs.ParseStruct(tokens, old(State()))
    {
      Advance();
      var tk := Tok();
      if tk.id != Identifier {
        ReportError("expected struct name");
        return;
      }
      var name := ParseIdentifier();
      StructBody(name);
    }

    method StructBody(name: string)
      modifies this
      ensures State() == Constructs.StructBody(tokens, old(Cur()), old(Tree()), name)
    {
      var inherits: seq<string> := [];
      var tk := Tok();
      if tk.id == Colon {
        var ok;
        inherits, ok := StructInheritance();
        if !ok {
          return;
        }
      }
      StructOpen(name, inherits);
    }

    method StructOpen(name: string, bases: seq<string>)
      modifies this
      ensures State() == Constructs.StructOpen(tokens, old(Cur()), old(Tree()), name, bases)
    {
      var tk := Tok();
      if tk.id != OpenBrace {
        ReportError("expected struct contents");
        return;
      }
      Advance();
      PushContext(StructCtx, name);
      currentStruct := currentStruct.(inherits := bases);
    }

    /** `: Bases`; `ok` is false when no base name follows the colon. */
    method StructInheritance() returns (bases: seq<string>, ok: bool)
      modifies this`ppos, this`isEOF, this`errors
      ensures (bases, Cur(), ok) == Constructs.StructInheritance(tokens, old(Cur()))
      ensures Tree() == old(Tree())
    {
      Advance();
      var tk := Tok();
      if tk.id != Identifier {
        ReportError("expected struct inheritance");
        return [], false;
      }
      bases := StructBases([]);
      ok := true;
    }

    /** The loop over struct base names, appending them to `acc`. */
    method StructBases(acc: seq<string>) returns (bases: seq<string>)
      modifies this`ppos, this`isEOF, this`errors
      ensures (bases, Cur()) == Constructs.StructBases(tokens, old(Cur()), acc)
      ensures Tree() == old(Tree())
    {
      bases := acc;
      ghost var goal := Constructs.StructBases(tokens, Cur(), bases);
      while true
        invariant Constructs.StructBases(tokens, Cur(), bases) == goal
        decreases |tokens| - ppos
      {
        var tk := Tok();
        if tk.id != Identifier {
          break;
        }
        var base := ParseIdentifier();
        bases := bases + [base];
        tk := Tok();
        if tk.id == Comma {
          Advance();
        }
      }
    }

    method ParseStructMember()
      modifies this
      ensures State() == Constructs.ParseStructMember(tokens, old(State()))
    {
      var typ := ParseType();
      var tk := Tok();
      if tk.id != Identifier {
        ReportError("expected member name");
        return;
      }
      var name := ParseIdentifier();
      tk := Tok();
      if tk.id != Semicolon {
        ReportError("expected semicolon");
        return;
      }
      currentStruct := currentStruct.(members := currentStruct.members + [Member(name, typ)]);
    }

    method ParseEnum()
      modifies this
      ensures State() == Constructs.ParseEnum(tokens, old(State()))
    {
      Advance();
      var tk := Tok();
      if tk.id != Identifier {
        ReportError("expected enum name");
        return;
      }
      var name := ParseIdentifier();
      tk := Tok();
      if tk.id != OpenBrace {
        ReportError("expected enum contents");
        return;
      }
      Advance();
      PushContext(EnumCtx, name);
    }

    method ParseEnumMember()
      modifies this
      ensures State() == Constructs.ParseEnumMember(tokens, old(State()))
    {
      var tk := Tok();
      if tk.id != Identifier {
        ReportError("expected enum value");
        return;
      }
      var name := tk.value;
      Advance();
      SkipCommas();
      currentEnum := currentEnum.(members := currentEnum.members + [Member(name, NoType)]);
    }

    /** The comma-eating loop after an enum member. */
    method SkipCommas()
      modifies this`ppos, this`isEOF, this`errors
      ensures Cur() == Constructs.SkipCommas(tokens, old(Cur()))
      ensures Tree() == old(Tree())
    {
      ghost var goal := Constructs.SkipCommas(tokens, Cur());
      while true
        invariant Constructs.SkipCommas(tokens, Cur()) == goal
        decreases |tokens| - ppos
      {
        var tk := Tok();
        if tk.id != Comma {
          break;
        }
        Advance();
      }
    }

    method ParseInterface()
      modifies this
      ensures State() == Constructs.ParseInterface(tokens, old(State()))
    {
      Advance();
      var tk := Tok();
      if tk.id != Identifier {
        ReportError("expected interface name");
        return;
      }
      var name := ParseIdentifier();
      InterfaceBody(name);
    }

    method InterfaceBody(name: string)
      modifies this
      ensures State() == Constructs.InterfaceBody(tokens, old(Cur()), old(Tree()), name)
    {
      var tk := Tok();
      ghost var c0, b0 := Cur(), Tree();
      if tk.id == Semicolon {
        Advance();
        DeclareInterface(name);
        assert State() == PState(ParseState.Advance(tokens, c0), ParseState.DeclareInterface(b0, name));
      } else if tk.id == OpenBrace {
        Advance();
        PushContext(InterfaceCtx, name);
        assert State() == PState(ParseState.Advance(tokens, c0), ParseState.PushContext(b0, InterfaceCtx, name));
      } else if tk.id == Colon {
        Advance();
        InterfaceInheritance(name);
        assert State() == Constructs.InterfaceInheritance(tokens, ParseState.Advance(tokens, c0), b0, name);
      } else {
        ReportError("invalid interface definition");
        assert State() == Constructs.Fail(c0, b0, "invalid interface definition");
      }
    }

    /** `interface N;`: an empty interface is opened and closed at once. */
    method DeclareInterface(name: string)
      modifies this`contextStack, this`openModules, this`currentStruct, this`currentEnum, this`currentIface,
               this`currentUnion
      ensures Tree() == ParseState.DeclareInterface(old(Tree()), name)
      ensures Cur() == old(Cur())
    {
      PushContext(InterfaceCtx, name);
      PopContext();
    }

    method InterfaceInheritance(name: string)
      modifies this
      ensures State() == Constructs.InterfaceInheritance(tokens, old(Cur()), old(Tree()), name)
    {
      var tk := Tok();
      if tk.id != Identifier {
        ReportError("expected interface inheritance name");
        return;
      }
      var inherits, ok := InterfaceBases([]);
      if !ok {
        return;
      }
      tk := Tok();
      if tk.id != OpenBrace {
        ReportError("expected open brace");
        return;
      }
      Advance();
      PushContext(InterfaceCtx, name);
      currentIface := currentIface.(inherits := inherits);
    }

    /** The loop over interface base names; `ok` is false when a name is followed by neither `,` nor `{`. */
    method InterfaceBases(acc: seq<string>) returns (bases: seq<string>, ok: bool)
      modifies this`ppos, this`isEOF, this`errors
      ensures (bases, Cur(), ok) == Constructs.InterfaceBases(tokens, old(Cur()), acc)
      ensures Tree() == old(Tree())
    {
      bases := acc;
      ghost var goal := Constructs.InterfaceBases(tokens, Cur(), bases);
      while true
        invariant Constructs.InterfaceBases(tokens, Cur(), bases) == goal
        decreases |tokens| - ppos
      {
        var tk := Tok();
        if tk.id != Identifier {
          break;
        }
        var base := ParseIdentifier();
        bases := bases + [base];
        tk := Tok();
        if tk.id == Comma {
          Advance();
        } else if tk.id != OpenBrace {
          ReportError("expected open brace");
          return bases, false;
        }
      }
      ok := true;
    }

    method ParseInterfaceMember()
      modifies this
      ensures State() == Constructs.ParseInterfaceMember(tokens, old(State()))
    {
      var returnType := ParseType();
      MethodName(returnType);
    }

    method MethodName(returnType: Type)
      modifies this
      ensures State() == Constructs.MethodName(tokens, old(Cur()), old(Tree()), returnType)
    {
      var tk := Tok();
      if tk.id != Identifier {
        ReportError("expected interface member name");
        return;
      }
      var name := ParseIdentifier();
      tk := Tok();
      if tk.id != OpenBracket {
        ReportError("expected open bracket");
        return;
      }
      Advance();
      MethodParams(name, returnType);
    }

    method MethodParams(name: string, returnType: Type)
      modifies this
      ensures State() == Constructs.MethodParams(tokens, old(Cur()), old(Tree()), name, returnType)
    {
      var tk := Tok();
      if tk.id == CloseBracket {
        Advance();
        tk := Tok();
        if tk.id != Semicolon {
          ReportError("expected semicolon");
          return;
        }
        Advance();
        currentIface := currentIface.(methods := currentIface.methods + [Method(name, returnType, [])]);
        return;
      }
      var params, ok := Params([]);
      if !ok {
        return;
      }
      currentIface := currentIface.(methods := currentIface.methods + [Method(name, returnType, params)]);
    }

    /** The parameter loop; `ok` is false when a direction is missing or unknown. */
    method Params(acc: seq<Parameter>) returns (params: seq<Parameter>, ok: bool)
      modifies this`ppos, this`isEOF, this`errors
      ensures (params, Cur(), ok) == Constructs.Params(tokens, old(Cur()), acc)
      ensures Tree() == old(Tree())
    {
      params := acc;
      ghost var goal := Constructs.Params(tokens, Cur(), params);
      while true
        invariant Constructs.Params(tokens, Cur(), params) == goal
        decreases |tokens| - ppos
      {
        var tk := Tok();
        if tk.id != Identifier {
          ReportError("expected direction");
          return params, false;
        }
        var dir := Constructs.DirectionOf(tk.value);
        if dir.None? {
          ReportError("unexpected direction");
          return params, false;
        }
        var param, closed := Param(dir.value);
        params := params + [param];
        if closed {
          return params, true;
        }
      }
    }

    /** One parameter after its direction. */
    method Param(dir: Direction) returns (param: Parameter, closed: bool)
      modifies this`ppos, this`isEOF, this`errors
      ensures (param, Cur(), closed) == Constructs.Param(tokens, old(Cur()), dir)
      ensures Tree() == old(Tree())
    {
      Advance();
      var typ := ParseType();
      var paramName := "";
      var tk := Tok();
      if tk.id == Identifier {
        paramName := ParseIdentifier();
      }
      param := Parameter(dir, typ, paramName);
      tk := Tok();
      closed := tk.id == CloseBracket;
      if !closed && tk.id == Comma {
        Advance();
      }
    }

    method ParseUnion()
      modifies this
      ensures State() == Constructs.ParseUnion(tokens, old(State()))
    {
      Advance();
      var name := ParseIdentifier();
      if name == "" {
        ReportError("expected type in union");
        return;
      }
      UnionKeyword(name);
    }

    method UnionKeyword(name: string)
      modifies this
      ensures State() == Constructs.UnionKeyword(tokens, old(Cur()), old(Tree()), name)
    {
      var keyword := ParseIdentifier();
      if keyword != "switch" {
        ReportError("expected switch after type in union");
        return;
      }
      var tk := Tok();
      if tk.id != OpenBracket {
        ReportError("expected open bracket before type in union");
        return;
      }
      Advance();
      UnionSwitch(name);
    }

    method UnionSwitch(name: string)
      modifies this
      ensures State() == Constructs.UnionSwitch(tokens, old(Cur()), old(Tree()), name)
    {
      var switchType := ParseType();
      if HasError() {
        ReportError("expected switch on type in union");
        return;
      }
      UnionOpen(name, switchType);
    }

    method UnionOpen(name: string, switchType: Type)
      modifies this
      ensures State() == Constructs.UnionOpen(tokens, old(Cur()), old(Tree()), name, switchType)
    {
      var tk := Tok();
      if tk.id != CloseBracket {
        ReportError("expected close bracket after type in union");
        return;
      }
      Advance();
      tk := Tok();
      if tk.id != OpenBrace {
        ReportError("expected open brace after type in union");
        return;
      }
      PushContext(UnionCtx, name);
      currentUnion := currentUnion.(discriminant := switchType);
    }

    method ParseUnionMember()
      modifies this
      ensures State() == Constructs.ParseUnionMember(tokens, old(State()))
    {
      var keyword := ParseIdentifier();
      if keyword != "case" {
        ReportError("expected case in union member");
        return;
      }
      UnionCaseValue();
    }

    method UnionCaseValue()
      modifies this
      ensures State() == Constructs.UnionCaseValue(tokens, old(Cur()), old(Tree()))
    {
      var tk := Tok();
      if tk.id != OpenBracket {
        ReportError("expected open bracket before type in union member");
        return;
      }
      Advance();
      UnionCaseType();
    }

    method UnionCaseType()
      modifies this
      ensures State() == Constructs.UnionCaseType(tokens, old(Cur()), old(Tree()))
    {
      var caseValue := ParseType();
      if HasError() {
        ReportError("expected type in union member");
        return;
      }
      UnionCaseTail(caseValue);
    }

    method UnionCaseTail(caseValue: Type)
      modifies this
      ensures State() == Constructs.UnionCaseTail(tokens, old(Cur()), old(Tree()), caseValue)
    {
      var tk := Tok();
      if tk.id != CloseBracket {
        ReportError("expected close bracket after type in union member");
        return;
      }
      Advance();
      tk := Tok();
      if tk.id != Colon {
        ReportError("expected colon after close bracket in union member");
        return;
      }
      Advance();
      UnionCaseVariable(caseValue);
    }

    method UnionCaseVariable(caseValue: Type)
      modifies this
      ensures State() == Constructs.UnionCaseVariable(tokens, old(Cur()), old(Tree()), caseValue)
    {
      var tk := Tok();
      if tk.id != Identifier {
        ReportError("expected var type in union member");
        return;
      }
      var memberType := ParseType();
      UnionMemberName(UnionMember(caseValue, memberType, ""));
    }

    method UnionMemberName(m: UnionMember)
      modifies this
      ensures State() == Constructs.UnionMemberName(tokens, old(Cur()), old(Tree()), m)
    {
      var tk := Tok();
      if tk.id != Identifier {
        ReportError("expected var name in union member");
        return;
      }
      var memberName := ParseIdentifier();
      tk := Tok();
      if tk.id != Semicolon {
        ReportError("expected semicolon at the end of  union member");
        return;
      }
      Advance();
      currentUnion := currentUnion.(members := currentUnion.members + [m.(memberName := memberName)]);
    }

    method ParseTokenHash()
      modifies this`ppos, this`isEOF, this`errors
      ensures Cur() == Constructs.ParseTokenHash(tokens, old(Cur()))
      ensures Tree() == old(Tree())
    {
      Advance();
      var tk := Tok();
      if tk.id != Identifier {
        ReportError("unexpected non-word");
        return;
      }
      if tk.value == "define" {
        ParseDefineDirective();
      } else if tk.value == "include" {
        ParseIncludeDirective();
      } else {
        ReportError("unexpected directive: " + tk.value);
      }
    }

    method ParseDefineDirective()
      modifies this`ppos, this`isEOF, this`errors
      ensures Cur() == Constructs.ParseDefine(tokens, old(Cur()))
      ensures Tree() == old(Tree())
    {
      Advance();
      var tk := Tok();
      if tk.id != Identifier {
        ReportError("unexpected non-word");
        return;
      }
      AdvanceNoSkip();
      if !AtEnd() {
        tk := Tok();
        if tk.id == Identifier {
          AdvanceNoSkip();
        }
      }
    }

    method ParseIncludeDirective()
      modifies this`ppos, this`isEOF, this`errors
      ensures Cur() == Constructs.ParseInclude(tokens, old(Cur()))
      ensures Tree() == old(Tree())
    {
      Advance();
      var tk := Tok();
      if tk.id != StringLiteral {
        ReportError("unexpected non-string-literal");
        return;
      }
      Advance();
    }

    /** The keyword switch of `parseTokenWord` in the global and module contexts. */
    method ParseKeyword(word: string)
      requires !isEOF
      modifies this
      ensures State() == Driver.ParseKeyword(tokens, old(State()), word)
    {
      if word == "module" {
        ParseModule();
      } else if word == "typedef" {
        ParseTypedef();
      } else if word == "struct" {
        ParseStruct();
      } else if word == "const" {
        ParseConst();
      } else if word == "enum" {
        ParseEnum();
      } else if word == "interface" {
        ParseInterface();
      } else if word == "union" {
        ParseUnion();
      } else {
        ReportError("unexpected keyword in global/module context: " + word);
      }
    }

    /** `parseTokenWord`; `crashed` when there is no context to dispatch on. */
    method ParseTokenWord() returns (crashed: bool)
      requires Grammar.AtWord(tokens, Cur()) && !isEOF
      modifies this
      ensures crashed <==> Driver.ParseTokenWord(tokens, old(State())).None?
      ensures !crashed ==> State() == Driver.ParseTokenWord(tokens, old(State())).value
    {
      var tk := Tok();
      ghost var s0 := State();
      assert s0 == old(State());
      if |contextStack| == 0 {
        return true;
      }
      ParseWord(tk.value);
      return false;
    }

    /** The dispatch of `parseTokenWord` on the current context. */
    method ParseWord(word: string)
      requires |contextStack| > 0 && !isEOF && Grammar.AtWord(tokens, Cur()) && word == tokens[ppos].value
      modifies this
      ensures State() == Driver.ParseTokenWord(tokens, old(State())).value
    {
      Driver.TokenWordDispatch(tokens, State());
      var kind := CurrentContext().kind;
      if kind == GlobalCtx || kind == ModuleCtx {
        ParseKeyword(word);
      } else {
        ParseMember(kind);
      }
    }

    /** A member line inside a struct, enum, interface or union. */
    method ParseMember(kind: ContextKind)
      requires Grammar.AtWord(tokens, Cur()) && !isEOF
      modifies this
      ensures State() == Driver.ParseMember(tokens, old(State()), kind)
    {
      if kind == StructCtx {
        ParseStructMember();
      } else if kind == EnumCtx {
        ParseEnumMember();
      } else if kind == InterfaceCtx {
        ParseInterfaceMember();
      } else {
        ParseUnionMember();
      }
    }
  }

  /** One turn of the main loop of `Parse`; `crashed` when it would index an empty context stack. */
  method Step(p: Parser) returns (crashed: bool)
    requires !AtEnd(p.tokens, p.Cur()) && !p.isEOF
    modifies p
    ensures crashed <==> Driver.Step(p.tokens, old(p.State())).None?
    ensures !crashed ==> p.State() == Driver.Step(p.tokens, old(p.State())).value
  {
    crashed := false;
    var tk := p.Tok();
    assert p.State() == old(p.State());
    match tk.id {
      case Hash => p.ParseTokenHash();
      case Identifier => crashed := p.ParseTokenWord();
      case CloseBrace =>
        if |p.contextStack| == 0 {
          return true;
        }
        p.PopContext();
        p.Advance();
      case _ => p.Advance();
    }
  }

  /** `Parse`: runs the main loop over `toks` and returns the root module, the first error or a panic. */
  method Parse(toks: seq<Token>) returns (r: Driver.ParseResult)
    ensures r == Driver.ParseSpec(toks)
  {
    var p := new Parser(toks);
    while !p.AtEnd() && !p.HasError()
      invariant p.tokens == toks
      invariant p.isEOF ==> AtEnd(toks, p.Cur())
      invariant Driver.RunLoop(toks, p.State()) == Driver.RunLoop(toks, Driver.InitialState())
      decreases |toks| - p.ppos, if p.HasError() then 0 else 1
    {
      var crashed := Step(p);
      if crashed {
        return Driver.Panicked(Driver.IndexOutOfRange);
      }
    }
    if |p.contextStack| == 0 {
      return Driver.Panicked(Driver.IndexOutOfRange);
    }
    p.PopContext();
    if p.HasError() {
      return Driver.Failed(p.errors[0]);
    }
    if |p.contextStack| > 0 {
      return Driver.Panicked(Driver.TooManyContexts);
    }
    return Driver.Parsed(p.openModules[0]);
  }
}
