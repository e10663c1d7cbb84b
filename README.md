# idlparser in Dafny

A model of the `idl` package of idlparser together with two naming helpers of
its Go code generator. The `idl` package reads an OMG IDL text (modules,
typedefs, constants, structs, enums, interfaces, unions, `#define` and
`#include` directives). It has two stages:

- a byte-level **lexer** turns the text into classified tokens;
- a **recursive-descent parser** with a context stack builds a tree of modules from those tokens.

The generator helpers turn IDL member names into CamelCase Go names and IDL
types into Go type texts.

The model is organised as follows:

- `tokens.dfy` (`Tokens`): the token kinds in their Go order, tokens, the
  identifier byte set, and the printed form of a token kind.
- `lexer.dfy` (`Lexer`):
  - `Scan` is the specification of lexing, one loop turn per call.
  - The class `Lexer` mirrors the Go `lexer` struct: buffer, position, errors
    and tokens. Each of its methods is proved against the specification.
  - `Lex` runs the Go driver loop and is proved to return `Scan(d, 0)`.
- `lexer_properties.dfy` (`LexerProperties`): what each kind of byte
  produces, which results lexing can have at all, and one `EndLine` token
  per newline.
- `ast.dfy` (`Ast`): the tree the parser builds.
- `parse_state.dfy` (`ParseState`): the parser state as values.
  - A `Cursor` holds the position, the EOF flag and the errors.
  - A `Builder` holds the context stack, the stack of open modules and the
    aggregate being filled.
  - This module also has the token primitives `tok`/`advance` and the
    context stack operations.
- `grammar.dfy` (`Grammar`): `parseType`, `parseIdentifier` and `parseValue`.
- `grammar_properties.dfy` (`GrammarProperties`): what `parseType`,
  `parseIdentifier` and `parseValue` read from given token windows, and the
  error each records.
- `constructs.dfy` (`Constructs`): one function per construct parser in
  `parse_*.go`, split where the Go function has distinct stages.
- `construct_properties.dfy` (`ConstructProperties`): what each construct
  parser builds from given token windows (names, types, bases, parameters,
  cases, values), and the error it records at each point where it gives up.
- `driver.dfy` (`Driver`): the keyword dispatch of `parseTokenWord`, one
  turn of the main loop, the loop itself and the final checks of `Parse`.
- `parser.dfy` (`Parsing`):
  - The class `Parser` has the fields of the Go `parser` struct.
  - Every method is proved to leave the parser in the state the matching
    function above describes.
  - `Parse` is proved to return `Driver.ParseSpec`.
- `parser_properties.dfy` (`ParserProperties`): the shape of the context
  stack is kept through every turn of the main loop. A successful parse
  returns the unnamed root with every module folded in.
- `goddsgen.dfy` (`GoGen`): `identifierToGoIdentifier` and `idlTypeToGoType`.
- `scenarios.dfy` (`Scenarios`): `module M { };` lexed and parsed end to end.

The model makes the following choices:

- Go byte strings are Dafny strings holding one character per byte.
- Go panics are explicit results rather than preconditions:
  - an index out of range after a trailing `/` or `:` in the lexer;
  - an empty context stack in the parser;
  - "too many contexts";
  - slicing and indexing in the generator helpers.
- The Go pointers into the module tree (`currentModule`, `parent`, and the
  element pointers `currentStruct` and friends) become two things:
  - a stack of open modules, root first, where a child is folded into its
    parent when its frame is popped;
  - the aggregate being filled, which is appended to the current module when
    its frame is popped.

  No declaration keyword is accepted inside an aggregate, so nothing else is
  appended to that module in between. The resulting collections are therefore
  in the order Go builds them.

## Model

| member | source | states |
|---|---|---|
| Tokens.NatText | idl/lex.go:57 | the `%d` text of a token kind's number is a non-empty run of decimal digits |
| Tokens.NatTextRoundTrip | idl/lex.go:57 | reading the printed digits back gives the number again |
| Tokens.TokenIdTextNumber | idl/lex.go:14-58 | the printed form of every token kind ends in its iota value in parentheses, as `name(n)` |
| Tokens.Span | idl/lex.go:286 | a byte range is the bytes `lo`, `lo+1`, ... in order |
| Tokens.SpanIff | idl/lex.go:286 | a byte is in a range exactly when it lies between its bounds |
| Tokens.IdentifierByteIff | idl/lex.go:286 | a byte is in the identifier byte list exactly when it is a letter, a digit or `_` |
| Lexer.IdentifierByteIsWord | idl/lex.go:311-352 | an identifier byte is never a blank, a newline, `/`, `"`, `:` or a one-byte token, so the switch reaches the word case for it |
| Lexer.SingleCharTokenIff | idl/lex.go:314-349 | exactly the thirteen bytes `#{}[]();=`, newline, `,`, `<` and `>` have a token kind of their own, and none of those kinds is a word, a literal, a colon or `::` |
| Lexer.SkipBlanks | idl/lex.go:169-173 | the first position from `pos` on that holds no space or tab; everything skipped is a space or a tab |
| Lexer.FindFrom | idl/lex.go:202-224 | the first position from `pos` on holding one of the delimiters, or the buffer length; no delimiter is skipped |
| Lexer.RunEnd | idl/lex.go:175-200 | the end of the run of delimiter bytes that starts at `pos`; the byte there is not a delimiter |
| Lexer.StepAt | idl/lex.go:311-354 | one turn of the lexer switch; a turn that emits always moves past the position it started at |
| Lexer.ScanSkipsBlanks | idl/lex.go:305-310 | blanks in front of a token change nothing in the lexing result |
| Lexer.ScanAt | idl/lex.go:305-355 | lexing from a non-blank position is that position's turn followed by lexing the rest |
| Lexer.ScanTurn | idl/lex.go:305-355 | one turn of the driver loop is: skip the blanks, then one switch turn, then the rest |
| Lexer.Lexer.constructor | idl/lex.go:299-304 | a new lexer is at position 0 with no tokens and no errors |
| Lexer.Lexer.PushToken | idl/lex.go:146-155 | appends exactly one token |
| Lexer.Lexer.ReportError | idl/lex.go:157-159 | appends exactly one error |
| Lexer.Lexer.Advance | idl/lex.go:238-240 | moves one byte forward |
| Lexer.Lexer.Rewind | idl/lex.go:242-244 | moves one byte back |
| Lexer.Lexer.SkipWhitespace | idl/lex.go:169-173 | leaves the position at `SkipBlanks` of the old one |
| Lexer.Lexer.ReadUntilNot | idl/lex.go:175-200 | reads the run of delimiter bytes and leaves the cursor on its last byte; a run reaching the end of the buffer gives the "didn't find" error |
| Lexer.Lexer.ReadUntilMany | idl/lex.go:202-224 | stops on the first delimiter and returns the bytes before it; returns the "didn't find" error when there is none |
| Lexer.Lexer.ReadUntil | idl/lex.go:226-228 | `ReadUntilMany` with one delimiter |
| Lexer.Lexer.LexComment | idl/lex.go:246-250 | `//` moves to the next newline (or the end); a lone `/` does not move |
| Lexer.Lexer.LexStringLiteral | idl/lex.go:252-267 | the text between the quotes becomes a string literal token. An unterminated literal records "unterminated string literal" and pushes an empty token. A missing opening quote records an error and changes nothing else |
| Lexer.Lexer.LexWord | idl/lex.go:288-295 | the run of identifier bytes becomes an identifier token, leaving the position on its last byte. A word running into the end records "EOF on a word?" and pushes an empty token |
| Lexer.Lexer.LexToken | idl/lex.go:311-352 | the switch body does what `StepAt` says: the same tokens and the same next position. An error comes out as the first error and an out-of-range read as a panic |
| Lexer.Lex | idl/lex.go:299-362 | returns `Scan(d, 0)`: the tokens of the whole buffer, or the first error with no tokens, or the panic |
| LexerProperties.NewlinesAppend | idl/lex.go:342-343 | newline counts add up over concatenation |
| LexerProperties.EndLinesAppend | idl/lex.go:342-343 | `EndLine` token counts add up over concatenation |
| LexerProperties.BlanksProduceNothing | idl/lex.go:169-173 | any run of spaces and tabs may be skipped without changing the result |
| LexerProperties.LineComment | idl/lex.go:246-250 | a `//` comment extends to the first newline and contains none |
| LexerProperties.LoneSlash | idl/lex.go:312-313 | a `/` not followed by `/` is dropped |
| LexerProperties.TrailingSlash | idl/lex.go:246-250 | a `/` as the last byte reads past the end and panics |
| LexerProperties.ColonTokens | idl/lex.go:330-337 | `::` is one namespace token, a lone `:` a colon token, and a `:` as the last byte panics |
| LexerProperties.StringLiteralToken | idl/lex.go:252-267 | a quoted text becomes one string literal token; a missing closing quote fails with "unterminated string literal" |
| LexerProperties.WordToken | idl/lex.go:288-295 | the longest run of identifier bytes becomes one identifier token; a word at the end of the buffer fails with "EOF on a word?" |
| LexerProperties.WordEnd | idl/lex.go:175-200 | the word ends exactly at the first byte that is not a letter, a digit or `_` |
| LexerProperties.PunctuatorToken | idl/lex.go:314-349 | each one-byte punctuator yields its own token kind with no text, and a newline yields `EndLine` |
| LexerProperties.UnknownByteSkipped | idl/lex.go:311-354 | a byte that no case of the switch handles is dropped silently |
| LexerProperties.AllWellFormedAppend | idl/lex.go:146-155 | token lists of lexer-producible tokens stay so when joined |
| LexerProperties.StepWellFormed | idl/lex.go:311-352 | one switch turn emits only tokens the lexer can produce, or ends in one of its two errors or the panic |
| LexerProperties.ScanOutcome | idl/lex.go:299-362 | lexing ends in one of three ways: non-empty words of identifier bytes, quote-free literals and text-less punctuators; or "unterminated string literal" / "EOF on a word?"; or the out-of-range panic |
| LexerProperties.StepNewlines | idl/lex.go:342-343 | outside comments and literals, a switch turn emits one `EndLine` per newline it passes over |
| LexerProperties.BlanksHaveNoNewline | idl/lex.go:169-173 | skipping blanks never skips a newline |
| LexerProperties.StepSplitsNewlines | idl/lex.go:342-343 | the newlines from a position on are split between the turn's tokens and the rest of the buffer |
| LexerProperties.EndLinePerNewline | idl/lex.go:299-362 | in a text without comments and string literals, a successful lexing has exactly one `EndLine` token per newline byte |
| ParseState.Report | idl/parse.go:80-87 | records an error unless EOF is flagged, and moves nothing |
| ParseState.Tok | idl/parse.go:294-301 | the current token when one remains; at the end it flags EOF and yields an `Invalid` token, and the "unexpected EOF" error is dropped because EOF is already flagged |
| ParseState.EndLinesBetweenExtend | idl/parse.go:304-313 | one more skipped `EndLine` extends a run of skipped `EndLine` tokens |
| ParseState.Advance | idl/parse.go:304-313 | moves at least one token forward and skips only `EndLine` tokens. It stops on a token that is not `EndLine`, or at the end |
| ParseState.AdvanceSkipsLineBreaks | idl/parse.go:303-313 | every token `advance` passes over, strictly between where it starts and where it stops, is an `EndLine` |
| ParseState.NoSkipStopsAtLineBreak | idl/parse.go:315-321 | `advanceAndDontSkipNewLines` moves exactly one position and stops on a line break, where `advance` goes further; it records nothing |
| ParseState.HasErrorKept | idl/parse.go:89-91 | once `hasError` holds, it holds on every later cursor, and the first error stays the same |
| ParseState.AtEndKept | idl/parse.go:273-277 | once `atEnd` holds, it holds on every later cursor |
| ParseState.WithTop | idl/parse.go:59-77 | replacing the current module changes nothing else |
| ParseState.PushContext | idl/parse.go:365-393 | pushes one frame; a module frame also opens a new empty module with that name |
| ParseState.PushedIsCurrent | idl/parse.go:365-415 | the frame just pushed is `currentContext`, and popping it gives back the context stack as it was |
| ParseState.PopContext | idl/parse.go:395-415 | drops the top frame. Closing an aggregate appends it to the current module; closing a module folds it into its parent. The root is never closed |
| ParseState.AddTypeDef | idl/parse_typedef.go:25-28 | appends the typedef to the current module's typedefs; nothing else changes: the context stack, the outer modules, the rest of the current module and the aggregates being filled are as before |
| ParseState.AddConstant | idl/parse_const.go:39-45 | appends the constant to the current module's constants; nothing else changes: the context stack, the outer modules, the rest of the current module and the aggregates being filled are as before |
| ParseState.DeclareInterface | idl/parse_interface.go:17-26 | push and immediate pop: appends an empty interface with that name to the current module; nothing else changes except the interface being filled, which is that empty interface |
| ParseState.AddStructMember | idl/parse_struct.go:75-78 | appends the member to the struct being filled, keeping its name and bases; nothing else changes: the modules, the context stack and the other aggregates are as before |
| ParseState.AddEnumMember | idl/parse_enum.go:49-52 | appends the member to the enum being filled, keeping its name; nothing else changes: the modules, the context stack and the other aggregates are as before |
| ParseState.AddMethod | idl/parse_interface.go:112 | appends the method to the interface being filled, keeping its name and bases; nothing else changes: the modules, the context stack and the other aggregates are as before |
| ParseState.AddUnionMember | idl/parse_union.go:123-127 | appends the case to the union being filled, keeping its name and discriminant; nothing else changes: the modules, the context stack and the other aggregates are as before |
| Grammar.ParseType | idl/parse.go:96-151 | cursor only moves forward; on a word it moves past it; the quantity is never set; not on a word: the empty type and an error (the token-by-token results are in `GrammarProperties`) |
| Grammar.TemplateType | idl/parse.go:109-124 | the template part of a type moves the cursor only forward and never sets the quantity |
| Grammar.TemplateTail | idl/parse.go:113-116 | the comma loop moves the cursor only forward |
| Grammar.TypeWidening | idl/parse.go:126-148 | cursor only moves forward; the template parameters read before are kept and the quantity is never set |
| Grammar.TypeNamespace | idl/parse.go:143-148 | cursor only moves forward; the template parameters read before are kept and the quantity is never set |
| Grammar.ParseIdentifier | idl/parse.go:153-197 | cursor only moves forward; on a word it moves past it; a non-empty result means it started on a word; not on a word: the empty name and an error |
| Grammar.IdentifierQuantity | idl/parse.go:174-194 | cursor only moves forward; it yields the empty name only for an empty name or after an error (or EOF) |
| Grammar.ParseValue | idl/parse.go:199-226 | cursor only moves forward; at the end, or on a token that cannot start a value: the empty value and an error |
| Grammar.ValueRun | idl/parse.go:214-219 | the value loop moves the cursor only forward |
| GrammarProperties.Step | idl/parse.go:303-313 | `advance` onto a token that is not a line break moves exactly one position and records nothing |
| GrammarProperties.TypeOfWord | idl/parse.go:96-151 | a word other than `unsigned` (and `long` not followed by `long`), followed by no `<` and no `::`, is the type of that name with no parameters, and the cursor moves past it |
| GrammarProperties.PlainTail | idl/parse.go:126-148 | after the type name, with no widening and no `::`, the type is complete as it stands |
| GrammarProperties.TypeWithTemplate | idl/parse.go:109-111 | a type name followed by `<` goes on with the template parameters |
| GrammarProperties.TemplateTypeParts | idl/parse.go:109-124 | after `<` the parameters are those the loop reads; a `>` after them is consumed and widening goes on; without a `>` the type ends there and no error is recorded |
| GrammarProperties.TemplateTailLast | idl/parse.go:113-116 | `, B` then a token other than a comma: the parameter list gains B and ends |
| GrammarProperties.ParameterPair | idl/parse.go:111-116 | `A, B` inside `<...>` gives the parameters A and B, in this order |
| GrammarProperties.TypeWithParameters | idl/parse.go:109-124 | `T<A, B>` is the type T with the two parameters in order, and the cursor moves past the `>` |
| GrammarProperties.TypeMissingGreater | idl/parse.go:118-121 | a missing `>` ends the type where the parameters end and records no error |
| GrammarProperties.TypeUnsigned | idl/parse.go:126-134 | `unsigned X` is one type named "unsigned X" |
| GrammarProperties.TypeUnsignedError | idl/parse.go:128-131 | `unsigned` followed by something other than a word records "expected numeric type" |
| GrammarProperties.TypeLongLong | idl/parse.go:135-140 | `long long` is one type named "long long" |
| GrammarProperties.TypeInNamespace | idl/parse.go:143-148 | `A::B` is one type named "A::B" |
| GrammarProperties.TypeNameError | idl/parse.go:99-102 | a type must start with a word: otherwise the empty type and "expected type name", cursor unmoved |
| GrammarProperties.IdentifierOfWord | idl/parse.go:153-160 | a word followed by neither `::` nor `[` is the identifier itself, and the cursor moves past it |
| GrammarProperties.IdentifierInNamespace | idl/parse.go:162-172 | `w::x` is read as the one identifier "w::x" |
| GrammarProperties.IdentifierWithQuantity | idl/parse.go:174-194 | `w[q]` is read as the one identifier "w[q]" |
| GrammarProperties.IdentifierError | idl/parse.go:154-157 | an identifier must start with a word: otherwise "" and "expected identifier", cursor unmoved |
| GrammarProperties.IdentifierNamespaceError | idl/parse.go:165-168 | `w::` not followed by a word gives "" and "expected type name in namespace" |
| GrammarProperties.IdentifierQuantityError | idl/parse.go:179-182 | `w[` not followed by a word gives "" and "expected quantity" |
| GrammarProperties.IdentifierBracketError | idl/parse.go:187-190 | `w[q` not followed by `]` gives "" and "expected close bracket" |
| GrammarProperties.ValueRunReadsRun | idl/parse.go:214-219 | the value loop over a run of value tokens appends their texts in order and stops right after the run |
| GrammarProperties.ValueRunStep | idl/parse.go:214-219 | one turn of the value loop on a value token followed by a visible one |
| GrammarProperties.ValueOfRun | idl/parse.go:199-226 | a value is the texts of its run of tokens run together, in quotes exactly when the first is a string literal |
| GrammarProperties.ValueOfWord | idl/parse.go:199-226 | a word followed by a token that cannot continue a value is the value itself |
| GrammarProperties.ValueOfString | idl/parse.go:207-223 | a string literal on its own is the value with its quotes put back |
| GrammarProperties.ValueError | idl/parse.go:200-205 | a value must start with a word, `<` or a string literal: otherwise "" and "expected value" |
| Constructs.ParseModule | idl/parse_module.go:7-24 | either opens exactly one module frame with its own new module, or records an error (or hits EOF) and builds nothing; always moves forward |
| Constructs.ParseTypedef | idl/parse_typedef.go:7-32 | either appends exactly one typedef to the current module, or fails and builds nothing; always moves forward |
| Constructs.TypedefName | idl/parse_typedef.go:12-28 | after the type: one typedef appended, or a failure with nothing built |
| Constructs.ParseConst | idl/parse_const.go:7-49 | either appends exactly one constant to the current module, or fails and builds nothing; always moves forward |
| Constructs.ConstName | idl/parse_const.go:12-24 | after the type: one constant appended, or a failure with nothing built |
| Constructs.ConstValue | idl/parse_const.go:26-45 | after `=`: one constant appended, or a failure with nothing built |
| Constructs.StructBases | idl/parse_struct.go:30-41 | the bases loop moves the cursor only forward |
| Constructs.StructInheritance | idl/parse_struct.go:20-42 | reads the optional `: A, B` list; when it reports failure, an error was recorded or EOF hit |
| Constructs.ParseStruct | idl/parse_struct.go:9-52 | either opens exactly one struct frame with an empty struct, or fails and builds nothing; always moves forward |
| Constructs.StructBody | idl/parse_struct.go:19-52 | after the name: one struct frame opened with an empty struct, or a failure with nothing built |
| Constructs.StructOpen | idl/parse_struct.go:44-52 | at `{`: opens the struct with exactly that name and those bases and no members; otherwise fails |
| Constructs.ParseStructMember | idl/parse_struct.go:56-79 | either appends exactly one member to the struct being filled, or fails and builds nothing; moves forward when it starts on a word |
| Constructs.ParseEnum | idl/parse_enum.go:9-26 | either opens exactly one enum frame with an empty enum, or fails and builds nothing; always moves forward |
| Constructs.SkipCommas | idl/parse_enum.go:41-44 | stops on the first token that is not a comma |
| Constructs.ParseEnumMember | idl/parse_enum.go:30-53 | either appends exactly one member to the enum being filled, or fails and builds nothing; moves forward when it starts on a word |
| Constructs.InterfaceBases | idl/parse_interface.go:48-62 | the bases loop moves the cursor only forward; a failed list recorded an error or hit EOF |
| Constructs.ParseInterface | idl/parse_interface.go:7-77 | three outcomes: one interface frame opened with an empty interface; one forward declaration appended; or a failure with nothing built. Always moves forward |
| Constructs.InterfaceBody | idl/parse_interface.go:17-75 | after the name, the cursor only moves forward |
| Constructs.InterfaceInheritance | idl/parse_interface.go:38-73 | after `:`: one interface frame opened with an empty interface, or a failure with nothing built |
| Constructs.DirectionOf | idl/parse_interface.go:122-130 | a direction exactly for `in`, `out` and `inout` |
| Constructs.Params | idl/parse_interface.go:116-158 | the parameter loop moves the cursor only forward; a failed list recorded an error or hit EOF |
| Constructs.Param | idl/parse_interface.go:132-157 | a parameter keeps its direction, and reading it always moves forward |
| Constructs.ParseInterfaceMember | idl/parse_interface.go:79-162 | either appends exactly one method to the interface being filled, or fails and builds nothing; moves forward when it starts on a word |
| Constructs.MethodName | idl/parse_interface.go:82-93 | after the return type: one method appended, or a failure with nothing built |
| Constructs.MethodParams | idl/parse_interface.go:99-161 | after `(`: one method appended, or a failure with nothing built |
| Constructs.ParseUnion | idl/parse_union.go:8-57 | either opens exactly one union frame with an empty union, or fails and builds nothing; always moves forward |
| Constructs.UnionKeyword | idl/parse_union.go:18-57 | after the name: one union frame opened with an empty union, or a failure with nothing built |
| Constructs.UnionSwitch | idl/parse_union.go:32-57 | after `switch (`: one union frame opened with an empty union, or a failure with nothing built |
| Constructs.UnionOpen | idl/parse_union.go:39-56 | at `) {`: opens the union with exactly that name and discriminant and no members; otherwise fails |
| Constructs.ParseUnionMember | idl/parse_union.go:61-128 | either appends exactly one case to the union being filled, or fails and builds nothing; moves forward when it starts on a word |
| Constructs.UnionCaseValue | idl/parse_union.go:70-127 | after `case`: one union case appended, or a failure with nothing built |
| Constructs.UnionCaseType | idl/parse_union.go:77-127 | after `(`: one union case appended, or a failure with nothing built |
| Constructs.UnionCaseTail | idl/parse_union.go:84-127 | after the case value: one union case appended, or a failure with nothing built |
| Constructs.UnionCaseVariable | idl/parse_union.go:98-127 | after `:`: one union case appended, or a failure with nothing built |
| Constructs.UnionMemberName | idl/parse_union.go:105-127 | after the member type: the given case is appended under the name read, or a failure with nothing built |
| Constructs.ParseDefine | idl/parse_directives.go:28-50 | `#define` only moves the cursor forward, never backward |
| Constructs.ParseInclude | idl/parse_directives.go:52-64 | `#include` only moves the cursor forward, never backward |
| Constructs.ParseTokenHash | idl/parse_directives.go:8-26 | a directive only moves the cursor forward |
| ConstructProperties.ModuleOpens | idl/parse_module.go:7-24 | `module M {` opens exactly the module M with a module frame, and the cursor moves past the `{` |
| ConstructProperties.ModuleNameError | idl/parse_module.go:10-13 | `module` not followed by a word: "expected module name" at that token, nothing built |
| ConstructProperties.ModuleBraceError | idl/parse_module.go:17-20 | `module M` not followed by `{`: "expected module contents" at that token, nothing built |
| ConstructProperties.TypedefFromParts | idl/parse_typedef.go:7-28 | a typedef appends TypeDef(name, type) from what the shared type and identifier parsers read, and moves past the `;` |
| ConstructProperties.TypedefNameFromParts | idl/parse_typedef.go:12-15 | a typedef type not followed by a word: "expected to name" there, nothing built |
| ConstructProperties.TypedefSemicolonFromParts | idl/parse_typedef.go:19-22 | a typedef name not followed by `;`: "expected semicolon, got: " and the kind found |
| ConstructProperties.TypedefAppends | idl/parse_typedef.go:7-28 | `typedef T N;` appends TypeDef(N, T) to the current module; the cursor moves past the `;` |
| ConstructProperties.TypedefArray | idl/parse_typedef.go:17 | `typedef T N[Q];` appends a typedef named "N[Q]" |
| ConstructProperties.TypedefNameError | idl/parse_typedef.go:12-15 | `typedef T` not followed by a name: "expected to name" at that token |
| ConstructProperties.TypedefSemicolonError | idl/parse_typedef.go:19-22 | `typedef T N` not followed by `;`: "expected semicolon, got: " and the printed kind of that token |
| ConstructProperties.ConstFromParts | idl/parse_const.go:7-45 | a constant appends Constant(Member(name, type), value) from what the shared sub-parsers read, and moves past the `;` |
| ConstructProperties.ConstNameFromParts | idl/parse_const.go:12-15 | a constant type not followed by a word: "expected constant name" there |
| ConstructProperties.ConstEqualsFromParts | idl/parse_const.go:19-22 | a constant name not followed by `=`: "expected equals" there |
| ConstructProperties.ConstValueFromParts | idl/parse_const.go:26-29 | `=` followed by neither a word nor a string literal: "expected constant value" (`<` may continue a value but not start one) |
| ConstructProperties.ConstSemicolonFromParts | idl/parse_const.go:33-36 | a constant value not followed by `;`: "expected semicolon" there |
| ConstructProperties.ConstAppends | idl/parse_const.go:7-45 | `const T N = V;` appends Constant(Member(N, T), V); the cursor moves past the `;` |
| ConstructProperties.ConstNameError | idl/parse_const.go:12-15 | `const T` not followed by a name: "expected constant name" |
| ConstructProperties.ConstEqualsError | idl/parse_const.go:19-22 | `const T N` not followed by `=`: "expected equals" |
| ConstructProperties.ConstValueError | idl/parse_const.go:26-29 | `const T N =` not followed by a word or a string literal: "expected constant value" |
| ConstructProperties.ConstSemicolonError | idl/parse_const.go:33-36 | `const T N = V` not followed by `;`: "expected semicolon" |
| ConstructProperties.StructFromParts | idl/parse_struct.go:17-51 | `struct N {` opens struct N with no bases, the name being what the identifier parser read |
| ConstructProperties.StructBasesFromParts | idl/parse_struct.go:23-51 | `struct N : Bases {` opens struct N with the bases the loop read, in order |
| ConstructProperties.StructInheritanceFromParts | idl/parse_struct.go:25-28 | `struct N :` not followed by a word: "expected struct inheritance" there |
| ConstructProperties.StructContentsFromParts | idl/parse_struct.go:44-47 | `struct N` followed by neither `:` nor `{`: "expected struct contents" there |
| ConstructProperties.StructBasesContentsFromParts | idl/parse_struct.go:44-47 | a base list not followed by `{`: "expected struct contents" there |
| ConstructProperties.StructBasesComma | idl/parse_struct.go:30-37 | a base name followed by a comma: both are consumed and the name is appended |
| ConstructProperties.StructBasesAdjacent | idl/parse_struct.go:30-41 | a base name not followed by a comma is appended all the same: the loop does not require commas |
| ConstructProperties.StructBasesEnd | idl/parse_struct.go:30 | the base list ends at the first token that is not a word, which is left unconsumed |
| ConstructProperties.StructBasesPair | idl/parse_struct.go:30-41 | `A , B {` reads the bases [A, B] and ends on the `{` |
| ConstructProperties.StructOpens | idl/parse_struct.go:9-52 | `struct S {` opens struct S with no bases and no members |
| ConstructProperties.StructWithBases | idl/parse_struct.go:9-52 | `struct S : A , B {` opens struct S with the bases [A, B] and no members |
| ConstructProperties.StructNameError | idl/parse_struct.go:12-15 | `struct` not followed by a name: "expected struct name" |
| ConstructProperties.StructInheritanceError | idl/parse_struct.go:25-28 | `struct S :` not followed by a base name: "expected struct inheritance" |
| ConstructProperties.StructContentsError | idl/parse_struct.go:44-47 | `struct S` followed by neither `:` nor `{`: "expected struct contents" |
| ConstructProperties.StructMemberFromParts | idl/parse_struct.go:56-79 | a struct member appends Member(name, type) from what the shared sub-parsers read, leaving the cursor on the `;` |
| ConstructProperties.StructMemberNameFromParts | idl/parse_struct.go:59-62 | a member type not followed by a word: "expected member name" there |
| ConstructProperties.StructMemberSemicolonFromParts | idl/parse_struct.go:66-69 | a member name not followed by `;`: "expected semicolon" there |
| ConstructProperties.StructMemberAppends | idl/parse_struct.go:56-79 | `T n;` appends Member(n, T) to the struct being filled; the cursor stays on the `;` |
| ConstructProperties.StructMemberNameError | idl/parse_struct.go:59-62 | `T` not followed by a name: "expected member name" |
| ConstructProperties.StructMemberSemicolonError | idl/parse_struct.go:66-69 | `T n` not followed by `;`: "expected semicolon" |
| ConstructProperties.EnumOpens | idl/parse_enum.go:9-26 | `enum E {` opens enum E with no members; the cursor moves past the `{` |
| ConstructProperties.EnumNameError | idl/parse_enum.go:12-15 | `enum` not followed by a name: "expected enum name" |
| ConstructProperties.EnumBraceError | idl/parse_enum.go:19-22 | `enum E` not followed by `{`: "expected enum contents" |
| ConstructProperties.EnumMemberFromParts | idl/parse_enum.go:30-52 | an enum member is the raw text of one word with no type, and the commas after it are skipped |
| ConstructProperties.EnumMemberError | idl/parse_enum.go:33-36 | an enum member that is not a word: "expected enum value" |
| ConstructProperties.SkipCommasRun | idl/parse_enum.go:41-44 | the comma loop skips a whole run of commas and stops on the token after it |
| ConstructProperties.EnumMemberComma | idl/parse_enum.go:30-52 | `V ,` then a non-comma appends the member V; the cursor moves past the comma |
| ConstructProperties.EnumMemberLast | idl/parse_enum.go:30-52 | the last member `V`, with no comma, appends V; the cursor moves past it |
| ConstructProperties.InterfaceDeclaresFromParts | idl/parse_interface.go:15-26 | `interface N;` appends an empty interface N to the current module at once |
| ConstructProperties.InterfaceOpensFromParts | idl/parse_interface.go:28-36 | `interface N {` opens interface N with no bases |
| ConstructProperties.InterfaceBasesFromParts | idl/parse_interface.go:38-72 | `interface N : Bases {` opens interface N with the bases the loop read, in order |
| ConstructProperties.InterfaceShapeFromParts | idl/parse_interface.go:75 | `interface N` followed by none of `;`, `{`, `:`: "invalid interface definition" |
| ConstructProperties.InterfaceInheritanceFromParts | idl/parse_interface.go:42-45 | `interface N :` not followed by a word: "expected interface inheritance name" |
| ConstructProperties.InterfaceBasesFailFromParts | idl/parse_interface.go:58-61 | a failed base list keeps the error it recorded and leaves the tree as it was |
| ConstructProperties.InterfaceBraceFromParts | idl/parse_interface.go:64-67 | a base list ending on anything but `{`: "expected open brace" |
| ConstructProperties.InterfaceBasesComma | idl/parse_interface.go:48-57 | a base name followed by a comma: both consumed, the name appended |
| ConstructProperties.InterfaceBasesBrace | idl/parse_interface.go:48-62 | a base name followed by `{` is the last one; the list ends on the `{` |
| ConstructProperties.InterfaceBasesMissingBrace | idl/parse_interface.go:58-61 | a base name followed by neither `,` nor `{`: "expected open brace", and the list fails |
| ConstructProperties.InterfaceBasesEnd | idl/parse_interface.go:48 | the base list ends at the first token that is not a word |
| ConstructProperties.InterfaceBasesPair | idl/parse_interface.go:48-62 | `A , B {` reads the bases [A, B] and ends on the `{` |
| ConstructProperties.InterfaceDeclares | idl/parse_interface.go:7-26 | `interface I;` appends an empty interface I to the current module; the cursor moves past the `;` |
| ConstructProperties.InterfaceOpens | idl/parse_interface.go:7-36 | `interface I {` opens interface I with no bases and no methods |
| ConstructProperties.InterfaceWithBases | idl/parse_interface.go:7-72 | `interface I : A , B {` opens interface I with the bases [A, B] and no methods |
| ConstructProperties.InterfaceNameError | idl/parse_interface.go:10-13 | `interface` not followed by a name: "expected interface name" |
| ConstructProperties.InterfaceShapeError | idl/parse_interface.go:75 | `interface I` followed by none of `;`, `{`, `:`: "invalid interface definition" |
| ConstructProperties.InterfaceInheritanceError | idl/parse_interface.go:42-45 | `interface I :` not followed by a base name: "expected interface inheritance name" |
| ConstructProperties.InterfaceBaseBraceError | idl/parse_interface.go:58-61 | `interface I : A` then neither `,` nor `{`: "expected open brace", tree as it was |
| ConstructProperties.InterfaceTrailingCommaError | idl/parse_interface.go:64-67 | `interface I : A ,` then neither a word nor `{`: "expected open brace" on that token |
| ConstructProperties.MethodHeadFromParts | idl/parse_interface.go:80-93 | the head `Ret name (` of a member: what follows is read as its parameter list |
| ConstructProperties.MethodEmptyParams | idl/parse_interface.go:104-113 | `) ;`: the method without parameters is appended and the cursor moves past the `;` |
| ConstructProperties.MethodFromParts | idl/parse_interface.go:79-113 | `Ret name ( ) ;` appends a method without parameters to the open interface |
| ConstructProperties.MethodWithParamsFromParts | idl/parse_interface.go:116-161 | `Ret name ( params )` appends the method with the parameters read, in order; the cursor stays on the `)` |
| ConstructProperties.MethodParamsFailFromParts | idl/parse_interface.go:117-130 | a failed parameter list keeps its error and leaves the tree as it was |
| ConstructProperties.MethodNameFromParts | idl/parse_interface.go:82-85 | a return type not followed by a word: "expected interface member name" |
| ConstructProperties.MethodBracketFromParts | idl/parse_interface.go:89-92 | a method name not followed by `(`: "expected open bracket" |
| ConstructProperties.MethodSemicolonFromParts | idl/parse_interface.go:107-110 | `Ret name ( )` not followed by `;`: "expected semicolon" |
| ConstructProperties.ParamClosing | idl/parse_interface.go:132-153 | `dir T n )`: a named parameter that closes the list; the cursor stays on the `)` |
| ConstructProperties.ParamComma | idl/parse_interface.go:132-156 | `dir T n ,`: a named parameter followed by a consumed comma |
| ConstructProperties.ParamsStep | idl/parse_interface.go:116-157 | a direction word whose parameter does not close the list: the loop goes on after it |
| ConstructProperties.ParamsLast | idl/parse_interface.go:116-153 | a direction word whose parameter closes the list: the loop ends on the `)` |
| ConstructProperties.ParamsDirectionMissing | idl/parse_interface.go:117-120 | a parameter not starting with a word: "expected direction" |
| ConstructProperties.ParamsDirectionUnknown | idl/parse_interface.go:122-130 | a parameter starting with a word other than `in`, `out`, `inout`: "unexpected direction" |
| ConstructProperties.MethodWithoutParams | idl/parse_interface.go:79-113 | `R m ( ) ;` appends the method m returning R, without parameters |
| ConstructProperties.MethodHeadWords | idl/parse_interface.go:80-93 | `R m (`: what follows the `(` is the parameter list of m returning R |
| ConstructProperties.MethodOneParam | idl/parse_interface.go:116-161 | the parameter list `d T x )` appends the method with that one parameter; the cursor stays on the `)` |
| ConstructProperties.MethodWithOneParam | idl/parse_interface.go:79-161 | `R m ( d T x )` appends the method m returning R with the one parameter (d T x) |
| ConstructProperties.ParamsCommaStep | idl/parse_interface.go:116-156 | `d T x ,` at the head of the list: the parameter is taken and the loop goes on after the comma |
| ConstructProperties.ParamsClosingStep | idl/parse_interface.go:116-153 | `d T x )` at the head of the list: the parameter is the last one and the loop ends on the `)` |
| ConstructProperties.ParamsTwo | idl/parse_interface.go:116-158 | `d1 T x , d2 U y )` reads the two parameters in order and ends on the `)` |
| ConstructProperties.MethodNameError | idl/parse_interface.go:82-85 | a return type not followed by a name: "expected interface member name" |
| ConstructProperties.MethodBracketError | idl/parse_interface.go:89-92 | `R m` not followed by `(`: "expected open bracket" |
| ConstructProperties.MethodSemicolonError | idl/parse_interface.go:107-110 | `R m ( )` not followed by `;`: "expected semicolon" |
| ConstructProperties.MethodDirectionError | idl/parse_interface.go:122-130 | `R m (` then a word that is no direction: "unexpected direction", tree as it was |
| ConstructProperties.UnionNameFromParts | idl/parse_union.go:11-16 | a non-empty union name: the rest of the heading follows it |
| ConstructProperties.UnionNameWords | idl/parse_union.go:9-18 | `union U` then the rest of the heading after the name |
| ConstructProperties.UnionNameError | idl/parse_union.go:11-16 | `union` not followed by a name: "expected identifier" and then "expected type in union" |
| ConstructProperties.UnionKeywordFromParts | idl/parse_union.go:18-30 | `switch (` after the name: the discriminant follows |
| ConstructProperties.UnionKeywordWords | idl/parse_union.go:18-30 | `switch (` after the union name, then the discriminant |
| ConstructProperties.UnionKeywordError | idl/parse_union.go:20-23 | a union name not followed by `switch`: "expected switch after type in union" |
| ConstructProperties.UnionBracketError | idl/parse_union.go:25-28 | `switch` not followed by `(`: "expected open bracket before type in union" |
| ConstructProperties.UnionBracketFromParts | idl/parse_union.go:25-28 | `switch` then anything but `(`, in terms of its parts |
| ConstructProperties.UnionSwitchWords | idl/parse_union.go:32-44 | with no error before, the discriminant `D` then the closing part of the heading |
| ConstructProperties.UnionSwitchError | idl/parse_union.go:32-37 | a discriminant that is not a type: "expected type name" then "expected switch on type in union" |
| ConstructProperties.UnionOpenWords | idl/parse_union.go:39-56 | `) {` after the discriminant opens the union with no cases; the cursor stays on the `{` |
| ConstructProperties.UnionCloseError | idl/parse_union.go:39-42 | the discriminant not followed by `)`: "expected close bracket after type in union" |
| ConstructProperties.UnionBraceError | idl/parse_union.go:46-49 | the `)` not followed by `{`: "expected open brace after type in union" |
| ConstructProperties.UnionHead | idl/parse_union.go:8-30 | `union U switch (`: what follows is the discriminant of union U |
| ConstructProperties.UnionTail | idl/parse_union.go:32-56 | `D ) {` after `switch (` opens the union with discriminant D |
| ConstructProperties.UnionOpens | idl/parse_union.go:8-57 | `union U switch ( D ) {` opens union U with discriminant D and no cases; the cursor stays on the `{` |
| ConstructProperties.UnionCaseFromParts | idl/parse_union.go:63-75 | `case (`: the case value follows |
| ConstructProperties.UnionCaseWords | idl/parse_union.go:63-75 | `case (` opens a union case; its value type follows |
| ConstructProperties.UnionCaseError | idl/parse_union.go:65-68 | a union member not starting with `case`: "expected case in union member" |
| ConstructProperties.UnionCaseBracketError | idl/parse_union.go:70-73 | `case` not followed by `(`: "expected open bracket before type in union member" |
| ConstructProperties.UnionCaseTypeWords | idl/parse_union.go:77-82 | the case value `V`, then the rest of the case |
| ConstructProperties.UnionCaseTypeError | idl/parse_union.go:77-82 | a case value that is not a type: "expected type name" then "expected type in union member" |
| ConstructProperties.UnionCaseTailWords | idl/parse_union.go:84-96 | `) :` after the case value, then the case variable |
| ConstructProperties.UnionCaseCloseError | idl/parse_union.go:84-87 | the case value not followed by `)`: "expected close bracket after type in union member" |
| ConstructProperties.UnionCaseColonError | idl/parse_union.go:91-94 | the `)` not followed by `:`: "expected colon after close bracket in union member" |
| ConstructProperties.UnionCaseColonFromParts | idl/parse_union.go:91-94 | `)` then anything but `:`, in terms of its parts |
| ConstructProperties.UnionCaseVariableFromParts | idl/parse_union.go:98-105 | the variable type: the variable name follows |
| ConstructProperties.UnionCaseVariableWords | idl/parse_union.go:98-105 | the variable type `T`, then the variable name |
| ConstructProperties.UnionCaseVariableError | idl/parse_union.go:98-101 | a case variable not starting with a word: "expected var type in union member" |
| ConstructProperties.UnionMemberNameFromParts | idl/parse_union.go:105-127 | a name and `;` complete the case with that name and append it |
| ConstructProperties.UnionMemberNameWords | idl/parse_union.go:105-127 | `n ;` completes the case with the name n, appends it and moves past the `;` |
| ConstructProperties.UnionMemberNameError | idl/parse_union.go:105-108 | the variable type not followed by a name: "expected var name in union member" |
| ConstructProperties.UnionMemberSemicolonError | idl/parse_union.go:112-115 | the name not followed by `;`: "expected semicolon at the end of  union member" |
| ConstructProperties.UnionCaseHead | idl/parse_union.go:63-82 | `case ( V`: what follows is the rest of a case with value V |
| ConstructProperties.UnionCaseRest | idl/parse_union.go:84-127 | `) : T n ;` after the value V appends the case (V, T, n) and moves past the `;` |
| ConstructProperties.UnionMemberAppends | idl/parse_union.go:61-128 | `case ( V ) : T n ;` appends the case (V, T, n) to the open union and moves past the `;` |
| ConstructProperties.DefineWithValue | idl/parse_directives.go:28-46 | `# define N V`: the value is the next word on the same line, and both are consumed |
| ConstructProperties.DefineWithoutValue | idl/parse_directives.go:36-49 | `# define N` followed by no word on its line, or by the end: only the name is consumed |
| ConstructProperties.DefineNameError | idl/parse_directives.go:29-34 | `# define` not followed by a name: "unexpected non-word" |
| ConstructProperties.IncludeFile | idl/parse_directives.go:52-61 | `# include "f"`: the file name is consumed and the cursor moves past it |
| ConstructProperties.IncludeError | idl/parse_directives.go:53-58 | `# include` not followed by a string literal: "unexpected non-string-literal" |
| ConstructProperties.DirectiveNonWord | idl/parse_directives.go:9-14 | `#` not followed by a word: "unexpected non-word" |
| ConstructProperties.DirectiveUnknown | idl/parse_directives.go:16-25 | a directive other than `define` and `include`: "unexpected directive: " and its name |
| Driver.ParseKeyword | idl/parse.go:238-256 | a declaration keyword always moves forward. Any other word records "unexpected keyword in global/module context: " and the word, and changes nothing else |
| Driver.ParseTokenWord | idl/parse.go:230-271 | crashes exactly when the context stack is empty; otherwise it moves forward or records an error |
| Driver.TokenWordDispatch | idl/parse.go:233-267 | global and module contexts take keywords; the other contexts take members |
| Driver.ParseMember | idl/parse.go:260-267 | a member moves forward or records an error, and never changes the nesting |
| Driver.Step | idl/parse.go:341-351 | crashes exactly on a word or `}` with an empty context stack; otherwise it moves forward or records an error |
| Driver.RunLoop | idl/parse.go:333-352 | the loop ends only at the end of the tokens or on an error |
| Driver.InitialState | idl/parse.go:325-331 | the loop starts with one Global frame and the unnamed root module |
| Parsing.Parser.constructor | idl/parse.go:325-331 | a new parser is in the initial state |
| Parsing.Parser.ReportError | idl/parse.go:80-87 | changes the cursor as `Report` does and leaves the tree alone |
| Parsing.Parser.Tok | idl/parse.go:294-301 | returns and records what `ParseState.Tok` says |
| Parsing.Parser.AdvanceNoSkip | idl/parse.go:316-321 | moves one token forward |
| Parsing.Parser.Advance | idl/parse.go:304-313 | its loop ends in the cursor `ParseState.Advance` gives |
| Parsing.Parser.ParseType | idl/parse.go:96-151 | reads what `Grammar.ParseType` reads and leaves the tree alone |
| Parsing.Parser.TemplateParameters | idl/parse.go:109-124 | the template loop agrees with `Grammar.TemplateTail` |
| Parsing.Parser.TypeWidening | idl/parse.go:126-148 | agrees with `Grammar.TypeWidening` |
| Parsing.Parser.ParseIdentifier | idl/parse.go:153-197 | agrees with `Grammar.ParseIdentifier` |
| Parsing.Parser.ParseValue | idl/parse.go:199-226 | the value loop agrees with `Grammar.ParseValue` |
| Parsing.Parser.PushContext | idl/parse.go:365-393 | changes the tree as `ParseState.PushContext` does and leaves the cursor alone |
| Parsing.Parser.PopContext | idl/parse.go:395-415 | changes the tree as `ParseState.PopContext` does and leaves the cursor alone |
| Parsing.Parser.ParseModule | idl/parse_module.go:7-24 | ends in the state `Constructs.ParseModule` gives |
| Parsing.Parser.ParseTypedef | idl/parse_typedef.go:7-32 | ends in the state `Constructs.ParseTypedef` gives |
| Parsing.Parser.TypedefName | idl/parse_typedef.go:12-28 | ends in the state `Constructs.TypedefName` gives |
| Parsing.Parser.AddTypeDef | idl/parse_typedef.go:25-28 | appends as `ParseState.AddTypeDef` does |
| Parsing.Parser.ParseConst | idl/parse_const.go:7-49 | ends in the state `Constructs.ParseConst` gives |
| Parsing.Parser.ConstName | idl/parse_const.go:12-24 | ends in the state `Constructs.ConstName` gives |
| Parsing.Parser.ConstValue | idl/parse_const.go:26-45 | ends in the state `Constructs.ConstValue` gives |
| Parsing.Parser.AddConstant | idl/parse_const.go:39-45 | appends as `ParseState.AddConstant` does |
| Parsing.Parser.ParseStruct | idl/parse_struct.go:9-52 | ends in the state `Constructs.ParseStruct` gives |
| Parsing.Parser.StructBody | idl/parse_struct.go:19-52 | ends in the state `Constructs.StructBody` gives |
| Parsing.Parser.StructOpen | idl/parse_struct.go:44-52 | ends in the state `Constructs.StructOpen` gives |
| Parsing.Parser.StructInheritance | idl/parse_struct.go:20-42 | reads what `Constructs.StructInheritance` reads |
| Parsing.Parser.StructBases | idl/parse_struct.go:30-41 | the bases loop agrees with `Constructs.StructBases` |
| Parsing.Parser.ParseStructMember | idl/parse_struct.go:56-79 | ends in the state `Constructs.ParseStructMember` gives |
| Parsing.Parser.ParseEnum | idl/parse_enum.go:9-26 | ends in the state `Constructs.ParseEnum` gives |
| Parsing.Parser.ParseEnumMember | idl/parse_enum.go:30-53 | ends in the state `Constructs.ParseEnumMember` gives |
| Parsing.Parser.SkipCommas | idl/parse_enum.go:41-44 | the comma loop agrees with `Constructs.SkipCommas` |
| Parsing.Parser.ParseInterface | idl/parse_interface.go:7-77 | ends in the state `Constructs.ParseInterface` gives |
| Parsing.Parser.InterfaceBody | idl/parse_interface.go:17-75 | ends in the state `Constructs.InterfaceBody` gives |
| Parsing.Parser.DeclareInterface | idl/parse_interface.go:17-26 | appends as `ParseState.DeclareInterface` does |
| Parsing.Parser.InterfaceInheritance | idl/parse_interface.go:38-73 | ends in the state `Constructs.InterfaceInheritance` gives |
| Parsing.Parser.InterfaceBases | idl/parse_interface.go:48-62 | the bases loop agrees with `Constructs.InterfaceBases` |
| Parsing.Parser.ParseInterfaceMember | idl/parse_interface.go:79-162 | ends in the state `Constructs.ParseInterfaceMember` gives |
| Parsing.Parser.MethodName | idl/parse_interface.go:82-93 | ends in the state `Constructs.MethodName` gives |
| Parsing.Parser.MethodParams | idl/parse_interface.go:99-161 | ends in the state `Constructs.MethodParams` gives |
| Parsing.Parser.Params | idl/parse_interface.go:116-158 | the parameter loop agrees with `Constructs.Params` |
| Parsing.Parser.Param | idl/parse_interface.go:132-157 | one parameter as `Constructs.Param` reads it |
| Parsing.Parser.ParseUnion | idl/parse_union.go:8-57 | ends in the state `Constructs.ParseUnion` gives |
| Parsing.Parser.UnionKeyword | idl/parse_union.go:18-57 | ends in the state `Constructs.UnionKeyword` gives |
| Parsing.Parser.UnionSwitch | idl/parse_union.go:32-57 | ends in the state `Constructs.UnionSwitch` gives |
| Parsing.Parser.UnionOpen | idl/parse_union.go:39-56 | ends in the state `Constructs.UnionOpen` gives |
| Parsing.Parser.ParseUnionMember | idl/parse_union.go:61-128 | ends in the state `Constructs.ParseUnionMember` gives |
| Parsing.Parser.UnionCaseValue | idl/parse_union.go:70-127 | ends in the state `Constructs.UnionCaseValue` gives |
| Parsing.Parser.UnionCaseType | idl/parse_union.go:77-127 | ends in the state `Constructs.UnionCaseType` gives |
| Parsing.Parser.UnionCaseTail | idl/parse_union.go:84-127 | ends in the state `Constructs.UnionCaseTail` gives |
| Parsing.Parser.UnionCaseVariable | idl/parse_union.go:98-127 | ends in the state `Constructs.UnionCaseVariable` gives |
| Parsing.Parser.UnionMemberName | idl/parse_union.go:105-127 | ends in the state `Constructs.UnionMemberName` gives |
| Parsing.Parser.ParseTokenHash | idl/parse_directives.go:8-26 | moves the cursor as `Constructs.ParseTokenHash` does, tree untouched |
| Parsing.Parser.ParseDefineDirective | idl/parse_directives.go:28-50 | moves the cursor as `Constructs.ParseDefine` does, tree untouched |
| Parsing.Parser.ParseIncludeDirective | idl/parse_directives.go:52-64 | moves the cursor as `Constructs.ParseInclude` does, tree untouched |
| Parsing.Parser.ParseKeyword | idl/parse.go:238-256 | ends in the state `Driver.ParseKeyword` gives |
| Parsing.Parser.ParseTokenWord | idl/parse.go:230-271 | crashes exactly when `Driver.ParseTokenWord` does, and otherwise ends in its state |
| Parsing.Parser.ParseWord | idl/parse.go:231-267 | with a frame on the stack, ends in the state `Driver.ParseTokenWord` gives |
| Parsing.Parser.ParseMember | idl/parse.go:260-267 | ends in the state `Driver.ParseMember` gives |
| Parsing.Step | idl/parse.go:334-351 | crashes exactly when `Driver.Step` has no result, and otherwise ends in its state |
| Parsing.Parse | idl/parse.go:324-363 | returns `ParseSpec`: the root module, the first error, or the panic |
| ParserProperties.ModuleFramesPush | idl/parse.go:383-392 | pushing a frame adds one to the module frame count exactly for a module frame |
| ParserProperties.InitialWellNested | idl/parse.go:325-331 | the initial state is well nested: one Global frame and the unnamed root |
| ParserProperties.PushKeepsNesting | idl/parse.go:365-393 | pushing a non-Global frame in the global or a module context keeps the stack well nested |
| ParserProperties.PopKeepsNesting | idl/parse.go:395-415 | popping any frame of a well-nested stack keeps it well nested |
| ParserProperties.GrowKeepsNesting | idl/parse.go:365-393 | a builder that keeps its nesting or pushes one frame stays well nested |
| ParserProperties.PushGrows | idl/parse.go:365-393 | leaving the builder alone, or pushing one non-Global frame, grows the nesting by at most that frame |
| ParserProperties.AggregateGrows | idl/parse.go:365-393 | opening a struct, interface or union grows the nesting by one frame |
| ParserProperties.KeywordGrows | idl/parse.go:238-256 | every declaration keyword grows the nesting by at most one frame |
| ParserProperties.KeywordKeepsNesting | idl/parse.go:238-256 | declarations in the global or a module context keep the stack well nested |
| ParserProperties.StepKeepsNesting | idl/parse.go:341-351 | every turn of the main loop keeps the stack well nested |
| ParserProperties.RunLoopKeepsNesting | idl/parse.go:333-352 | the stack is still well nested when the main loop ends |
| ParserProperties.ParsedShape | idl/parse.go:354-362 | a successful parse leaves exactly the Global frame for the final pop, and returns the unnamed root module with every child module folded in |
| ParserProperties.ParsePanics | idl/parse.go:324-363 | parsing panics only on an empty context stack or on too many contexts |
| ParserProperties.ParseFailsWithFirstError | idl/parse.go:354-362 | a failed parse returns the first error the main loop recorded, and the loop stopped on it |
| GoGen.Upper | examples/goddsgen.go:68 | ASCII lower-case letters become upper case; every other byte is unchanged |
| GoGen.IndexOf | examples/goddsgen.go:69 | the first index of the byte, or -1 exactly when it is absent |
| GoGen.SquashDropsUnderscores | examples/goddsgen.go:67-73 | the CamelCase result contains no `_`, and is shorter by exactly the number of underscores |
| GoGen.SquashPlain | examples/goddsgen.go:67-73 | a name without `_` is unchanged after its first letter |
| GoGen.SquashStep | examples/goddsgen.go:70 | removing the first `_` and upper-casing the next byte does not change the final result |
| GoGen.UnderscoreRemoved | examples/goddsgen.go:69-71 | each turn of the loop keeps whether the name ends in `_` |
| GoGen.IdentifierToGoIdentifier | examples/goddsgen.go:67-73 | the empty name panics. A name ending in `_` panics, unless it starts with `_`. A name starting with `_` is returned unchanged. Every other name is upper-cased at its start and after each `_`, with the `_` removed |
| GoGen.SquashIdempotent | examples/goddsgen.go:67-73 | converting a converted name changes nothing |
| GoGen.SquashFirstUpper | examples/goddsgen.go:68 | a converted name starts with a byte that upper-casing leaves unchanged |
| GoGen.SquashExamples | examples/goddsgen.go:66 | `foo_bar` becomes `FooBar`, and `my__x` becomes `MyX` |
| GoGen.Decimal | examples/goddsgen.go:43 | the `%d` text is non-empty and starts with `-` exactly for negative numbers |
| GoGen.DecimalRoundTrip | examples/goddsgen.go:43 | reading the `%d` text back gives the number |
| GoGen.QuantityPrefix | examples/goddsgen.go:43-45 | empty exactly when there is no quantity; otherwise `[`, the `%d` text of the quantity, `]`, and that text reads back to the quantity |
| GoGen.IdlTypeToGoType | examples/goddsgen.go:40-64 | succeeds exactly for non-sequences and one-parameter sequences, and the result starts with the quantity prefix. `unsigned long` gives `uint32`, `long` gives `int32`, `sequence<T>` gives `[]T`, any other name is copied; a two-parameter sequence panics out of range, and any other count panics with "too many params" |
| GoGen.GoTypeExamples | examples/goddsgen.go:46-52 | `unsigned long[4]` gives `[4]uint32`, `sequence<Foo>` gives `[]Foo`, and `long` gives `int32` |
| GoGen.IdlTypeToGoTypeIntended | examples/goddsgen.go:54-55 | a two-parameter sequence gives the quantity prefix, `[`, the second parameter, `]` and the first; every other type agrees with the code as written |
| GoGen.BoundedSequenceCounterexample | examples/goddsgen.go:54-55 | `sequence<Foo, 10>` panics as written, and gives `[10]Foo` as intended |
| Scenarios.LexModuleEnd | idl/lex.go:318-343 | `};` and the newline lex to their three tokens |
| Scenarios.LexModuleTail | idl/lex.go:318-343 | `{ };` and the newline lex to their four tokens |
| Scenarios.LexWordBeforeBlank | idl/lex.go:288-295 | a word followed by a blank lexes to one identifier token |
| Scenarios.LexModuleName | idl/lex.go:299-362 | `M { };` and the newline lex to five tokens |
| Scenarios.LexModuleText | idl/lex.go:299-362 | `module M { };` and a newline lex to six tokens: two words, the braces, `;` and `EndLine` |
| Scenarios.ParseModuleHeading | idl/parse_module.go:7-24 | `module M {` opens `M` and stops on the `}` |
| Scenarios.ClosedModuleShape | idl/parse.go:395-415 | closing `M` leaves the Global frame and the root holding `M` |
| Scenarios.ParseModuleClose | idl/parse.go:346-348 | `}` closes `M` |
| Scenarios.ParseModuleSemicolon | idl/parse.go:349-350 | a stray `;` is skipped and the end is reached |
| Scenarios.RunLoopTurn | idl/parse.go:333-352 | a state that is neither at the end nor failed takes one more turn |
| Scenarios.RunModuleTail | idl/parse.go:333-352 | from the `;` on, the loop finishes at the end |
| Scenarios.RunModuleClose | idl/parse.go:333-352 | from the `}` on, the loop closes `M` and finishes |
| Scenarios.RunModuleTokens | idl/parse.go:333-352 | the whole loop over the six tokens finishes with `M` closed |
| Scenarios.ParseModuleTokens | idl/parse.go:324-363 | parsing those tokens returns an unnamed root holding one empty module `M` |

## Left out

- ParseType (`Grammar.ParseType` and `Parsing.Parser.ParseType`): The contracts state how the cursor moves, that the quantity is never set, and the empty type with an error when no word starts the type. The type read from the tokens (`T`, `T<A, B>`, `unsigned X`, `long long`, `A::B`, a missing `>` recording nothing) and the error messages are stated in `GrammarProperties` (`TypeOfWord`, `TypeWithParameters`, `TypeUnsigned`, `TypeUnsignedError`, `TypeLongLong`, `TypeInNamespace`, `TypeMissingGreater`, `TypeNameError`), for token windows that name their tokens and hold no line break.
- TemplateType (`Grammar.TemplateType`): States only the cursor and the quantity; the parameters read after `<` are stated by `TemplateTypeParts`, `ParameterPair` and `TypeWithParameters`.
- TemplateTail (`Grammar.TemplateTail`): States only that the cursor moves forward; the parameters read in order are stated by `TemplateTailLast` and `ParameterPair`.
- TemplateParameters (`Parsing.Parser.TemplateParameters`): Agrees with `Grammar.TemplateTail`, whose content is stated by `TemplateTailLast` and `ParameterPair`.
- TypeWidening (`Grammar.TypeWidening` and `Parsing.Parser.TypeWidening`): The contracts keep the parameters and the quantity; `unsigned X`, `long long`, `A::B` and "expected numeric type" are stated by `TypeUnsigned`, `TypeLongLong`, `TypeInNamespace` and `TypeUnsignedError`.
- TypeNamespace (`Grammar.TypeNamespace`): The name `A::B` is stated by `TypeInNamespace`.
- ParseIdentifier (`Grammar.ParseIdentifier` and `Parsing.Parser.ParseIdentifier`): The contracts state the cursor and the empty name with an error when no word starts it. The texts `w`, `w::x`, `w[q]` and the three error messages are stated by `IdentifierOfWord`, `IdentifierInNamespace`, `IdentifierWithQuantity`, `IdentifierError`, `IdentifierNamespaceError`, `IdentifierQuantityError` and `IdentifierBracketError`, for token windows that name their tokens and hold no line break.
- IdentifierQuantity (`Grammar.IdentifierQuantity`): The `[q]` suffix and its two errors are stated by `IdentifierWithQuantity`, `IdentifierQuantityError` and `IdentifierBracketError`.
- ParseValue (`Grammar.ParseValue` and `Parsing.Parser.ParseValue`): The contracts state the cursor and the empty value with "expected value"; the texts run together, quoted exactly when the first token is a string literal, are stated by `ValueOfRun`, `ValueRunReadsRun`, `ValueOfWord` and `ValueOfString`.
- ValueRun (`Grammar.ValueRun`): The texts appended in order are stated by `ValueRunReadsRun` and `ValueRunStep`.
- ParseModule (`Constructs.ParseModule` and `Parsing.Parser.ParseModule`): The contracts say one module frame is opened or nothing is built after an error, without naming the module. The name from the tokens and the two errors are stated by `ModuleOpens`, `ModuleNameError` and `ModuleBraceError` in `ConstructProperties`, for token windows that name their tokens and hold no line break.
- ParseTypedef (`Constructs.ParseTypedef` and `Parsing.Parser.ParseTypedef`): The contracts say one typedef is appended or nothing is built, without naming it; TypeDef(N, T) from the tokens and the errors are stated by `TypedefAppends`, `TypedefArray`, `TypedefFromParts`, `TypedefNameError` and `TypedefSemicolonError`.
- TypedefName (`Constructs.TypedefName` and `Parsing.Parser.TypedefName`): The name read and "expected to name" are stated by `TypedefFromParts`, `TypedefNameFromParts` and `TypedefSemicolonFromParts`.
- AddTypeDef (`Parsing.Parser.AddTypeDef`): Appends as `ParseState.AddTypeDef` does, whose contract states what stays unchanged.
- ParseConst (`Constructs.ParseConst` and `Parsing.Parser.ParseConst`): The constant from the tokens and the four errors are stated by `ConstAppends`, `ConstFromParts`, `ConstNameError`, `ConstEqualsError`, `ConstValueError` and `ConstSemicolonError`.
- ConstName (`Constructs.ConstName` and `Parsing.Parser.ConstName`): The name read and "expected equals" are stated by `ConstFromParts`, `ConstNameFromParts` and `ConstEqualsFromParts`.
- ConstValue (`Constructs.ConstValue` and `Parsing.Parser.ConstValue`): The value from `parseValue` and the semicolon error are stated by `ConstFromParts`, `ConstValueFromParts` and `ConstSemicolonFromParts`.
- AddConstant (`Parsing.Parser.AddConstant`): Appends as `ParseState.AddConstant` does, whose contract states what stays unchanged.
- ParseStruct (`Constructs.ParseStruct` and `Parsing.Parser.ParseStruct`): The struct's name and bases from the tokens are stated by `StructOpens`, `StructWithBases`, `StructFromParts` and `StructBasesFromParts`, and the errors by `StructNameError`, `StructInheritanceError` and `StructContentsError`.
- StructBody (`Constructs.StructBody` and `Parsing.Parser.StructBody`): The `{` versus `:` dispatch and "expected struct contents" are stated by `StructFromParts`, `StructBasesFromParts` and `StructContentsFromParts`.
- StructOpen (`Constructs.StructOpen` and `Parsing.Parser.StructOpen`): That the struct opens only at `{` is stated by `StructContentsFromParts` and `StructBasesContentsFromParts`.
- StructInheritance (`Constructs.StructInheritance` and `Parsing.Parser.StructInheritance`): The bases from `: A, B` and "expected struct inheritance" are stated by `StructBasesFromParts`, `StructBasesPair` and `StructInheritanceFromParts`.
- StructBases (`Constructs.StructBases` and `Parsing.Parser.StructBases`): The bases read in order are stated by `StructBasesComma`, `StructBasesAdjacent`, `StructBasesEnd` and `StructBasesPair`.
- ParseStructMember (`Constructs.ParseStructMember` and `Parsing.Parser.ParseStructMember`): Member(name, type) from the tokens and the errors are stated by `StructMemberAppends`, `StructMemberFromParts`, `StructMemberNameError` and `StructMemberSemicolonError`.
- ParseEnum (`Constructs.ParseEnum` and `Parsing.Parser.ParseEnum`): The enum's name and the errors are stated by `EnumOpens`, `EnumNameError` and `EnumBraceError`.
- SkipCommas (`Constructs.SkipCommas` and `Parsing.Parser.SkipCommas`): That a whole run of commas is skipped is stated by `SkipCommasRun`.
- ParseEnumMember (`Constructs.ParseEnumMember` and `Parsing.Parser.ParseEnumMember`): The member from the tokens and "expected enum value" are stated by `EnumMemberComma`, `EnumMemberLast`, `EnumMemberFromParts` and `EnumMemberError`.
- ParseInterface (`Constructs.ParseInterface` and `Parsing.Parser.ParseInterface`): The three outcomes for given tokens are stated by `InterfaceDeclares`, `InterfaceOpens`, `InterfaceWithBases` and the interface error lemmas.
- InterfaceBody (`Constructs.InterfaceBody` and `Parsing.Parser.InterfaceBody`): The `;`, `{` and `:` dispatch is stated by `InterfaceDeclaresFromParts`, `InterfaceOpensFromParts`, `InterfaceBasesFromParts` and `InterfaceShapeFromParts`.
- DeclareInterface (`Parsing.Parser.DeclareInterface`): Appends as `ParseState.DeclareInterface` does, whose contract states what stays unchanged.
- InterfaceInheritance (`Constructs.InterfaceInheritance` and `Parsing.Parser.InterfaceInheritance`): The bases and the two errors are stated by `InterfaceBasesFromParts`, `InterfaceInheritanceFromParts`, `InterfaceBasesFailFromParts` and `InterfaceBraceFromParts`.
- InterfaceBases (`Constructs.InterfaceBases` and `Parsing.Parser.InterfaceBases`): The bases read in order and "expected open brace" are stated by `InterfaceBasesComma`, `InterfaceBasesBrace`, `InterfaceBasesMissingBrace`, `InterfaceBasesEnd` and `InterfaceBasesPair`.
- ParseInterfaceMember (`Constructs.ParseInterfaceMember` and `Parsing.Parser.ParseInterfaceMember`): The method from the tokens is stated by `MethodWithoutParams` and `MethodWithOneParam`, and by `MethodHeadWords` with `ParamsTwo` for two parameters (a whole two-parameter method is not stated in one lemma); the errors by `MethodNameError`, `MethodBracketError`, `MethodSemicolonError` and `MethodDirectionError`.
- MethodName (`Constructs.MethodName` and `Parsing.Parser.MethodName`): Stated by `MethodHeadFromParts`, `MethodNameFromParts` and `MethodBracketFromParts`.
- MethodParams (`Constructs.MethodParams` and `Parsing.Parser.MethodParams`): Stated by `MethodEmptyParams`, `MethodWithParamsFromParts`, `MethodParamsFailFromParts`, `MethodSemicolonFromParts` and `MethodOneParam`.
- Params (`Constructs.Params` and `Parsing.Parser.Params`): The parameters read in order and the direction errors are stated by `ParamsStep`, `ParamsLast`, `ParamsCommaStep`, `ParamsClosingStep`, `ParamsTwo`, `ParamsDirectionMissing` and `ParamsDirectionUnknown`.
- Param (`Constructs.Param` and `Parsing.Parser.Param`): The parameter (direction, type, name) is stated by `ParamClosing` and `ParamComma`.
- ParseUnion (`Constructs.ParseUnion` and `Parsing.Parser.ParseUnion`): The union's name and discriminant from the tokens are stated by `UnionOpens`, and the six heading errors by `UnionNameError`, `UnionKeywordError`, `UnionBracketError`, `UnionSwitchError`, `UnionCloseError` and `UnionBraceError`.
- UnionKeyword (`Constructs.UnionKeyword` and `Parsing.Parser.UnionKeyword`): Stated by `UnionKeywordFromParts`, `UnionKeywordWords` and `UnionKeywordError`.
- UnionSwitch (`Constructs.UnionSwitch` and `Parsing.Parser.UnionSwitch`): Stated by `UnionSwitchWords`, `UnionTail` and `UnionSwitchError`.
- UnionOpen (`Constructs.UnionOpen` and `Parsing.Parser.UnionOpen`): That the union opens only at `) {` is stated by `UnionOpenWords`, `UnionCloseError` and `UnionBraceError`.
- ParseUnionMember (`Constructs.ParseUnionMember` and `Parsing.Parser.ParseUnionMember`): The case (V, T, n) from the tokens is stated by `UnionMemberAppends`, and the errors by the `UnionCase…Error` and `UnionMember…Error` lemmas.
- UnionCaseValue (`Constructs.UnionCaseValue` and `Parsing.Parser.UnionCaseValue`): Stated by `UnionCaseFromParts`, `UnionCaseWords` and `UnionCaseBracketError`.
- UnionCaseType (`Constructs.UnionCaseType` and `Parsing.Parser.UnionCaseType`): Stated by `UnionCaseTypeWords` and `UnionCaseTypeError`.
- UnionCaseTail (`Constructs.UnionCaseTail` and `Parsing.Parser.UnionCaseTail`): Stated by `UnionCaseTailWords`, `UnionCaseCloseError`, `UnionCaseColonError` and `UnionCaseColonFromParts`.
- UnionCaseVariable (`Constructs.UnionCaseVariable` and `Parsing.Parser.UnionCaseVariable`): Stated by `UnionCaseVariableFromParts`, `UnionCaseVariableWords` and `UnionCaseVariableError`.
- UnionMemberName (`Constructs.UnionMemberName` and `Parsing.Parser.UnionMemberName`): Stated by `UnionMemberNameFromParts`, `UnionMemberNameWords`, `UnionMemberNameError` and `UnionMemberSemicolonError`.
- ParseDefine (`Constructs.ParseDefine`): The contract states only that the cursor moves forward; how far it moves and its error are stated by `DefineWithValue`, `DefineWithoutValue` and `DefineNameError`.
- ParseDefineDirective (`Parsing.Parser.ParseDefineDirective`): Moves the cursor as `Constructs.ParseDefine` does; see the line above.
- ParseInclude (`Constructs.ParseInclude`): Stated by `IncludeFile` and `IncludeError`.
- ParseIncludeDirective (`Parsing.Parser.ParseIncludeDirective`): Moves the cursor as `Constructs.ParseInclude` does; see the line above.
- ParseTokenHash (`Constructs.ParseTokenHash` and `Parsing.Parser.ParseTokenHash`): The dispatch and its two errors are stated by `DirectiveNonWord`, `DirectiveUnknown`, `DefineWithValue` and `IncludeFile`.
- Printing: the debug traces (`parseDebug`, `lexDebug`), the "Got parse error" line of `reportError`, and the `Define:`/`Included:` lines of the directives are I/O.
- `peekTok` (idl/parse.go:280-291) is never called by the parser.
- `Token.String` and `contextID.String` print only for the debug traces. `TokenID.String` is modelled (`Tokens.TokenIdText`) because the typedef error message uses it.
- `strings.ToUpper` on non-ASCII input is not modelled: `GoGen.Upper` maps ASCII letters only.
- Errors are their message strings, not Go `error` values.
- `Constructs.Param`: a method parameter is stored as a (direction, type, name) triple. The source stores the `fmt.Sprintf("%s %s %s", …)` text of that triple, which prints the Go struct of the type.
- The Go pointers into the tree (`currentModule`, `parent`, `currentStruct`, `currentEnum`, `currentIface`) are replaced by the stack of open modules and the detached aggregate. The model does not capture aliasing through those pointers.
- `pushContext` and the `parser` struct in this version of idl/parse.go have no union case and no `currentUnion` field. The model adds `Module.unions` and a union being filled, handled as structs and enums are handled. Likewise, idl/ast.go has no `Type`, `Struct.Inherits`, `Constant.Value` or union types. The model gives them the fields the parsers assign.
- The "unhandled context" panic of `parseTokenWord` cannot happen: every frame kind is handled.
- `parseType` builds an "expected: >" error for a template without `>` and then discards it. The model, as written, records no error there.
- idl/idldebug.go, main.go, and the rest of examples/goddsgen.go (`generateModule`, `main`, `checkErr`, file reading and writing) are not part of this model.
- `ParseState.Advance` and `Parsing.Parser.Advance`: the Go `advanceAndDontSkipNewLines` indexes `p.tokens[p.ppos+1]` inside a debug print. With debugging off, that read does not happen, so the model has no panic there.

## Findings

| source | as written | input that shows it | evidently intended | confidence | as-written member | corrected member |
|---|---|---|---|---|---|---|
| examples/goddsgen.go:55 | a `sequence` with two template parameters reads `TemplateParameters[2]`, past the end of the two-element list, and panics | `sequence<Foo, 10>` | the bound is the second parameter: `[10]Foo` | not executed | GoGen.BoundedSequenceCounterexample | GoGen.IdlTypeToGoTypeIntended |
