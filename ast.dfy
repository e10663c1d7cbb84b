/**
 * The abstract syntax tree the IDL parser builds (idl/ast.go).
 *
 * Every collection is a sequence in declaration order. A module's parent
 * link is not part of the tree: the parser keeps a stack of open modules
 * instead.
 */
module Ast {
  import opened Options

  /**
   * A type reference: a name such as "unsigned long" or "Foo::Bar", an
   * optional array quantity, and the template parameters of `sequence<...>`.
   */
  datatype Type = Type(name: string, quantity: Option<int>, templateParameters: seq<Type>)

  /** The zero `Type`: no name, no quantity, no parameters. */
  const NoType := Type("", None, [])

  /** A named, typed member of a struct or an enum. */
  datatype Member = Member(name: string, typ: Type)

  /** `typedef <typ> <name>;` */
  datatype TypeDef = TypeDef(name: string, typ: Type)

  /** `const <typ> <name> = <value>;` */
  datatype Constant = Constant(member: Member, value: string)

  datatype Struct = Struct(name: string, inherits: seq<string>, members: seq<Member>)

  datatype Enum = Enum(name: string, members: seq<Member>)

  /** The direction keyword of a method parameter. */
  datatype Direction = In | Out | InOut

  /** One method parameter; the name is empty when the declaration omits it. */
  datatype Parameter = Parameter(direction: Direction, typ: Type, name: string)

  datatype Method = Method(name: string, returnValue: Type, parameters: seq<Parameter>)

  datatype Interface = Interface(name: string, inherits: seq<string>, methods: seq<Method>)

  /** `case (<caseValue>): <memberType> <memberName>;` */
  datatype UnionMember = UnionMember(caseValue: Type, memberType: Type, memberName: string)

  datatype Union = Union(name: string, discriminant: Type, members: seq<UnionMember>)

  /** A module and everything declared in it, each kind in declaration order. */
  datatype Module = Module(
    name: string,
    modules: seq<Module>,
    interfaces: seq<Interface>,
    typeDefs: seq<TypeDef>,
    structs: seq<Struct>,
    constants: seq<Constant>,
    enums: seq<Enum>,
    unions: seq<Union>)

  /** A module with the given name and no contents. */
  function EmptyModule(name: string): Module
  {
    Module(name, [], [], [], [], [], [], [])
  }
}
