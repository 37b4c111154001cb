/** What the compiler receives from the parser and the type checker, reduced to
    what the package-level glue looks at. AST nodes and type-checker objects are
    identities; their text and structure belong to the helpers that are not part
    of this model. */
module Syntax {

  import opened Wrappers

  type Node = nat       // an ast.Node
  type ObjectRef = nat  // a types.Object
  type TypeRef = nat    // a types.Type
  type Var = nat        // a *types.Var
  type Label = nat      // a *types.Label
  type ScopeRef = nat   // a *types.Scope

  /** An identifier together with the object the type checker defines with it. */
  datatype Ident = Ident(name: string, def: ObjectRef)

  /** Go's blank identifier `_`. */
  predicate IsBlank(id: Ident)
  {
    id.name == "_"
  }

  /** One field of a parameter list: `a, b int`, `_ int` or just `int`. */
  datatype Field = Field(names: seq<Ident>)

  datatype FuncType = FuncType(node: Node, params: seq<Field>)

  /** A function body; `endsWithReturn` is what the statement translator's
      `endsWithReturn(body.List)` reports. */
  datatype Body = Body(node: Node, endsWithReturn: bool)

  /** A result variable of a signature; its name is "" when results are unnamed. */
  datatype ResultVar = ResultVar(name: string, obj: ObjectRef, typ: TypeRef)

  datatype Signature = Signature(results: seq<ResultVar>)

  /** The results of sig are named (Go names all of them or none). */
  predicate NamedResults(sig: Signature)
  {
    |sig.results| != 0 && sig.results[0].name != ""
  }

  /** What the underlying type of a receiver's named type is. */
  datatype Underlying = StructType | ArrayType | OtherType

  datatype NamedType = NamedType(obj: ObjectRef, underlying: Underlying)

  /** A method receiver's static type: `T` or `*T` for a named type T. */
  datatype RecvType = ValueRecv(named: NamedType) | PointerRecv(named: NamedType)

  /** A named receiver as translateFunction sees it. */
  datatype Receiver = Receiver(ident: Ident, typ: RecvType)

  /** The first field of a declaration's receiver list with its names (possibly none)
      and its type (the signature's receiver type). */
  datatype RecvField = RecvField(names: seq<Ident>, typ: RecvType)

  /** A top-level function or method declaration; `name.def` is the *types.Func
      it declares, `sig` that function's signature, `body` is None for a
      declaration without a body. */
  datatype FuncDecl = FuncDecl(name: Ident, recv: Option<RecvField>, typ: FuncType, sig: Signature, body: Option<Body>)

  /** The flow facts of analysis.FuncInfo that the glue reads: the nodes whose
      translation is flattened, the blocking call sites, and whether the
      function contains a defer statement. */
  datatype FuncInfo = FuncInfo(flattened: set<Node>, blocking: set<Node>, hasDefer: bool)
  {
    predicate IsFlattened() { |flattened| != 0 }
    predicate IsBlocking() { |blocking| != 0 }
  }

  /** The compiler's helpers that this model does not open up, as functions:
      objectName (the identifier an object gets), isWrapped (does the type's value
      need a wrapper object), encodeIdent and the object's FullName. Being
      functions, they answer the same for the same argument. */
  datatype Helpers = Helpers(
    objectName: ObjectRef -> string,
    isWrapped: RecvType -> bool,
    encodeIdent: string -> string,
    fullName: ObjectRef -> string)
}
