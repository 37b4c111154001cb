/** translateToplevelFunction: the entries a top-level function or method
    declaration contributes to the package's output, chosen by its receiver. */
module Toplevel {

  import opened Wrappers
  import opened Names
  import opened Syntax
  import opened Context
  import opened Function

  /** How a pointer-receiver forwarder gets the value to call the method on:
      a fresh copy of the pointed-to array, the pointee itself, or the pointee
      wrapped in its type's wrapper object. */
  datatype ForwardReceiver = ArrayCopy | Pointee | WrappedPointee

  /** One piece of generated output. */
  datatype Entry =
    | NativeStub(funcRef: string, fullName: string)          // a body-less function that throws when called
    | Definition(funcRef: string, code: FuncCode)            // funcRef = the function
    | MethodDefinition(funcRef: string, typeName: string, methodName: string, code: FuncCode)
                                                             // a struct method, registered under type and method name
    | ExportAlias(name: string, funcRef: string)             // the exported name bound to the function
    | PointerForwarder(typeName: string, funName: string, params: string, receiver: ForwardReceiver)
                                                             // the pointer type's method calling the value's

  /** What the translators this model does not open up produce for the body:
      the text of the return values, the locals the statements declare, and the
      escaping variables the escape analysis installs. */
  datatype BodyFacts = BodyFacts(results: string, bodyLocals: seq<string>, escaping: set<Var>)

  /** primaryFunction's result: its entry and the joined parameter list it
      leaves behind for a forwarder ("" for a body-less function). */
  datatype Primary = Primary(entries: seq<Entry>, joinedParams: string)

  /** The receiver identifier handed to translateFunction: the first name of the
      receiver field, when it has names. */
  function ReceiverOf(fun: FuncDecl): Option<Receiver>
  {
    match fun.recv
    case None => None
    case Some(rf) => if |rf.names| == 0 then None else Some(Receiver(rf.names[0], rf.typ))
  }

  /** primaryFunction(isMethod, funcRef). */
  function PrimaryOf(fun: FuncDecl, outerVars: map<string, nat>, info: Option<FuncInfo>, isMethod: bool, funcRef: string,
                     h: Helpers, facts: BodyFacts): Result<Primary, string>
  {
    if fun.body.None? then Success(Primary([NativeStub(funcRef, h.fullName(fun.name.def))], ""))
    else if info.None? then Failure("nil info")
    else
      var t := Translation(fun.typ, ReceiverOf(fun), fun.body.value, outerVars, fun.sig, info.value, funcRef, isMethod,
                           h, facts.results, facts.bodyLocals);
      var joined := JoinWith(t.params, ", ");
      if !isMethod then Success(Primary([Definition(funcRef, t.code)], joined))
      else
        var parts := Split(funcRef, ':');
        if |parts| < 2 then Failure("index out of range")
        else Success(Primary([MethodDefinition(funcRef, parts[0], parts[1], t.code)], joined))
  }

  /** The named type a method's receiver is, or points to. */
  function NamedOf(t: RecvType): NamedType
  {
    match t
    case ValueRecv(n) => n
    case PointerRecv(n) => n
  }

  /** Appends what follows the primary entry, or passes a failure on. */
  function Then(p: Result<Primary, string>, more: string -> seq<Entry>): Result<seq<Entry>, string>
  {
    match p
    case Failure(e) => Failure(e)
    case Success(pr) => Success(pr.entries + more(pr.joinedParams))
  }

  /** translateToplevelFunction, given the context's name counters `outerVars`. */
  function ToplevelEntries(fun: FuncDecl, outerVars: map<string, nat>, info: Option<FuncInfo>, h: Helpers,
                           facts: BodyFacts): Result<seq<Entry>, string>
  {
    match fun.recv
    case None =>
      var funcRef := h.objectName(fun.name.def);
      var alias := if IsExported(fun.name.name) then [ExportAlias(h.encodeIdent(fun.name.name), funcRef)] else [];
      Then(PrimaryOf(fun, outerVars, info, false, funcRef, h, facts), _ => alias)
    case Some(rf) =>
      var named := NamedOf(rf.typ);
      var typeName := h.objectName(named.obj);
      var funName := fun.name.name;
      if named.underlying.StructType? then
        Then(PrimaryOf(fun, outerVars, info, true, typeName + ":" + funName, h, facts), _ => [])
      else if rf.typ.PointerRecv? then
        if named.underlying.ArrayType? then
          Then(PrimaryOf(fun, outerVars, info, false, typeName + ".prototype." + funName, h, facts),
               joined => [PointerForwarder(typeName, funName, joined, ArrayCopy)])
        else
          Then(PrimaryOf(fun, outerVars, info, false, "$ptrType(" + typeName + ").prototype." + funName, h, facts), _ => [])
      else
        var receiver := if h.isWrapped(rf.typ) then WrappedPointee else Pointee;
        Then(PrimaryOf(fun, outerVars, info, false, typeName + ".prototype." + funName, h, facts),
             joined => [PointerForwarder(typeName, funName, joined, receiver)])
  }

  /** primaryFunction: a body-less function becomes a stub that throws; any
      other is translated, and a struct method is registered under the two
      halves of its `Type:method` reference. */
  method PrimaryFunction(c: FuncContext, fun: FuncDecl, info: Option<FuncInfo>, isMethod: bool, funcRef: string,
                         h: Helpers, facts: BodyFacts) returns (r: Result<Primary, string>)
    modifies c.p`escapingVars, c.p`scopes
    ensures r == PrimaryOf(fun, old(c.allVars), info, isMethod, funcRef, h, facts)
    ensures c.p.escapingVars == old(c.p.escapingVars)
    ensures fun.body.Some? && info.Some? && info.value.IsBlocking() ==>
      c.p.scopes == old(c.p.scopes)[fun.body.value.node := ScopeOf(old(c.p.scopes), fun.typ.node)]
    ensures !(fun.body.Some? && info.Some? && info.value.IsBlocking()) ==> c.p.scopes == old(c.p.scopes)
  {
    if fun.body.None? {
      return Success(Primary([NativeStub(funcRef, h.fullName(fun.name.def))], ""));
    }
    var t := TranslateFunction(fun.typ, ReceiverOf(fun), fun.body.value, c, fun.sig, info, funcRef, isMethod,
                               h, facts.results, facts.bodyLocals, facts.escaping);
    if t.Failure? {
      return Failure(t.error);
    }
    var parts := Split(funcRef, ':');
    var joined := JoinWith(t.value.params, ", ");
    if isMethod {
      if |parts| < 2 {
        return Failure("index out of range");
      }
      return Success(Primary([MethodDefinition(funcRef, parts[0], parts[1], t.value.code)], joined));
    }
    return Success(Primary([Definition(funcRef, t.value.code)], joined));
  }

  /** translateToplevelFunction: writes the primary entry under the reference
      the receiver calls for, then the export alias or the pointer forwarder. */
  method TranslateToplevelFunction(c: FuncContext, fun: FuncDecl, info: Option<FuncInfo>, h: Helpers, facts: BodyFacts)
    returns (r: Result<seq<Entry>, string>)
    modifies c.p`escapingVars, c.p`scopes
    ensures r == ToplevelEntries(fun, old(c.allVars), info, h, facts)
    ensures c.p.escapingVars == old(c.p.escapingVars)
    ensures fun.body.Some? && info.Some? && info.value.IsBlocking() ==>
      c.p.scopes == old(c.p.scopes)[fun.body.value.node := ScopeOf(old(c.p.scopes), fun.typ.node)]
    ensures !(fun.body.Some? && info.Some? && info.value.IsBlocking()) ==> c.p.scopes == old(c.p.scopes)
  {
    var code: seq<Entry> := [];
    if fun.recv.None? {
      var funcRef := h.objectName(fun.name.def);
      var p := PrimaryFunction(c, fun, info, false, funcRef, h, facts);
      if p.Failure? {
        return Failure(p.error);
      }
      code := code + p.value.entries;
      assert code == p.value.entries;
      if IsExported(fun.name.name) {
        code := code + [ExportAlias(h.encodeIdent(fun.name.name), funcRef)];
      } else {
        assert code == p.value.entries + [];
      }
      return Success(code);
    }
    var recvType := fun.recv.value.typ;
    var named := NamedOf(recvType);
    var typeName := h.objectName(named.obj);
    var funName := fun.name.name;
    if named.underlying.StructType? {
      var p := PrimaryFunction(c, fun, info, true, typeName + ":" + funName, h, facts);
      if p.Failure? {
        return Failure(p.error);
      }
      assert p.value.entries + [] == p.value.entries;
      return Success(p.value.entries);
    }
    if recvType.PointerRecv? {
      if named.underlying.ArrayType? {
        var p := PrimaryFunction(c, fun, info, false, typeName + ".prototype." + funName, h, facts);
        if p.Failure? {
          return Failure(p.error);
        }
        code := code + p.value.entries;
        assert code == p.value.entries;
        code := code + [PointerForwarder(typeName, funName, p.value.joinedParams, ArrayCopy)];
        return Success(code);
      }
      var p := PrimaryFunction(c, fun, info, false, "$ptrType(" + typeName + ").prototype." + funName, h, facts);
      if p.Failure? {
        return Failure(p.error);
      }
      assert p.value.entries + [] == p.value.entries;
      return Success(p.value.entries);
    }
    var receiver := Pointee;
    if h.isWrapped(recvType) {
      receiver := WrappedPointee;
    }
    var p := PrimaryFunction(c, fun, info, false, typeName + ".prototype." + funName, h, facts);
    if p.Failure? {
      return Failure(p.error);
    }
    code := code + p.value.entries;
    assert code == p.value.entries;
    code := code + [PointerForwarder(typeName, funName, p.value.joinedParams, receiver)];
    return Success(code);
  }

  /** A struct method (value or pointer receiver) is one registered definition
      whose `Type:method` reference splits back into the type's and the
      method's names, which hold no colon as Go identifiers. */
  lemma StructMethodRegistered(fun: FuncDecl, outerVars: map<string, nat>, info: FuncInfo, h: Helpers, facts: BodyFacts)
    requires fun.recv.Some? && NamedOf(fun.recv.value.typ).underlying.StructType? && fun.body.Some?
    requires ':' !in h.objectName(NamedOf(fun.recv.value.typ).obj) && ':' !in fun.name.name
    ensures var typeName := h.objectName(NamedOf(fun.recv.value.typ).obj);
      var funcRef := typeName + ":" + fun.name.name;
      var t := Translation(fun.typ, ReceiverOf(fun), fun.body.value, outerVars, fun.sig, info, funcRef, true,
                           h, facts.results, facts.bodyLocals);
      ToplevelEntries(fun, outerVars, Some(info), h, facts)
        == Success([MethodDefinition(funcRef, typeName, fun.name.name, t.code)])
  {
    var typeName := h.objectName(NamedOf(fun.recv.value.typ).obj);
    var funcRef := typeName + ":" + fun.name.name;
    assert funcRef == typeName + [':'] + fun.name.name;
    SplitQualified(typeName, fun.name.name, ':');
    var parts := Split(funcRef, ':');
    assert parts == [typeName, fun.name.name];
    var t := Translation(fun.typ, ReceiverOf(fun), fun.body.value, outerVars, fun.sig, info, funcRef, true,
                         h, facts.results, facts.bodyLocals);
    var pr := Primary([MethodDefinition(funcRef, typeName, fun.name.name, t.code)], JoinWith(t.params, ", "));
    assert PrimaryOf(fun, outerVars, Some(info), true, funcRef, h, facts) == Success(pr);
    assert pr.entries + [] == pr.entries;
  }

  /** A plain function is defined under its object's name and, exactly when its
      name is exported, aliased under the encoded name. */
  lemma PlainFunctionExport(fun: FuncDecl, outerVars: map<string, nat>, info: Option<FuncInfo>, h: Helpers, facts: BodyFacts)
    requires fun.recv.None?
    requires fun.body.None? || info.Some?
    ensures var r := ToplevelEntries(fun, outerVars, info, h, facts);
      var funcRef := h.objectName(fun.name.def);
      && r.Success?
      && |r.value| == (if IsExported(fun.name.name) then 2 else 1)
      && (r.value[0].NativeStub? || r.value[0].Definition?)
      && r.value[0].funcRef == funcRef
      && (IsExported(fun.name.name) ==> r.value[1] == ExportAlias(h.encodeIdent(fun.name.name), funcRef))
  {
  }

  /** A body-less declaration never fails: whatever its receiver, it yields a
      stub under the reference its receiver calls for, throwing an error that
      names the function's full name, and any forwarder it gets passes no
      parameters. */
  lemma NativeNeverFails(fun: FuncDecl, outerVars: map<string, nat>, info: Option<FuncInfo>, h: Helpers, facts: BodyFacts)
    requires fun.body.None?
    ensures var r := ToplevelEntries(fun, outerVars, info, h, facts);
      && r.Success? && |r.value| >= 1
      && r.value[0] == NativeStub(ToplevelRef(fun, h), h.fullName(fun.name.def))
      && (forall k :: 0 <= k < |r.value| && r.value[k].PointerForwarder? ==> r.value[k].params == "")
  {
    var stub := [NativeStub(ToplevelRef(fun, h), h.fullName(fun.name.def))];
    assert PrimaryOf(fun, outerVars, info, fun.recv.Some? && NamedOf(fun.recv.value.typ).underlying.StructType?,
                     ToplevelRef(fun, h), h, facts) == Success(Primary(stub, ""));
    var r := ToplevelEntries(fun, outerVars, info, h, facts);
    assert r.Success? && r.value[..1] == stub;
  }

  /** The reference a declaration's primary entry is written under. */
  function ToplevelRef(fun: FuncDecl, h: Helpers): string
  {
    match fun.recv
    case None => h.objectName(fun.name.def)
    case Some(rf) =>
      var typeName := h.objectName(NamedOf(rf.typ).obj);
      if NamedOf(rf.typ).underlying.StructType? then typeName + ":" + fun.name.name
      else if rf.typ.PointerRecv? && !NamedOf(rf.typ).underlying.ArrayType? then "$ptrType(" + typeName + ").prototype." + fun.name.name
      else typeName + ".prototype." + fun.name.name
  }

  /** A declaration with a body and a nil info fails with the panic's message,
      whatever its receiver. */
  lemma NilInfoFails(fun: FuncDecl, outerVars: map<string, nat>, h: Helpers, facts: BodyFacts)
    requires fun.body.Some?
    ensures ToplevelEntries(fun, outerVars, None, h, facts) == Failure("nil info")
  {
  }

  /** The receivers that are not structs: a pointer to an array gets the
      method on the array type and a forwarder that copies the array; any other
      pointer gets the method on the pointer type alone; a value receiver gets
      the method on its type and a forwarder that wraps the pointee exactly when
      the type's values are wrapped. A forwarder passes on the translated
      parameters, joined. */
  lemma NonStructReceivers(fun: FuncDecl, outerVars: map<string, nat>, info: FuncInfo, h: Helpers, facts: BodyFacts)
    requires fun.recv.Some? && !NamedOf(fun.recv.value.typ).underlying.StructType? && fun.body.Some?
    ensures var rt := fun.recv.value.typ;
      var typeName := h.objectName(NamedOf(rt).obj);
      var f := fun.name.name;
      var funcRef := if rt.PointerRecv? && !NamedOf(rt).underlying.ArrayType?
                     then "$ptrType(" + typeName + ").prototype." + f
                     else typeName + ".prototype." + f;
      var t := Translation(fun.typ, ReceiverOf(fun), fun.body.value, outerVars, fun.sig, info, funcRef, false,
                           h, facts.results, facts.bodyLocals);
      var r := ToplevelEntries(fun, outerVars, Some(info), h, facts);
      && r.Success?
      && r.value[0] == Definition(funcRef, t.code)
      && |r.value| == (if rt.PointerRecv? && !NamedOf(rt).underlying.ArrayType? then 1 else 2)
      && (|r.value| == 2 ==>
            r.value[1] == PointerForwarder(typeName, f, JoinWith(t.params, ", "),
                                           if rt.PointerRecv? then ArrayCopy
                                           else if h.isWrapped(rt) then WrappedPointee else Pointee))
  {
  }
}
