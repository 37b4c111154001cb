/** initArgs: the arguments of the runtime type constructor of a composite type
    (element types, lengths, channel direction, method and field tables). */
module TypeArgs {

  import opened Wrappers
  import opened Names
  import opened Syntax

  /** go/types' channel directions. */
  datatype ChanDir = SendRecv | SendOnly | RecvOnly

  /** The values of the go/types ChanDir constants. */
  function DirBits(d: ChanDir): bv8
  {
    match d
    case SendRecv => 0
    case SendOnly => 1
    case RecvOnly => 2
  }

  /** The go/types types initArgs distinguishes; Basic and Named stand for every
      other kind of type. */
  datatype Type =
    | Array(elem: Type, len: nat)
    | Chan(elem: Type, dir: ChanDir)
    | Interface(methods: seq<InterfaceMethod>)
    | Map(key: Type, elem: Type)
    | Pointer(elem: Type)
    | Slice(elem: Type)
    | Signature(params: seq<Type>, results: seq<Type>, variadic: bool)
    | Struct(fields: seq<StructField>)
    | Basic(name: string)
    | Named(obj: ObjectRef)

  /** An interface method: its name, the path of the package declaring it, and its
      type. The type checker always gives a method a `Signature`; the field admits
      any type so that initArgs' panic on the method's own arguments stays visible. */
  datatype InterfaceMethod = InterfaceMethod(name: string, pkgPath: string, typ: Type)

  /** A struct field with the package declaring it and its tag. */
  datatype StructField = StructField(name: string, anonymous: bool, pkgPath: string, typ: Type, tag: string)

  /** The helpers initArgs calls that are not part of this model: typeName (the
      runtime type expression of a type), fieldName (the property name of the i-th
      field of a struct) and encodeString (a quoted string literal). */
  datatype TypeHelpers = TypeHelpers(
    typeName: Type -> string,
    fieldName: (seq<StructField>, nat) -> string,
    encodeString: string -> string)

  /** One entry of an interface's method table: `{prop, name, pkg, typ: $funcType(...)}`. */
  datatype MethodArgs = MethodArgs(prop: string, name: string, pkg: string, typ: TypeArgs)

  /** One entry of a struct's field table. */
  datatype FieldArgs = FieldArgs(prop: string, name: string, anonymous: bool, exported: bool, typ: string, tag: string)

  /** The argument list initArgs prints, by kind of type. Pointer and slice types
      both print their element type alone. */
  datatype TypeArgs =
    | ArrayArgs(elem: string, len: nat)
    | ChanArgs(elem: string, sendOnly: bool, recvOnly: bool)
    | InterfaceArgs(methods: seq<MethodArgs>)
    | MapArgs(key: string, elem: string)
    | ElemArgs(elem: string)
    | SignatureArgs(params: seq<string>, results: seq<string>, variadic: bool)
    | StructArgs(pkgPath: string, fields: seq<FieldArgs>)

  const InvalidType := "invalid type"

  /** The method table entry of m, given the arguments of m's type. */
  function MethodEntry(m: InterfaceMethod, typ: TypeArgs): MethodArgs
  {
    MethodArgs(m.name, m.name, if IsExported(m.name) then "" else m.pkgPath, typ)
  }

  /** The field table entry of the i-th field of a struct. */
  function FieldEntry(fields: seq<StructField>, i: nat, h: TypeHelpers): FieldArgs
    requires i < |fields|
  {
    var f := fields[i];
    FieldArgs(h.fieldName(fields, i), f.name, f.anonymous, IsExported(f.name), h.typeName(f.typ), h.encodeString(f.tag))
  }

  /** The package path a struct's table carries: the one of its last unexported
      field, or "" when every field is exported. */
  function LastUnexportedPath(fields: seq<StructField>): string
    decreases |fields|
  {
    if fields == [] then ""
    else if !IsExported(fields[|fields| - 1].name) then fields[|fields| - 1].pkgPath
    else LastUnexportedPath(fields[..|fields| - 1])
  }

  /** What initArgs produces for ty; a type of any other kind is a panic. */
  function Args(ty: Type, h: TypeHelpers): Result<TypeArgs, string>
    decreases ty
  {
    match ty
    case Array(elem, len) => Success(ArrayArgs(h.typeName(elem), len))
    case Chan(elem, dir) =>
      Success(ChanArgs(h.typeName(elem), DirBits(dir) & DirBits(SendOnly) != 0, DirBits(dir) & DirBits(RecvOnly) != 0))
    case Interface(methods) =>
      if forall i :: 0 <= i < |methods| ==> Args(methods[i].typ, h).Success? then
        Success(InterfaceArgs(seq(|methods|, i requires 0 <= i < |methods| => MethodEntry(methods[i], Args(methods[i].typ, h).value))))
      else Failure(InvalidType)
    case Map(key, elem) => Success(MapArgs(h.typeName(key), h.typeName(elem)))
    case Pointer(elem) => Success(ElemArgs(h.typeName(elem)))
    case Slice(elem) => Success(ElemArgs(h.typeName(elem)))
    case Signature(params, results, variadic) =>
      Success(SignatureArgs(seq(|params|, i requires 0 <= i < |params| => h.typeName(params[i])),
                            seq(|results|, i requires 0 <= i < |results| => h.typeName(results[i])),
                            variadic))
    case Struct(fields) =>
      Success(StructArgs(LastUnexportedPath(fields), seq(|fields|, i requires 0 <= i < |fields| => FieldEntry(fields, i, h))))
    case Basic(_) => Failure(InvalidType)
    case Named(_) => Failure(InvalidType)
  }

  /** The type names of a parameter or result list, filled in by index. */
  method TypeNames(ts: seq<Type>, h: TypeHelpers) returns (names: seq<string>)
    ensures names == seq(|ts|, k requires 0 <= k < |ts| => h.typeName(ts[k]))
  {
    var a := new string[|ts|];
    var i := 0;
    while i < |ts|
      invariant 0 <= i <= |ts|
      invariant forall k :: 0 <= k < i ==> a[k] == h.typeName(ts[k])
    {
      a[i] := h.typeName(ts[i]);
      i := i + 1;
    }
    names := a[..];
  }

  /** A struct's field table filled in by index, and the package path of the
      last unexported field seen. */
  method FieldTable(fs: seq<StructField>, h: TypeHelpers) returns (pkgPath: string, fields: seq<FieldArgs>)
    ensures pkgPath == LastUnexportedPath(fs)
    ensures fields == seq(|fs|, k requires 0 <= k < |fs| => FieldEntry(fs, k, h))
  {
    pkgPath := "";
    var a := new FieldArgs[|fs|];
    var i := 0;
    while i < |fs|
      invariant 0 <= i <= |fs|
      invariant pkgPath == LastUnexportedPath(fs[..i])
      invariant forall k :: 0 <= k < i ==> a[k] == FieldEntry(fs, k, h)
    {
      assert fs[..i + 1][..i] == fs[..i];
      if !IsExported(fs[i].name) {
        pkgPath := fs[i].pkgPath;
      }
      a[i] := FieldEntry(fs, i, h);
      i := i + 1;
    }
    assert fs[..|fs|] == fs;
    fields := a[..];
  }

  /** initArgs, filling the method, parameter, result and field tables by index. */
  method InitArgs(ty: Type, h: TypeHelpers) returns (r: Result<TypeArgs, string>)
    ensures r == Args(ty, h)
    decreases ty
  {
    match ty {
      case Array(elem, len) =>
        r := Success(ArrayArgs(h.typeName(elem), len));
      case Chan(elem, dir) =>
        r := Success(ChanArgs(h.typeName(elem), DirBits(dir) & DirBits(SendOnly) != 0, DirBits(dir) & DirBits(RecvOnly) != 0));
      case Interface(ms) =>
        var methods := new MethodArgs[|ms|];
        var i := 0;
        while i < |ms|
          invariant 0 <= i <= |ms|
          invariant forall k :: 0 <= k < i ==> Args(ms[k].typ, h).Success? && methods[k] == MethodEntry(ms[k], Args(ms[k].typ, h).value)
        {
          var typ := InitArgs(ms[i].typ, h);
          if typ.Failure? {
            assert !Args(ms[i].typ, h).Success?;
            return Failure(InvalidType);
          }
          methods[i] := MethodEntry(ms[i], typ.value);
          i := i + 1;
        }
        assert methods[..] == seq(|ms|, k requires 0 <= k < |ms| => MethodEntry(ms[k], Args(ms[k].typ, h).value));
        r := Success(InterfaceArgs(methods[..]));
      case Map(key, elem) =>
        r := Success(MapArgs(h.typeName(key), h.typeName(elem)));
      case Pointer(elem) =>
        r := Success(ElemArgs(h.typeName(elem)));
      case Slice(elem) =>
        r := Success(ElemArgs(h.typeName(elem)));
      case Signature(ps, rs, variadic) =>
        var params := TypeNames(ps, h);
        var results := TypeNames(rs, h);
        r := Success(SignatureArgs(params, results, variadic));
      case Struct(fs) =>
        var pkgPath, fields := FieldTable(fs, h);
        r := Success(StructArgs(pkgPath, fields));
      case Basic(_) =>
        r := Failure(InvalidType);
      case Named(_) =>
        r := Failure(InvalidType);
    }
  }

  /** The types initArgs accepts: every composite kind; an interface only when
      the types of its methods are accepted too. */
  predicate Describable(ty: Type)
    decreases ty
  {
    match ty
    case Basic(_) => false
    case Named(_) => false
    case Interface(ms) => forall i :: 0 <= i < |ms| ==> Describable(ms[i].typ)
    case _ => true
  }

  /** initArgs panics exactly on the types it does not describe. */
  lemma {:induction false} ArgsFailExactlyOnOtherKinds(ty: Type, h: TypeHelpers)
    ensures Args(ty, h).Success? <==> Describable(ty)
    ensures Args(ty, h).Failure? ==> Args(ty, h).error == InvalidType
    decreases ty
  {
    match ty
    case Interface(ms) =>
      forall i | 0 <= i < |ms|
        ensures Args(ms[i].typ, h).Success? <==> Describable(ms[i].typ)
      {
        ArgsFailExactlyOnOtherKinds(ms[i].typ, h);
      }
    case _ =>
  }

  /** The two flags of a channel say "send-only" and "receive-only": a
      bidirectional channel sets neither. */
  lemma ChanDirectionFlags(elem: Type, dir: ChanDir, h: TypeHelpers)
    ensures Args(Chan(elem, dir), h) == Success(ChanArgs(h.typeName(elem), dir == SendOnly, dir == RecvOnly))
  {
  }

  /** When every field is exported, a struct's table carries the package path "". */
  lemma {:induction false} AllExportedNoPath(fields: seq<StructField>)
    requires forall k :: 0 <= k < |fields| ==> IsExported(fields[k].name)
    ensures LastUnexportedPath(fields) == ""
    decreases |fields|
  {
    if fields != [] {
      var n := |fields| - 1;
      assert forall k :: 0 <= k < n ==> fields[..n][k] == fields[k];
      AllExportedNoPath(fields[..n]);
    }
  }

  /** Otherwise it carries the path of the last unexported field, the one
      returned here: no later field is unexported. */
  lemma {:induction false} LastUnexportedField(fields: seq<StructField>, k0: nat) returns (k: nat)
    requires k0 < |fields| && !IsExported(fields[k0].name)
    ensures k0 <= k < |fields| && !IsExported(fields[k].name)
    ensures forall j :: k < j < |fields| ==> IsExported(fields[j].name)
    ensures LastUnexportedPath(fields) == fields[k].pkgPath
    decreases |fields|
  {
    var n := |fields| - 1;
    if !IsExported(fields[n].name) {
      k := n;
    } else {
      var init := fields[..n];
      assert init[k0] == fields[k0];
      k := LastUnexportedField(init, k0);
      assert init[k] == fields[k];
      assert forall j :: k < j < n ==> init[j] == fields[j];
    }
  }

  /** A struct's table: one entry per field in field order, each with the field's
      name, embedding, exportedness, type and tag, under the package path above. */
  lemma StructTable(fields: seq<StructField>, h: TypeHelpers)
    ensures Args(Struct(fields), h).Success?
    ensures var a := Args(Struct(fields), h).value;
      && |a.fields| == |fields|
      && (forall i :: 0 <= i < |fields| ==>
            && a.fields[i].name == fields[i].name
            && a.fields[i].anonymous == fields[i].anonymous
            && a.fields[i].exported == IsExported(fields[i].name)
            && a.fields[i].typ == h.typeName(fields[i].typ)
            && a.fields[i].tag == h.encodeString(fields[i].tag))
      && ((forall k :: 0 <= k < |fields| ==> IsExported(fields[k].name)) ==> a.pkgPath == "")
      && ((exists k :: 0 <= k < |fields| && !IsExported(fields[k].name)) ==>
            exists k :: 0 <= k < |fields| && !IsExported(fields[k].name)
              && (forall j :: k < j < |fields| ==> IsExported(fields[j].name))
              && a.pkgPath == fields[k].pkgPath)
  {
    if forall k :: 0 <= k < |fields| ==> IsExported(fields[k].name) {
      AllExportedNoPath(fields);
    } else {
      var k0 :| 0 <= k0 < |fields| && !IsExported(fields[k0].name);
      var k := LastUnexportedField(fields, k0);
    }
  }

  /** An interface's table: one entry per method in method order, named after the
      method, carrying a package path only for an unexported method. */
  lemma InterfaceTable(ms: seq<InterfaceMethod>, h: TypeHelpers)
    requires Describable(Interface(ms))
    ensures Args(Interface(ms), h).Success?
    ensures var a := Args(Interface(ms), h).value;
      && |a.methods| == |ms|
      && forall i :: 0 <= i < |ms| ==>
           && a.methods[i].prop == a.methods[i].name == ms[i].name
           && (IsExported(ms[i].name) ==> a.methods[i].pkg == "")
           && (!IsExported(ms[i].name) ==> a.methods[i].pkg == ms[i].pkgPath)
           && Args(ms[i].typ, h) == Success(a.methods[i].typ)
  {
    ArgsFailExactlyOnOtherKinds(Interface(ms), h);
  }
}
