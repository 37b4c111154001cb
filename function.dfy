/** translateFunction: the parameter names, the body's entry code, and the
    state-machine, resumable-frame and defer scaffolding wrapped around the
    translated statements of one function. */
module Function {

  import opened Wrappers
  import opened Names
  import opened Sorting
  import opened Syntax
  import opened Context

  // ---------------------------------------------------------------------------
  // Parameters

  /** The position a parameter name takes: None when it is blank (it gets a fresh
      name), the identifier otherwise. */
  function NameSlot(id: Ident): Option<Ident>
  {
    if IsBlank(id) then None else Some(id)
  }

  function NameSlots(names: seq<Ident>): (r: seq<Option<Ident>>)
    ensures |r| == |names|
  {
    seq(|names|, k requires 0 <= k < |names| => NameSlot(names[k]))
  }

  /** The positions of one field: one per name, or a single unnamed one. */
  function FieldSlots(f: Field): seq<Option<Ident>>
  {
    if |f.names| == 0 then [None] else NameSlots(f.names)
  }

  /** The positions of a parameter list, field after field. */
  function ParamSlots(fields: seq<Field>): seq<Option<Ident>>
    decreases |fields|
  {
    if fields == [] then [] else ParamSlots(fields[..|fields| - 1]) + FieldSlots(fields[|fields| - 1])
  }

  /** How many positions need a fresh name. */
  function FreshCount(slots: seq<Option<Ident>>): nat
    decreases |slots|
  {
    if slots == [] then 0
    else FreshCount(slots[..|slots| - 1]) + (if slots[|slots| - 1].None? then 1 else 0)
  }

  /** The name of a position whose fresh name, if it needs one, is the n-th `param`. */
  function SlotName(slot: Option<Ident>, objectName: ObjectRef -> string, n: nat): string
  {
    match slot
    case None => Numbered("param", n)
    case Some(id) => objectName(id.def)
  }

  /** The parameter names, fresh names numbered from base on. */
  function ParamNames(slots: seq<Option<Ident>>, objectName: ObjectRef -> string, base: nat): seq<string>
    decreases |slots|
  {
    if slots == [] then []
    else
      var init := slots[..|slots| - 1];
      ParamNames(init, objectName, base) + [SlotName(slots[|slots| - 1], objectName, base + FreshCount(init))]
  }

  /** The fresh names base, base+1, ... declared as locals, in order. */
  function FreshNames(base: nat, count: nat): (r: seq<string>)
    ensures |r| == count
  {
    seq(count, k requires 0 <= k < count => Numbered("param", base + k))
  }

  lemma SnocSlot(s: seq<Option<Ident>>, x: Option<Ident>, objectName: ObjectRef -> string, base: nat)
    ensures FreshCount(s + [x]) == FreshCount(s) + (if x.None? then 1 else 0)
    ensures ParamNames(s + [x], objectName, base) == ParamNames(s, objectName, base) + [SlotName(x, objectName, base + FreshCount(s))]
  {
    assert (s + [x])[..|s|] == s;
  }

  lemma {:induction false} FreshCountPrefix(s: seq<Option<Ident>>, i: nat, j: nat)
    requires i <= j <= |s|
    ensures FreshCount(s[..i]) <= FreshCount(s[..j])
    ensures i < j && s[i].None? ==> FreshCount(s[..i]) < FreshCount(s[..j])
    decreases j - i
  {
    if i < j {
      FreshCountPrefix(s, i, j - 1);
      assert s[..j][..j - 1] == s[..j - 1];
      if i == j - 1 { assert s[..j - 1] == s[..i]; }
    }
  }

  /** The i-th parameter name: the object's name for a named parameter, and for
      a blank or unnamed one the `param` name numbered by how many fresh names
      come before it. */
  lemma {:induction false} ParamNameAt(slots: seq<Option<Ident>>, objectName: ObjectRef -> string, base: nat, i: nat)
    requires i < |slots|
    ensures |ParamNames(slots, objectName, base)| == |slots|
    ensures ParamNames(slots, objectName, base)[i] == SlotName(slots[i], objectName, base + FreshCount(slots[..i]))
    decreases |slots|
  {
    var n := |slots| - 1;
    var init := slots[..n];
    var names := ParamNames(slots, objectName, base);
    var last := SlotName(slots[n], objectName, base + FreshCount(init));
    assert names == ParamNames(init, objectName, base) + [last];
    if n > 0 {
      ParamNameAt(init, objectName, base, 0);
    }
    assert |ParamNames(init, objectName, base)| == n;
    if i < n {
      ParamNameAt(init, objectName, base, i);
      assert names[i] == ParamNames(init, objectName, base)[i];
      assert init[..i] == slots[..i] && init[i] == slots[i];
    } else {
      assert names[i] == last;
      assert slots[..i] == init;
    }
  }

  /** Blank parameters never share a name: the positions that get a fresh name
      get different ones. */
  lemma FreshParamNamesDistinct(slots: seq<Option<Ident>>, objectName: ObjectRef -> string, base: nat, i: nat, j: nat)
    requires i < j < |slots| && slots[i].None? && slots[j].None?
    ensures |ParamNames(slots, objectName, base)| == |slots|
    ensures ParamNames(slots, objectName, base)[i] != ParamNames(slots, objectName, base)[j]
  {
    var m := base + FreshCount(slots[..i]);
    var n := base + FreshCount(slots[..j]);
    FreshSlotName(slots, objectName, base, i);
    FreshSlotName(slots, objectName, base, j);
    FreshCountPrefix(slots, i, j);
    NumberedDiffer("param", m, n);
  }

  /** A blank or unnamed position's name is the `param` name its fresh count gives. */
  lemma FreshSlotName(slots: seq<Option<Ident>>, objectName: ObjectRef -> string, base: nat, i: nat)
    requires i < |slots| && slots[i].None?
    ensures |ParamNames(slots, objectName, base)| == |slots|
    ensures ParamNames(slots, objectName, base)[i] == Numbered("param", base + FreshCount(slots[..i]))
  {
    ParamNameAt(slots, objectName, base, i);
  }

  /** A fresh parameter name is numbered from base up, so it repeats no name the
      counter handed out before this parameter list. */
  lemma FreshParamNameIsNew(slots: seq<Option<Ident>>, objectName: ObjectRef -> string, base: nat, i: nat)
    requires i < |slots| && slots[i].None?
    ensures |ParamNames(slots, objectName, base)| == |slots|
    ensures ParamNames(slots, objectName, base)[i] == Numbered("param", base + FreshCount(slots[..i]))
    ensures FreshCount(slots[..i]) < FreshCount(slots)
  {
    ParamNameAt(slots, objectName, base, i);
    FreshCountPrefix(slots, i, |slots|);
    assert slots[..|slots|] == slots;
  }

  /** The state of the parameter loop once the positions `slots` are done. */
  ghost predicate ParamsDone(params: seq<string>, allVars: map<string, nat>, localVars: seq<string>,
                             slots: seq<Option<Ident>>, objectName: ObjectRef -> string,
                             vars0: map<string, nat>, locals0: seq<string>)
  {
    var base := Counter(vars0, "param");
    && params == ParamNames(slots, objectName, base)
    && allVars == Bump(vars0, "param", FreshCount(slots))
    && localVars == locals0 + FreshNames(base, FreshCount(slots))
  }

  /** One more blank or unnamed position: it takes the counter's next name. */
  lemma FreshStep(params: seq<string>, allVars: map<string, nat>, localVars: seq<string>,
                  slots: seq<Option<Ident>>, objectName: ObjectRef -> string,
                  vars0: map<string, nat>, locals0: seq<string>)
    requires ParamsDone(params, allVars, localVars, slots, objectName, vars0, locals0)
    ensures var v := Numbered("param", Counter(allVars, "param"));
      ParamsDone(params + [v], Bump(allVars, "param", 1), localVars + [v], slots + [None], objectName, vars0, locals0)
  {
    var base := Counter(vars0, "param");
    var n := FreshCount(slots);
    SnocSlot(slots, None, objectName, base);
    BumpTwice(vars0, "param", n, 1);
    assert Counter(allVars, "param") == base + n;
    FreshNamesSnoc(locals0, base, n);
  }

  lemma FreshNamesSnoc(locals0: seq<string>, base: nat, n: nat)
    ensures locals0 + FreshNames(base, n + 1) == locals0 + FreshNames(base, n) + [Numbered("param", base + n)]
  {
    assert FreshNames(base, n + 1) == FreshNames(base, n) + [Numbered("param", base + n)];
  }

  /** One more named position: it takes the object's name. */
  lemma NamedStep(params: seq<string>, allVars: map<string, nat>, localVars: seq<string>,
                  slots: seq<Option<Ident>>, id: Ident, objectName: ObjectRef -> string,
                  vars0: map<string, nat>, locals0: seq<string>)
    requires ParamsDone(params, allVars, localVars, slots, objectName, vars0, locals0)
    ensures ParamsDone(params + [objectName(id.def)], allVars, localVars, slots + [Some(id)], objectName, vars0, locals0)
  {
    SnocSlot(slots, Some(id), objectName, Counter(vars0, "param"));
  }

  /** One field of the parameter loop: a fresh `param` name when it has no
      names, and for each name a fresh one when it is blank, the object's name
      otherwise. */
  method TranslateField(c: FuncContext, param: Field, objectName: ObjectRef -> string, params: seq<string>,
                        ghost done: seq<Option<Ident>>, ghost vars0: map<string, nat>, ghost locals0: seq<string>)
    returns (params': seq<string>)
    requires ParamsDone(params, c.allVars, c.localVars, done, objectName, vars0, locals0)
    modifies c`allVars, c`localVars
    ensures ParamsDone(params', c.allVars, c.localVars, done + FieldSlots(param), objectName, vars0, locals0)
  {
    params' := params;
    if |param.names| == 0 {
      FreshStep(params', c.allVars, c.localVars, done, objectName, vars0, locals0);
      var v := c.NewVariable("param");
      params' := params' + [v];
      return;
    }
    var j := 0;
    assert done + NameSlots(param.names[..0]) == done;
    while j < |param.names|
      invariant 0 <= j <= |param.names|
      invariant ParamsDone(params', c.allVars, c.localVars, done + NameSlots(param.names[..j]), objectName, vars0, locals0)
    {
      NameSlotsSnoc(done, param.names, j);
      params' := TranslateName(c, param.names[j], objectName, params', done + NameSlots(param.names[..j]), vars0, locals0);
      j := j + 1;
    }
    assert param.names[..|param.names|] == param.names;
  }

  /** One name of a field: a fresh `param` variable for the blank name, the
      object's own name otherwise. */
  method TranslateName(c: FuncContext, ident: Ident, objectName: ObjectRef -> string, params: seq<string>,
                       ghost done: seq<Option<Ident>>, ghost vars0: map<string, nat>, ghost locals0: seq<string>)
    returns (params': seq<string>)
    requires ParamsDone(params, c.allVars, c.localVars, done, objectName, vars0, locals0)
    modifies c`allVars, c`localVars
    ensures ParamsDone(params', c.allVars, c.localVars, done + [NameSlot(ident)], objectName, vars0, locals0)
  {
    if IsBlank(ident) {
      FreshStep(params, c.allVars, c.localVars, done, objectName, vars0, locals0);
      var v := c.NewVariable("param");
      params' := params + [v];
    } else {
      NamedStep(params, c.allVars, c.localVars, done, ident, objectName, vars0, locals0);
      params' := params + [objectName(ident.def)];
    }
  }

  lemma NameSlotsSnoc(done: seq<Option<Ident>>, names: seq<Ident>, j: nat)
    requires j < |names|
    ensures done + NameSlots(names[..j + 1]) == done + NameSlots(names[..j]) + [NameSlot(names[j])]
  {
    assert NameSlots(names[..j + 1]) == NameSlots(names[..j]) + [NameSlot(names[j])];
  }

  /** The parameter loop over the fields of the parameter list. */
  method TranslateParams(c: FuncContext, fields: seq<Field>, objectName: ObjectRef -> string) returns (params: seq<string>)
    modifies c`allVars, c`localVars
    ensures var slots := ParamSlots(fields);
      var base := Counter(old(c.allVars), "param");
      && params == ParamNames(slots, objectName, base)
      && c.allVars == Bump(old(c.allVars), "param", FreshCount(slots))
      && c.localVars == old(c.localVars) + FreshNames(base, FreshCount(slots))
  {
    ghost var vars0 := c.allVars;
    ghost var locals0 := c.localVars;
    params := [];
    var i := 0;
    while i < |fields|
      invariant 0 <= i <= |fields|
      invariant ParamsDone(params, c.allVars, c.localVars, ParamSlots(fields[..i]), objectName, vars0, locals0)
    {
      assert fields[..i + 1][..i] == fields[..i];
      params := TranslateField(c, fields[i], objectName, params, ParamSlots(fields[..i]), vars0, locals0);
      i := i + 1;
    }
    assert fields[..|fields|] == fields;
  }

  // ---------------------------------------------------------------------------
  // Body

  /** What the body output holds, in order: a zero-value assignment per named
      result, the receiver's binding, the translated statements, and the return a
      flattened body needs when its statements do not end in one. The text of
      the zero values, the receiver expression and the statements belongs to the
      expression and statement translators, which are not part of this model. */
  datatype BodyItem =
    | EscapingSetup(block: Node)        // what handleEscapingVars prints for a blocking body
    | ZeroResult(result: string)
    | BindReceiver(recv: string, self: string)
    | Statements(block: Node)
    | ImplicitReturn

  function ZeroResults(results: seq<ResultVar>, objectName: ObjectRef -> string): (r: seq<BodyItem>)
    ensures |r| == |results|
  {
    seq(|results|, k requires 0 <= k < |results| => ZeroResult(objectName(results[k].obj)))
  }

  /** A named receiver is bound on entry: to the wrapped value when its type's
      values are wrapped, to the receiver object otherwise. */
  function ReceiverBinding(recv: Option<Receiver>, h: Helpers): seq<BodyItem>
  {
    match recv
    case None => []
    case Some(rv) =>
      if IsBlank(rv.ident) then []
      else [BindReceiver(h.objectName(rv.ident.def), if h.isWrapped(rv.typ) then "this.$val" else "self")]
  }

  function BodyItems(info: FuncInfo, sig: Signature, recv: Option<Receiver>, body: Body, h: Helpers): seq<BodyItem>
  {
    Opt(info.IsBlocking(), EscapingSetup(body.node))
    + (if NamedResults(sig) then ZeroResults(sig.results, h.objectName) else [])
    + ReceiverBinding(recv, h)
    + [Statements(body.node)]
    + (if info.IsFlattened() && !body.endsWithReturn then [ImplicitReturn] else [])
  }

  /** The body's layout: a blocking body starts with the escaping variables'
      setup; the named results are zeroed next, in order; the statements follow
      the receiver binding; a closing return is added exactly when the function
      is flattened and its statements do not end in one. */
  lemma BodyItemsLayout(info: FuncInfo, sig: Signature, recv: Option<Receiver>, body: Body, h: Helpers)
    ensures var items := BodyItems(info, sig, recv, body, h);
      var e := if info.IsBlocking() then 1 else 0;
      var z := if NamedResults(sig) then |sig.results| else 0;
      var b := |ReceiverBinding(recv, h)|;
      && |items| == e + z + b + 1 + (if info.IsFlattened() && !body.endsWithReturn then 1 else 0)
      && (items[0] == EscapingSetup(body.node) <==> info.IsBlocking())
      && (forall k :: 0 <= k < |items| && items[k].EscapingSetup? ==> k == 0 && info.IsBlocking())
      && (forall k :: 0 <= k < z ==> items[e + k] == ZeroResult(h.objectName(sig.results[k].obj)))
      && (b == 1 <==> recv.Some? && !IsBlank(recv.value.ident))
      && (b == 1 ==> items[e + z] == BindReceiver(h.objectName(recv.value.ident.def),
                                                  if h.isWrapped(recv.value.typ) then "this.$val" else "self"))
      && items[e + z + b] == Statements(body.node)
      && (items[|items| - 1] == ImplicitReturn <==> info.IsFlattened() && !body.endsWithReturn)
      && (forall k :: 0 <= k < |items| && items[k].ZeroResult? ==> NamedResults(sig) && e <= k < e + |sig.results|)
  {
    BodyPositions(info, sig, recv, body, h);
    BodyZeroResults(info, sig, recv, body, h);
    BodyItemKinds(info, sig, recv, body, h);
  }

  /** The length of a body and where its setup, receiver binding, statements
      and closing return sit. */
  lemma BodyPositions(info: FuncInfo, sig: Signature, recv: Option<Receiver>, body: Body, h: Helpers)
    ensures var items := BodyItems(info, sig, recv, body, h);
      var e := if info.IsBlocking() then 1 else 0;
      var z := if NamedResults(sig) then |sig.results| else 0;
      var b := |ReceiverBinding(recv, h)|;
      && |items| == e + z + b + 1 + (if info.IsFlattened() && !body.endsWithReturn then 1 else 0)
      && (items[0] == EscapingSetup(body.node) <==> info.IsBlocking())
      && (b == 1 <==> recv.Some? && !IsBlank(recv.value.ident))
      && (b == 1 ==> items[e + z] == BindReceiver(h.objectName(recv.value.ident.def),
                                                  if h.isWrapped(recv.value.typ) then "this.$val" else "self"))
      && items[e + z + b] == Statements(body.node)
      && (items[|items| - 1] == ImplicitReturn <==> info.IsFlattened() && !body.endsWithReturn)
  {
    var setup := Opt(info.IsBlocking(), EscapingSetup(body.node));
    var zeros := if NamedResults(sig) then ZeroResults(sig.results, h.objectName) else [];
    var bind := ReceiverBinding(recv, h);
    var ret := if info.IsFlattened() && !body.endsWithReturn then [ImplicitReturn] else [];
    assert |setup| == (if info.IsBlocking() then 1 else 0);
    assert |zeros| == (if NamedResults(sig) then |sig.results| else 0);
    assert |zeros| > 0 ==> zeros[0].ZeroResult?;
    assert BodyItems(info, sig, recv, body, h) == setup + zeros + bind + [Statements(body.node)] + ret;
    ItemsLayout(setup, zeros, bind, Statements(body.node), ret);
  }

  /** The named results are zeroed in order, right after the setup. */
  lemma BodyZeroResults(info: FuncInfo, sig: Signature, recv: Option<Receiver>, body: Body, h: Helpers)
    ensures var items := BodyItems(info, sig, recv, body, h);
      var e := if info.IsBlocking() then 1 else 0;
      var z := if NamedResults(sig) then |sig.results| else 0;
      forall k :: 0 <= k < z ==> items[e + k] == ZeroResult(h.objectName(sig.results[k].obj))
  {
    var setup := Opt(info.IsBlocking(), EscapingSetup(body.node));
    var zeros := if NamedResults(sig) then ZeroResults(sig.results, h.objectName) else [];
    var bind := ReceiverBinding(recv, h);
    var ret := if info.IsFlattened() && !body.endsWithReturn then [ImplicitReturn] else [];
    var items := BodyItems(info, sig, recv, body, h);
    assert items == setup + zeros + bind + [Statements(body.node)] + ret;
    assert |setup| == if info.IsBlocking() then 1 else 0;
    var e := if info.IsBlocking() then 1 else 0;
    forall k | 0 <= k < |zeros|
      ensures items[e + k] == ZeroResult(h.objectName(sig.results[k].obj))
    {
      assert items[|setup| + k] == zeros[k];
    }
  }

  /** Where the setup and zero-result items can sit in a body. */
  lemma BodyItemKinds(info: FuncInfo, sig: Signature, recv: Option<Receiver>, body: Body, h: Helpers)
    ensures var items := BodyItems(info, sig, recv, body, h);
      var e := if info.IsBlocking() then 1 else 0;
      && (forall k :: 0 <= k < |items| && items[k].EscapingSetup? ==> k == 0 && info.IsBlocking())
      && (forall k :: 0 <= k < |items| && items[k].ZeroResult? ==> NamedResults(sig) && e <= k < e + |sig.results|)
  {
    var setup := Opt(info.IsBlocking(), EscapingSetup(body.node));
    var zeros := if NamedResults(sig) then ZeroResults(sig.results, h.objectName) else [];
    var bind := ReceiverBinding(recv, h);
    var ret := if info.IsFlattened() && !body.endsWithReturn then [ImplicitReturn] else [];
    var items := BodyItems(info, sig, recv, body, h);
    assert items == setup + zeros + bind + [Statements(body.node)] + ret;
    assert |setup| == if info.IsBlocking() then 1 else 0;
    forall k | |setup| + |zeros| <= k < |items|
      ensures !items[k].EscapingSetup? && !items[k].ZeroResult?
    {
    }
  }

  /** Positions in a body made of its five parts. */
  lemma ItemsLayout(setup: seq<BodyItem>, zeros: seq<BodyItem>, bind: seq<BodyItem>, stmts: BodyItem, ret: seq<BodyItem>)
    requires |setup| <= 1 && |bind| <= 1 && |ret| <= 1
    ensures var items := setup + zeros + bind + [stmts] + ret;
      && |items| == |setup| + |zeros| + |bind| + 1 + |ret|
      && items[0] == (if |setup| == 1 then setup[0] else if |zeros| > 0 then zeros[0] else if |bind| == 1 then bind[0] else stmts)
      && (|bind| == 1 ==> items[|setup| + |zeros|] == bind[0])
      && items[|setup| + |zeros| + |bind|] == stmts
      && items[|items| - 1] == (if |ret| == 1 then ret[0] else stmts)
  {
  }

  /** The body part of translateFunction: a blocking function's body gets its
      type's scope, and the escaping variables the escape analysis installs
      (`escaping`) are set up first in its output; the named results are zeroed and remembered; the receiver is
      bound; the statement translator declares `bodyLocals`. */
  method TranslateBody(c: FuncContext, typ: FuncType, recv: Option<Receiver>, body: Body, h: Helpers,
                       bodyLocals: seq<string>, escaping: set<Var>) returns (items: seq<BodyItem>)
    modifies c`localVars, c`namedResults, c.p`escapingVars, c.p`scopes
    ensures items == BodyItems(c.info, c.sig, recv, body, h)
    ensures c.namedResults == (old(c.namedResults) || NamedResults(c.sig))
    ensures c.localVars == old(c.localVars) + bodyLocals
    ensures c.info.IsBlocking() ==>
      c.p.scopes == old(c.p.scopes)[body.node := ScopeOf(old(c.p.scopes), typ.node)] && c.p.escapingVars == escaping
    ensures !c.info.IsBlocking() ==> c.p.scopes == old(c.p.scopes) && c.p.escapingVars == old(c.p.escapingVars)
  {
    items := [];
    if c.info.IsBlocking() {
      c.p.scopes := c.p.scopes[body.node := ScopeOf(c.p.scopes, typ.node)];
      c.p.escapingVars := escaping;
      items := [EscapingSetup(body.node)];
    }
    var zeros := [];
    if NamedResults(c.sig) {
      c.namedResults := true;
      zeros := ZeroNamedResults(c.sig.results, h.objectName);
    }
    items := items + zeros;
    var bind := [];
    if recv.Some? && !IsBlank(recv.value.ident) {
      var self := "self";
      if h.isWrapped(recv.value.typ) {
        self := "this.$val";
      }
      bind := [BindReceiver(h.objectName(recv.value.ident.def), self)];
    }
    items := items + bind + [Statements(body.node)];
    c.localVars := c.localVars + bodyLocals;
    if c.info.IsFlattened() && !body.endsWithReturn {
      items := items + [ImplicitReturn];
    }
  }

  /** The loop that zeroes the named results, one item per result, in order. */
  method ZeroNamedResults(results: seq<ResultVar>, objectName: ObjectRef -> string) returns (zeros: seq<BodyItem>)
    ensures zeros == ZeroResults(results, objectName)
  {
    zeros := [];
    var i := 0;
    while i < |results|
      invariant 0 <= i <= |results|
      invariant zeros == ZeroResults(results[..i], objectName)
    {
      zeros := zeros + [ZeroResult(objectName(results[i].obj))];
      i := i + 1;
    }
    assert results[..i] == results;
  }


  // ---------------------------------------------------------------------------
  // Scaffolding

  /** The pieces of generated code placed before (prefix) and after (suffix) the
      body: the state-machine dispatch of a flattened function, the resumable
      frame of a blocking one, and the try/catch/finally of one with defer.
      `results` is the text the result translator gives for the return values. */
  datatype Fragment =
    | InitCaseState
    | ResumeFrame(vars: seq<string>)
    | TryOpen
    | DispatchOpen
    | DispatchClose
    | CatchOpen
    | ForceTerminalCase
    | ReturnResults(results: string)
    | FinallyCallDeferred
    | ReturnNamedIfAwake(results: string)
    | AsleepGuardOpen
    | SaveFrame(funcRef: string, vars: seq<string>)
    | CloseBrace

  /** Restoring and saving one local through the frame `$f`. */
  function LoadEntry(v: string): string { v + " = $f." + v + "; " }
  function StoreEntry(v: string): string { "$f." + v + " = " + v + "; " }

  function Loads(vars: seq<string>): string
    decreases |vars|
  {
    if vars == [] then "" else Loads(vars[..|vars| - 1]) + LoadEntry(vars[|vars| - 1])
  }

  function Stores(vars: seq<string>): string
    decreases |vars|
  {
    if vars == [] then "" else Stores(vars[..|vars| - 1]) + StoreEntry(vars[|vars| - 1])
  }

  function ResumeText(loads: string): string
  {
    " var $f, $c = false; if (this !== undefined && this.$blk !== undefined) { $f = this; $c = true; " + loads + "}"
  }

  function SaveText(funcRef: string, stores: string): string
  {
    " if ($f === undefined) { $f = { $blk: " + funcRef + " }; } " + stores + "return $f;"
  }

  /** The text of each fragment. */
  function Text(f: Fragment): string
  {
    match f
    case InitCaseState => " $s = 0;"
    case ResumeFrame(vars) => ResumeText(Loads(vars))
    case TryOpen => " var $err = null; try {"
    case DispatchOpen => " s: while (true) { switch ($s) { case 0:"
    case DispatchClose => " } return; }"
    case CatchOpen => " } catch(err) { $err = err;"
    case ForceTerminalCase => " $s = -1;"
    case ReturnResults(results) => " return" + results + ";"
    case FinallyCallDeferred => " } finally { $callDeferred($deferred, $err);"
    case ReturnNamedIfAwake(results) => " if (!$curGoroutine.asleep) { return " + results + "; }"
    case AsleepGuardOpen => " if($curGoroutine.asleep) {"
    case SaveFrame(funcRef, vars) => SaveText(funcRef, Stores(vars))
    case CloseBrace => " }"
  }

  function Render(fs: seq<Fragment>): string
    decreases |fs|
  {
    if fs == [] then "" else Text(fs[0]) + Render(fs[1..])
  }

  lemma {:induction false} RenderAppend(a: seq<Fragment>, b: seq<Fragment>)
    ensures Render(a + b) == Render(a) + Render(b)
    decreases |a|
  {
    if a != [] {
      assert (a + b)[1..] == a[1..] + b;
      RenderAppend(a[1..], b);
    } else {
      assert a + b == b;
    }
  }

  /** The braces a fragment's text closes first and opens after; braces its text
      opens and closes itself (a frame's `if { ... }`) are not counted. */
  function Closes(f: Fragment): nat
  {
    match f
    case DispatchClose => 2
    case CatchOpen => 1
    case FinallyCallDeferred => 1
    case CloseBrace => 1
    case _ => 0
  }

  function Opens(f: Fragment): nat
  {
    match f
    case TryOpen => 1
    case DispatchOpen => 2
    case CatchOpen => 1
    case FinallyCallDeferred => 1
    case AsleepGuardOpen => 1
    case _ => 0
  }

  /** Reading fragments from nesting depth d: the depth at the end, or None when
      a fragment closes a brace that is not open. */
  function Walk(d: nat, fs: seq<Fragment>): Option<nat>
    decreases |fs|
  {
    if fs == [] then Some(d)
    else if d < Closes(fs[0]) then None
    else Walk(d - Closes(fs[0]) + Opens(fs[0]), fs[1..])
  }

  lemma {:induction false} WalkAppend(d: nat, a: seq<Fragment>, b: seq<Fragment>)
    ensures Walk(d, a + b) == (match Walk(d, a) case None => None case Some(e) => Walk(e, b))
    decreases |a|
  {
    if a == [] {
      assert a + b == b;
    } else {
      assert (a + b)[1..] == a[1..] + b;
      if d >= Closes(a[0]) {
        WalkAppend(d - Closes(a[0]) + Opens(a[0]), a[1..], b);
      }
    }
  }

  function Opt<T>(c: bool, x: T): seq<T>
  {
    if c then [x] else []
  }

  lemma WalkOpt(d: nat, c: bool, f: Fragment)
    ensures Walk(d, Opt(c, f)) == if !c then Some(d) else if d < Closes(f) then None else Some(d - Closes(f) + Opens(f))
  {
    if c {
      assert Opt(c, f)[1..] == [];
    }
  }

  /** The locals declared so far sorted, then `$s`, `$deferred` and `$r` for a
      flattened, deferring and blocking function. */
  function FrameLocals(declared: seq<string>, info: FuncInfo): seq<string>
  {
    SortStrings(declared) + Markers(info)
  }

  function Markers(info: FuncInfo): seq<string>
  {
    Opt(info.IsFlattened(), "$s") + Opt(info.hasDefer, "$deferred") + Opt(info.IsBlocking(), "$r")
  }

  /** What a blocking function's frame points back at: funcRef, or `$b` for an
      anonymous function, which is then named `$b`. */
  function FrameRef(info: FuncInfo, funcRef: string): string
  {
    if info.IsBlocking() && funcRef == "" then "$b" else funcRef
  }

  function FunctionName(info: FuncInfo, funcRef: string): string
  {
    if info.IsBlocking() && funcRef == "" then " $b" else ""
  }

  /** The catch and finally clauses of a deferring function. */
  function DeferClauses(blocking: bool, named: bool, resultCount: nat, results: string): seq<Fragment>
  {
    [CatchOpen] + Opt(blocking, ForceTerminalCase) + Opt(!named && resultCount > 0, ReturnResults(results))
    + [FinallyCallDeferred] + Opt(named, ReturnNamedIfAwake(results)) + Opt(blocking, AsleepGuardOpen)
  }

  /** The code before the body, given the frame locals. */
  function ScaffoldPrefix(locals: seq<string>, info: FuncInfo): seq<Fragment>
  {
    Opt(info.IsFlattened(), InitCaseState) + Opt(info.IsBlocking(), ResumeFrame(locals))
    + Opt(info.hasDefer, TryOpen) + Opt(info.IsFlattened(), DispatchOpen)
  }

  /** The code after the body, given the frame locals and what the frame points at. */
  function ScaffoldSuffix(locals: seq<string>, info: FuncInfo, named: bool, resultCount: nat, results: string,
                          frameRef: string): seq<Fragment>
  {
    var d, blk := info.hasDefer, info.IsBlocking();
    Opt(info.IsFlattened(), DispatchClose) + (if d then DeferClauses(blk, named, resultCount, results) else [])
    + Opt(blk, SaveFrame(frameRef, locals)) + Opt(d && blk, CloseBrace) + Opt(d, CloseBrace)
  }

  /** One marker per feature: `$s` for a flattened, `$deferred` for a
      deferring, `$r` for a blocking function. */
  lemma MarkersDistinct(info: FuncInfo)
    ensures var markers := Markers(info);
      && |markers| <= 3
      && ("$s" in markers <==> info.IsFlattened())
      && ("$deferred" in markers <==> info.hasDefer)
      && ("$r" in markers <==> info.IsBlocking())
  {
    assert "$s"[1] != "$r"[1];
    assert |"$s"| != |"$deferred"|;
  }

  /** The frame locals: the declared names sorted, nothing lost or added,
      followed by the markers. */
  lemma ScaffoldLocals(declared: seq<string>, info: FuncInfo)
    ensures var locals := FrameLocals(declared, info);
      && |locals| == |declared| + |Markers(info)|
      && Sorted(locals[..|declared|]) && multiset(locals[..|declared|]) == multiset(declared)
      && locals[|declared|..] == Markers(info)
  {
    var locals := FrameLocals(declared, info);
    assert locals[..|declared|] == SortStrings(declared);
    assert locals[|declared|..] == Markers(info);
  }

  /** The case dispatch appears exactly for a flattened function, the try/catch
      exactly for one with defer. */
  lemma DispatchAndTryFragments(locals: seq<string>, info: FuncInfo, named: bool, resultCount: nat, results: string,
                                frameRef: string)
    ensures var prefix := ScaffoldPrefix(locals, info);
      var suffix := ScaffoldSuffix(locals, info, named, resultCount, results, frameRef);
      && (InitCaseState in prefix <==> info.IsFlattened())
      && (DispatchOpen in prefix <==> info.IsFlattened())
      && (DispatchClose in suffix <==> info.IsFlattened())
      && (TryOpen in prefix <==> info.hasDefer)
      && (CatchOpen in suffix <==> info.hasDefer)
  {
    PrefixMarkers(locals, info);
    SuffixMarkers(locals, info, named, resultCount, results, frameRef);
  }

  lemma PrefixMarkers(locals: seq<string>, info: FuncInfo)
    ensures var prefix := ScaffoldPrefix(locals, info);
      && (InitCaseState in prefix <==> info.IsFlattened())
      && (DispatchOpen in prefix <==> info.IsFlattened())
      && (TryOpen in prefix <==> info.hasDefer)
  {
    var head := Opt(info.IsFlattened(), InitCaseState) + Opt(info.IsBlocking(), ResumeFrame(locals));
    assert ScaffoldPrefix(locals, info) == head + Opt(info.hasDefer, TryOpen) + Opt(info.IsFlattened(), DispatchOpen);
    assert DispatchOpen !in head && TryOpen !in head;
  }

  lemma SuffixMarkers(locals: seq<string>, info: FuncInfo, named: bool, resultCount: nat, results: string,
                      frameRef: string)
    ensures var suffix := ScaffoldSuffix(locals, info, named, resultCount, results, frameRef);
      && (DispatchClose in suffix <==> info.IsFlattened())
      && (CatchOpen in suffix <==> info.hasDefer)
  {
    var d, blk := info.hasDefer, info.IsBlocking();
    var clauses := if d then DeferClauses(blk, named, resultCount, results) else [];
    var rest := Opt(blk, SaveFrame(frameRef, locals)) + Opt(d && blk, CloseBrace) + Opt(d, CloseBrace);
    assert ScaffoldSuffix(locals, info, named, resultCount, results, frameRef) == Opt(info.IsFlattened(), DispatchClose) + clauses + rest;
    assert DispatchClose !in clauses && DispatchClose !in rest;
    assert CatchOpen !in rest;
    assert d ==> CatchOpen in clauses;
  }

  lemma DeferClausesHold(blocking: bool, named: bool, resultCount: nat, results: string)
    ensures var clauses := DeferClauses(blocking, named, resultCount, results);
      && (ForceTerminalCase in clauses <==> blocking)
      && (ReturnResults(results) in clauses <==> !named && resultCount > 0)
      && (ReturnNamedIfAwake(results) in clauses <==> named)
      && (forall f: Fragment :: f in clauses ==> !f.DispatchClose? && !f.SaveFrame? && !f.CloseBrace?)
  {
  }

  lemma DeferClausesFrameFree(blocking: bool, named: bool, resultCount: nat, results: string)
    ensures forall f: Fragment :: f in DeferClauses(blocking, named, resultCount, results) ==> !f.SaveFrame? && !f.ResumeFrame?
  {
  }

  /** Outside the dispatch close, the frame save and the closing braces, the
      suffix holds exactly the defer clauses of a deferring function. */
  lemma SuffixClauses(f: Fragment, locals: seq<string>, info: FuncInfo, named: bool, resultCount: nat, results: string,
                      frameRef: string)
    requires !f.DispatchClose? && !f.SaveFrame? && !f.CloseBrace?
    ensures f in ScaffoldSuffix(locals, info, named, resultCount, results, frameRef)
            <==> info.hasDefer && f in DeferClauses(info.IsBlocking(), named, resultCount, results)
  {
    var d, blk := info.hasDefer, info.IsBlocking();
    var clauses := if d then DeferClauses(blk, named, resultCount, results) else [];
    var rest := Opt(blk, SaveFrame(frameRef, locals)) + Opt(d && blk, CloseBrace) + Opt(d, CloseBrace);
    assert ScaffoldSuffix(locals, info, named, resultCount, results, frameRef) == Opt(info.IsFlattened(), DispatchClose) + clauses + rest;
    assert f !in rest;
  }

  /** What a deferring function's catch and finally clauses hold: the terminal
      case `$s = -1` exactly when it is blocking, the unnamed results returned
      from the catch clause, the named ones from the finally clause. */
  lemma DeferClauseFragments(locals: seq<string>, info: FuncInfo, named: bool, resultCount: nat, results: string,
                             frameRef: string)
    ensures var suffix := ScaffoldSuffix(locals, info, named, resultCount, results, frameRef);
      && (ForceTerminalCase in suffix <==> info.hasDefer && info.IsBlocking())
      && (ReturnResults(results) in suffix <==> info.hasDefer && !named && resultCount > 0)
      && (ReturnNamedIfAwake(results) in suffix <==> info.hasDefer && named)
  {
    DeferClausesHold(info.IsBlocking(), named, resultCount, results);
    SuffixClauses(ForceTerminalCase, locals, info, named, resultCount, results, frameRef);
    SuffixClauses(ReturnResults(results), locals, info, named, resultCount, results, frameRef);
    SuffixClauses(ReturnNamedIfAwake(results), locals, info, named, resultCount, results, frameRef);
  }

  /** A blocking function, and only a blocking one, restores its frame on
      entry, over the frame locals. */
  lemma ResumeFrameFragment(locals: seq<string>, info: FuncInfo)
    ensures var prefix := ScaffoldPrefix(locals, info);
      && (ResumeFrame(locals) in prefix <==> info.IsBlocking())
      && (forall f: Fragment :: f in prefix && (f.ResumeFrame? || f.SaveFrame?) ==> f == ResumeFrame(locals))
  {
  }

  /** A blocking function, and only a blocking one, saves its frame on exit,
      over the same locals it restores. */
  lemma SaveFrameFragment(locals: seq<string>, info: FuncInfo, named: bool, resultCount: nat, results: string,
                          frameRef: string)
    ensures var suffix := ScaffoldSuffix(locals, info, named, resultCount, results, frameRef);
      && (SaveFrame(frameRef, locals) in suffix <==> info.IsBlocking())
      && (forall f: Fragment :: f in suffix && (f.ResumeFrame? || f.SaveFrame?) ==> f == SaveFrame(frameRef, locals))
  {
    var d, blk := info.hasDefer, info.IsBlocking();
    var head := Opt(info.IsFlattened(), DispatchClose) + (if d then DeferClauses(blk, named, resultCount, results) else []);
    var mid := Opt(blk, SaveFrame(frameRef, locals));
    var tail := Opt(d && blk, CloseBrace) + Opt(d, CloseBrace);
    var suffix := ScaffoldSuffix(locals, info, named, resultCount, results, frameRef);
    assert suffix == head + mid + tail;
    assert forall f: Fragment :: f in head ==> !f.SaveFrame? && !f.ResumeFrame? by {
      DeferClausesFrameFree(blk, named, resultCount, results);
    }
    assert forall f: Fragment :: f in tail ==> f == CloseBrace;
    forall f: Fragment | f in suffix && (f.ResumeFrame? || f.SaveFrame?)
      ensures f == SaveFrame(frameRef, locals)
    {
      assert f in mid;
    }
    assert SaveFrame(frameRef, locals) in suffix <==> SaveFrame(frameRef, locals) in mid;
  }

  /** An anonymous blocking function is named `$b` and its frame points at that
      name; otherwise the frame points at funcRef and no name is added. */
  lemma AnonymousBlockingName(info: FuncInfo, funcRef: string)
    ensures FunctionName(info, funcRef) == " $b" <==> info.IsBlocking() && funcRef == ""
    ensures FunctionName(info, funcRef) == " $b" ==> FrameRef(info, funcRef) == "$b"
    ensures FunctionName(info, funcRef) != " $b" ==> FunctionName(info, funcRef) == "" && FrameRef(info, funcRef) == funcRef
  {
  }

  /** Walking one more optional fragment from where a walk ended. */
  lemma WalkSnocOpt(d: nat, fs: seq<Fragment>, c: bool, f: Fragment, e: nat)
    requires Walk(d, fs) == Some(e)
    ensures Walk(d, fs + Opt(c, f)) == if !c then Some(e) else if e < Closes(f) then None else Some(e - Closes(f) + Opens(f))
  {
    WalkAppend(d, fs, Opt(c, f));
    WalkOpt(e, c, f);
  }

  lemma PrefixNests(locals: seq<string>, info: FuncInfo)
    ensures Walk(0, ScaffoldPrefix(locals, info)) == Some((if info.IsFlattened() then 2 else 0) + (if info.hasDefer then 1 else 0))
  {
    var flat, d, blk := info.IsFlattened(), info.hasDefer, info.IsBlocking();
    var p1 := Opt(flat, InitCaseState);
    WalkOpt(0, flat, InitCaseState);
    WalkSnocOpt(0, p1, blk, ResumeFrame(locals), 0);
    var p2 := p1 + Opt(blk, ResumeFrame(locals));
    WalkSnocOpt(0, p2, d, TryOpen, 0);
    var p3 := p2 + Opt(d, TryOpen);
    WalkSnocOpt(0, p3, flat, DispatchOpen, if d then 1 else 0);
  }

  lemma DeferClausesNest(blocking: bool, named: bool, resultCount: nat, results: string)
    ensures Walk(1, DeferClauses(blocking, named, resultCount, results)) == Some(if blocking then 2 else 1)
  {
    var q1 := [CatchOpen];
    assert Walk(1, q1) == Some(1) by {
      assert q1[1..] == [];
    }
    WalkSnocOpt(1, q1, blocking, ForceTerminalCase, 1);
    var q2 := q1 + Opt(blocking, ForceTerminalCase);
    WalkSnocOpt(1, q2, !named && resultCount > 0, ReturnResults(results), 1);
    var q3 := q2 + Opt(!named && resultCount > 0, ReturnResults(results));
    WalkSnocOpt(1, q3, true, FinallyCallDeferred, 1);
    assert Opt(true, FinallyCallDeferred) == [FinallyCallDeferred];
    var q4 := q3 + [FinallyCallDeferred];
    WalkSnocOpt(1, q4, named, ReturnNamedIfAwake(results), 1);
    var q5 := q4 + Opt(named, ReturnNamedIfAwake(results));
    WalkSnocOpt(1, q5, blocking, AsleepGuardOpen, 1);
  }

  lemma SuffixNests(locals: seq<string>, info: FuncInfo, named: bool, resultCount: nat, results: string,
                    frameRef: string)
    ensures Walk((if info.IsFlattened() then 2 else 0) + (if info.hasDefer then 1 else 0),
                 ScaffoldSuffix(locals, info, named, resultCount, results, frameRef)) == Some(0)
  {
    var flat, d, blk := info.IsFlattened(), info.hasDefer, info.IsBlocking();
    var start := (if flat then 2 else 0) + (if d then 1 else 0);
    var e := if d then 1 else 0;
    var g := if d && blk then 2 else e;
    var clauses := if d then DeferClauses(blk, named, resultCount, results) else [];
    var r1 := Opt(flat, DispatchClose);
    WalkOpt(start, flat, DispatchClose);
    WalkAppend(start, r1, clauses);
    if d { DeferClausesNest(blk, named, resultCount, results); }
    assert Walk(start, r1 + clauses) == Some(g);
    WalkSnocOpt(start, r1 + clauses, blk, SaveFrame(frameRef, locals), g);
    var r3 := r1 + clauses + Opt(blk, SaveFrame(frameRef, locals));
    WalkSnocOpt(start, r3, d && blk, CloseBrace, g);
    var r4 := r3 + Opt(d && blk, CloseBrace);
    WalkSnocOpt(start, r4, d, CloseBrace, e);
  }

  /** The scaffolding nests: the prefix leaves the dispatch loop's two braces and
      the try's brace open around the body, and the suffix closes exactly those,
      never one that is not open, whatever the function's features. */
  lemma ScaffoldingNests(locals: seq<string>, info: FuncInfo, named: bool, resultCount: nat, results: string,
                         frameRef: string)
    ensures var prefix := ScaffoldPrefix(locals, info);
      && Walk(0, prefix) == Some((if info.IsFlattened() then 2 else 0) + (if info.hasDefer then 1 else 0))
      && Walk(0, prefix + ScaffoldSuffix(locals, info, named, resultCount, results, frameRef)) == Some(0)
  {
    PrefixNests(locals, info);
    SuffixNests(locals, info, named, resultCount, results, frameRef);
    WalkAppend(0, ScaffoldPrefix(locals, info), ScaffoldSuffix(locals, info, named, resultCount, results, frameRef));
  }

  /** The frame's load and store statements, one of each per local, in order. */
  method FrameEntries(vars: seq<string>) returns (loads: string, stores: string)
    ensures loads == Loads(vars) && stores == Stores(vars)
  {
    loads, stores := "", "";
    var i := 0;
    while i < |vars|
      invariant 0 <= i <= |vars|
      invariant loads == Loads(vars[..i]) && stores == Stores(vars[..i])
    {
      assert vars[..i + 1][..i] == vars[..i];
      loads := loads + LoadEntry(vars[i]);
      stores := stores + StoreEntry(vars[i]);
      i := i + 1;
    }
    assert vars[..i] == vars;
  }

  lemma RenderOpt(c: bool, f: Fragment)
    ensures Render(Opt(c, f)) == if c then Text(f) else ""
  {
    if c {
      assert Opt(c, f) == [f];
      assert [f][1..] == [];
      assert Render([f]) == Text(f) + Render([]);
    }
  }

  /** Appends the text of f when c holds. */
  method AppendOpt(text: string, c: bool, f: Fragment, ghost fs: seq<Fragment>) returns (text': string)
    requires text == Render(fs)
    ensures text' == Render(fs + Opt(c, f))
  {
    text' := text;
    if c {
      text' := text + Text(f);
    }
    RenderOpt(c, f);
    RenderAppend(fs, Opt(c, f));
  }

  /** The catch and finally clauses of a deferring function, written clause by
      clause. */
  method DeferSuffix(blocking: bool, named: bool, resultCount: nat, results: string) returns (text: string)
    ensures text == Render(DeferClauses(blocking, named, resultCount, results))
  {
    text := Text(CatchOpen);
    ghost var df := [CatchOpen];
    assert Render(df) == Text(CatchOpen) + Render([]);
    text := AppendOpt(text, blocking, ForceTerminalCase, df);
    df := df + Opt(blocking, ForceTerminalCase);
    text := AppendOpt(text, !named && resultCount > 0, ReturnResults(results), df);
    df := df + Opt(!named && resultCount > 0, ReturnResults(results));
    text := AppendOpt(text, true, FinallyCallDeferred, df);
    df := df + [FinallyCallDeferred];
    text := AppendOpt(text, named, ReturnNamedIfAwake(results), df);
    df := df + Opt(named, ReturnNamedIfAwake(results));
    text := AppendOpt(text, blocking, AsleepGuardOpen, df);
    df := df + Opt(blocking, AsleepGuardOpen);
    assert df == DeferClauses(blocking, named, resultCount, results);
  }

  /** The frame's restore code (on entry) and save code (on exit). */
  method FrameCode(locals: seq<string>, frameRef: string) returns (resume: string, save: string)
    ensures resume == Text(ResumeFrame(locals)) && save == Text(SaveFrame(frameRef, locals))
  {
    var loads, stores := FrameEntries(locals);
    resume := ResumeText(loads);
    save := SaveText(frameRef, stores);
  }

  /** The prefix and suffix as the assembly builds them, piece by piece. */
  lemma ScaffoldPieces(locals: seq<string>, info: FuncInfo, named: bool, resultCount: nat, results: string, frameRef: string)
    ensures var flat, d, blk := info.IsFlattened(), info.hasDefer, info.IsBlocking();
      && ScaffoldPrefix(locals, info) == Opt(flat, InitCaseState) + Opt(blk, ResumeFrame(locals)) + Opt(d, TryOpen) + Opt(flat, DispatchOpen)
      && ScaffoldSuffix(locals, info, named, resultCount, results, frameRef)
         == Opt(flat, DispatchClose) + ((if d then DeferClauses(blk, named, resultCount, results) else [])
            + (Opt(blk, SaveFrame(frameRef, locals)) + (Opt(d && blk, CloseBrace) + Opt(d, CloseBrace))))
  {
  }

  /** `sort.Strings(c.localVars)`. */
  method SortLocals(c: FuncContext)
    modifies c`localVars
    ensures c.localVars == SortStrings(old(c.localVars))
  {
    c.localVars := SortStrings(c.localVars);
  }

  /** Adds the frame restore to the prefix and the frame save around the
      suffix, for a blocking function. */
  method AddFrame(prefix: string, suffix: string, blocking: bool, locals: seq<string>, frameRef: string,
                  ghost pf: seq<Fragment>, ghost sf: seq<Fragment>) returns (prefix': string, suffix': string)
    requires prefix == Render(pf) && suffix == Render(sf)
    ensures prefix' == Render(pf + Opt(blocking, ResumeFrame(locals)))
    ensures suffix' == Render(Opt(blocking, SaveFrame(frameRef, locals)) + sf)
  {
    prefix', suffix' := prefix, suffix;
    if blocking {
      var resume, save := FrameCode(locals, frameRef);
      prefix' := prefix + resume;
      suffix' := save + suffix;
    }
    RenderOpt(blocking, ResumeFrame(locals));
    RenderOpt(blocking, SaveFrame(frameRef, locals));
    RenderAppend(pf, Opt(blocking, ResumeFrame(locals)));
    RenderAppend(Opt(blocking, SaveFrame(frameRef, locals)), sf);
  }

  /** Adds the try to the prefix and the catch and finally clauses around the
      suffix, for a function with defer. */
  method AddDefer(prefix: string, suffix: string, hasDefer: bool, blocking: bool, named: bool, resultCount: nat,
                  results: string, ghost pf: seq<Fragment>, ghost sf: seq<Fragment>) returns (prefix': string, suffix': string)
    requires prefix == Render(pf) && suffix == Render(sf)
    ensures prefix' == Render(pf + Opt(hasDefer, TryOpen))
    ensures suffix' == Render((if hasDefer then DeferClauses(blocking, named, resultCount, results) else []) + sf)
  {
    prefix', suffix' := prefix, suffix;
    if hasDefer {
      prefix' := prefix + Text(TryOpen);
      var deferSuffix := DeferSuffix(blocking, named, resultCount, results);
      suffix' := deferSuffix + suffix;
    }
    RenderOpt(hasDefer, TryOpen);
    RenderAppend(pf, Opt(hasDefer, TryOpen));
    RenderAppend(if hasDefer then DeferClauses(blocking, named, resultCount, results) else [], sf);
  }

  /** Adds the state-machine dispatch around the body of a flattened function. */
  method AddDispatch(prefix: string, suffix: string, flattened: bool,
                     ghost pf: seq<Fragment>, ghost sf: seq<Fragment>) returns (prefix': string, suffix': string)
    requires prefix == Render(pf) && suffix == Render(sf)
    ensures prefix' == Render(pf + Opt(flattened, DispatchOpen))
    ensures suffix' == Render(Opt(flattened, DispatchClose) + sf)
  {
    prefix', suffix' := prefix, suffix;
    if flattened {
      prefix' := prefix + Text(DispatchOpen);
      suffix' := Text(DispatchClose) + suffix;
    }
    RenderOpt(flattened, DispatchOpen);
    RenderOpt(flattened, DispatchClose);
    RenderAppend(pf, Opt(flattened, DispatchOpen));
    RenderAppend(Opt(flattened, DispatchClose), sf);
  }

  /** The markers appended to the sorted locals, one feature at a time. */
  method AddMarkers(c: FuncContext)
    modifies c`localVars
    ensures c.localVars == old(c.localVars) + Markers(c.info)
  {
    if c.info.IsFlattened() {
      c.localVars := c.localVars + ["$s"];
    }
    if c.info.hasDefer {
      c.localVars := c.localVars + ["$deferred"];
    }
    if c.info.IsBlocking() {
      c.localVars := c.localVars + ["$r"];
    }
  }

  /** The braces a deferring function's suffix ends with: one for the try, and
      one more for the asleep guard of a blocking function. */
  method DeferBraces(hasDefer: bool, blocking: bool) returns (suffix: string)
    ensures suffix == Render(Opt(hasDefer && blocking, CloseBrace) + Opt(hasDefer, CloseBrace))
  {
    suffix := "";
    if hasDefer {
      suffix := Text(CloseBrace) + suffix;
      if blocking {
        suffix := Text(CloseBrace) + suffix;
      }
    }
    RenderOpt(hasDefer && blocking, CloseBrace);
    RenderOpt(hasDefer, CloseBrace);
    RenderAppend(Opt(hasDefer && blocking, CloseBrace), Opt(hasDefer, CloseBrace));
  }

  /** What the frame points at, and the name an anonymous blocking function gets. */
  method BlockingName(info: FuncInfo, funcRef: string) returns (ref: string, functionName: string)
    ensures ref == FrameRef(info, funcRef) && functionName == FunctionName(info, funcRef)
  {
    ref, functionName := funcRef, "";
    if info.IsBlocking() && funcRef == "" {
      ref := "$b";
      functionName := " $b";
    }
  }

  /** The scaffolding part of translateFunction once the locals are sorted:
      appends the markers, and builds prefix and suffix text, the suffix from the
      inside out. */
  method AssembleScaffolding(c: FuncContext, results: string, funcRef: string)
    returns (prefix: string, suffix: string, functionName: string)
    modifies c`localVars
    ensures c.localVars == old(c.localVars) + Markers(c.info)
    ensures prefix == Render(ScaffoldPrefix(c.localVars, c.info))
    ensures suffix == Render(ScaffoldSuffix(c.localVars, c.info, c.namedResults, |c.sig.results|, results, FrameRef(c.info, funcRef)))
    ensures functionName == FunctionName(c.info, funcRef)
  {
    var flat, d, blk := c.info.IsFlattened(), c.info.hasDefer, c.info.IsBlocking();
    var named, count := c.namedResults, |c.sig.results|;
    AddMarkers(c);
    var locals := c.localVars;
    prefix := "";
    if flat {
      prefix := Text(InitCaseState);
    }
    RenderOpt(flat, InitCaseState);
    ghost var pf := Opt(flat, InitCaseState);
    suffix := DeferBraces(d, blk);
    ghost var sf := Opt(d && blk, CloseBrace) + Opt(d, CloseBrace);
    var ref;
    ref, functionName := BlockingName(c.info, funcRef);

    prefix, suffix := AddFrame(prefix, suffix, blk, locals, ref, pf, sf);
    pf, sf := pf + Opt(blk, ResumeFrame(locals)), Opt(blk, SaveFrame(ref, locals)) + sf;
    prefix, suffix := AddDefer(prefix, suffix, d, blk, named, count, results, pf, sf);
    pf, sf := pf + Opt(d, TryOpen), (if d then DeferClauses(blk, named, count, results) else []) + sf;
    prefix, suffix := AddDispatch(prefix, suffix, flat, pf, sf);

    ScaffoldPieces(locals, c.info, named, count, results, ref);
  }

  // ---------------------------------------------------------------------------
  // The whole function

  /** A function's code. With defer it is the wrapper template around the body,
      and the prefix and suffix assembled for it are dropped; otherwise it is
      the header, the prefix, the body and the suffix. */
  datatype FuncCode =
    | DeferWrapper(functionWord: string, functionName: string, formals: string, body: seq<BodyItem>)
    | Plain(functionWord: string, functionName: string, formals: string, prefix: string, body: seq<BodyItem>, suffix: string)

  /** What translateFunction returns: the parameter names and the code. */
  datatype Translated = Translated(params: seq<string>, code: FuncCode)

  /** The locals a function declares before sorting: its fresh parameter names,
      then what the statement translator declares. */
  function Declared(slots: seq<Option<Ident>>, base: nat, bodyLocals: seq<string>): seq<string>
  {
    FreshNames(base, FreshCount(slots)) + bodyLocals
  }

  /** translateFunction for a non-nil info, given the enclosing context's name
      counters `outerVars`. */
  function Translation(typ: FuncType, recv: Option<Receiver>, body: Body, outerVars: map<string, nat>, sig: Signature,
                       info: FuncInfo, funcRef: string, isMethod: bool, h: Helpers, results: string,
                       bodyLocals: seq<string>): Translated
  {
    var slots := ParamSlots(typ.params);
    var base := Counter(outerVars, "param");
    var params := ParamNames(slots, h.objectName, base);
    var items := BodyItems(info, sig, recv, body, h);
    var locals := FrameLocals(Declared(slots, base, bodyLocals), info);
    var word := if isMethod then "" else "function";
    var name := FunctionName(info, funcRef);
    var formals := JoinWith(params, ", ");
    if info.hasDefer then Translated(params, DeferWrapper(word, name, formals, items))
    else
      var prefix := Render(ScaffoldPrefix(locals, info));
      var suffix := Render(ScaffoldSuffix(locals, info, NamedResults(sig), |sig.results|, results, FrameRef(info, funcRef)));
      Translated(params, Plain(word, name, formals, prefix, items, suffix))
  }

  /** The work of translateFunction inside the fresh nested context c:
      parameters, body, sorting and scaffolding. */
  method TranslateIn(c: FuncContext, typ: FuncType, recv: Option<Receiver>, body: Body, funcRef: string, isMethod: bool,
                     h: Helpers, results: string, bodyLocals: seq<string>, escaping: set<Var>) returns (t: Translated)
    requires c.localVars == [] && !c.namedResults
    modifies c`allVars, c`localVars, c`namedResults, c.p`escapingVars, c.p`scopes
    ensures t == Translation(typ, recv, body, old(c.allVars), c.sig, c.info, funcRef, isMethod, h, results, bodyLocals)
    ensures c.info.IsBlocking() ==>
      c.p.scopes == old(c.p.scopes)[body.node := ScopeOf(old(c.p.scopes), typ.node)]
    ensures !c.info.IsBlocking() ==> c.p.scopes == old(c.p.scopes)
  {
    ghost var slots := ParamSlots(typ.params);
    ghost var base := Counter(c.allVars, "param");
    ghost var locals := FrameLocals(Declared(slots, base, bodyLocals), c.info);
    var params := TranslateParams(c, typ.params, h.objectName);
    assert c.localVars == FreshNames(base, FreshCount(slots));
    var items := TranslateBody(c, typ, recv, body, h, bodyLocals, escaping);
    assert c.localVars == Declared(slots, base, bodyLocals);
    SortLocals(c);
    var prefix, suffix, functionName := AssembleScaffolding(c, results, funcRef);
    assert c.localVars == locals;
    var formals := JoinWith(params, ", ");
    var functionWord := "function";
    if isMethod {
      functionWord := "";
    }
    if c.info.hasDefer {
      t := Translated(params, DeferWrapper(functionWord, functionName, formals, items));
    } else {
      t := Translated(params, Plain(functionWord, functionName, formals, prefix, items, suffix));
    }
  }

  /** translateFunction: a nil info is a panic; otherwise the function is
      translated in a nested context whose name counters start from the
      enclosing ones but never flow back, and the package's escaping variables
      are restored afterwards. A blocking function's body takes over its type's
      scope. `results` is the text the result translator gives for the return
      values; `bodyLocals` are the locals the statement translator declares and
      `escaping` the set the escape analysis installs. */
  method TranslateFunction(typ: FuncType, recv: Option<Receiver>, body: Body, outer: FuncContext, sig: Signature,
                           info: Option<FuncInfo>, funcRef: string, isMethod: bool, h: Helpers, results: string,
                           bodyLocals: seq<string>, escaping: set<Var>) returns (r: Result<Translated, string>)
    modifies outer.p`escapingVars, outer.p`scopes
    ensures info.None? ==> r == Failure("nil info")
    ensures info.Some? ==>
      r == Success(Translation(typ, recv, body, old(outer.allVars), sig, info.value, funcRef, isMethod, h, results, bodyLocals))
    ensures outer.allVars == old(outer.allVars) && outer.localVars == old(outer.localVars)
    ensures outer.p.escapingVars == old(outer.p.escapingVars)
    ensures info.Some? && info.value.IsBlocking() ==>
      outer.p.scopes == old(outer.p.scopes)[body.node := ScopeOf(old(outer.p.scopes), typ.node)]
    ensures !(info.Some? && info.value.IsBlocking()) ==> outer.p.scopes == old(outer.p.scopes)
  {
    if info.None? {
      return Failure("nil info");
    }
    var c := new FuncContext.Nested(outer, info.value, sig);
    var prevEV := c.p.escapingVars;
    var t := TranslateIn(c, typ, recv, body, funcRef, isMethod, h, results, bodyLocals, escaping);
    c.p.escapingVars := prevEV;
    return Success(t);
  }

  /** Every declared local is among the frame locals. */
  lemma DeclaredInFrame(declared: seq<string>, info: FuncInfo, x: string)
    requires x in declared
    ensures x in FrameLocals(declared, info)
  {
    assert x in multiset(declared);
    assert x in multiset(SortStrings(declared));
  }

  /** A blank or unnamed parameter's generated name is declared as a local. */
  lemma FreshParamDeclared(slots: seq<Option<Ident>>, objectName: ObjectRef -> string, base: nat,
                           bodyLocals: seq<string>, i: nat)
    requires i < |slots| && slots[i].None?
    ensures |ParamNames(slots, objectName, base)| == |slots|
    ensures ParamNames(slots, objectName, base)[i] in Declared(slots, base, bodyLocals)
  {
    FreshParamNameIsNew(slots, objectName, base, i);
    var k := FreshCount(slots[..i]);
    assert Declared(slots, base, bodyLocals)[k] == Numbered("param", base + k);
  }

  /** A blank or unnamed parameter's generated name is one of the function's
      frame locals, so a blocking function restores it on resumption and saves
      it on suspension. */
  lemma FreshParamInFrame(typ: FuncType, outerVars: map<string, nat>, info: FuncInfo, bodyLocals: seq<string>,
                          objectName: ObjectRef -> string, i: nat)
    requires i < |ParamSlots(typ.params)| && ParamSlots(typ.params)[i].None?
    ensures var slots := ParamSlots(typ.params);
      var base := Counter(outerVars, "param");
      var params := ParamNames(slots, objectName, base);
      var locals := FrameLocals(Declared(slots, base, bodyLocals), info);
      && |params| == |slots|
      && params[i] in locals
      && (info.IsBlocking() ==> ResumeFrame(locals) in ScaffoldPrefix(locals, info))
  {
    var slots := ParamSlots(typ.params);
    var base := Counter(outerVars, "param");
    var declared := Declared(slots, base, bodyLocals);
    FreshParamDeclared(slots, objectName, base, bodyLocals, i);
    DeclaredInFrame(declared, info, ParamNames(slots, objectName, base)[i]);
    ResumeFrameFragment(FrameLocals(declared, info), info);
  }

  /** The code takes the defer template exactly when the function has defer, so
      a deferring function gets none of the dispatch, frame or try scaffolding;
      without defer the dispatch loop is there exactly when it is flattened. */
  lemma TranslationForm(typ: FuncType, recv: Option<Receiver>, body: Body, outerVars: map<string, nat>, sig: Signature,
                        info: FuncInfo, funcRef: string, isMethod: bool, h: Helpers, results: string,
                        bodyLocals: seq<string>)
    ensures var t := Translation(typ, recv, body, outerVars, sig, info, funcRef, isMethod, h, results, bodyLocals);
      var slots := ParamSlots(typ.params);
      var locals := FrameLocals(Declared(slots, Counter(outerVars, "param"), bodyLocals), info);
      && (t.code.DeferWrapper? <==> info.hasDefer)
      && (t.code.functionWord == "" <==> isMethod)
      && (t.code.Plain? ==> exists prefix :: t.code.prefix == Render(prefix)
                                        && (DispatchOpen in prefix <==> info.IsFlattened())
                                        && (ResumeFrame(locals) in prefix <==> info.IsBlocking())
                                        && Walk(0, prefix) == Some(if info.IsFlattened() then 2 else 0))
  {
    var locals := FrameLocals(Declared(ParamSlots(typ.params), Counter(outerVars, "param"), bodyLocals), info);
    if !info.hasDefer {
      var prefix := ScaffoldPrefix(locals, info);
      DispatchAndTryFragments(locals, info, NamedResults(sig), |sig.results|, results, FrameRef(info, funcRef));
      ResumeFrameFragment(locals, info);
      PrefixNests(locals, info);
    }
  }
}
