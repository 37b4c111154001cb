/** The compiler's per-package and per-function translation state
    (pkgContext and funcContext of pkg/compiler/package.go). */
module Context {

  import opened Wrappers
  import opened Names
  import opened Syntax

  datatype SelectionKind = FieldVal | MethodVal | MethodExpr

  /** A resolved selector: kind, receiver type, index path through embedded
      fields, selected object and type (go/types' Selection, or a fakeSelection). */
  datatype Selection = Selection(kind: SelectionKind, recv: TypeRef, index: seq<nat>, obj: ObjectRef, typ: TypeRef)

  /** A break/continue target: an optional post statement and the case range. */
  datatype FlowData = FlowData(postStmt: Option<Node>, beginCase: int, endCase: int)

  /** The flow data a new function context starts with: an entry for the nil label. */
  const InitialFlowDatas: map<Option<Label>, FlowData> := map[None := FlowData(None, 0, 0)]

  class PkgContext {
    /** The type checker's selections (analysis.Info). */
    const selections: map<Node, Selection>
    /** Selections the compiler adds for selectors it synthesises. */
    var additionalSelections: map<Node, Selection>
    /** The variables that currently live in a heap cell. */
    var escapingVars: set<Var>
    /** The type checker's scope of each node; an entry may hold nil. */
    var scopes: map<Node, Option<ScopeRef>>

    constructor (selections: map<Node, Selection>, additionalSelections: map<Node, Selection>,
                 escapingVars: set<Var>, scopes: map<Node, Option<ScopeRef>>)
      ensures this.selections == selections && this.additionalSelections == additionalSelections
      ensures this.escapingVars == escapingVars && this.scopes == scopes
    {
      this.selections := selections;
      this.additionalSelections := additionalSelections;
      this.escapingVars := escapingVars;
      this.scopes := scopes;
    }

    /** The selection of selector e: the type checker's if it has one, otherwise
        the compiler's own, otherwise none. */
    function SelectionOf(e: Node): (r: Option<Selection>)
      reads this
      ensures r.Some? <==> e in selections || e in additionalSelections
      ensures e in selections ==> r == Some(selections[e])
      ensures e !in selections && e in additionalSelections ==> r == Some(additionalSelections[e])
    {
      if e in selections then Some(selections[e])
      else if e in additionalSelections then Some(additionalSelections[e])
      else None
    }
  }

  /** The type checker's map wins: SelectionOf is a lookup in the union in which
      the type checker's entries override the compiler's. */
  lemma SelectionOfIsOverridingUnion(p: PkgContext, e: Node)
    ensures p.SelectionOf(e) == Lookup(p.additionalSelections + p.selections, e)
  {
  }

  /** Whatever the compiler adds, a selector the type checker resolved keeps
      the type checker's selection. */
  lemma AdditionsNeverShadow(p: PkgContext, e: Node, added: map<Node, Selection>)
    requires e in p.selections
    ensures Lookup(p.additionalSelections + added + p.selections, e) == p.SelectionOf(e)
  {
  }

  /** The counter of `prefix` in allVars; a missing entry reads as 0. */
  function Counter(allVars: map<string, nat>, prefix: string): nat
  {
    if prefix in allVars then allVars[prefix] else 0
  }

  /** allVars after n more names have been handed out for prefix. */
  function Bump(allVars: map<string, nat>, prefix: string, n: nat): (r: map<string, nat>)
    ensures Counter(r, prefix) == Counter(allVars, prefix) + n
    ensures forall k :: k != prefix ==> Lookup(r, k) == Lookup(allVars, k)
  {
    if n == 0 then allVars else allVars[prefix := Counter(allVars, prefix) + n]
  }

  lemma BumpTwice(allVars: map<string, nat>, prefix: string, a: nat, b: nat)
    ensures Bump(Bump(allVars, prefix, a), prefix, b) == Bump(allVars, prefix, a + b)
  {
  }

  /** The scope the type checker records for node n; a missing entry reads as nil. */
  function ScopeOf(scopes: map<Node, Option<ScopeRef>>, n: Node): Option<ScopeRef>
  {
    if n in scopes then scopes[n] else None
  }

  /** Copies a context's allVars entry by entry into a new map. */
  method CopyAllVars(src: map<string, nat>) returns (dst: map<string, nat>)
    ensures dst.Keys == src.Keys
    ensures forall k :: k in src ==> dst[k] == src[k]
  {
    dst := map[];
    var rest := src.Keys;
    while rest != {}
      invariant rest <= src.Keys
      invariant dst.Keys == src.Keys - rest
      invariant forall k :: k in dst ==> dst[k] == src[k]
      decreases rest
    {
      var k :| k in rest;
      dst := dst[k := src[k]];
      rest := rest - {k};
    }
  }

  class FuncContext {
    /** The function's flow facts (analysis.FuncInfo). */
    const info: FuncInfo
    const p: PkgContext
    const parent: FuncContext?
    const sig: Signature
    /** How many names each prefix has handed out, here and in enclosing contexts. */
    var allVars: map<string, nat>
    /** The locals declared so far, in declaration order. */
    var localVars: seq<string>
    /** resultNames != nil: the results are named and initialised on entry. */
    var namedResults: bool
    var flowDatas: map<Option<Label>, FlowData>
    var caseCounter: int
    var labelCases: map<Label, int>

    /** The context of a function translated inside `outer`: same package, a copy
        of outer's allVars, nothing declared yet, case counter 1, and flow data for
        the nil label only. `outer` itself is not modified. */
    constructor Nested(outer: FuncContext, info: FuncInfo, sig: Signature)
      ensures this.info == info && p == outer.p && parent == outer && this.sig == sig
      ensures allVars == outer.allVars
      ensures localVars == [] && !namedResults
      ensures flowDatas == InitialFlowDatas && caseCounter == 1 && labelCases == map[]
    {
      this.info := info;
      p := outer.p;
      parent := outer;
      this.sig := sig;
      localVars := [];
      namedResults := false;
      flowDatas := InitialFlowDatas;
      caseCounter := 1;
      labelCases := map[];
      var copied := CopyAllVars(outer.allVars);
      allVars := copied;
    }

    /** newVariable: hands out the next numbered name for prefix and declares it
        as a local. */
    method NewVariable(prefix: string) returns (name: string)
      modifies this`allVars, this`localVars
      ensures name == Numbered(prefix, Counter(old(allVars), prefix))
      ensures allVars == Bump(old(allVars), prefix, 1)
      ensures localVars == old(localVars) + [name]
    {
      var n := Counter(allVars, prefix);
      allVars := allVars[prefix := n + 1];
      name := Numbered(prefix, n);
      localVars := localVars + [name];
    }
  }
}
