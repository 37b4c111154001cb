# gi compiler glue: a Dafny model of `pkg/compiler/package.go`

gi compiles Go to Lua. It reuses GopherJS's compiler structure, so its
generated code still carries much of GopherJS's JavaScript-shaped scaffolding.
`pkg/compiler/package.go` holds the glue between the type checker and the
statement and expression translators. This model covers five pieces of it:

- **Selection lookup** (`pkgContext.SelectionOf`). A selector's resolved
  selection comes from the type checker's map first. Failing that, it comes
  from the compiler's own additions. Otherwise there is none.
- **The package importer** (`packageImporter.Import`). The `unsafe` package is
  answered directly. Any other path is loaded through the import context. The
  first failure is recorded in an error cell shared with `Compile`.
- **Type-constructor arguments** (`initArgs`). These are the arguments of the
  runtime constructor of a composite type: element types, lengths, channel
  direction flags, method tables and field tables. Any other kind of type is a
  panic.
- **Function translation** (`translateFunction`). It runs in a nested function
  context and produces two things:
  - the parameter names, with fresh `param` names for blank and unnamed
    parameters;
  - the code: the body's entry items, the sorted frame locals and the
    scaffolding around the body (the state-machine dispatch of a flattened
    function, the resumable frame of a blocking one, and the try/catch/finally
    of one with `defer`).

  A function with `defer` instead takes a Lua wrapper template, and the
  scaffolding assembled for it is dropped.
- **Top-level declarations** (`translateToplevelFunction`). What is emitted
  depends on the receiver. A plain function is emitted under its object's
  name, followed by an export alias when its name is exported.
  A struct method is registered under `Type:method`. A method on an array
  pointer, another pointer or a value is emitted on the prototype, with a
  pointer forwarder where the code writes one. A declaration without a body
  becomes a stub that throws.

The model's structure:

- Files and modules:
  - `wrappers.dfy` (`Option`, `Result`, map lookup);
  - `names.dfy` (numbered names, `strings.Split`, `strings.Join`, exported names);
  - `sorting.dfy` (`sort.Strings`);
  - `syntax.dfy` (the AST and type-checker facts the glue reads);
  - `context.dfy` (`pkgContext`, `funcContext`);
  - `importer.dfy`, `typeargs.dfy`, `function.dfy`, `toplevel.dfy`.
- Contexts and the importer's shared cell are classes whose methods update
  their fields.
- The loops of the source are methods proved against specification functions:
  - the `allVars` copy;
  - the parameter loop;
  - the zero-result loop;
  - the frame load/store loop;
  - `initArgs`' table loops.
- The generated code is described by datatypes rather than byte strings:
  - body items;
  - scaffolding fragments, each rendered by `Text` to the exact string the
    source writes;
  - `FuncCode`;
  - top-level `Entry` values.
- The helpers that `package.go` calls but does not define are function-valued
  parameters, so they are deterministic and have no side effects on the
  contexts (see "Left out" for what that assumes):
  - `objectName`, `isWrapped`, `encodeIdent`, `FullName`;
  - `typeName`, `fieldName`, `encodeString`.
- What the statement, result and escape translators contribute is passed in as
  plain values:
  - the locals the body declares;
  - the text of the return values;
  - the escaping-variable set.

With `defer`, the `HasDefer` branch (package.go:409-428) returns the wrapper
template and discards the prefix and suffix computed for it;
`TranslationForm` states this.

## Model

| member | source | states |
|---|---|---|
| Context.PkgContext.SelectionOf | pkg/compiler/package.go:41-49 | a selection is found iff either map holds the selector; the type checker's entry is returned when it has one, the compiler's otherwise |
| Context.SelectionOfIsOverridingUnion | pkg/compiler/package.go:41-49 | the lookup equals a lookup in the union of both maps in which the type checker's entries override the compiler's |
| Context.AdditionsNeverShadow | pkg/compiler/package.go:41-49 | whatever the compiler adds to its own map, a selector the type checker resolved keeps the type checker's selection |
| Importer.PackageImporter.Import | pkg/compiler/package.go:111-133 | `unsafe` yields the unsafe package without calling the loader or touching the cell; a load failure is returned with no package; a success yields the package registered under the archive's import path (nil when none is); the cell takes the failure only when it held nil |
| Importer.RecordedErrorIsKept | pkg/compiler/package.go:120-125 | once the cell holds an error, no sequence of later imports changes it |
| Importer.FirstErrorWins | pkg/compiler/package.go:120-125 | starting from nil, after any sequence of imports the cell holds the error of the first failing import, and nil when none failed |
| Importer.FirstFailure | pkg/compiler/package.go:120-125 | the error reported is the loader's error for some non-`unsafe` path of the sequence |
| TypeArgs.InitArgs | pkg/compiler/package.go:135-182 | the arguments built by filling the method, parameter, result and field tables by index equal the type's arguments by kind, a panic for any other kind |
| TypeArgs.ArgsFailExactlyOnOtherKinds | pkg/compiler/package.go:136-181 | initArgs panics ("invalid type") exactly on the types that are not composite, or on an interface with a method whose type is not composite (the type checker always gives a method a signature, so that case does not arise from checked code) |
| TypeArgs.ChanDirectionFlags | pkg/compiler/package.go:139-140 | the two channel flags are "send-only" and "receive-only"; a bidirectional channel sets neither |
| TypeArgs.InterfaceTable | pkg/compiler/package.go:141-151 | one method entry per method in order, prop and name the method's name, the package path only for an unexported method, and the method type's own arguments |
| TypeArgs.TypeNames | pkg/compiler/package.go:159-166 | a signature's parameter or result table holds the type name of each entry, in order |
| TypeArgs.FieldTable | pkg/compiler/package.go:169-177 | the field table filled by index holds each field's entry in order, and the path kept is that of the last unexported field |
| TypeArgs.StructTable | pkg/compiler/package.go:168-178 | one field entry per field in order with its name, embedding, exportedness, type name and encoded tag; the package path is "" when all fields are exported, else that of the last unexported field |
| TypeArgs.AllExportedNoPath | pkg/compiler/package.go:169-175 | a struct whose fields are all exported carries the package path "" |
| TypeArgs.LastUnexportedField | pkg/compiler/package.go:169-175 | a struct with an unexported field carries the path of the last unexported one: no field after it is unexported |
| Context.CopyAllVars | pkg/compiler/package.go:294-296 | the copy has exactly the source's keys, each with the source's counter |
| Context.FuncContext.Nested | pkg/compiler/package.go:283-296 | a nested context shares the package, has the outer context as parent, a copy of its allVars, no locals, no named results, case counter 1 and flow data for the nil label only |
| Context.FuncContext.NewVariable | pkg/compiler/package.go:302 | the name is the prefix's next numbered name; its counter rises by one and the name is appended to the locals |
| Names.Numbered | pkg/compiler/package.go:302 | the first name of a prefix is the prefix itself; later ones extend it with `$` and a number |
| Names.NumberedInjective | pkg/compiler/package.go:302-307 | different counters give different names for the same prefix |
| Function.TranslateParams | pkg/compiler/package.go:299-312 | the parameters are one name per position (a position per name, or one for an unnamed field); blank and unnamed positions take the counter's next `param` names and declare them as locals; allVars rises by their number |
| Function.TranslateField | pkg/compiler/package.go:300-311 | one field of the loop keeps the loop's state: its positions are added, each blank or unnamed one with the counter's next `param` name declared as a local |
| Function.TranslateName | pkg/compiler/package.go:305-310 | one name of a field keeps the loop's state: a blank name takes the counter's next `param` name and declares it, any other name the object's name |
| Function.ParamNameAt | pkg/compiler/package.go:300-311 | the i-th parameter is the object's name for a named parameter, and otherwise the `param` name numbered by the fresh names before it |
| Function.FreshParamNamesDistinct | pkg/compiler/package.go:301-308 | two blank or unnamed parameters never share a name |
| Function.FreshParamNameIsNew | pkg/compiler/package.go:301-308 | a fresh parameter name is numbered at or above the counter the enclosing context had, so it repeats no earlier `param` name |
| Function.BodyItemsLayout | pkg/compiler/package.go:314-342 | a blocking body starts with the escaping variables' setup and no other body does, nor has it anywhere else; named results are zeroed next in order, then a named non-blank receiver is bound (to `this.$val` iff its type is wrapped, else `self`), then the statements; a return is added iff the function is flattened and the statements do not end in one |
| Function.TranslateBody | pkg/compiler/package.go:314-343 | the body items are the layout above; a blocking body takes its type's scope and the escaping set, and otherwise neither changes; named results are remembered; the body's locals are appended |
| Function.ZeroNamedResults | pkg/compiler/package.go:320-329 | one zeroing item per result, in the results' order |
| Function.SortLocals | pkg/compiler/package.go:345 | the locals become their sorted permutation |
| Sorting.SortStrings | pkg/compiler/package.go:345 | the result is sorted, as long as the input, and a permutation of it |
| Sorting.SortedPermutationUnique | pkg/compiler/package.go:345 | two sorted permutations of the same strings are equal, so any sort gives what `SortStrings` gives |
| Function.MarkersDistinct | pkg/compiler/package.go:349-363 | `$s` is appended iff the function is flattened, `$deferred` iff it has defer, `$r` iff it is blocking, at most three markers |
| Function.ScaffoldLocals | pkg/compiler/package.go:345-363 | the final locals are the declared ones sorted, none lost or added, followed by the markers |
| Function.DispatchAndTryFragments | pkg/compiler/package.go:349-399 | `$s = 0`, the dispatch opening and its closing appear iff the function is flattened; the try and the catch appear iff it has defer |
| Function.DeferClauseFragments | pkg/compiler/package.go:377-394 | the catch sets `$s = -1` iff the function has defer and blocks; unnamed results are returned from the catch iff there are any; named ones from the finally |
| Function.ResumeFrameFragment | pkg/compiler/package.go:362-373 | the prefix restores the frame iff the function blocks, and over exactly the final locals |
| Function.SaveFrameFragment | pkg/compiler/package.go:362-375 | the suffix saves the frame iff the function blocks, over the same locals, pointing at the frame reference |
| Function.AnonymousBlockingName | pkg/compiler/package.go:364-367 | an anonymous blocking function is named `$b` and its frame points at `$b`; otherwise no name is added and the frame points at funcRef |
| Function.ScaffoldingNests | pkg/compiler/package.go:347-399 | the prefix leaves the dispatch's two braces and the try's brace open, and prefix then suffix closes exactly those, never one not open |
| Function.FrameEntries | pkg/compiler/package.go:368-372 | one load and one store per local, in the locals' order |
| Function.FrameCode | pkg/compiler/package.go:373-374 | the restore and save code are the frame fragments' texts |
| Function.DeferSuffix | pkg/compiler/package.go:379-393 | the text built clause by clause is the rendering of the defer clauses |
| Function.AddFrame | pkg/compiler/package.go:362-375 | the prefix gains the frame restore at its end and the suffix the frame save at its front, for a blocking function |
| Function.AddDefer | pkg/compiler/package.go:377-394 | the prefix gains the try at its end and the suffix the catch and finally clauses at its front, for a function with defer |
| Function.AddDispatch | pkg/compiler/package.go:396-399 | the prefix gains the dispatch opening at its end and the suffix its closing at its front, for a flattened function |
| Function.AddMarkers | pkg/compiler/package.go:349-363 | the locals gain `$s`, `$deferred` and `$r` in that order, each for its feature |
| Function.DeferBraces | pkg/compiler/package.go:354-359 | a deferring function's suffix ends with one closing brace, and one more when it blocks |
| Function.BlockingName | pkg/compiler/package.go:364-367 | the frame reference and function name are `$b` for an anonymous blocking function, funcRef and none otherwise |
| Function.AssembleScaffolding | pkg/compiler/package.go:347-399 | the locals gain the markers; prefix and suffix are the renderings of the scaffolding specification; the function name is `$b` for an anonymous blocking one |
| Function.TranslateIn | pkg/compiler/package.go:299-442 | parameters, body, sorting and scaffolding together give the translation specification, the scope rule for blocking functions included |
| Function.TranslateFunction | pkg/compiler/package.go:272-443 | a nil info is a panic; otherwise the result is the translation in a nested context; the outer context's counters and locals and the package's escaping variables are as before; only a blocking body's scope changes |
| Function.FreshParamInFrame | pkg/compiler/package.go:299-375 | a blank or unnamed parameter's name is one of the frame locals, restored on resumption of a blocking function |
| Function.TranslationForm | pkg/compiler/package.go:401-442 | the code is the defer template iff the function has defer (prefix and suffix dropped); the word `function` is left out iff it is a method; plain code's prefix has the dispatch iff flattened, the frame iff blocking, and leaves the dispatch's braces open |
| Names.Split | pkg/compiler/package.go:203 | one part more than separators, no part holding the separator |
| Names.JoinSplit | pkg/compiler/package.go:203 | joining the parts with the separator gives the string back |
| Names.SplitQualified | pkg/compiler/package.go:203-209 | `Type:method` splits into the type's and the method's names when neither holds a colon |
| Toplevel.PrimaryFunction | pkg/compiler/package.go:196-214 | a body-less function is a stub that throws; otherwise the translated function, registered under the two halves of its reference for a struct method, with the joined parameters left for a forwarder; escaping variables are restored |
| Toplevel.TranslateToplevelFunction | pkg/compiler/package.go:184-270 | the entries written to the buffer are those the receiver calls for; escaping variables are restored and only a blocking body's scope changes |
| Toplevel.PlainFunctionExport | pkg/compiler/package.go:218-226 | a plain function is defined under its object's name, with an alias under the encoded name iff the name is exported |
| Toplevel.StructMethodRegistered | pkg/compiler/package.go:241-252 | a struct method (value or pointer receiver) is one method definition under `Type:method`, registered under the type's and the method's names |
| Toplevel.NonStructReceivers | pkg/compiler/package.go:254-269 | exactly one entry for a pointer to a non-array type and exactly two otherwise: a pointer to an array gets a prototype method and a forwarder copying the array; any other pointer only the `$ptrType` method; a value the prototype method and a forwarder wrapping the pointee iff the type is wrapped; forwarders pass the joined parameters |
| Toplevel.NativeNeverFails | pkg/compiler/package.go:197-199 | a declaration without a body never fails and yields, first, a throwing stub under the reference its receiver calls for, whose error message names the function's full name; any forwarder passes no parameters |
| Toplevel.NilInfoFails | pkg/compiler/package.go:273-275 | a declaration with a body and a nil info fails with "nil info" whatever its receiver |

## Left out

- `vendor/github.com/glycerine/golua/lua/golua.go` is not part of this model. It is a cgo bridge to the Lua runtime, with a mutex-guarded state registry and reflection-driven field access.
- Debug output (`pp`, the `printer.Fprint` under `if false`) is not modelled. Neither are the tabs of `c.p.indentation` or the `/*jea ...*/` markers placed around prefix and suffix.
- The final `Sprintf` that joins header, prefix, body and suffix is not modelled. The code is kept as the `FuncCode` datatype.
- Top-level entries are `Entry` values, not the bytes written to the buffer.
- The internals of the `__actuallyCall` template on the defer path are not modelled. Only that it is chosen, with its header, formals and body, is modelled.
- The statement, expression, result and zero-value translators, `CatchOutput` and `endsWithReturn` are not modelled, nor is the text `handleEscapingVars` prints. Their output enters as plain values:
  - the body's declared locals;
  - the result text;
  - the escaping set;
  - the `endsWithReturn` flag;
  - body items naming the statements and the escaping variables' setup rather than their text.
- `objectName`, `isWrapped`, `encodeIdent`, `FullName`, `typeName`, `fieldName` and `encodeString` are function parameters. Being functions, they are deterministic and cannot change the function context. Their source is not part of this model, so any effect the source's versions have on the context (a name `objectName` allocates for an object it has not named yet, say) is not captured.
- Function.TranslateParams: assumes that `objectName` declares no local and bumps no counter. That is why its contract says only the fresh `param` names are declared and why the frame locals are those names plus the body's. The model's freshness results therefore do not cover a source `objectName` that names a parameter `param` without counting it: there, `func f(param int, _ int)` would yield `param` twice.
- Function.TranslateBody: the receiver assignment's left side is `c.translateExpr(recv, nil)` (package.go:336). It is modelled as `objectName` of the receiver's object, which is what that translation yields for a plain identifier.
- Function.BodyItemsLayout: the escaping variables' setup is one item. What `handleEscapingVars` prints for each variable is not modelled.
- Context.FuncContext.NewVariable: its source is not part of this model. It is modelled with the counter-per-prefix scheme of `allVars` (`param`, `param$1`, ...), and the freshness of parameter names rests on that assumption.
- The writes to `c.p.Uses` and `setType` for result identifiers (package.go:325-327) are not modelled. They only feed the expression translator.
- The `c.sig != nil` guard (package.go:320) is not modelled: signatures are never nil here. Line 383 would dereference a nil signature anyway.
- Function.TranslateFunction: the two calls to `translateResults` are one `results` text, since the model does not open the result translator.
- The side effects of the import context's loader on its package map are not modelled. The loader is a pure function from path to archive or error.
- `IsExported` is read as "starts with an ASCII upper-case letter". Unicode upper-case letters are not modelled.
- Brace nesting is checked on a table of the braces each fragment closes and opens, not by scanning the fragments' text.
- Nil and empty `Names` lists of a receiver field are not distinguished: either means no receiver identifier.
- The `localVars` declaration line (package.go:436-440) is commented out in the source, so the locals feed only the frame's load and store lists.
