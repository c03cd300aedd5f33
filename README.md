# Julia top-level evaluation, modelled in Dafny

This project models the top-level evaluator of the Julia runtime
(`src/toplevel.c`): how a form typed at the prompt or read from a file is
dispatched, how a `module` definition creates a module, switches into it
and queues its initializer, how `import`, `using` and `importall` paths
are resolved (including the one-shot `require` autoload), how the
interpreter-or-compiler choice is made for a lowered body, and the
validation done by method and type definitions.

Modules:

- `Values` (`values.dfy`): Julia values as one datatype (`Val`, with
  `Expr(head, args)` for syntax), bindings (`owner`, `value`, `constp`,
  `imported`, `exportp`) keyed by module and name, the exceptions the
  evaluator raises (`Error`), results (`Outcome`), the log of calls into
  the module store and method tables (`Effect`) and the warnings written to
  standard error (`Warning`).
- `Selector` (`selector.dfy`): `jl_eval_with_compiler_p`,
  `jl_has_intrinsics`, `is_intrinsic` and `jl_base_relative_to`. The
  backward-branch scan keeps the source's label bitset as an `array<bool>`.
- `ImportPath` (`import_path.dfy`): `eval_import_path_` as a specification
  (`Resolve`) with its properties; the imperative resolver in `Toplevel`
  is proved to compute it.
- `TypeDef` (`typedef.dfy`): `type_contains`, `jl_check_type_tuple`,
  `jl_set_datatype_super` (a class whose supertype and cache are updated
  in place), the checks and warnings of `jl_method_def`, and
  `jl_check_static_parameter_conflicts`.
- `Toplevel` (`toplevel.dfy`): the class `Runtime` holding the state the
  C code keeps in globals (module arena as parent and name sequences,
  bindings, `jl_current_module`, the task's current module, Main, Core,
  Base and the old Base, the pending-initializer stack, the `require`
  cache, `jl_lineno`) and the methods `EvalFlex` (`jl_toplevel_eval_flex`),
  `EvalModule` (`jl_eval_module_expr`), `EvalImportPath`, the statement
  forms, `MethodDef`, `NewMainModule` and `ParseEvalAll`.

Expansion, interpretation, compilation and the `require` hook are outside
the model. They are passed in as an `Engines` value. The interpreter, the
body evaluator, the thunk interpreter and the compiled path take the
binding store and the current module and return a result and a new
binding store; the expander maps a form to a form; the `require` hook
(`ImportPath.Loader`) takes the binding store and a module name and
returns the binding store it leaves and the exception it raised, if
any; definitions made before an exception stay. Calls into the module store (`jl_module_using`,
`jl_module_export`, `jl_add_method`, ...) are appended to the `effects`
log; module initializers are recorded in the order they would run
(`inits`).

Every evaluation (`Runtime.Evaluated`) keeps the state valid, leaves the
current module and the task's current module as they were, only adds
modules to the arena, and pushes on the initializer stack only modules it
created itself. Below Main the stack grows by exactly those modules, in
the order they were pushed, and no initializer runs. At Main, the
initializers already run stay a prefix of those run afterwards; a module
definition that completes at Main (`Runtime.EvalModule`) empties the
stack.

Pending initializers form a stack (src/toplevel.c:159-165): a module is
pushed when its body has been evaluated, and when that leaves Main
current the stack is popped until it is empty. Modules nested as
`module A; module B; module C ... end end end` complete in the order C,
B, A, so their initializers run A, then B, then C (`EvalModule`,
`DrainPending`).

The dispatch of `jl_toplevel_eval_flex` is stated head by head by the
two-state predicates `Runtime.Dispatched`, `Runtime.Expanded` and
`Runtime.Chosen`, which `EvalFlex`, `EvalExpanded`, `EvalChosen` and
`ToplevelEval` ensure; the part of a form's result that does not depend
on the state is `FormResult`, and evaluation of a sequence of forms in
order is `InOrder`.

## Model

| member | source | states |
|---|---|---|
| Selector.MaxLabel | src/toplevel.c:211-219 | the largest label bounds every label of the body and is itself one of its labels (0 when there are none) |
| Selector.ScanMaxLabel | src/toplevel.c:211-219 | the first scan's loop computes exactly the largest label |
| Selector.HasBackwardBranch | src/toplevel.c:220-248 | the bitset scan answers true exactly when some goto or gotoifnot jumps to a label that appears earlier in the body |
| Selector.BackwardStep | src/toplevel.c:222-248 | one more scanned statement adds a backward branch exactly when it jumps to a label already seen |
| Selector.BackwardPrefix | src/toplevel.c:230-239 | a backward branch found in a prefix is a backward branch of the whole body, so returning early is sound |
| Selector.BitsetBits | src/toplevel.c:220-221 | the bitset always has a bit for the largest label |
| Selector.IntrinsicsFromPath | src/toplevel.c:185-202 | a `static_typeof` node or a call naming an intrinsic at any depth makes the whole expression have intrinsics |
| Selector.PathFromIntrinsics | src/toplevel.c:185-202 | conversely, having intrinsics is always due to such a node somewhere inside |
| Selector.BaseRelativeTo | src/toplevel.c:180-183 | TopNode from any module refers either to that module or to Base |
| Selector.TopIsStable | src/toplevel.c:176-183 | TopNode from the module TopNode refers to refers to that module again |
| Selector.TopIsShared | src/toplevel.c:176-183 | once Base exists every module other than Core and the old Base sees the same top module, Base; Core and the old Base always see themselves |
| Selector.EvalWithCompiler | src/toplevel.c:206-252 | the selector compiles exactly when loop compilation is on and a body has a backward branch, or the expression has intrinsics |
| Selector.ThunkCompiled | src/toplevel.c:452-463 | a thunk is compiled when the selector says so or when it captures variables |
| Selector.NoLoopCompilation | src/toplevel.c:209 | a direct corollary of the selector's definition: with loop compilation off only intrinsics decide |
| Selector.ForwardJumpsOnly | src/toplevel.c:222-248 | a body with unique labels whose jumps all go forward has no backward branch |
| Selector.BackwardBranchCompiles | src/toplevel.c:228-232 | a goto back to an earlier label forces compilation when loop compilation is on |
| Selector.IsIntrinsic | src/toplevel.c:170-174 | a global of the module holds an intrinsic function |
| Selector.HasIntrinsics | src/toplevel.c:185-202 | an expression with arguments has intrinsics when it is a `static_typeof`, a call whose callee (a symbol in the current module or a TopNode in the module it refers to) is an intrinsic, or has an argument expression with intrinsics; `IntrinsicsFromPath` and `PathFromIntrinsics` characterise it |
| Selector.ShouldCompile | src/toplevel.c:206-252 | the selector's answer: a body with a backward branch when loop compilation is on, or an expression with intrinsics; `EvalWithCompiler` is proved to compute it |
| ImportPath.Ancestor | src/toplevel.c:283 | parent hops never leave the module arena |
| ImportPath.LookupSegment | src/toplevel.c:288-305 | a binding owned by or imported into the search module that holds a module is found, and only then; it raises exactly when an owned binding holds something else or an imported one holds nothing or a non-module; an absent binding counts as missing |
| ImportPath.Walk | src/toplevel.c:328-335 | a successful walk over the intermediate segments always reaches a module |
| ImportPath.GiveUp | src/toplevel.c:319-325 | a failed search returns nothing exactly on a retry with a `require` hook, and otherwise raises "not defined" for the segment |
| ImportPath.AbsoluteStartsAtMain | src/toplevel.c:268-270 | a path without a leading dot is searched from Main, for its first segment |
| ImportPath.HopFrom | src/toplevel.c:273-284 | the hop loop moves one parent up per dot after the first |
| ImportPath.LeadingDots | src/toplevel.c:271-285 | with n leading dots the search starts n-1 parents above the current module; a single segment after the dots returns that module unresolved |
| ImportPath.EnclosingModule | src/toplevel.c:276-279 | `.X` alone resolves to the current module with no lookup and no loading |
| ImportPath.RelativeNeverLoads | src/toplevel.c:307 | a relative path never calls `require` |
| ImportPath.RetryNeverLoads | src/toplevel.c:307 | the retry never calls `require` again |
| ImportPath.LoadsAtMostOnce | src/toplevel.c:306-317 | the bindings after resolution are the original ones or those left by one load of the first segment |
| ImportPath.AutoloadGivesUp | src/toplevel.c:306-322 | a name still missing after `require` ran resolves to nothing, which the statements treat as a no-op |
| ImportPath.RequireRaises | src/toplevel.c:306-317 | an exception from `require` is the import's exception, and the bindings `require` left stay |
| ImportPath.NoHookRaises | src/toplevel.c:306-325 | without a `require` hook a missing first segment raises "not defined" |
| ImportPath.NonModuleSegment | src/toplevel.c:292-296 | a first segment bound to a non-module raises "does not name a module" |
| ImportPath.WalkIsChain | src/toplevel.c:328-335 | the walk succeeds with module x exactly when a chain of module bindings leads through the intermediate segments to x |
| ImportPath.WalkStops | src/toplevel.c:328-335 | a walk that reaches an intermediate segment with no binding raises "undefined" naming it, and one bound to a non-module raises "invalid import statement" |
| ImportPath.Hop | src/toplevel.c:271-285 | the parent-hop loop ends inside the arena, after the dots, at a segment still to be resolved or with the module itself |
| ImportPath.StartOf | src/toplevel.c:263-285 | where the search starts, a module inside the arena; `AbsoluteStartsAtMain` and `LeadingDots` characterise it |
| ImportPath.Resolve | src/toplevel.c:258-336 | `eval_import_path_` as a function of the bindings, the context and the `require` cache; its properties are the lemmas above |
| TypeDef.ContainsTransitive | src/toplevel.c:605-621 | containment in a type is transitive |
| TypeDef.ParameterOccurs | src/toplevel.c:605-621 | a one-step corollary of `ContainsTransitive`: a parameter of an argument type occurs in the signature |
| TypeDef.FirstNonType | src/toplevel.c:577-580 | finds the first entry that is neither a type nor a type variable, or none when all are |
| TypeDef.CheckTypeTuple | src/toplevel.c:574-582 | passes exactly when every entry is a type or type variable, and otherwise raises a type error naming the first offending entry: every entry before it is a type or type variable |
| TypeDef.FirstNonTypeVar | src/toplevel.c:662-664 | finds the first static parameter that is not a type variable |
| TypeDef.DataTypeObj.SetSuper | src/toplevel.c:584-598 | the supertype is accepted exactly when it is an abstract data type other than Undef, with a different name, and not a subtype of Vararg or Type; a rejection changes nothing; acceptance resets the cache and reinstantiates only for parametric types |
| TypeDef.SelfSuperRejected | src/toplevel.c:588 | a type can never be its own supertype |
| TypeDef.MethodDefCheck | src/toplevel.c:633-672 | a method definition passes exactly when the binding has no non-constant value, the slot is empty or a generic function (after constructor materialisation), every argument type is a type and every static parameter a type variable; a non-constant value is reported first |
| TypeDef.NonTypeArgumentReported | src/toplevel.c:651-659 | the first non-type argument is reported by its position with the method's file and line |
| TypeDef.UnusedStaticParams | src/toplevel.c:661-672 | names containing `#` never get the unused-static-parameter warning |
| TypeDef.UnusedWarningExact | src/toplevel.c:661-672 | for an ordinary name a static parameter is warned about exactly when it does not occur in the signature |
| TypeDef.StaticParamConflicts | src/toplevel.c:696-720 | the nested loop emits the warnings of the specification, in loop order |
| TypeDef.MatchesExact | src/toplevel.c:702-716 | the warnings for one static parameter name it once per local variable with its name (as a count of occurrences), and only then |
| TypeDef.ConflictsExact | src/toplevel.c:700-718 | a name is reported exactly when it is both a static parameter and a local variable |
| TypeDef.TypeContains | src/toplevel.c:605-621 | a value occurs in a type: it is the type, or occurs in the type's tuple elements, union members or data-type parameters; `ContainsTransitive` and `ParameterOccurs` state its properties |
| TypeDef.ValidSuper | src/toplevel.c:584-598 | the conditions under which a supertype is accepted; `SetSuper` is proved to accept exactly these |
| Toplevel.SetConst | src/toplevel.c:54-55 | defines the constant unless the binding is already constant, leaving every other binding alone |
| Toplevel.SetGlobal | src/toplevel.c:56-57 | assigns the global unless it is constant, leaving every other binding alone |
| Toplevel.StackedChain | src/toplevel.c:159-165 | the initializer bookkeeping of consecutive evaluations composes |
| Toplevel.Runtime.Ctx | src/toplevel.c:258-285 | the runtime state gives the resolver a well-formed context |
| Toplevel.Runtime.FindStart | src/toplevel.c:263-285 | the hop loop computes the start of the search given by `StartOf` |
| Toplevel.Runtime.WalkPath | src/toplevel.c:328-335 | the segment loop computes `Walk` |
| Toplevel.Runtime.EvalImportPath | src/toplevel.c:258-341 | the resolver's result, bindings and `require` cache are those of `Resolve` |
| Toplevel.Runtime.ResolveStatement | src/toplevel.c:375-376 | an unresolved path makes the statement return `nothing`, a raised error propagates |
| Toplevel.Runtime.EvalImportAll | src/toplevel.c:374-385 | `importall` imports from the module the last segment names, raising for a malformed, undefined or non-module last segment |
| Toplevel.Runtime.EvalUsing | src/toplevel.c:387-401 | `using` uses the module the last segment names, or makes the one binding visible when it names something else |
| Toplevel.Runtime.EvalImport | src/toplevel.c:403-411 | `import` imports the last segment's binding from the resolved module |
| Toplevel.Runtime.EvalExport | src/toplevel.c:413-421 | the names before the first non-symbol are exported, in order, and a non-symbol raises |
| Toplevel.Runtime.AddStandardImports | src/toplevel.c:34-42 | the standard imports of a module come from the current Base |
| Toplevel.Runtime.DrainPending | src/toplevel.c:161-165 | the stack ends empty and the initializers run in pop order (last pushed first) |
| Toplevel.Runtime.NewModule | src/toplevel.c:91-93 | the new module is added to the arena with the current module as parent and its own name bound as a constant to itself |
| Toplevel.Runtime.CreateModule | src/toplevel.c:85-93 | the new module is bound as a constant under its name both in the current module and in itself, every other binding is kept, and a warning is issued when the parent's binding had a value |
| Toplevel.Runtime.BindModule | src/toplevel.c:86-94 | the parent's binding for the name becomes a constant holding the new module, with a warning when it had a value |
| Toplevel.Runtime.SwitchBase | src/toplevel.c:95-98 | the module becomes Base and the previous Base becomes the old Base |
| Toplevel.Runtime.DeclareModule | src/toplevel.c:85-116 | module set-up: new module with the current module as parent, its constant bindings in the parent and in itself, the Base switch only for `Base` in Main, the export only from Main, the standard imports only when requested and Base exists |
| Toplevel.Runtime.PublishModule | src/toplevel.c:94-116 | the Base switch happens only for `Base` defined in Main, the export only from Main, and the standard imports only when requested and Base exists |
| Toplevel.Runtime.EnterModule | src/toplevel.c:118-120 | after set-up the new module is current for the process and the task |
| Toplevel.Runtime.EvalModule | src/toplevel.c:67-168 | a malformed form or non-symbol name raises before anything changes; the current modules are restored on success and failure; the module is pushed only after its body succeeds; for a well-formed definition the result (`BodyOutcome`) is the exception of the body's forms run in order, or `nothing` when they all succeed; back at Main the stack is drained and the initializers run in pop order |
| Toplevel.Runtime.DefineModule | src/toplevel.c:85-166 | a well-formed module definition: the body's forms run in order with outcome `bodyR`; the result is `bodyR`'s exception, or `nothing` when the body succeeds; the new module is pushed exactly when the result is normal; the new module's parent is the enclosing module |
| Toplevel.Runtime.FinishModule | src/toplevel.c:134-165 | the previous modules become current again, the module is pushed, and the stack is drained only when Main is current |
| Toplevel.Runtime.EvalSeq | src/toplevel.c:122-127 | the forms are evaluated in order: one outcome per evaluated form, every one but the last normal, evaluation stopping at the first exception, and the sequence's outcome is the last form's (`nothing` for no forms); each outcome agrees with its form's `FormResult` |
| Toplevel.Runtime.EvalFlex | src/toplevel.c:356-496 | the dispatch on the head (`Dispatched`): plain values, `null` and `error` forms are interpreted without expansion; `module` forms do what `EvalModule` states; the import statements do what `Resolve` and the statement's effects state; `export` appends the exports; a `toplevel` block evaluates its forms in order; other forms are expanded (except `body` and `thunk`) and handed to `EvalExpanded`; the evaluation invariant holds throughout |
| Toplevel.Runtime.EvalExpanded | src/toplevel.c:441-463 | after expansion (`Expanded`): a `toplevel` block runs its forms in order one expansion level down; a thunk runs compiled exactly when the selector says so or it captures variables, and interpreted otherwise; anything else goes to `EvalChosen` |
| Toplevel.Runtime.EvalChosen | src/toplevel.c:464-482 | an expression the selector picks is wrapped and compiled; otherwise a `body` goes to the body evaluator, a top-level-only form is dispatched again with the fast path, and the rest is interpreted (`Chosen`) |
| Toplevel.Runtime.SelectEngine | src/toplevel.c:464-476 | the engine chosen in the current scope is `Choose`'s |
| Toplevel.Choose | src/toplevel.c:464-482 | compilation is chosen exactly when the selector answers yes for an expression, and a plain value is always interpreted |
| Toplevel.Runtime.Redispatch | src/toplevel.c:473-474 | a re-dispatched form is evaluated as by `EvalFlex` with the fast path, one expansion level down, and raises `ExpansionDepth` without changing the bindings when no level is left |
| Toplevel.Runtime.EvalStatement | src/toplevel.c:374-421 | each statement head does what its own method states (`StatementDone`) |
| Toplevel.IsToplevelOnlyExpr | src/toplevel.c:345-354 | the heads of the forms that may only appear at top level |
| Toplevel.WrapExpr | src/toplevel.c:465-468 | the thunk that a compiled expression is wrapped in: no arguments, nothing captured, the expression as body |
| Toplevel.FormResult | src/toplevel.c:369-450 | the part of a form's result that does not depend on the state, which every evaluation of the form satisfies |
| Toplevel.InOrder | src/toplevel.c:423-450 | in-order evaluation: one outcome per evaluated form, all but the last normal, the last one the result, `nothing` for no forms |
| Toplevel.ParsedResult | src/toplevel.c:512-524 | an incomplete parsed form is a syntax error with the parser's message; any other form's outcome agrees with `FormResult` |
| Toplevel.Runtime.ToplevelEval | src/toplevel.c:498-501 | top-level evaluation is `EvalFlex`'s dispatch (`Dispatched`) with the fast path on |
| Toplevel.Materialise | src/toplevel.c:640-643 | materialising the constructors of a trampoline type makes it a generic function when `jl_add_constructors` does so; anything else in the slot is left as it is |
| Toplevel.Runtime.CheckStaticParams | src/toplevel.c:661-672 | the loop emits the unused-static-parameter warnings and stops with a type error at the first non-type-variable |
| Toplevel.Runtime.PrepareMethodDef | src/toplevel.c:633-672 | the checks give the result of `MethodDefCheck`; the only effect before a failure is constructor materialisation in the slot |
| Toplevel.Runtime.MethodDef | src/toplevel.c:625-694 | every validation failure leaves the method table and the generic function counter alone and changes the target binding at most by constructor materialisation in its slot, never making it constant; on success the binding becomes constant, an empty slot receives a fresh generic function, and exactly one method is added to the function in the slot |
| Toplevel.Runtime.BindMain | src/toplevel.c:52-59 | a fresh Main holds its own name and `Core` as constants, and `Core.Main` is assigned unless constant |
| Toplevel.Runtime.NewMainModule | src/toplevel.c:44-64 | outside Main it raises and changes nothing; otherwise a fresh Main is its own parent and Core's parent, its own name and Core are bound in it, `Core.Main` points to it, it becomes current, and the old Main is returned |
| Toplevel.Runtime.EvalParsed | src/toplevel.c:515-524 | an incomplete form raises a syntax error and an `error` form raises the parser's error, before any evaluation; the outcome agrees with `ParsedResult` |
| Toplevel.Runtime.EvalAt | src/toplevel.c:512-524 | a parsed form is evaluated with the line number set to its own line |
| Toplevel.Runtime.ParseEvalAll | src/toplevel.c:504-540 | one outcome per evaluated form, each agreeing with `ParsedResult`, all but the last normal; a normal result is the last form's (`nothing` for no forms) after every form ran; an exception becomes a load error carrying the file, the failing form's line and its cause; an incomplete first form changes nothing; the line number is restored in every case |

## Left out

- `jl_load` and `jl_load_`: file access, printing and the parser start-up are I/O; `ParseEvalAll` takes the parsed forms with their lines.
- GC rooting (`JL_GC_PUSH`/`JL_GC_POP`) has no effect on results.
- The `#if 0` block after a module body and the commented-out `enter_sym` check are dead code.
- Expansion, interpretation, type inference (`jl_type_infer`, `jl_in_inference`), closure creation and application, and `jl_toplevel_eval_body` are engine parameters; they change only the binding store, never the current module, the module arena, the initializer stack or the line number.
- `jl_lineno` updates made by the interpreter on line nodes are not modelled; the line of a form is the one the parser gives it.
- `jl_compress_ast` after a method definition is not modelled: it only changes the representation of the body.
- Module store operations (`jl_module_using`, `jl_module_importall`, `jl_module_import`, `jl_module_use`, `jl_module_export`, `jl_module_run_initializer`, `jl_add_method`) are recorded as effects, not carried out.
- `jl_get_binding_wr` and `jl_declare_constant` are modelled for the module's own binding only; their errors for imported or already non-constant bindings are not modelled, nor is resolution of bindings through their owner.
- `jl_new_module` is not part of this model (module.c): of its initial state only the constant binding of the module's own name is modelled, not the export of that name nor its `using Core`.
- Toplevel.Runtime.NewModule: the store is not required to hold no bindings for module numbers not yet created, so a constant an engine left under a future module number would survive in the new module in place of the self-binding.
- Toplevel.Runtime.NewMainModule: likewise, a constant `Core` an engine left under the future number of a new Main would survive there instead of Core.
- The bootstrap reset of cached exception types and of the task's local storage when Base is replaced is counted (`baseSwaps`), not modelled field by field.
- `jl_subtype` is a parameter of `SetSuper`; `jl_reinstantiate_inner_types` is a counter; whether `jl_add_constructors` makes a type a generic function is the parameter `ctorsMakeGf`.
- Toplevel.Materialise: constructor materialisation mutates the type object in place; the model updates only the target slot, so other references to the same type do not see the change.
- Values are compared structurally; object identity (for example of symbols and modules) is modelled by equality of values and module numbers.
- Toplevel.Runtime.EvalFlex: expansion can splice `toplevel` blocks and re-dispatch top-level-only forms without bound; the model bounds this nesting by `fuel` and raises `ExpansionDepth` beyond it.
- Selector.HasBackwardBranch: a jump to a label larger than every label reads past the bitset in the source; the model requires every jump target to lie inside the bitset and every `gotoifnot` target to be a non-negative integer.
- TypeDef.MethodDefCheck: an invalid argument type is reported by its position rather than by the argument's name.
- Toplevel.Runtime.Evaluated: for a form evaluated at Main, it states only that the initializers already run stay a prefix, not which initializers were added.
- ImportPath.GiveUp: the warning that `require` did not define the module is not recorded.
- TypeDef.StaticParamConflicts: returns the names of the conflicting static parameters rather than full warning texts.
- `jl_current_module` is never NULL in the model, so the NULL case of `jl_new_main_module`'s guard does not arise.
- Tasks other than the current one are not modelled; the task's current module is a field of the runtime.
- The `require` hook (`ImportPath.Loader`) only transforms the binding store: modules it loads never enter the module arena, and their initializers never reach `inits`.
- Toplevel.Runtime.EvalFlex: for a `toplevel` block the outcome is constrained only by `SeqOutcome`: some in-order sequence of per-form outcomes consistent with each form's `FormResult`; those outcomes are not tied to what the forms evaluate to in the states reached.
- Toplevel.Runtime.EvalExpanded: likewise, an expanded `toplevel` block's outcome is constrained only by `SeqOutcome`.
- Toplevel.Runtime.EvalModule: likewise, a module body's outcome in `BodyOutcome` is constrained only by `SeqOutcome`.
- Toplevel.Runtime.EvalSeq: an outcome is tied to its form only through `FormResult`, the part of the result that does not depend on the state; what a form evaluates to in the state reached before it is not stated.
- Toplevel.Runtime.ParseEvalAll: as for `EvalSeq`, each outcome is tied to its form through `ParsedResult` only.
