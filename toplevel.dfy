/**
 * The top-level evaluator: the runtime state it updates in place (the
 * module arena, the binding store, the current module, the pending
 * initializers) and the operations of `toplevel.c` over it.
 *
 * Expansion, interpretation, compilation and loading are engines outside
 * this model, passed in as an `Engines` value: each is a function of the
 * binding store and the current module.
 */
module Toplevel {
  import opened Values
  import opened Selector
  import opened ImportPath
  import opened TypeDef

  /** What an engine returns: its result or the exception it raised, and the binding store after it ran. */
  datatype Step = Step(result: Outcome<Val>, bindings: Bindings)

  /** The evaluator's collaborators. */
  datatype Engines = Engines(
    interp: (Bindings, ModuleId, Val) -> Step,             // jl_interpret_toplevel_expr
    evalBody: (Bindings, ModuleId, seq<Val>) -> Step,      // jl_toplevel_eval_body
    interpThunk: (Bindings, ModuleId, LambdaInfo) -> Step, // jl_interpret_toplevel_thunk
    runCompiled: (Bindings, ModuleId, LambdaInfo) -> Step, // closure, type inference and call
    expand: Val -> Val,                                    // jl_expand (syntax errors come back as `error` forms)
    load: Loader)                                          // calling the `require` hook

  /** The heads of the forms that may only appear at top level. */
  predicate IsToplevelOnlyExpr(e: Val) {
    e.Expr? && e.head in {"module", "importall", "import", "using", "export", "toplevel"}
  }

  /**
   * A form as the evaluator expects it: import paths are symbols, thunks
   * carry a lambda with an AST, lowered bodies have well-formed jumps, and
   * so on for the forms of a module body and of a `toplevel` block.
   */
  predicate FormOk(e: Val)
    decreases e
  {
    e.Expr? ==>
      (e.head in {"importall", "using", "import"} ==> PathOk(e.args)) &&
      (e.head == "incomplete" ==> |e.args| >= 1 && e.args[0].Str?) &&
      (e.head == "thunk" ==>
         |e.args| >= 1 && e.args[0].Lambda? && e.args[0].info.ast.Some? &&
         ScannableBody(e.args[0].info.ast.value.body)) &&
      (e.head == "body" ==> ScannableBody(e)) &&
      (e.head == "toplevel" ==> forall k :: 0 <= k < |e.args| ==> FormOk(e.args[k])) &&
      (e.head == "module" && |e.args| == 3 && e.args[2].Expr? ==>
         forall k :: 0 <= k < |e.args[2].args| ==> FormOk(e.args[2].args[k]))
  }

  /** The expander only produces well-formed forms. */
  ghost predicate ExpandOk(eng: Engines) {
    forall v :: FormOk(eng.expand(v))
  }

  /** `jl_wrap_expr`: a lambda of no arguments whose body is `ex`. */
  function WrapExpr(ex: Val): LambdaInfo {
    LambdaInfo(Some(LambdaAst([], false, ex)), "", 0)
  }

  /** `jl_set_const`: defines `name` in `m` unless it is already constant. */
  function SetConst(b: Bindings, m: ModuleId, name: string, v: Val): (r: Bindings)
    ensures (m, name) in r
    ensures (m, name) in b && b[(m, name)].constp ==> r == b
    ensures !((m, name) in b && b[(m, name)].constp) ==> r[(m, name)].value == Some(v) && r[(m, name)].constp
    ensures forall k :: k in b && k != (m, name) ==> k in r && r[k] == b[k]
  {
    if (m, name) in b && b[(m, name)].constp then b
    else if (m, name) in b then b[(m, name) := b[(m, name)].(value := Some(v), constp := true)]
    else b[(m, name) := Binding(m, Some(v), true, false, false)]
  }

  /** `jl_set_global`: assigns `name` in `m` unless it is constant. */
  function SetGlobal(b: Bindings, m: ModuleId, name: string, v: Val): (r: Bindings)
    ensures (m, name) in r
    ensures (m, name) in b && b[(m, name)].constp ==> r == b
    ensures !((m, name) in b && b[(m, name)].constp) ==> r[(m, name)].value == Some(v) && !r[(m, name)].constp
    ensures forall k :: k in b && k != (m, name) ==> k in r && r[k] == b[k]
  {
    if (m, name) in b && b[(m, name)].constp then b
    else if (m, name) in b then b[(m, name) := b[(m, name)].(value := Some(v))]
    else b[(m, name) := Binding(m, Some(v), false, false, false)]
  }

  /**
   * The module-initializer bookkeeping of one evaluation: initializers
   * only ever run after those already run, and below Main the modules an
   * evaluation completes wait on the stack, in order.
   */
  ghost predicate Stacked(inits0: seq<ModuleId>, pending0: seq<ModuleId>, inits1: seq<ModuleId>, pending1: seq<ModuleId>,
                          pushed: seq<ModuleId>, nested: bool) {
    (nested ==> pending1 == pending0 + pushed && inits1 == inits0) &&
    inits0 <= inits1
  }

  lemma StackedChain(i0: seq<ModuleId>, p0: seq<ModuleId>, i1: seq<ModuleId>, p1: seq<ModuleId>,
                     i2: seq<ModuleId>, p2: seq<ModuleId>, q1: seq<ModuleId>, q2: seq<ModuleId>, nested: bool)
    requires Stacked(i0, p0, i1, p1, q1, nested) && Stacked(i1, p1, i2, p2, q2, nested)
    ensures Stacked(i0, p0, i2, p2, q1 + q2, nested)
  {
    if nested {
      assert p0 + (q1 + q2) == p0 + q1 + q2;
    }
  }

  class Runtime {
    var names: seq<string>           // the module arena, indexed by ModuleId: names
    var parents: seq<ModuleId>       // and parents (Main is its own parent)
    var bindings: Bindings
    var current: ModuleId            // jl_current_module
    var taskCurrent: ModuleId        // the current task's module
    var main: ModuleId
    var core: ModuleId
    var base: Option<ModuleId>
    var oldBase: Option<ModuleId>
    var baseSwaps: nat               // times the cached Base types were reset
    var pending: seq<ModuleId>       // modules whose initializers have not run yet (a stack)
    var inits: seq<ModuleId>         // initializers run, in order
    var effects: seq<Effect>         // calls into the module store and method tables
    var warnings: seq<Warning>
    var requireFunc: Option<Val>     // the cached `require` hook
    var nextGf: nat
    var lineno: int

    ghost predicate Valid()
      reads this`names, this`parents, this`main, this`core, this`current, this`taskCurrent, this`base
    {
      |names| == |parents| && ParentClosed(parents) &&
      main < |parents| && core < |parents| && current < |parents| && taskCurrent < |parents| &&
      (base.Some? ==> base.value < |parents|)
    }

    /** The bootstrapped state: Core and Main, with Main current. */
    constructor ()
      ensures Valid() && fresh(this)
      ensures current == main && taskCurrent == main && base.None?
      ensures pending == [] && inits == [] && effects == [] && warnings == []
    {
      names, parents := ["Core", "Main"], [1, 1];
      bindings := map[];
      core, main, current, taskCurrent := 0, 1, 1, 1;
      base, oldBase := None, None;
      baseSwaps := 0;
      pending, inits, effects, warnings := [], [], [], [];
      requireFunc := None;
      nextGf, lineno := 0, 0;
    }

    /** What the import path resolver reads of the state. */
    function Ctx(): (c: PathCtx)
      reads this`names, this`parents, this`main, this`core, this`current, this`taskCurrent, this`base
      requires Valid()
      ensures CtxOk(c)
    {
      PathCtx(main, current, base, parents)
    }

    /** The scope in which calls are checked for intrinsics. */
    function Scope(): IntrinsicScope
      reads this
    {
      IntrinsicScope(bindings, current, BaseRelativeTo(current, core, oldBase, base))
    }

    /** The parent-hop loop of `eval_import_path_`: where the search for the first segment starts. */
    method FindStart(args: seq<Val>) returns (s: Start)
      requires Valid() && PathOk(args)
      ensures s == StartOf(args, Ctx())
    {
      if args[0] != Sym(Dot) {
        return Search(main, args[0].name, 1);
      }
      ghost var ctx := Ctx();
      var m: ModuleId := current;
      var i: nat := 1;
      ghost var k :| 1 <= k < |args| && args[k].Sym? && args[k] != Sym(Dot);
      while true
        invariant 1 <= i <= k && forall j :: 1 <= j < i ==> args[j] == Sym(Dot)
        invariant m < |parents|
        invariant Hop(args, i, m, ctx.parents) == StartOf(args, ctx)
        decreases k - i
      {
        var v := args[i];
        i := i + 1;
        if v != Sym(Dot) {
          if i == |args| {
            return Reached(m);
          }
          return Search(m, v.name, i);
        }
        m := parents[m];
      }
    }

    /** The loop over the intermediate segments: each must name a module. */
    method WalkPath(m0: ModuleId, args: seq<Val>, i0: nat) returns (r: Outcome<Option<ModuleId>>)
      requires PathOk(args) && 1 <= i0
      ensures r == Walk(bindings, m0, args, i0)
    {
      var m, i := m0, i0;
      while i < |args| - 1
        invariant 1 <= i
        invariant Walk(bindings, m, args, i) == Walk(bindings, m0, args, i0)
        decreases |args| - i
      {
        var v := GetGlobal(bindings, m, args[i].name);
        if v.None? {
          return Err(UndefVar(args[i].name));
        }
        if !v.value.Mod? {
          return Err(InvalidImport);
        }
        m := v.value.id;
        i := i + 1;
      }
      return Ok(Some(m));
    }

    /** `eval_import_path_`: the module in which the last segment of `args` is looked up. */
    method EvalImportPath(args: seq<Val>, retrying: bool, load: Loader) returns (r: Outcome<Option<ModuleId>>)
      requires Valid() && PathOk(args)
      modifies this`bindings, this`requireFunc
      ensures Resolution(r, bindings, requireFunc) == Resolve(old(bindings), old(Ctx()), old(requireFunc), args, retrying, load)
      decreases if retrying then 0 else 1
    {
      ghost var ctx := Ctx();
      var s := FindStart(args);
      if s.Reached? {
        return Ok(Some(s.m));
      }
      var m, name, i := s.m, s.name, s.next;
      var found := LookupSegment(bindings, m, name);
      if found.Bad? {
        return Err(NotAModule(name));
      } else if found.Found? {
        r := WalkPath(found.m, args, i);
        return;
      }
      ghost var autoloads := Autoloads(s, ctx, retrying);
      if m == main && !retrying && i == 1 {
        assert autoloads;
        if requireFunc.None? && base.Some? {
          requireFunc := GetGlobal(bindings, base.value, "require");
        }
        assert requireFunc == HookAfterLookup(old(bindings), ctx, old(requireFunc));
        if requireFunc.Some? {
          var loaded := load(bindings, name);
          bindings := loaded.bindings;
          if loaded.raised.Some? {
            return Err(loaded.raised.value);
          }
          assert Ctx() == ctx;
          r := EvalImportPath(args, true, load);
          return;
        }
      } else {
        assert !autoloads;
      }
      r := if retrying && requireFunc.Some? then Ok(None) else Err(NotDefined(name));
      assert r == GiveUp(retrying, requireFunc, name);
    }

    /**
     * The shared front of the `importall`, `using` and `import` forms: the
     * module the path resolves to, or the result to return at once.
     */
    method ResolveStatement(args: seq<Val>, load: Loader) returns (m: Option<ModuleId>, early: Outcome<Val>)
      requires PathOk(args)
      requires Valid()
      modifies this`bindings, this`requireFunc
      ensures var res := Resolve(old(bindings), old(Ctx()), old(requireFunc), args, false, load);
        bindings == res.bindings && requireFunc == res.hook &&
        (res.result.Err? ==> m.None? && early == Err(res.result.error)) &&
        (res.result == Ok(None) ==> m.None? && early == Ok(Nothing)) &&
        (res.result.Ok? && res.result.value.Some? ==> m == res.result.value)
    {
      var p := EvalImportPath(args, false, load);
      early := Ok(Nothing);
      if p.Err? {
        m, early := None, Err(p.error);
      } else {
        m := p.value;
      }
    }

    /**
     * What an `importall` of path `args` does: the path is resolved, then
     * the last segment must name a module, whose exported names are
     * imported into the current module.
     */
    twostate predicate ImportAllDone(args: seq<Val>, load: Loader, new r: Outcome<Val>)
      reads this
    {
      old(Valid()) && PathOk(args) &&
      var res := Resolve(old(bindings), old(Ctx()), old(requireFunc), args, false, load);
      bindings == res.bindings && requireFunc == res.hook &&
      (res.result.Err? ==> r == Err(res.result.error) && effects == old(effects)) &&
      (res.result == Ok(None) ==> r == Ok(Nothing) && effects == old(effects)) &&
      (res.result.Ok? && res.result.value.Some? ==>
         var name := args[|args| - 1];
         var v := if name.Sym? then GetGlobal(bindings, res.result.value.value, name.name) else None;
         (!name.Sym? ==> r == Err(MalformedStatement("importall")) && effects == old(effects)) &&
         (name.Sym? && v.None? ==> r == Err(UndefVar(name.name)) && effects == old(effects)) &&
         (name.Sym? && v.Some? && !v.value.Mod? ==> r == Err(NameNotModule("importall")) && effects == old(effects)) &&
         (name.Sym? && v.Some? && v.value.Mod? ==>
            r == Ok(Nothing) && effects == old(effects) + [ImportAll(old(current), v.value.id)]))
    }

    /** The `importall` form. */
    method EvalImportAll(args: seq<Val>, load: Loader) returns (r: Outcome<Val>)
      requires Valid() && PathOk(args)
      modifies this`bindings, this`requireFunc, this`effects
      ensures ImportAllDone(args, load, r)
    {
      var m, early := ResolveStatement(args, load);
      if m.None? {
        return early;
      }
      var name := args[|args| - 1];
      if !name.Sym? {
        return Err(MalformedStatement("importall"));
      }
      var v := GetGlobal(bindings, m.value, name.name);
      if v.None? {
        return Err(UndefVar(name.name));
      }
      if !v.value.Mod? {
        return Err(NameNotModule("importall"));
      }
      effects := effects + [ImportAll(current, v.value.id)];
      r := Ok(Nothing);
    }

    /**
     * What a `using` of path `args` does: the path is resolved, then the
     * named module is used, or, when the last segment names something
     * else, that one binding is made visible.
     */
    twostate predicate UsingDone(args: seq<Val>, load: Loader, new r: Outcome<Val>)
      reads this
    {
      old(Valid()) && PathOk(args) &&
      var res := Resolve(old(bindings), old(Ctx()), old(requireFunc), args, false, load);
      bindings == res.bindings && requireFunc == res.hook &&
      (res.result.Err? ==> r == Err(res.result.error) && effects == old(effects)) &&
      (res.result == Ok(None) ==> r == Ok(Nothing) && effects == old(effects)) &&
      (res.result.Ok? && res.result.value.Some? ==>
         var m := res.result.value.value;
         var name := args[|args| - 1];
         var u := if name.Sym? then GetGlobal(bindings, m, name.name) else None;
         (!name.Sym? ==> r == Err(MalformedStatement("using")) && effects == old(effects)) &&
         (name.Sym? && u.None? ==> r == Err(UndefVar(name.name)) && effects == old(effects)) &&
         (name.Sym? && u.Some? && u.value.Mod? ==>
            r == Ok(Nothing) && effects == old(effects) + [Using(old(current), u.value.id)]) &&
         (name.Sym? && u.Some? && !u.value.Mod? ==>
            r == Ok(Nothing) && effects == old(effects) + [Use(old(current), m, name.name)]))
    }

    /** The `using` form. */
    method EvalUsing(args: seq<Val>, load: Loader) returns (r: Outcome<Val>)
      requires Valid() && PathOk(args)
      modifies this`bindings, this`requireFunc, this`effects
      ensures UsingDone(args, load, r)
    {
      var m, early := ResolveStatement(args, load);
      if m.None? {
        return early;
      }
      var name := args[|args| - 1];
      if !name.Sym? {
        return Err(MalformedStatement("using"));
      }
      var u := GetGlobal(bindings, m.value, name.name);
      if u.None? {
        return Err(UndefVar(name.name));
      }
      if u.value.Mod? {
        effects := effects + [Using(current, u.value.id)];
      } else {
        effects := effects + [Use(current, m.value, name.name)];
      }
      r := Ok(Nothing);
    }

    /** What an `import` of path `args` does: the last segment's binding is imported from the module the path names. */
    twostate predicate ImportDone(args: seq<Val>, load: Loader, new r: Outcome<Val>)
      reads this
    {
      old(Valid()) && PathOk(args) &&
      var res := Resolve(old(bindings), old(Ctx()), old(requireFunc), args, false, load);
      bindings == res.bindings && requireFunc == res.hook &&
      (res.result.Err? ==> r == Err(res.result.error) && effects == old(effects)) &&
      (res.result == Ok(None) ==> r == Ok(Nothing) && effects == old(effects)) &&
      (res.result.Ok? && res.result.value.Some? ==>
         var name := args[|args| - 1];
         (!name.Sym? ==> r == Err(MalformedStatement("import")) && effects == old(effects)) &&
         (name.Sym? ==>
            r == Ok(Nothing) && effects == old(effects) + [Import(old(current), res.result.value.value, name.name)]))
    }

    /** The `import` form. */
    method EvalImport(args: seq<Val>, load: Loader) returns (r: Outcome<Val>)
      requires Valid() && PathOk(args)
      modifies this`bindings, this`requireFunc, this`effects
      ensures ImportDone(args, load, r)
    {
      var m, early := ResolveStatement(args, load);
      if m.None? {
        return early;
      }
      var name := args[|args| - 1];
      if !name.Sym? {
        return Err(MalformedStatement("import"));
      }
      effects := effects + [Import(current, m.value, name.name)];
      r := Ok(Nothing);
    }

    /** The `export` form: exports each name in turn, stopping at the first that is not a symbol. */
    method EvalExport(args: seq<Val>) returns (r: Outcome<Val>)
      modifies this`effects
      ensures var n := SymPrefix(args);
        effects == old(effects) + Exports(current, args[..n]) &&
        r == (if n < |args| then Err(MalformedStatement("export")) else Ok(Nothing))
    {
      var n := SymPrefix(args);
      for i := 0 to |args|
        invariant i <= n
        invariant effects == old(effects) + Exports(current, args[..i])
      {
        assert args[..i + 1] == args[..i] + [args[i]];
        if !args[i].Sym? {
          return Err(MalformedStatement("export"));
        }
        effects := effects + [Export(current, args[i].name)];
        ExportsAppend(current, args[..i], args[i]);
      }
      assert args[..|args|] == args;
      r := Ok(Nothing);
    }

    /** The statements `importall`, `using`, `import` and `export`. */
    method EvalStatement(e: Val, load: Loader) returns (r: Outcome<Val>)
      requires Valid() && FormOk(e) && e.Expr? && e.head in {"importall", "using", "import", "export"}
      modifies this`bindings, this`requireFunc, this`effects
      ensures StatementDone(e, load, r)
    {
      if e.head == "importall" {
        r := EvalImportAll(e.args, load);
      } else if e.head == "using" {
        r := EvalUsing(e.args, load);
      } else if e.head == "import" {
        r := EvalImport(e.args, load);
      } else {
        r := EvalExport(e.args);
      }
    }

    /**
     * What every evaluation keeps: the state stays valid, the current
     * module is restored, modules are only added, the modules it pushed on
     * the initializer stack are the ones it created, and (when not run at
     * Main) the initializers wait on the stack in the order their modules
     * were completed.
     */
    twostate predicate Evaluated(pushed: seq<ModuleId>)
      reads this
    {
      Grown(pushed) && lineno == old(lineno)
    }

    /** `Evaluated`, except for the line number, which loading a file moves. */
    twostate predicate Grown(pushed: seq<ModuleId>)
      reads this
    {
      Valid() && current == old(current) && taskCurrent == old(taskCurrent) &&
      main == old(main) && core == old(core) &&
      old(names) <= names && old(parents) <= parents &&
      (forall x :: x in pushed ==> |old(parents)| <= x < |parents|) &&
      Stacked(old(inits), old(pending), inits, pending, pushed, old(current) != old(main))
    }

    /** An engine step ran from the previous state: its result is ours and its binding store replaces ours. */
    twostate predicate Ran(st: Step, new r: Outcome<Val>)
      reads this
    {
      r == st.result && bindings == st.bindings
    }

    /**
     * What `jl_eval_module_expr` does with `ex`: a form that is not a
     * well-shaped definition changes nothing; a definition creates a
     * child of the current module under the given name and pushes it as
     * the last completed module; a failed one leaves its own module off
     * the stack; at Main a completed definition runs every pending
     * initializer, innermost first.
     */
    twostate predicate ModuleDone(ex: Val, new r: Outcome<Val>, pushed: seq<ModuleId>)
      reads this
    {
      ex.Expr? && ModuleResult(ex.args, r) &&
      (|ex.args| == 3 && ex.args[2].Expr? && ex.args[1].Sym? ==> BodyOutcome(ex.args[2].args, r)) &&
      (!(|ex.args| == 3 && ex.args[2].Expr? && ex.args[1].Sym?) ==>
         pushed == [] && names == old(names) && bindings == old(bindings) && effects == old(effects) && base == old(base)) &&
      (r.Ok? ==>
         |ex.args| == 3 && ex.args[1].Sym? &&
         |old(parents)| < |parents| && |old(parents)| < |names| &&
         names[|old(parents)|] == ex.args[1].name && parents[|old(parents)|] == old(current) &&
         |pushed| > 0 && pushed[|pushed| - 1] == |old(parents)|) &&
      (r.Err? ==> |old(parents)| !in pushed && pending == old(pending) + pushed && inits == old(inits)) &&
      (r.Ok? && old(current) == old(main) ==> pending == [] && inits == old(inits) + Reverse(old(pending) + pushed))
    }

    /**
     * `jl_toplevel_eval_flex`'s dispatch on the head of `e`: plain values,
     * `null` and parser `error` forms are interpreted as they are; module
     * definitions and the import, `using` and `export` statements are
     * carried out here; an empty `toplevel` block returns `nothing`; every
     * other form is expanded (a lowered `body` or a `thunk` is not) and
     * handed to `Expanded`.
     */
    twostate predicate Dispatched(e: Val, fast: bool, eng: Engines, fuel: nat, new r: Outcome<Val>, pushed: seq<ModuleId>)
      reads this
      decreases fuel, 2
    {
      FormResult(e, r) &&
      (!e.Expr? || e.head == "null" || e.head == "error" ==>
         Ran(eng.interp(old(bindings), old(current), e), r) && pushed == []) &&
      (e.Expr? && e.head == "module" ==> ModuleDone(e, r, pushed)) &&
      (e.Expr? && e.head == "toplevel" ==> SeqOutcome(e.args, r)) &&
      (e.Expr? && e.head in {"importall", "using", "import", "export"} ==> StatementDone(e, eng.load, r) && pushed == []) &&
      (e.Expr? && e.head !in {"null", "error", "module", "importall", "using", "import", "export", "toplevel"} ==>
         Expanded(if e.head in {"body", "thunk"} then e else eng.expand(e), fast, eng, fuel, r, pushed))
    }

    /** What the `importall`, `using`, `import` and `export` statements do. */
    twostate predicate StatementDone(e: Val, load: Loader, new r: Outcome<Val>)
      reads this
    {
      e.Expr? &&
      (e.head == "importall" ==> ImportAllDone(e.args, load, r)) &&
      (e.head == "using" ==> UsingDone(e.args, load, r)) &&
      (e.head == "import" ==> ImportDone(e.args, load, r)) &&
      (e.head == "export" ==>
         effects == old(effects) + Exports(old(current), e.args[..SymPrefix(e.args)]) && r == ExportResult(e.args) &&
         bindings == old(bindings))
    }

    /**
     * What happens to an expanded form `ex`: a `toplevel` block is spliced
     * in (one expansion level less); a thunk is compiled when the selector
     * says so or it captures variables, and interpreted otherwise; any
     * other form goes to `Chosen`.
     */
    twostate predicate Expanded(ex: Val, fast: bool, eng: Engines, fuel: nat, new r: Outcome<Val>, pushed: seq<ModuleId>)
      reads this
      decreases fuel, 1
    {
      FormOk(ex) &&
      (!(ex.Expr? && ex.head in {"toplevel", "thunk"}) ==> Chosen(ex, fast, eng, fuel, r, pushed)) &&
      (ex.Expr? && ex.head == "toplevel" ==>
         (fuel == 0 ==> r == Err(ExpansionDepth) && pushed == []) &&
         (fuel > 0 ==> SeqOutcome(ex.args, r))) &&
      (ex.Expr? && ex.head == "thunk" ==>
         var thk := ex.args[0].info;
         pushed == [] &&
         Ran(if ShouldCompile(thk.ast.value.body, fast, old(Scope())) || thk.ast.value.captured
             then eng.runCompiled(old(bindings), old(current), thk)
             else eng.interpThunk(old(bindings), old(current), thk), r))
    }

    /**
     * The engine for an expanded form other than a block or a thunk: an
     * expression the selector picks is wrapped in a thunk and compiled; a
     * lowered `body` is run by the body evaluator; a form that may only
     * appear at top level is dispatched again with the fast path (one
     * expansion level less); the rest, plain values included, is
     * interpreted.
     */
    twostate predicate Chosen(ex: Val, fast: bool, eng: Engines, fuel: nat, new r: Outcome<Val>, pushed: seq<ModuleId>)
      reads this
      decreases fuel, 0
    {
      match Choose(ex, fast, old(Scope()))
      case CompileWrapped => Ran(eng.runCompiled(old(bindings), old(current), WrapExpr(ex)), r) && pushed == []
      case RunBody => ex.Expr? && Ran(eng.evalBody(old(bindings), old(current), ex.args), r) && pushed == []
      case DispatchAgain =>
        (fuel == 0 ==> r == Err(ExpansionDepth) && pushed == []) &&
        (fuel > 0 ==> Dispatched(ex, true, eng, fuel - 1, r, pushed))
      case Interpret => Ran(eng.interp(old(bindings), old(current), ex), r) && pushed == []
    }

    /** Runs one engine step: its binding store replaces ours. */
    method Run(s: Step) returns (r: Outcome<Val>)
      requires Valid()
      modifies this`bindings
      ensures Ran(s, r) && Evaluated([])
    {
      assert pending + [] == pending;
      bindings := s.bindings;
      r := s.result;
    }

    /** `jl_add_standard_imports`: `using Base` and `importall Base.Operators`. */
    method AddStandardImports(m: ModuleId)
      requires base.Some?
      modifies this`effects
      ensures effects == old(effects) + [StandardImports(m, base.value)]
    {
      effects := effects + [StandardImports(m, base.value)];
    }

    /** Runs the pending initializers, popping the stack until it is empty. */
    method DrainPending()
      modifies this`pending, this`inits
      ensures pending == [] && inits == old(inits) + Reverse(old(pending))
    {
      while |pending| > 0
        invariant inits + Reverse(pending) == old(inits) + Reverse(old(pending))
        decreases |pending|
      {
        var m := pending[|pending| - 1];
        pending := pending[..|pending| - 1];
        inits := inits + [m];
      }
    }

    /** A fresh module named `name` whose parent is the current module. */
    method NewModule(name: string) returns (newm: ModuleId)
      requires Valid()
      modifies this`names, this`parents, this`bindings
      ensures Valid()
      ensures newm == |old(parents)| && names == old(names) + [name] && parents == old(parents) + [current]
      ensures bindings == SetConst(old(bindings), newm, name, Mod(newm))
    {
      newm := |parents|;
      names, parents := names + [name], parents + [current];
      bindings := SetConst(bindings, newm, name, Mod(newm));
    }

    /**
     * `jl_get_binding_wr` and `jl_declare_constant` for a module binding:
     * `name` in the current module becomes a constant holding `newm`, with
     * a warning when it had a value.
     */
    method BindModule(name: string, newm: ModuleId)
      modifies this`bindings, this`warnings
      ensures (current, name) in bindings && bindings[(current, name)].value == Some(Mod(newm)) &&
              bindings[(current, name)].owner == current && bindings[(current, name)].constp
      ensures forall k :: k in old(bindings) && k != (current, name) ==> k in bindings && bindings[k] == old(bindings)[k]
      ensures warnings == old(warnings) + (if GetGlobal(old(bindings), current, name).Some? then [ReplacingModule(name)] else [])
    {
      var key := (current, name);
      if GetGlobal(bindings, current, name).Some? {
        warnings := warnings + [ReplacingModule(name)];
      }
      var exportp := key in bindings && bindings[key].exportp;
      bindings := bindings[key := Binding(current, Some(Mod(newm)), true, false, exportp)];
    }

    /**
     * A fresh module, bound under its own name in itself and as a
     * constant under `name` in the current module.
     */
    method CreateModule(name: string) returns (newm: ModuleId)
      requires Valid()
      modifies this`names, this`parents, this`bindings, this`warnings
      ensures Valid()
      ensures newm == |old(parents)| && names == old(names) + [name] && parents == old(parents) + [current]
      ensures (current, name) in bindings && bindings[(current, name)].value == Some(Mod(newm)) &&
              bindings[(current, name)].owner == current && bindings[(current, name)].constp
      ensures (newm, name) in bindings
      ensures !((newm, name) in old(bindings) && old(bindings)[(newm, name)].constp) ==>
                bindings[(newm, name)].value == Some(Mod(newm)) && bindings[(newm, name)].constp
      ensures forall k :: k in old(bindings) && k != (current, name) && k != (newm, name) ==>
                k in bindings && bindings[k] == old(bindings)[k]
      ensures warnings == old(warnings) + (if GetGlobal(old(bindings), current, name).Some? then [ReplacingModule(name)] else [])
    {
      newm := NewModule(name);
      ghost var b1 := bindings;
      BindModule(name, newm);
      assert GetGlobal(b1, current, name) == GetGlobal(old(bindings), current, name);
    }

    /** The bootstrap switch: a module named Base defined in Main becomes the Base module. */
    method SwitchBase(newm: ModuleId)
      requires current == main
      modifies this`base, this`oldBase, this`baseSwaps
      ensures base == Some(newm) && oldBase == old(base) && baseSwaps == old(baseSwaps) + 1
    {
      oldBase := base;
      base := Some(newm);
      baseSwaps := baseSwaps + 1;
    }

    /**
     * The set-up of a `module` form before its body runs: the module and
     * its constant binding in the parent, the Base switch during bootstrap,
     * the export from Main and the standard imports.
     */
    method DeclareModule(name: string, stdImports: bool) returns (newm: ModuleId)
      requires Valid()
      modifies this`names, this`parents, this`bindings, this`base, this`oldBase, this`baseSwaps, this`effects, this`warnings
      ensures Valid()
      ensures newm == |old(parents)| && names == old(names) + [name] && parents == old(parents) + [current]
      ensures (current, name) in bindings && bindings[(current, name)].value == Some(Mod(newm)) &&
              bindings[(current, name)].owner == current && bindings[(current, name)].constp
      ensures (newm, name) in bindings
      ensures !((newm, name) in old(bindings) && old(bindings)[(newm, name)].constp) ==>
                bindings[(newm, name)].value == Some(Mod(newm)) && bindings[(newm, name)].constp
      ensures forall k :: k in old(bindings) && k != (current, name) && k != (newm, name) ==>
                k in bindings && bindings[k] == old(bindings)[k]
      ensures warnings == old(warnings) + (if GetGlobal(old(bindings), current, name).Some? then [ReplacingModule(name)] else [])
      ensures current == main && name == "Base" ==>
                base == Some(newm) && oldBase == old(base) && baseSwaps == old(baseSwaps) + 1
      ensures !(current == main && name == "Base") ==>
                base == old(base) && oldBase == old(oldBase) && baseSwaps == old(baseSwaps)
      ensures effects == old(effects) + (if current == main then [Export(main, name)] else []) +
                         (if stdImports && base.Some? then [StandardImports(newm, base.value)] else [])
    {
      newm := CreateModule(name);
      PublishModule(name, stdImports, newm);
    }

    /**
     * The steps after the module exists: the Base switch during bootstrap,
     * the export from Main and the standard imports.
     */
    method PublishModule(name: string, stdImports: bool, newm: ModuleId)
      modifies this`base, this`oldBase, this`baseSwaps, this`effects
      ensures current == main && name == "Base" ==>
                base == Some(newm) && oldBase == old(base) && baseSwaps == old(baseSwaps) + 1
      ensures !(current == main && name == "Base") ==>
                base == old(base) && oldBase == old(oldBase) && baseSwaps == old(baseSwaps)
      ensures effects == old(effects) + (if current == main then [Export(main, name)] else []) +
                         (if stdImports && base.Some? then [StandardImports(newm, base.value)] else [])
    {
      if current == main && name == "Base" {
        SwitchBase(newm);
      }
      ghost var e0 := effects;
      if current == main {
        effects := effects + [Export(main, name)];
      }
      ghost var e1 := effects;
      if stdImports && base.Some? {
        AddStandardImports(newm);
      }
      assert effects == e1 + (if stdImports && base.Some? then [StandardImports(newm, base.value)] else []);
    }

    /** The set-up of a module definition, after which the new module is current. */
    method EnterModule(name: string, stdImports: bool) returns (newm: ModuleId)
      requires Valid()
      modifies this`names, this`parents, this`bindings, this`base, this`oldBase, this`baseSwaps, this`effects,
               this`warnings, this`current, this`taskCurrent
      ensures Valid() && newm == |old(parents)| && newm != main && current == newm && taskCurrent == newm
      ensures names == old(names) + [name] && parents == old(parents) + [old(current)]
    {
      newm := DeclareModule(name, stdImports);
      current, taskCurrent := newm, newm;
    }

    /** `jl_eval_module_expr`. */
    method EvalModule(ex: Val, eng: Engines, fuel: nat) returns (r: Outcome<Val>, ghost pushed: seq<ModuleId>)
      requires Valid() && ExpandOk(eng) && FormOk(ex) && ex.Expr? && ex.head == "module"
      modifies this
      ensures Evaluated(pushed) && ModuleDone(ex, r, pushed)
      decreases fuel, 1, ex, 0
    {
      pushed := [];
      if |ex.args| != 3 || !ex.args[2].Expr? {
        return Err(MalformedModule), [];
      }
      var stdImports := ex.args[0] == Bool(true);
      if !ex.args[1].Sym? {
        return Err(TypeError("module", "", "Symbol", ex.args[1])), [];
      }
      ghost var bodyR, results;
      r, pushed, bodyR, results := DefineModule(ex.args[1].name, stdImports, ex.args[2], eng, fuel);
      assert SeqOutcome(ex.args[2].args, bodyR);
    }

    /** A well-formed module definition: set up, body evaluated inside the new module, finished. */
    method DefineModule(name: string, stdImports: bool, body: Val, eng: Engines, fuel: nat)
      returns (r: Outcome<Val>, ghost pushed: seq<ModuleId>, ghost bodyR: Outcome<Val>, ghost results: seq<Outcome<Val>>)
      requires Valid() && ExpandOk(eng) && body.Expr?
      requires forall k :: 0 <= k < |body.args| ==> FormOk(body.args[k])
      modifies this
      ensures Evaluated(pushed)
      ensures InOrder(|body.args|, results, bodyR) &&
              forall k :: 0 <= k < |results| ==> FormResult(body.args[k], results[k])
      ensures r == (if bodyR.Err? then bodyR else Ok(Nothing))
      ensures r.Ok? <==> |old(parents)| in pushed
      ensures r.Ok? ==>
        r.value == Nothing && |old(parents)| < |parents| && names[|old(parents)|] == name &&
        parents[|old(parents)|] == old(current) && |pushed| > 0 && pushed[|pushed| - 1] == |old(parents)|
      ensures r.Err? ==> |old(parents)| !in pushed && pending == old(pending) + pushed && inits == old(inits)
      ensures r.Ok? && old(current) == old(main) ==> pending == [] && inits == old(inits) + Reverse(old(pending) + pushed)
      decreases fuel, 1, body, 1
    {
      var lastModule, taskLast := current, taskCurrent;
      ghost var i0, p0 := inits, pending;
      var newm := EnterModule(name, stdImports);
      ghost var q;
      r, q, results := EvalSeq(body.args, true, eng, fuel, body);
      bodyR := r;
      assert pending == p0 + q && inits == i0;
      if r.Err? {
        current, taskCurrent := lastModule, taskLast;
        pushed := q;
        return;
      }
      pushed := q + [newm];
      assert p0 + q + [newm] == p0 + pushed;
      FinishModule(newm, lastModule, taskLast);
      r := Ok(Nothing);
    }

    /**
     * The end of a module definition: the previous module becomes current
     * again, the new module's initializer is pushed, and when that leaves
     * Main current the whole stack is run.
     */
    method FinishModule(newm: ModuleId, lastModule: ModuleId, taskLast: ModuleId)
      modifies this`current, this`taskCurrent, this`pending, this`inits
      ensures current == lastModule && taskCurrent == taskLast
      ensures lastModule == main ==> pending == [] && inits == old(inits) + Reverse(old(pending) + [newm])
      ensures lastModule != main ==> pending == old(pending) + [newm] && inits == old(inits)
    {
      current, taskCurrent := lastModule, taskLast;
      pending := pending + [newm];
      if current == main {
        DrainPending();
      }
    }

    /** The forms of a module body or a `toplevel` block, in order, stopping at the first exception. */
    method EvalSeq(forms: seq<Val>, fast: bool, eng: Engines, fuel: nat, ghost parent: Val)
      returns (r: Outcome<Val>, ghost pushed: seq<ModuleId>, ghost results: seq<Outcome<Val>>)
      requires Valid() && ExpandOk(eng) && parent.Expr? && parent.args == forms
      requires forall k :: 0 <= k < |forms| ==> FormOk(forms[k])
      modifies this
      ensures Evaluated(pushed)
      ensures InOrder(|forms|, results, r)
      ensures forall k :: 0 <= k < |results| ==> FormResult(forms[k], results[k])
      decreases fuel, 1, parent, 0
    {
      r, pushed, results := Ok(Nothing), [], [];
      for i := 0 to |forms|
        invariant Evaluated(pushed)
        invariant r.Ok? && InOrder(i, results, r)
        invariant forall k :: 0 <= k < |results| ==> FormResult(forms[k], results[k])
      {
        assert forms[i] in parent.args;
        ghost var i1, p1 := inits, pending;
        ghost var q;
        r, q := EvalFlex(forms[i], fast, eng, fuel);
        StackedChain(old(inits), old(pending), i1, p1, inits, pending, pushed, q, old(current) != old(main));
        pushed, results := pushed + q, results + [r];
        if r.Err? {
          return;
        }
      }
    }

    /** `jl_toplevel_eval_flex`: evaluates one top-level form. */
    method EvalFlex(e: Val, fast: bool, eng: Engines, fuel: nat) returns (r: Outcome<Val>, ghost pushed: seq<ModuleId>)
      requires Valid() && ExpandOk(eng) && FormOk(e)
      modifies this
      ensures Evaluated(pushed) && Dispatched(e, fast, eng, fuel, r, pushed)
      decreases fuel, 1, e, 1
    {
      pushed := [];
      if !e.Expr? || e.head == "null" || e.head == "error" {
        r := Run(eng.interp(bindings, current, e));
        return;
      }
      if e.head == "module" {
        r, pushed := EvalModule(e, eng, fuel);
        return;
      }
      if e.head in {"importall", "using", "import", "export"} {
        r := EvalStatement(e, eng.load);
        return;
      }
      if e.head == "toplevel" {
        ghost var results;
        r, pushed, results := EvalSeq(e.args, fast, eng, fuel, e);
        return;
      }
      var ex := if e.head != "body" && e.head != "thunk" then eng.expand(e) else e;
      r, pushed := EvalExpanded(ex, fast, eng, fuel);
    }

    /** The part of `jl_toplevel_eval_flex` after expansion: splice, thunk, or a choice of engine. */
    method EvalExpanded(ex: Val, fast: bool, eng: Engines, fuel: nat) returns (r: Outcome<Val>, ghost pushed: seq<ModuleId>)
      requires Valid() && ExpandOk(eng) && FormOk(ex)
      modifies this
      ensures Evaluated(pushed) && Expanded(ex, fast, eng, fuel, r, pushed)
      decreases fuel, 0, ex, 2
    {
      pushed := [];
      if ex.Expr? && ex.head == "toplevel" {
        if fuel == 0 {
          return Err(ExpansionDepth), [];
        }
        ghost var results;
        r, pushed, results := EvalSeq(ex.args, fast, eng, fuel - 1, ex);
        return;
      }
      if ex.Expr? && ex.head == "thunk" {
        var thk := ex.args[0].info;
        var ewc := ThunkCompiled(thk.ast.value, fast, Scope());
        if ewc {
          r := Run(eng.runCompiled(bindings, current, thk));
        } else {
          r := Run(eng.interpThunk(bindings, current, thk));
        }
        return;
      }
      r, pushed := EvalChosen(ex, fast, eng, fuel);
    }

    /** The choice of engine for an expanded form that is neither a block nor a thunk. */
    method EvalChosen(ex: Val, fast: bool, eng: Engines, fuel: nat) returns (r: Outcome<Val>, ghost pushed: seq<ModuleId>)
      requires Valid() && ExpandOk(eng) && FormOk(ex) && !(ex.Expr? && ex.head in {"toplevel", "thunk"})
      modifies this
      ensures Evaluated(pushed) && Chosen(ex, fast, eng, fuel, r, pushed)
      decreases fuel, 0, ex, 1
    {
      pushed := [];
      var choice := SelectEngine(ex, fast);
      match choice
      case CompileWrapped =>
        r := Run(eng.runCompiled(bindings, current, WrapExpr(ex)));
      case RunBody =>
        r := Run(eng.evalBody(bindings, current, ex.args));
      case DispatchAgain =>
        r, pushed := Redispatch(ex, eng, fuel);
      case Interpret =>
        r := Run(eng.interp(bindings, current, ex));
    }

    /** The engine choice of `jl_toplevel_eval_flex` for an expanded form, in the current scope. */
    method SelectEngine(ex: Val, fast: bool) returns (c: EngineChoice)
      requires FormOk(ex) && !(ex.Expr? && ex.head == "thunk")
      ensures c == Choose(ex, fast, Scope())
      ensures c == RunBody ==> ex.Expr? && ex.head == "body"
      ensures c == DispatchAgain ==> IsToplevelOnlyExpr(ex)
    {
      var ewc := false;
      if ex.Expr? {
        ewc := EvalWithCompiler(ex, fast, Scope());
      }
      if ewc {
        c := CompileWrapped;
      } else if ex.Expr? && ex.head == "body" {
        c := RunBody;
      } else if IsToplevelOnlyExpr(ex) {
        c := DispatchAgain;
      } else {
        c := Interpret;
      }
    }

    /** An expanded form that may only appear at top level is dispatched again, one expansion level down. */
    method Redispatch(ex: Val, eng: Engines, fuel: nat) returns (r: Outcome<Val>, ghost pushed: seq<ModuleId>)
      requires Valid() && ExpandOk(eng) && FormOk(ex)
      modifies this
      ensures Evaluated(pushed)
      ensures fuel == 0 ==> r == Err(ExpansionDepth) && pushed == [] && bindings == old(bindings)
      ensures fuel > 0 ==> Dispatched(ex, true, eng, fuel - 1, r, pushed)
      decreases fuel, 0, ex, 0
    {
      if fuel == 0 {
        return Err(ExpansionDepth), [];
      }
      r, pushed := EvalFlex(ex, true, eng, fuel - 1);
    }

    /**
     * The static-parameter pass of `jl_method_def`: a warning for each type
     * variable of an ordinary name that does not occur in the signature,
     * until the first static parameter that is not a type variable, which
     * is a type error.
     */
    method CheckStaticParams(name: string, argtypes: seq<Val>, tvars: seq<Val>) returns (err: Option<Error>)
      modifies this`warnings
      ensures warnings == old(warnings) + UnusedStaticParams(name, argtypes, tvars)
      ensures err.None? <==> forall k :: 0 <= k < |tvars| ==> tvars[k].TypeVar?
      ensures err.Some? ==> exists k :: 0 <= k < |tvars| && !tvars[k].TypeVar? &&
                                     err.value == TypeError(name, "method definition", "TypeVar", tvars[k]) &&
                                     forall j :: 0 <= j < k ==> tvars[j].TypeVar?
    {
      for i := 0 to |tvars|
        invariant forall k :: 0 <= k < i ==> tvars[k].TypeVar?
        invariant warnings + UnusedStaticParams(name, argtypes, tvars[i..]) ==
                  old(warnings) + UnusedStaticParams(name, argtypes, tvars)
      {
        if !tvars[i].TypeVar? {
          return Some(TypeError(name, "method definition", "TypeVar", tvars[i]));
        }
        assert tvars[i..][1..] == tvars[i + 1..];
        if !IsHidden(name) && !TypeContains(TupleVal(argtypes), tvars[i]) {
          warnings := warnings + [UnusedStaticParam(tvars[i].tvName, name)];
        }
      }
      assert tvars[|tvars|..] == [];
      err := None;
    }

    /**
     * The checks of `jl_method_def`, with the one effect they can have
     * before failing: the constructors of a type in the slot are
     * materialised once the binding is known to be definable.
     */
    method PrepareMethodDef(name: string, target: Target, argtypes: seq<Val>, tvars: seq<Val>, f: Val, ctorsMakeGf: bool)
      returns (r: Outcome<()>, slot: Option<Val>)
      requires f.Function?
      modifies this`bindings, this`warnings
      ensures r == MethodDefCheck(name, if target.Global? then Some(BindingFor(old(bindings), target.key)) else None,
                                  if target.Global? then target.key.1 else "", SlotOf(old(bindings), target),
                                  ctorsMakeGf, argtypes, tvars, f.linfo)
      ensures warnings == old(warnings) +
                (if r.Ok? || r.error.TypeError? then UnusedStaticParams(name, argtypes, tvars) else [])
      ensures slot == if Clashes(old(bindings), target) then SlotOf(old(bindings), target)
                      else Materialise(SlotOf(old(bindings), target), ctorsMakeGf)
      ensures target.Local? || target.key !in old(bindings) ==> bindings == old(bindings)
      ensures target.Global? && target.key in old(bindings) ==>
                bindings == old(bindings)[target.key := old(bindings)[target.key].(value := slot)]
    {
      slot := SlotOf(bindings, target);
      if Clashes(bindings, target) {
        return Err(FunctionHasValue(target.key.1)), slot;
      }
      if slot.Some? && IsCtorTrampoline(slot.value) && ctorsMakeGf {
        slot := Materialise(slot, ctorsMakeGf);
        if target.Global? {
          bindings := bindings[target.key := bindings[target.key].(value := slot)];
        }
      }
      if slot.Some? && !IsGf(slot.value) {
        return Err(NotGeneric), slot;
      }
      var bad := FirstNonType(argtypes, 0);
      if bad.Some? {
        return Err(InvalidArgType(bad.value, name, f.linfo.file, f.linfo.line)), slot;
      }
      var err := CheckStaticParams(name, argtypes, tvars);
      if err.Some? {
        var k :| 0 <= k < |tvars| && !tvars[k].TypeVar? &&
                 err.value == TypeError(name, "method definition", "TypeVar", tvars[k]) &&
                 forall j :: 0 <= j < k ==> tvars[j].TypeVar?;
        assert FirstNonTypeVar(tvars, 0) == Some(k);
        return Err(err.value), slot;
      }
      r := Ok(());
    }

    /**
     * `jl_method_def`: adds method `f` with signature `argtypes` and static
     * parameters `tvars` to the generic function in `target`, creating the
     * function when the slot is empty.  `slot` is what the target slot
     * holds afterwards; for a global target it is also the binding's value.
     */
    method MethodDef(name: string, target: Target, argtypes: seq<Val>, tvars: seq<Val>, f: Val, ctorsMakeGf: bool)
      returns (r: Outcome<Val>, slot: Option<Val>)
      requires f.Function?
      modifies this`bindings, this`warnings, this`effects, this`nextGf
      ensures var bnd := if target.Global? then Some(BindingFor(old(bindings), target.key)) else None;
              var chk := MethodDefCheck(name, bnd, if target.Global? then target.key.1 else "", SlotOf(old(bindings), target),
                                        ctorsMakeGf, argtypes, tvars, f.linfo);
              (r.Ok? <==> chk.Ok?) && (chk.Err? ==> r == Err(chk.error)) &&
              warnings == old(warnings) +
                (if chk.Ok? || chk.error.TypeError? then UnusedStaticParams(name, argtypes, tvars) else [])
      ensures r.Err? ==> effects == old(effects) && nextGf == old(nextGf)
      ensures r.Ok? ==> IsGf(r.value) && slot == Some(r.value) &&
                        effects == old(effects) + [AddMethod(r.value, argtypes, f, tvars)]
      ensures r.Ok? && SlotOf(old(bindings), target).None? ==>
                r.value == GenericFn(old(nextGf), name) && nextGf == old(nextGf) + 1
      ensures r.Ok? && SlotOf(old(bindings), target).Some? ==>
                slot == Materialise(SlotOf(old(bindings), target), ctorsMakeGf) && nextGf == old(nextGf)
      ensures target.Local? ==> bindings == old(bindings)
      ensures target.Global? ==>
                (forall k :: k in old(bindings) && k != target.key ==> k in bindings && bindings[k] == old(bindings)[k]) &&
                (forall k :: k in bindings ==> k in old(bindings) || k == target.key)
      ensures target.Global? && r.Ok? ==>
                target.key in bindings && bindings[target.key] == BindingFor(old(bindings), target.key).(value := slot, constp := true)
      ensures r.Err? ==>
                slot == (if Clashes(old(bindings), target) then SlotOf(old(bindings), target)
                         else Materialise(SlotOf(old(bindings), target), ctorsMakeGf)) &&
                bindings == (if target.Global? && target.key in old(bindings)
                             then old(bindings)[target.key := old(bindings)[target.key].(value := slot)]
                             else old(bindings))
    {
      var checked;
      checked, slot := PrepareMethodDef(name, target, argtypes, tvars, f, ctorsMakeGf);
      if checked.Err? {
        return Err(checked.error), slot;
      }
      var gf: Val;
      if slot.None? {
        gf := GenericFn(nextGf, name);
        nextGf := nextGf + 1;
        slot := Some(gf);
      } else {
        gf := slot.value;
      }
      if target.Global? {
        bindings := bindings[target.key := BindingFor(bindings, target.key).(value := slot, constp := true)];
      }
      effects := effects + [AddMethod(gf, argtypes, f, tvars)];
      r := Ok(gf);
    }

    /**
     * `jl_new_main_module`: a fresh Main, its own parent and Core's,
     * with its own name and `Core` bound in it and `Core.Main` pointing to it.  Only
     * possible from the top level; the old Main is returned.
     */
    method NewMainModule() returns (r: Outcome<ModuleId>)
      requires Valid()
      modifies this`names, this`parents, this`bindings, this`main, this`current, this`taskCurrent
      ensures Valid() && core == old(core)
      ensures old(current) != old(main) ==>
                r == Err(MainNotTopLevel) && names == old(names) && parents == old(parents) &&
                bindings == old(bindings) && main == old(main) && current == old(current) && taskCurrent == old(taskCurrent)
      ensures old(current) == old(main) ==>
                r == Ok(old(main)) && main == |old(parents)| && current == main && taskCurrent == main &&
                names == old(names) + ["Main"] && parents == old(parents)[old(core) := main] + [main] &&
                bindings == SetGlobal(SetConst(SetConst(old(bindings), main, "Main", Mod(main)), main, "Core", Mod(core)),
                                      core, "Main", Mod(main))
    {
      if current != main {
        return Err(MainNotTopLevel);
      }
      var oldMain := main;
      var newMain := |parents|;
      names := names + ["Main"];
      parents := parents[core := newMain] + [newMain];
      main := newMain;
      BindMain();
      current, taskCurrent := main, main;
      r := Ok(oldMain);
    }

    /** The bindings of a fresh Main: its own name and `Core` in it, and `Core.Main`. */
    method BindMain()
      modifies this`bindings
      ensures bindings == SetGlobal(SetConst(SetConst(old(bindings), main, "Main", Mod(main)), main, "Core", Mod(core)),
                                    core, "Main", Mod(main))
    {
      bindings := SetConst(bindings, main, "Main", Mod(main));
      bindings := SetConst(bindings, main, "Core", Mod(core));
      bindings := SetGlobal(bindings, core, "Main", Mod(main));
    }

    /** `jl_toplevel_eval`: a form evaluated with the fast path allowed. */
    method ToplevelEval(e: Val, eng: Engines, fuel: nat) returns (r: Outcome<Val>, ghost pushed: seq<ModuleId>)
      requires Valid() && ExpandOk(eng) && FormOk(e)
      modifies this
      ensures Evaluated(pushed) && Dispatched(e, true, eng, fuel, r, pushed)
    {
      r, pushed := EvalFlex(e, true, eng, fuel);
    }

    /** One parsed form of a file: syntax errors and parser errors raise, the rest is evaluated. */
    method EvalParsed(form: Val, eng: Engines, fuel: nat) returns (r: Outcome<Val>, ghost pushed: seq<ModuleId>)
      requires Valid() && ExpandOk(eng) && FormOk(form)
      modifies this
      ensures Evaluated(pushed)
      ensures IsIncomplete(form) ==> r == Err(SyntaxError(form.args[0].s)) && bindings == old(bindings) && pushed == []
      ensures form.Expr? && form.head == "error" && eng.interp(old(bindings), old(current), form).result.Err? ==>
                r == eng.interp(old(bindings), old(current), form).result && pushed == []
      ensures ParsedResult(form, r)
    {
      pushed := [];
      if IsIncomplete(form) {
        return Err(SyntaxError(form.args[0].s)), [];
      }
      if form.Expr? && form.head == "error" {
        r := Run(eng.interp(bindings, current, form));
        if r.Err? {
          return;
        }
      }
      r, pushed := EvalFlex(form, true, eng, fuel);
    }

    /** A parsed form evaluated at its own line. */
    method EvalAt(p: Parsed, eng: Engines, fuel: nat) returns (r: Outcome<Val>, ghost pushed: seq<ModuleId>)
      requires Valid() && ExpandOk(eng) && FormOk(p.form)
      modifies this
      ensures Grown(pushed) && lineno == p.line
      ensures IsIncomplete(p.form) ==> bindings == old(bindings) && pushed == []
      ensures ParsedResult(p.form, r)
    {
      lineno := p.line;
      r, pushed := EvalParsed(p.form, eng, fuel);
    }

    /**
     * `jl_parse_eval_all`: evaluates the forms parsed from file `fname` in
     * order, each at its own line.  An incomplete form is a syntax error;
     * an `error` form is interpreted (raising the parser's error) before
     * evaluation.  Any exception stops the file and becomes a load error
     * naming the file and the line reached; the line number is restored
     * in every case.
     */
    method ParseEvalAll(fname: string, parsed: seq<Parsed>, eng: Engines, fuel: nat)
      returns (r: Outcome<Val>, ghost pushed: seq<ModuleId>, ghost results: seq<Outcome<Val>>)
      requires Valid() && ExpandOk(eng)
      requires forall k :: 0 <= k < |parsed| ==> FormOk(parsed[k].form)
      modifies this
      ensures Evaluated(pushed)
      ensures |results| <= |parsed| && forall k :: 0 <= k < |results| - 1 ==> results[k].Ok?
      ensures forall k :: 0 <= k < |results| ==> ParsedResult(parsed[k].form, results[k])
      ensures r.Ok? ==> |results| == |parsed| && r == (if parsed == [] then Ok(Nothing) else results[|results| - 1])
      ensures r.Err? ==> |results| > 0 && results[|results| - 1].Err? &&
                         r == Err(LoadError(fname, parsed[|results| - 1].line, results[|results| - 1].error))
      ensures |parsed| > 0 && IsIncomplete(parsed[0].form) ==>
                r == Err(LoadError(fname, parsed[0].line, SyntaxError(parsed[0].form.args[0].s))) &&
                bindings == old(bindings) && pushed == []
    {
      var lastLineno := lineno;
      lineno := 0;
      r, pushed, results := Ok(Nothing), [], [];
      for i := 0 to |parsed|
        invariant Grown(pushed) && lastLineno == old(lineno)
        invariant i == 0 ==> r == Ok(Nothing) && bindings == old(bindings) && pushed == []
        invariant r.Ok? && (i > 0 ==> !IsIncomplete(parsed[0].form))
        invariant |results| == i && (forall k :: 0 <= k < i ==> results[k].Ok? && ParsedResult(parsed[k].form, results[k]))
        invariant i > 0 ==> r == results[i - 1]
      {
        ghost var i1, p1 := inits, pending;
        ghost var q;
        var failed;
        failed, q := EvalAt(parsed[i], eng, fuel);
        StackedChain(old(inits), old(pending), i1, p1, inits, pending, pushed, q, old(current) != old(main));
        pushed, results := pushed + q, results + [failed];
        if failed.Err? {
          r := Err(LoadError(fname, lineno, failed.error));
          lineno := lastLineno;
          return;
        }
        r := failed;
      }
      lineno := lastLineno;
    }
  }

  /** A form as the parser delivers it, with the line it starts on. */
  datatype Parsed = Parsed(form: Val, line: int)

  /** The parser's marker for input that ends inside a form. */
  predicate IsIncomplete(e: Val) {
    e.Expr? && e.head == "incomplete" && |e.args| >= 1 && e.args[0].Str?
  }

  /** Where `jl_method_def` finds the function: a global binding, or a local slot of the caller. */
  datatype Target = Global(key: BKey) | Local(local: Option<Val>)

  /** The binding for `key`, or the empty one a method definition creates. */
  function BindingFor(b: Bindings, key: BKey): (r: Binding)
    ensures key !in b ==> r.value.None? && !r.constp
  {
    if key in b then b[key] else Binding(key.0, None, false, false, false)
  }

  /** A method definition on a global that already holds a non-constant value. */
  predicate Clashes(b: Bindings, t: Target) {
    t.Global? && BindingFor(b, t.key).value.Some? && !BindingFor(b, t.key).constp
  }

  /** What the target slot of a method definition holds. */
  function SlotOf(b: Bindings, t: Target): Option<Val> {
    if t.Global? then BindingFor(b, t.key).value else t.local
  }

  /**
   * `jl_add_constructors` on a type whose constructors are still a
   * trampoline: when it makes the type a generic function, the type now
   * dispatches through `jl_apply_generic`.
   */
  function Materialise(slot: Option<Val>, ctorsMakeGf: bool): (r: Option<Val>)
    ensures r.Some? <==> slot.Some?
    ensures slot.Some? && IsCtorTrampoline(slot.value) && ctorsMakeGf ==> IsGf(r.value)
    ensures slot.Some? && !IsCtorTrampoline(slot.value) ==> r == slot
  {
    if slot.Some? && IsCtorTrampoline(slot.value) && ctorsMakeGf then Some(slot.value.(fptr := ApplyGeneric)) else slot
  }

  /** The export calls for a list of names, in order. */
  function Exports(into: ModuleId, names: seq<Val>): (r: seq<Effect>)
    requires forall k :: 0 <= k < |names| ==> names[k].Sym?
    ensures |r| == |names| && forall k :: 0 <= k < |names| ==> r[k] == Export(into, names[k].name)
  {
    if names == [] then [] else [Export(into, names[0].name)] + Exports(into, names[1..])
  }

  lemma ExportsAppend(into: ModuleId, names: seq<Val>, x: Val)
    requires (forall k :: 0 <= k < |names| ==> names[k].Sym?) && x.Sym?
    ensures Exports(into, names + [x]) == Exports(into, names) + [Export(into, x.name)]
  {
    assert forall k :: 0 <= k < |names + [x]| ==> (names + [x])[k].Sym?;
  }

  /** The length of the longest prefix of `args` made of symbols. */
  function SymPrefix(args: seq<Val>): (n: nat)
    ensures n <= |args| && (forall k :: 0 <= k < n ==> args[k].Sym?) && (n < |args| ==> !args[n].Sym?)
  {
    if args == [] || !args[0].Sym? then 0 else 1 + SymPrefix(args[1..])
  }

  /** The result of an `export` form: it raises exactly when it lists something other than a symbol. */
  function ExportResult(args: seq<Val>): Outcome<Val> {
    if SymPrefix(args) < |args| then Err(MalformedStatement("export")) else Ok(Nothing)
  }

  /**
   * The result of a `module` form whatever the state: a malformed form or
   * a name that is not a symbol raises before anything is defined, and a
   * definition returns `nothing`.
   */
  predicate ModuleResult(args: seq<Val>, r: Outcome<Val>) {
    (!(|args| == 3 && args[2].Expr?) ==> r == Err(MalformedModule)) &&
    (|args| == 3 && args[2].Expr? && !args[1].Sym? ==> r == Err(TypeError("module", "", "Symbol", args[1]))) &&
    (r.Ok? ==> r.value == Nothing)
  }

  /**
   * The result of a top-level form, as far as it does not depend on the
   * state: module definitions as above, the import statements return
   * `nothing`, `export` raises exactly on a non-symbol and an empty
   * `toplevel` block returns `nothing`.
   */
  predicate FormResult(e: Val, r: Outcome<Val>) {
    e.Expr? ==>
      (e.head == "module" ==> ModuleResult(e.args, r)) &&
      (e.head in {"importall", "using", "import"} && r.Ok? ==> r.value == Nothing) &&
      (e.head == "export" ==> r == ExportResult(e.args)) &&
      (e.head == "toplevel" && e.args == [] ==> r == Ok(Nothing))
  }

  /**
   * Forms evaluated in order until the first exception: `results` holds
   * one outcome for each of the `n` forms that was evaluated, all but the
   * last normal; the outcome of the whole is the last one, or `nothing`
   * when there are no forms, and it is normal only if every form ran.
   */
  predicate InOrder(n: nat, results: seq<Outcome<Val>>, r: Outcome<Val>) {
    |results| <= n &&
    (forall k :: 0 <= k < |results| - 1 ==> results[k].Ok?) &&
    (n == 0 ==> r == Ok(Nothing)) &&
    (n > 0 ==> |results| > 0 && r == results[|results| - 1]) &&
    (r.Ok? ==> |results| == n)
  }

  /**
   * The result of a module definition whose body's forms ran in order:
   * the body's error, or `nothing` when every form succeeded.
   */
  ghost predicate BodyOutcome(body: seq<Val>, r: Outcome<Val>) {
    exists bodyR :: SeqOutcome(body, bodyR) && r == (if bodyR.Err? then bodyR else Ok(Nothing))
  }

  /** Forms evaluated in order with outcome `r`, each form's outcome consistent with the form. */
  ghost predicate SeqOutcome(forms: seq<Val>, r: Outcome<Val>) {
    exists results: seq<Outcome<Val>> ::
      InOrder(|forms|, results, r) && forall k :: 0 <= k < |results| ==> FormResult(forms[k], results[k])
  }

  /** The outcome of one parsed form: an incomplete form is a syntax error, any other is evaluated. */
  predicate ParsedResult(form: Val, r: Outcome<Val>) {
    if IsIncomplete(form) then r == Err(SyntaxError(form.args[0].s)) else FormResult(form, r)
  }

  /** The engines an expanded form other than a block or a thunk can go to. */
  datatype EngineChoice = CompileWrapped | RunBody | DispatchAgain | Interpret

  /**
   * The choice for expression `ex`: compiled (wrapped in a thunk) when the
   * selector says so; otherwise a lowered `body` goes to the body
   * evaluator, a form that may only appear at top level is dispatched
   * again, and the rest is interpreted.
   */
  function Choose(ex: Val, fast: bool, sc: IntrinsicScope): (c: EngineChoice)
    ensures c == CompileWrapped <==> ex.Expr? && ShouldCompile(ex, fast, sc)
    ensures !ex.Expr? ==> c == Interpret
  {
    if ex.Expr? && ShouldCompile(ex, fast, sc) then CompileWrapped
    else if ex.Expr? && ex.head == "body" then RunBody
    else if IsToplevelOnlyExpr(ex) then DispatchAgain
    else Interpret
  }
}
