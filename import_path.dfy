/**
 * The import path resolver (`eval_import_path_`) as a specification.
 *
 * A path is the argument list of an `import`, `using` or `importall`
 * form: symbols, possibly led by "." markers.  The resolver finds the
 * module in which the last segment is to be looked up; the last segment
 * itself is left to the caller.  When the first segment is missing from
 * `Main`, it asks the `require` hook to load it and tries once more.
 * The method `Toplevel.Runtime.EvalImportPath` is proved to compute
 * `Resolve`.
 */
module ImportPath {
  import opened Values

  const Dot := "."

  /**
   * What loading leaves behind: the error it raised, if any, and the
   * bindings, which keep the definitions made before an error.
   */
  datatype Loaded = Loaded(raised: Option<Error>, bindings: Bindings)

  /** Loading the source that should define a module: a transformer of the bindings that may raise. */
  type Loader = (Bindings, string) -> Loaded

  /**
   * A path as the resolver reads it: every element it reads is a symbol,
   * and a path led by dots has a segment after the dots.
   */
  predicate PathOk(args: seq<Val>) {
    |args| >= 1 && args[0].Sym? &&
    (forall k :: 0 <= k < |args| - 1 ==> args[k].Sym?) &&
    (args[0] == Sym(Dot) ==> exists k :: 1 <= k < |args| && args[k].Sym? && args[k] != Sym(Dot))
  }

  /** Parent links, indexed by module, that never leave the arena. */
  predicate ParentClosed(parents: seq<ModuleId>) {
    forall k :: 0 <= k < |parents| ==> parents[k] < |parents|
  }

  /** The module `n` parent hops above `m`. */
  function Ancestor(parents: seq<ModuleId>, m: ModuleId, n: nat): (r: ModuleId)
    requires ParentClosed(parents) && m < |parents|
    ensures r < |parents|
    decreases n
  {
    if n == 0 then m else Ancestor(parents, parents[m], n - 1)
  }

  /** Where the search starts: a module to return as is, or a module and the segment to resolve in it. */
  datatype Start = Reached(m: ModuleId) | Search(m: ModuleId, name: string, next: nat)

  /** What the resolver needs of its surroundings. */
  datatype PathCtx = PathCtx(
    main: ModuleId,
    current: ModuleId,
    base: Option<ModuleId>,
    parents: seq<ModuleId>)

  predicate CtxOk(ctx: PathCtx) {
    ParentClosed(ctx.parents) && ctx.main < |ctx.parents| && ctx.current < |ctx.parents|
  }

  /** The parent-hop loop: `args[..i]` are dots, `m` is the module they reached. */
  function Hop(args: seq<Val>, i: nat, m: ModuleId, parents: seq<ModuleId>): (s: Start)
    requires PathOk(args) && args[0] == Sym(Dot) && ParentClosed(parents) && m < |parents|
    requires 1 <= i < |args| && forall k :: 1 <= k < i ==> args[k] == Sym(Dot)
    ensures s.m < |parents|
    ensures s.Search? ==> i < s.next < |args|
    decreases |args| - i
  {
    if args[i] != Sym(Dot) then
      if i + 1 == |args| then Reached(m) else Search(m, args[i].name, i + 1)
    else
      Hop(args, i + 1, parents[m], parents)
  }

  function StartOf(args: seq<Val>, ctx: PathCtx): (s: Start)
    requires PathOk(args) && CtxOk(ctx)
    ensures s.m < |ctx.parents|
    ensures s.Search? ==> 1 <= s.next <= |args|
  {
    if args[0] != Sym(Dot) then Search(ctx.main, args[0].name, 1)
    else Hop(args, 1, ctx.current, ctx.parents)
  }

  /** The outcome of resolving the first segment as a binding. */
  datatype Lookup = Found(m: ModuleId) | Missing | Bad

  /**
   * The first segment `name` looked up in `m`: a binding owned by `m` or
   * imported into it must hold a module; an owned binding without a value
   * counts as missing, an imported one as bad.
   */
  function LookupSegment(b: Bindings, m: ModuleId, name: string): (r: Lookup)
    ensures r.Found? ==> (m, name) in b && b[(m, name)].value == Some(Mod(r.m)) &&
                         (b[(m, name)].owner == m || b[(m, name)].imported)
    ensures r.Bad? <==>
      (m, name) in b &&
      ((b[(m, name)].owner == m && b[(m, name)].value.Some? && !b[(m, name)].value.value.Mod?) ||
       (b[(m, name)].imported && (b[(m, name)].value.None? || !b[(m, name)].value.value.Mod?)))
    ensures (m, name) !in b ==> r.Missing?
    ensures ((m, name) in b && (b[(m, name)].owner == m || b[(m, name)].imported) &&
             b[(m, name)].value.Some? && b[(m, name)].value.value.Mod?)
            ==> r == Found(b[(m, name)].value.value.id)
  {
    if (m, name) !in b then Missing
    else
      var mb := b[(m, name)];
      if mb.owner == m || mb.imported then
        if (mb.owner == m && mb.value.Some? && !mb.value.value.Mod?) ||
           (mb.imported && (mb.value.None? || !mb.value.value.Mod?))
        then Bad
        else if mb.value.None? then Missing
        else Found(mb.value.value.id)
      else Missing
  }

  /** The walk over the intermediate segments `args[i..|args|-1]`: each must name a module. */
  function Walk(b: Bindings, m: ModuleId, args: seq<Val>, i: nat): (r: Outcome<Option<ModuleId>>)
    requires PathOk(args) && 1 <= i
    ensures r.Ok? ==> r.value.Some?
    decreases |args| - i
  {
    if i + 1 >= |args| then Ok(Some(m))
    else
      match GetGlobal(b, m, args[i].name)
      case None => Err(UndefVar(args[i].name))
      case Some(v) => if v.Mod? then Walk(b, v.id, args, i + 1) else Err(InvalidImport)
  }

  /** A failed search: after a retry with a hook it gives up quietly, otherwise it raises. */
  function GiveUp(retrying: bool, hook: Option<Val>, name: string): (r: Outcome<Option<ModuleId>>)
    ensures r == Ok(None) <==> retrying && hook.Some?
    ensures !(retrying && hook.Some?) ==> r == Err(NotDefined(name))
  {
    if retrying && hook.Some? then Ok(None) else Err(NotDefined(name))
  }

  /** The result, the bindings after any loading, and the cached `require` hook. */
  datatype Resolution = Resolution(result: Outcome<Option<ModuleId>>, bindings: Bindings, hook: Option<Val>)

  /** Whether a failed first lookup triggers autoloading: searched in Main, first try, no dots. */
  predicate Autoloads(s: Start, ctx: PathCtx, retrying: bool) {
    s.Search? && s.m == ctx.main && !retrying && s.next == 1
  }

  /** The hook after the lazy lookup of `require` in Base. */
  function HookAfterLookup(b: Bindings, ctx: PathCtx, hook: Option<Val>): Option<Val> {
    if hook.None? && ctx.base.Some? then GetGlobal(b, ctx.base.value, "require") else hook
  }

  /** `eval_import_path_(args, retrying)`. */
  function Resolve(b: Bindings, ctx: PathCtx, hook: Option<Val>, args: seq<Val>, retrying: bool, load: Loader): Resolution
    requires PathOk(args) && CtxOk(ctx)
    decreases if retrying then 0 else 1
  {
    var s := StartOf(args, ctx);
    match s
    case Reached(m) => Resolution(Ok(Some(m)), b, hook)
    case Search(m, name, i) =>
      match LookupSegment(b, m, name)
      case Bad => Resolution(Err(NotAModule(name)), b, hook)
      case Found(m1) => Resolution(Walk(b, m1, args, i), b, hook)
      case Missing =>
        if Autoloads(s, ctx, retrying) then
          var hook1 := HookAfterLookup(b, ctx, hook);
          if hook1.Some? then
            var loaded := load(b, name);
            if loaded.raised.Some? then Resolution(Err(loaded.raised.value), loaded.bindings, hook1)
            else Resolve(loaded.bindings, ctx, hook1, args, true, load)
          else Resolution(GiveUp(retrying, hook1, name), b, hook1)
        else Resolution(GiveUp(retrying, hook, name), b, hook)
  }

  /** A path without a leading dot is searched from Main. */
  lemma AbsoluteStartsAtMain(args: seq<Val>, ctx: PathCtx)
    requires PathOk(args) && CtxOk(ctx) && args[0] != Sym(Dot)
    ensures StartOf(args, ctx) == Search(ctx.main, args[0].name, 1)
  {
  }

  /** The hop loop from position `i` moves one parent up per remaining dot before position `n`. */
  lemma {:induction false} HopFrom(args: seq<Val>, i: nat, m: ModuleId, parents: seq<ModuleId>, n: nat)
    requires PathOk(args) && args[0] == Sym(Dot) && ParentClosed(parents) && m < |parents|
    requires 1 <= i <= n < |args| && forall k :: 1 <= k < n ==> args[k] == Sym(Dot)
    requires args[n].Sym? && args[n] != Sym(Dot)
    ensures Hop(args, i, m, parents) ==
      if n + 1 == |args| then Reached(Ancestor(parents, m, n - i))
      else Search(Ancestor(parents, m, n - i), args[n].name, n + 1)
    decreases n - i
  {
    if i < n {
      HopFrom(args, i + 1, parents[m], parents, n);
    }
  }

  /**
   * With `n` leading dots, the first dot means the current module and each
   * further dot one parent up; if only one segment follows, the module
   * reached is the result.
   */
  lemma {:induction false} LeadingDots(args: seq<Val>, ctx: PathCtx, n: nat)
    requires PathOk(args) && CtxOk(ctx)
    requires 1 <= n < |args| && forall k :: 0 <= k < n ==> args[k] == Sym(Dot)
    requires args[n].Sym? && args[n] != Sym(Dot)
    ensures StartOf(args, ctx) ==
      if n + 1 == |args| then Reached(Ancestor(ctx.parents, ctx.current, n - 1))
      else Search(Ancestor(ctx.parents, ctx.current, n - 1), args[n].name, n + 1)
  {
    HopFrom(args, 1, ctx.current, ctx.parents, n);
  }

  /** `import .X` names the current module itself, with no lookup and no loading. */
  lemma {:induction false} EnclosingModule(b: Bindings, ctx: PathCtx, hook: Option<Val>, x: string, retrying: bool, load: Loader)
    requires CtxOk(ctx) && x != Dot
    ensures PathOk([Sym(Dot), Sym(x)])
    ensures Resolve(b, ctx, hook, [Sym(Dot), Sym(x)], retrying, load) == Resolution(Ok(Some(ctx.current)), b, hook)
  {
    var args := [Sym(Dot), Sym(x)];
    assert args[1].Sym? && args[1] != Sym(Dot);
    LeadingDots(args, ctx, 1);
  }

  /** A relative path never triggers `require`: the bindings are left alone. */
  lemma RelativeNeverLoads(b: Bindings, ctx: PathCtx, hook: Option<Val>, args: seq<Val>, retrying: bool, load: Loader)
    requires PathOk(args) && CtxOk(ctx) && args[0] == Sym(Dot)
    ensures Resolve(b, ctx, hook, args, retrying, load).bindings == b
    ensures Resolve(b, ctx, hook, args, retrying, load).hook == hook
  {
  }

  /** The retry never loads again: at most one `require` per resolution. */
  lemma RetryNeverLoads(b: Bindings, ctx: PathCtx, hook: Option<Val>, args: seq<Val>, load: Loader)
    requires PathOk(args) && CtxOk(ctx)
    ensures Resolve(b, ctx, hook, args, true, load).bindings == b
    ensures Resolve(b, ctx, hook, args, true, load).hook == hook
  {
  }

  /** The bindings after a resolution are the original ones or those left by one load of the first segment. */
  lemma {:induction false} LoadsAtMostOnce(b: Bindings, ctx: PathCtx, hook: Option<Val>, args: seq<Val>, load: Loader)
    requires PathOk(args) && CtxOk(ctx)
    ensures var r := Resolve(b, ctx, hook, args, false, load);
      r.bindings == b ||
      (Autoloads(StartOf(args, ctx), ctx, false) &&
       r.bindings == load(b, StartOf(args, ctx).name).bindings)
  {
    var s := StartOf(args, ctx);
    if s.Search? && LookupSegment(b, s.m, s.name).Missing? && Autoloads(s, ctx, false) {
      var hook1 := HookAfterLookup(b, ctx, hook);
      if hook1.Some? && load(b, s.name).raised.None? {
        RetryNeverLoads(load(b, s.name).bindings, ctx, hook1, args, load);
      }
    }
  }

  /** A name still missing after `require` ran gives up quietly: the caller does nothing. */
  lemma {:induction false} AutoloadGivesUp(b: Bindings, ctx: PathCtx, hook: Option<Val>, args: seq<Val>, load: Loader)
    requires PathOk(args) && CtxOk(ctx) && args[0] != Sym(Dot)
    requires LookupSegment(b, ctx.main, args[0].name).Missing?
    requires HookAfterLookup(b, ctx, hook).Some?
    requires load(b, args[0].name).raised.None?
    requires LookupSegment(load(b, args[0].name).bindings, ctx.main, args[0].name).Missing?
    ensures Resolve(b, ctx, hook, args, false, load).result == Ok(None)
  {
    var b1 := load(b, args[0].name).bindings;
    var hook1 := HookAfterLookup(b, ctx, hook);
    assert Resolve(b1, ctx, hook1, args, true, load).result == GiveUp(true, hook1, args[0].name);
  }

  /**
   * A `require` that raises makes the import raise the same error, and the
   * definitions it made before raising stay.
   */
  lemma RequireRaises(b: Bindings, ctx: PathCtx, hook: Option<Val>, args: seq<Val>, load: Loader)
    requires PathOk(args) && CtxOk(ctx) && args[0] != Sym(Dot)
    requires LookupSegment(b, ctx.main, args[0].name).Missing?
    requires HookAfterLookup(b, ctx, hook).Some?
    requires load(b, args[0].name).raised.Some?
    ensures Resolve(b, ctx, hook, args, false, load) ==
            Resolution(Err(load(b, args[0].name).raised.value), load(b, args[0].name).bindings, HookAfterLookup(b, ctx, hook))
  {
  }

  /** Without a `require` hook a missing first segment raises. */
  lemma NoHookRaises(b: Bindings, ctx: PathCtx, hook: Option<Val>, args: seq<Val>, load: Loader)
    requires PathOk(args) && CtxOk(ctx) && args[0] != Sym(Dot)
    requires LookupSegment(b, ctx.main, args[0].name).Missing?
    requires HookAfterLookup(b, ctx, hook).None?
    ensures Resolve(b, ctx, hook, args, false, load).result == Err(NotDefined(args[0].name))
  {
  }

  /** A first segment whose binding holds something other than a module raises, naming the segment. */
  lemma NonModuleSegment(b: Bindings, ctx: PathCtx, hook: Option<Val>, args: seq<Val>, retrying: bool, load: Loader)
    requires PathOk(args) && CtxOk(ctx)
    requires StartOf(args, ctx).Search?
    requires var s := StartOf(args, ctx);
      (s.m, s.name) in b && b[(s.m, s.name)].owner == s.m &&
      b[(s.m, s.name)].value.Some? && !b[(s.m, s.name)].value.value.Mod?
    ensures Resolve(b, ctx, hook, args, retrying, load).result == Err(NotAModule(StartOf(args, ctx).name))
  {
  }

  /**
   * `ms` is a chain of modules through the intermediate segments from
   * position `i`: each module holds the next one under the segment's name.
   */
  predicate ModuleChain(b: Bindings, ms: seq<ModuleId>, args: seq<Val>, i: nat)
    requires PathOk(args)
  {
    |ms| >= 1 && i + |ms| == |args| &&
    forall j :: 0 <= j < |ms| - 1 ==> GetGlobal(b, ms[j], args[i + j].name) == Some(Mod(ms[j + 1]))
  }

  /** A walk succeeds, reaching `x`, exactly when a chain of modules leads from `m` to `x`. */
  lemma {:induction false} WalkIsChain(b: Bindings, m: ModuleId, args: seq<Val>, i: nat, x: ModuleId)
    requires PathOk(args) && 1 <= i < |args|
    ensures Walk(b, m, args, i) == Ok(Some(x)) <==>
            exists ms :: ModuleChain(b, ms, args, i) && ms[0] == m && ms[|ms| - 1] == x
    decreases |args| - i
  {
    if i + 1 == |args| {
      if Walk(b, m, args, i) == Ok(Some(x)) {
        assert ModuleChain(b, [m], args, i);
      }
    } else {
      var v := GetGlobal(b, m, args[i].name);
      if Walk(b, m, args, i) == Ok(Some(x)) {
        var m1 := v.value.id;
        WalkIsChain(b, m1, args, i + 1, x);
        var rest :| ModuleChain(b, rest, args, i + 1) && rest[0] == m1 && rest[|rest| - 1] == x;
        var ms := [m] + rest;
        forall j | 0 <= j < |ms| - 1
          ensures GetGlobal(b, ms[j], args[i + j].name) == Some(Mod(ms[j + 1]))
        {
          if j > 0 {
            assert ms[j] == rest[j - 1] && ms[j + 1] == rest[j] && i + j == (i + 1) + (j - 1);
          }
        }
        assert ModuleChain(b, ms, args, i) && ms[0] == m && ms[|ms| - 1] == x;
      }
      if exists ms :: ModuleChain(b, ms, args, i) && ms[0] == m && ms[|ms| - 1] == x {
        var ms :| ModuleChain(b, ms, args, i) && ms[0] == m && ms[|ms| - 1] == x;
        var rest := ms[1..];
        forall j | 0 <= j < |rest| - 1
          ensures GetGlobal(b, rest[j], args[(i + 1) + j].name) == Some(Mod(rest[j + 1]))
        {
          assert rest[j] == ms[j + 1] && rest[j + 1] == ms[j + 2];
        }
        assert ModuleChain(b, rest, args, i + 1);
        WalkIsChain(b, ms[1], args, i + 1, x);
        assert GetGlobal(b, m, args[i].name) == Some(Mod(ms[1]));
      }
    }
  }

  /**
   * A walk that has followed modules `ms` up to an intermediate segment
   * stops there: an unbound segment raises `UndefVar` naming it, and a
   * segment bound to something other than a module is an invalid import.
   */
  lemma {:induction false} WalkStops(b: Bindings, ms: seq<ModuleId>, args: seq<Val>, i: nat)
    requires PathOk(args) && 1 <= i && |ms| >= 1 && i + |ms| < |args|
    requires forall j :: 0 <= j < |ms| - 1 ==> GetGlobal(b, ms[j], args[i + j].name) == Some(Mod(ms[j + 1]))
    ensures var k := i + |ms| - 1;
      var g := GetGlobal(b, ms[|ms| - 1], args[k].name);
      (g.None? ==> Walk(b, ms[0], args, i) == Err(UndefVar(args[k].name))) &&
      (g.Some? && !g.value.Mod? ==> Walk(b, ms[0], args, i) == Err(InvalidImport))
    decreases |ms|
  {
    if |ms| > 1 {
      var rest := ms[1..];
      forall j | 0 <= j < |rest| - 1
        ensures GetGlobal(b, rest[j], args[(i + 1) + j].name) == Some(Mod(rest[j + 1]))
      {
        assert rest[j] == ms[j + 1] && rest[j + 1] == ms[j + 2];
      }
      WalkStops(b, rest, args, i + 1);
      assert GetGlobal(b, ms[0], args[i].name) == Some(Mod(ms[1]));
    }
  }
}
