/**
 * The execution selector: whether a lowered body is interpreted or
 * compiled.  A body is compiled when loop compilation is on and it has a
 * backward branch, when some call in it (at any depth) names an
 * intrinsic, or, for a thunk, when it captures variables.
 */
module Selector {
  import opened Values

  /** How the backward-branch scan sees one statement of a body. */
  datatype Stmt = Label(l: nat) | Goto(l: nat) | GotoIfNot(l: nat) | Plain

  /** A `gotoifnot` expression whose target (argument 1) is a non-negative integer. */
  predicate GotoIfNotOk(v: Val) {
    v.Expr? && v.head == "gotoifnot" ==> |v.args| >= 2 && v.args[1].Int? && v.args[1].i >= 0
  }

  function StmtOf(v: Val): Stmt {
    match v
    case LabelNode(l) => Label(l)
    case GotoNode(l) => Goto(l)
    case Expr(head, args) =>
      if head == "gotoifnot" && |args| >= 2 && args[1].Int? && args[1].i >= 0
      then GotoIfNot(args[1].i as nat) else Plain
    case _ => Plain
  }

  function Stmts(args: seq<Val>): (r: seq<Stmt>)
    ensures |r| == |args| && forall k :: 0 <= k < |args| ==> r[k] == StmtOf(args[k])
  {
    seq(|args|, k requires 0 <= k < |args| => StmtOf(args[k]))
  }

  predicate IsJumpTo(s: Stmt, l: nat) {
    (s.Goto? || s.GotoIfNot?) && s.l == l
  }

  /** The largest label of a body (0 when it has none), as the first scan finds it. */
  function MaxLabel(body: seq<Stmt>): (r: nat)
    ensures forall k :: 0 <= k < |body| && body[k].Label? ==> body[k].l <= r
    ensures r == 0 || exists k :: 0 <= k < |body| && body[k] == Label(r)
  {
    if body == [] then 0
    else
      var m := MaxLabel(body[..|body| - 1]);
      var s := body[|body| - 1];
      if s.Label? && s.l > m then s.l else m
  }

  /** The number of bits in the label bitset: `(maxlabl+1+7)/8` bytes. */
  function BitsetBits(body: seq<Stmt>): (r: nat)
    ensures MaxLabel(body) < r
  {
    8 * ((MaxLabel(body) + 1 + 7) / 8)
  }

  /** Every jump target lies inside the bitset, so that no scan reads past it. */
  predicate JumpsInBitset(body: seq<Stmt>) {
    forall k :: 0 <= k < |body| && (body[k].Goto? || body[k].GotoIfNot?) ==> body[k].l < BitsetBits(body)
  }

  /** Some jump targets a label that appears earlier in the body. */
  predicate BackwardBranch(body: seq<Stmt>) {
    exists i, j :: 0 <= i < j < |body| && body[i].Label? && IsJumpTo(body[j], body[i].l)
  }

  /** Extending the scanned prefix by one statement: a backward branch ends there or earlier. */
  lemma BackwardStep(body: seq<Stmt>, i: nat)
    requires i < |body|
    ensures BackwardBranch(body[..i + 1]) <==>
      BackwardBranch(body[..i]) || ((body[i].Goto? || body[i].GotoIfNot?) && Label(body[i].l) in body[..i])
  {
    var p, q := body[..i], body[..i + 1];
    assert q[..i] == p;
    if BackwardBranch(q) && !BackwardBranch(p) {
      var k, j :| 0 <= k < j < |q| && q[k].Label? && IsJumpTo(q[j], q[k].l);
      assert j == i;
      assert q[k] == p[k];
    }
    if (body[i].Goto? || body[i].GotoIfNot?) && Label(body[i].l) in p {
      var k :| 0 <= k < i && p[k] == Label(body[i].l);
      assert q[k].Label? && IsJumpTo(q[i], q[k].l);
    }
  }

  /** The first scan of `jl_eval_with_compiler_p`: the largest label. */
  method ScanMaxLabel(body: seq<Stmt>) returns (maxlabl: nat)
    ensures maxlabl == MaxLabel(body)
  {
    maxlabl := 0;
    for i := 0 to |body|
      invariant maxlabl == MaxLabel(body[..i])
    {
      assert body[..i + 1][..i] == body[..i];
      if body[i].Label? && body[i].l > maxlabl {
        maxlabl := body[i].l;
      }
    }
    assert body[..|body|] == body;
  }

  /** The two scans of `jl_eval_with_compiler_p` over a body, with the bitset as an array. */
  method HasBackwardBranch(body: seq<Stmt>) returns (b: bool)
    requires JumpsInBitset(body)
    ensures b == BackwardBranch(body)
  {
    var maxlabl := ScanMaxLabel(body);
    var sz := (maxlabl + 1 + 7) / 8;
    var labls := new bool[8 * sz](_ => false);
    for i := 0 to |body|
      invariant forall l :: 0 <= l < labls.Length ==> (labls[l] <==> Label(l) in body[..i])
      invariant !BackwardBranch(body[..i])
    {
      BackwardStep(body, i);
      assert body[..i + 1] == body[..i] + [body[i]];
      match body[i]
      case Label(l) =>
        labls[l] := true;
      case Goto(l) =>
        if labls[l] {
          assert body[..|body|] == body;
          assert BackwardBranch(body[..i + 1]);
          BackwardPrefix(body, i + 1);
          return true;
        }
      case GotoIfNot(l) =>
        if labls[l] {
          BackwardPrefix(body, i + 1);
          return true;
        }
      case Plain =>
    }
    assert body[..|body|] == body;
    return false;
  }

  /** A backward branch in a prefix is one in the whole body. */
  lemma BackwardPrefix(body: seq<Stmt>, n: nat)
    requires n <= |body| && BackwardBranch(body[..n])
    ensures BackwardBranch(body)
  {
    var k, j :| 0 <= k < j < n && body[..n][k].Label? && IsJumpTo(body[..n][j], body[..n][k].l);
    assert body[k] == body[..n][k] && body[j] == body[..n][j];
  }

  /** What the intrinsic check needs: the bindings, the current module, and the module `TopNode` refers to. */
  datatype IntrinsicScope = IntrinsicScope(b: Bindings, current: ModuleId, top: ModuleId)

  /** `is_intrinsic`: the global `s` of module `m` holds an intrinsic. */
  predicate IsIntrinsic(b: Bindings, m: ModuleId, s: string) {
    GetGlobal(b, m, s).Some? && GetGlobal(b, m, s).value.Intrinsic?
  }

  /** A call whose callee names an intrinsic, directly or through a `TopNode`. */
  predicate IntrinsicCall(e: Val, sc: IntrinsicScope)
    requires e.Expr? && |e.args| > 0
  {
    e.head == "call" &&
    ((e.args[0].Sym? && IsIntrinsic(sc.b, sc.current, e.args[0].name)) ||
     (e.args[0].TopNode? && IsIntrinsic(sc.b, sc.top, e.args[0].topName)))
  }

  /** `jl_has_intrinsics`. */
  predicate HasIntrinsics(e: Val, sc: IntrinsicScope)
    requires e.Expr?
  {
    if |e.args| == 0 then false
    else if e.head == "static_typeof" then true
    else if IntrinsicCall(e, sc) then true
    else exists k :: 0 <= k < |e.args| && e.args[k].Expr? && HasIntrinsics(e.args[k], sc)
  }

  /** A node that on its own makes `HasIntrinsics` true. */
  predicate Forces(e: Val, sc: IntrinsicScope) {
    e.Expr? && |e.args| > 0 && (e.head == "static_typeof" || IntrinsicCall(e, sc))
  }

  /** `path` leads from `e` through argument positions of nested expressions. */
  predicate IsPath(e: Val, path: seq<nat>)
    decreases path
  {
    path == [] || (e.Expr? && path[0] < |e.args| && IsPath(e.args[path[0]], path[1..]))
  }

  function At(e: Val, path: seq<nat>): Val
    requires IsPath(e, path)
    decreases path
  {
    if path == [] then e else At(e.args[path[0]], path[1..])
  }

  /** A forcing node at any depth makes the whole expression compile. */
  lemma {:induction false} IntrinsicsFromPath(e: Val, sc: IntrinsicScope, path: seq<nat>)
    requires e.Expr? && IsPath(e, path) && Forces(At(e, path), sc)
    ensures HasIntrinsics(e, sc)
    decreases path
  {
    if path != [] {
      var a := e.args[path[0]];
      assert At(e, path) == At(a, path[1..]);
      assert a.Expr? by {
        if path[1..] == [] {
          assert At(a, path[1..]) == a;
        }
      }
      IntrinsicsFromPath(a, sc, path[1..]);
      assert e.args[path[0]].Expr? && HasIntrinsics(e.args[path[0]], sc);
    }
  }

  /** Conversely, `HasIntrinsics` only holds because of a forcing node somewhere inside. */
  lemma {:induction false} PathFromIntrinsics(e: Val, sc: IntrinsicScope) returns (path: seq<nat>)
    requires e.Expr? && HasIntrinsics(e, sc)
    ensures IsPath(e, path) && Forces(At(e, path), sc)
  {
    if Forces(e, sc) {
      path := [];
    } else {
      var k :| 0 <= k < |e.args| && e.args[k].Expr? && HasIntrinsics(e.args[k], sc);
      var rest := PathFromIntrinsics(e.args[k], sc);
      path := [k as nat] + rest;
      assert path[1..] == rest;
    }
  }

  /** The module a `TopNode` refers to from within `m`: `m` itself or Base. */
  function BaseRelativeTo(m: ModuleId, core: ModuleId, oldBase: Option<ModuleId>, base: Option<ModuleId>): (r: ModuleId)
    ensures r == m || base == Some(r)
  {
    if m == core || oldBase == Some(m) || base.None? then m else base.value
  }

  /** Following `TopNode` from the module it refers to stays there. */
  lemma TopIsStable(m: ModuleId, core: ModuleId, oldBase: Option<ModuleId>, base: Option<ModuleId>)
    ensures var t := BaseRelativeTo(m, core, oldBase, base);
            BaseRelativeTo(t, core, oldBase, base) == t
  {
  }

  /** Every module other than Core and the old Base sees the same top module, and that is
      Base once Base exists; Core and the old Base see themselves. */
  lemma TopIsShared(m1: ModuleId, m2: ModuleId, core: ModuleId, oldBase: Option<ModuleId>, base: Option<ModuleId>)
    requires m1 != core && oldBase != Some(m1) && m2 != core && oldBase != Some(m2)
    ensures base.Some? ==> BaseRelativeTo(m1, core, oldBase, base) == BaseRelativeTo(m2, core, oldBase, base) == base.value
    ensures BaseRelativeTo(core, core, oldBase, base) == core
    ensures oldBase.Some? ==> BaseRelativeTo(oldBase.value, core, oldBase, base) == oldBase.value
  {
  }

  /** A body the selector can scan: its jumps are well formed and stay inside the bitset. */
  predicate ScannableBody(expr: Val) {
    expr.Expr? &&
    (expr.head == "body" ==>
      (forall k :: 0 <= k < |expr.args| ==> GotoIfNotOk(expr.args[k])) && JumpsInBitset(Stmts(expr.args)))
  }

  /** The selector's answer for an expression. */
  predicate ShouldCompile(expr: Val, compileloops: bool, sc: IntrinsicScope)
    requires expr.Expr?
  {
    (expr.head == "body" && compileloops && BackwardBranch(Stmts(expr.args))) || HasIntrinsics(expr, sc)
  }

  /** `jl_eval_with_compiler_p`. */
  method EvalWithCompiler(expr: Val, compileloops: bool, sc: IntrinsicScope) returns (b: bool)
    requires ScannableBody(expr)
    ensures b == ShouldCompile(expr, compileloops, sc)
  {
    if expr.head == "body" && compileloops {
      b := HasBackwardBranch(Stmts(expr.args));
      if b {
        return;
      }
    }
    b := HasIntrinsics(expr, sc);
  }

  /** The thunk case of top-level dispatch: a thunk that captures variables is compiled anyway. */
  method ThunkCompiled(ast: LambdaAst, fast: bool, sc: IntrinsicScope) returns (ewc: bool)
    requires ScannableBody(ast.body)
    ensures ewc == (ShouldCompile(ast.body, fast, sc) || ast.captured)
  {
    ewc := EvalWithCompiler(ast.body, fast, sc);
    if !ewc {
      if ast.captured {
        ewc := true;
      }
    }
  }

  /** With loop compilation off, no branch is inspected: only intrinsics decide. */
  lemma NoLoopCompilation(expr: Val, sc: IntrinsicScope)
    requires expr.Expr?
    ensures ShouldCompile(expr, false, sc) == HasIntrinsics(expr, sc)
  {
  }

  /** Each label of the body occurs once, as lowering emits them. */
  predicate UniqueLabels(body: seq<Stmt>) {
    forall i, j :: 0 <= i < j < |body| && body[i].Label? && body[j].Label? ==> body[i].l != body[j].l
  }

  /** A body whose jumps all target labels further down has no backward branch. */
  lemma ForwardJumpsOnly(body: seq<Stmt>)
    requires UniqueLabels(body)
    requires forall j :: 0 <= j < |body| && (body[j].Goto? || body[j].GotoIfNot?) ==>
      exists i :: j < i < |body| && body[i] == Label(body[j].l)
    ensures !BackwardBranch(body)
  {
  }

  /** A backward branch in a body forces compilation whenever loop compilation is on. */
  lemma {:induction false} BackwardBranchCompiles(expr: Val, sc: IntrinsicScope, i: nat, j: nat)
    requires expr.Expr? && expr.head == "body"
    requires i < j < |expr.args| && expr.args[i].LabelNode?
    requires expr.args[j] == GotoNode(expr.args[i].labelId)
    ensures ShouldCompile(expr, true, sc)
  {
    var body := Stmts(expr.args);
    assert body[i] == Label(expr.args[i].labelId) && IsJumpTo(body[j], body[i].l);
  }
}
