/**
 * The runtime's values, bindings, errors and logged effects, shared by
 * every part of the top-level evaluator.
 *
 * Everything the evaluator handles is a `Val`: symbols, modules, the
 * label and goto nodes of lowered code, lambda infos, types and the
 * `Expr(head, args)` trees that carry forms.  Identity-compared objects
 * of the runtime (modules, generic functions, types) are compared by
 * value here.
 */
module Values {

  type ModuleId = nat

  /** The `fptr` of a function-like object: what calling it does. */
  datatype FPtr = ApplyGeneric | CtorTrampoline | OtherFPtr

  /** The parsed part of a lambda's AST that the evaluator looks at. */
  datatype LambdaAst = LambdaAst(
    vinfo: seq<string>,    // names of the lambda's local variables
    captured: bool,        // some local variable is captured by an inner closure
    body: Val)             // the `body` expression

  /** A lambda info: its AST (None when it is not an expression, e.g. compressed) and its location. */
  datatype LambdaInfo = LambdaInfo(ast: Option<LambdaAst>, file: string, line: int)

  datatype Val =
    | Nothing
    | Bool(b: bool)
    | Int(i: int)
    | Str(s: string)
    | Sym(name: string)
    | Mod(id: ModuleId)
    | Intrinsic(iname: string)
    | GenericFn(gfId: nat, gfName: string)
    | Function(fid: nat, linfo: LambdaInfo)
    | LabelNode(labelId: nat)
    | GotoNode(target: nat)
    | TopNode(topName: string)
    | Lambda(info: LambdaInfo)
    | DataType(tname: string, parameters: Val, isAbstract: bool, fptr: FPtr)
    | UnionType(types: Val)
    | TupleVal(elems: seq<Val>)
    | TypeVar(tvName: string)
    | Expr(head: string, args: seq<Val>)

  datatype Option<T> = None | Some(value: T)

  /** A binding record of a module's store. */
  datatype Binding = Binding(
    owner: ModuleId,
    value: Option<Val>,
    constp: bool,
    imported: bool,
    exportp: bool)

  type BKey = (ModuleId, string)
  type Bindings = map<BKey, Binding>

  /** The conditions the evaluator raises (an exception becomes an `Err`). */
  datatype Error =
    | MalformedModule                              // "syntax: malformed module expression"
    | TypeError(fname: string, context: string, expected: string, got: Val)
    | NotAModule(segment: string)                  // "invalid module path (... does not name a module)"
    | NotDefined(segment: string)                  // "in module path: ... not defined"
    | InvalidImport                                // "invalid import statement"
    | MalformedStatement(stmt: string)             // "syntax: malformed \"...\" statement"
    | NameNotModule(stmt: string)                  // "invalid ... statement: name exists but does not refer to a module"
    | UndefVar(varName: string)                    // an undefined global read
    | InvalidSubtyping(typeName: string)
    | FunctionHasValue(functionName: string)       // "cannot define function ...; it already has a value"
    | NotGeneric                                   // "invalid method definition: not a generic function"
    | InvalidArgType(argIndex: nat, methodName: string, file: string, line: int)
    | MainNotTopLevel                              // "Main can only be replaced from the top level"
    | SyntaxError(message: string)
    | LoadError(file: string, line: int, cause: Error)
    | Raised(thrown: Val)                          // thrown by code outside this model
    | ExpansionDepth                               // the expansion fuel ran out

  datatype Outcome<T> = Ok(value: T) | Err(error: Error)

  /** Calls into the module store and method tables, recorded in order. */
  datatype Effect =
    | Export(into: ModuleId, name: string)
    | StandardImports(into: ModuleId, base: ModuleId)
    | Using(into: ModuleId, from: ModuleId)
    | ImportAll(into: ModuleId, from: ModuleId)
    | Import(into: ModuleId, from: ModuleId, name: string)
    | Use(into: ModuleId, from: ModuleId, name: string)
    | AddMethod(gf: Val, argtypes: seq<Val>, f: Val, tvars: seq<Val>)

  /** The warnings the evaluator writes to standard error. */
  datatype Warning =
    | ReplacingModule(moduleName: string)
    | UnusedStaticParam(param: string, fname: string)

  /** The value of global `name` in module `m`, if it has one. */
  function GetGlobal(b: Bindings, m: ModuleId, name: string): (r: Option<Val>)
    ensures r.Some? <==> (m, name) in b && b[(m, name)].value.Some?
  {
    if (m, name) in b then b[(m, name)].value else None
  }

  /** `jl_is_type`: data types, unions and tuples. */
  predicate IsType(v: Val) {
    v.DataType? || v.UnionType? || v.TupleVal?
  }

  /** `jl_is_gf`: a function-like object whose calls go through generic dispatch. */
  predicate IsGf(v: Val) {
    v.GenericFn? || (v.DataType? && v.fptr == ApplyGeneric)
  }

  /** The order in which a stack is emptied by popping: last element first. */
  function Reverse<T>(s: seq<T>): (r: seq<T>)
    ensures |r| == |s|
  {
    if |s| == 0 then [] else [s[|s| - 1]] + Reverse(s[..|s| - 1])
  }

  lemma {:induction false} ReverseAt<T>(s: seq<T>, k: nat)
    requires k < |s|
    ensures Reverse(s)[k] == s[|s| - 1 - k]
  {
    if k > 0 {
      ReverseAt(s[..|s| - 1], k - 1);
    }
  }

  lemma {:induction false} ReverseAppend<T>(s: seq<T>, t: seq<T>)
    ensures Reverse(s + t) == Reverse(t) + Reverse(s)
    decreases |t|
  {
    if |t| == 0 {
      assert s + t == s;
    } else {
      assert (s + t)[..|s + t| - 1] == s + t[..|t| - 1];
      ReverseAppend(s, t[..|t| - 1]);
    }
  }
}
