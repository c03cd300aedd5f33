/**
 * Validation of type and method definitions: the legality of a
 * supertype, the checks `jl_method_def` makes before it installs
 * anything, the unused-static-parameter warning and the warning for
 * local variables that shadow a static parameter.
 */
module TypeDef {
  import opened Values

  /** The name of `jl_undef_type`, which no type may have as supertype. */
  const UndefName := "Undef"

  const VarargType := DataType("Vararg", TupleVal([TypeVar("T")]), true, OtherFPtr)
  const TypeType := DataType("Type", TupleVal([TypeVar("T")]), true, OtherFPtr)

  /** The subtype relation, which this model takes as given. */
  type Subtype = (Val, Val) -> bool

  // ---------------------------------------------------------------- type_contains

  /** `type_contains`: `x` is `ty`, or occurs in its tuple elements, union members or parameters. */
  predicate TypeContains(ty: Val, x: Val)
    decreases ty
  {
    ty == x ||
    (ty.TupleVal? && exists k :: 0 <= k < |ty.elems| && (ty.elems[k] == x || TypeContains(ty.elems[k], x))) ||
    (ty.UnionType? && TypeContains(ty.types, x)) ||
    (ty.DataType? && TypeContains(ty.parameters, x))
  }

  /** Containment is transitive: what occurs in a part of `a` occurs in `a`. */
  lemma {:induction false} ContainsTransitive(a: Val, b: Val, c: Val)
    requires TypeContains(a, b) && TypeContains(b, c)
    ensures TypeContains(a, c)
    decreases a
  {
    if a == b {
    } else if a.TupleVal? && exists k :: 0 <= k < |a.elems| && (a.elems[k] == b || TypeContains(a.elems[k], b)) {
      var k :| 0 <= k < |a.elems| && (a.elems[k] == b || TypeContains(a.elems[k], b));
      if a.elems[k] != b {
        ContainsTransitive(a.elems[k], b, c);
      }
      assert TypeContains(a.elems[k], c);
    } else if a.UnionType? && TypeContains(a.types, b) {
      ContainsTransitive(a.types, b, c);
    } else {
      ContainsTransitive(a.parameters, b, c);
    }
  }

  /** A type variable used as a parameter of an argument type occurs in the signature. */
  lemma ParameterOccurs(argtypes: seq<Val>, k: nat, tv: Val)
    requires k < |argtypes| && argtypes[k].DataType? && argtypes[k].parameters.TupleVal?
    requires tv in argtypes[k].parameters.elems
    ensures TypeContains(TupleVal(argtypes), tv)
  {
    var ps := argtypes[k].parameters;
    var j :| 0 <= j < |ps.elems| && ps.elems[j] == tv;
    assert TypeContains(ps, tv);
    assert TypeContains(argtypes[k], tv);
    assert TupleVal(argtypes).elems[k] == argtypes[k];
  }

  // ---------------------------------------------------------------- type tuples

  predicate TypeOrVar(v: Val) {
    IsType(v) || v.TypeVar?
  }

  /** The first entry, from position `i` on, that is neither a type nor a type variable. */
  function FirstNonType(t: seq<Val>, i: nat): (r: Option<nat>)
    requires i <= |t|
    ensures r.None? <==> forall k :: i <= k < |t| ==> TypeOrVar(t[k])
    ensures r.Some? ==> i <= r.value < |t| && !TypeOrVar(t[r.value]) &&
                        forall k :: i <= k < r.value ==> TypeOrVar(t[k])
    decreases |t| - i
  {
    if i == |t| then None
    else if !TypeOrVar(t[i]) then Some(i)
    else FirstNonType(t, i + 1)
  }

  /** `jl_check_type_tuple`: a type error naming the first entry that is not a type. */
  function CheckTypeTuple(t: seq<Val>, name: string, ctx: string): (r: Outcome<()>)
    ensures r.Ok? <==> forall k :: 0 <= k < |t| ==> TypeOrVar(t[k])
    ensures r.Err? ==> exists k :: 0 <= k < |t| && !TypeOrVar(t[k]) && r.error == TypeError(name, ctx, "Type", t[k]) &&
                               forall j :: 0 <= j < k ==> TypeOrVar(t[j])
  {
    match FirstNonType(t, 0)
    case None => Ok(())
    case Some(k) => Err(TypeError(name, ctx, "Type", t[k]))
  }

  /** The first static parameter, from position `i` on, that is not a type variable. */
  function FirstNonTypeVar(t: seq<Val>, i: nat): (r: Option<nat>)
    requires i <= |t|
    ensures r.None? <==> forall k :: i <= k < |t| ==> t[k].TypeVar?
    ensures r.Some? ==> i <= r.value < |t| && !t[r.value].TypeVar? &&
                        forall k :: i <= k < r.value ==> t[k].TypeVar?
    decreases |t| - i
  {
    if i == |t| then None
    else if !t[i].TypeVar? then Some(i)
    else FirstNonTypeVar(t, i + 1)
  }

  // ---------------------------------------------------------------- supertypes

  /** The supertype checks of `jl_set_datatype_super`. */
  predicate ValidSuper(name: string, super: Val, subtype: Subtype) {
    super.DataType? && super.tname != UndefName && super.isAbstract && name != super.tname &&
    !subtype(super, VarargType) && !subtype(super, TypeType)
  }

  /** A data type whose supertype link and instantiation cache are set in place. */
  class DataTypeObj {
    const name: string
    const parameters: seq<Val>
    var super: Option<Val>
    var cache: seq<Val>          // the type name's cache of instantiations
    var reinstantiations: nat    // calls that rebuilt the already-made instances

    constructor (name: string, parameters: seq<Val>, cache: seq<Val>)
      ensures this.name == name && this.parameters == parameters && this.cache == cache
      ensures super.None? && reinstantiations == 0
    {
      this.name := name;
      this.parameters := parameters;
      this.cache := cache;
      super := None;
      reinstantiations := 0;
    }

    /** `jl_set_datatype_super`. */
    method SetSuper(super: Val, subtype: Subtype) returns (r: Outcome<()>)
      modifies this
      ensures r.Ok? <==> ValidSuper(name, super, subtype)
      ensures r.Err? ==> r.error == InvalidSubtyping(name) && unchanged(this)
      ensures r.Ok? ==> this.super == Some(super)
      ensures r.Ok? && |parameters| > 0 ==> cache == [] && reinstantiations == old(reinstantiations) + 1
      ensures r.Ok? && |parameters| == 0 ==> cache == old(cache) && reinstantiations == old(reinstantiations)
    {
      if !super.DataType? || super.tname == UndefName || !super.isAbstract || name == super.tname ||
         subtype(super, VarargType) || subtype(super, TypeType) {
        return Err(InvalidSubtyping(name));
      }
      this.super := Some(super);
      if |parameters| > 0 {
        cache := [];
        reinstantiations := reinstantiations + 1;
      }
      r := Ok(());
    }
  }

  /** A type cannot be declared its own supertype, whatever the subtype relation says. */
  lemma SelfSuperRejected(t: Val, subtype: Subtype)
    requires t.DataType?
    ensures !ValidSuper(t.tname, t, subtype)
  {
  }

  // ---------------------------------------------------------------- method definition

  /** A compiler-generated name: one containing `#`. */
  predicate IsHidden(name: string) {
    '#' in name
  }

  /** A type whose constructors are not yet materialised. */
  predicate IsCtorTrampoline(v: Val) {
    v.DataType? && v.fptr == CtorTrampoline
  }

  /**
   * The checks of `jl_method_def`, in order.  `bnd` is the binding being
   * defined, if any; `slot` is what the target slot holds;
   * `ctorsMakeGf` says whether materialising the constructors of a type
   * in the slot turns it into a generic function.
   */
  function MethodDefCheck(name: string, bnd: Option<Binding>, bndName: string, slot: Option<Val>,
                          ctorsMakeGf: bool, argtypes: seq<Val>, tvars: seq<Val>, li: LambdaInfo): (r: Outcome<()>)
    ensures r.Ok? <==>
      (bnd.None? || bnd.value.value.None? || bnd.value.constp) &&
      (slot.None? || IsGf(slot.value) || (IsCtorTrampoline(slot.value) && ctorsMakeGf)) &&
      (forall k :: 0 <= k < |argtypes| ==> TypeOrVar(argtypes[k])) &&
      (forall k :: 0 <= k < |tvars| ==> tvars[k].TypeVar?)
    ensures bnd.Some? && bnd.value.value.Some? && !bnd.value.constp ==> r == Err(FunctionHasValue(bndName))
  {
    if bnd.Some? && bnd.value.value.Some? && !bnd.value.constp then Err(FunctionHasValue(bndName))
    else if slot.Some? && !IsGf(slot.value) && !(IsCtorTrampoline(slot.value) && ctorsMakeGf) then Err(NotGeneric)
    else
      match FirstNonType(argtypes, 0)
      case Some(k) => Err(InvalidArgType(k, name, li.file, li.line))
      case None =>
        match FirstNonTypeVar(tvars, 0)
        case Some(k) => Err(TypeError(name, "method definition", "TypeVar", tvars[k]))
        case None => Ok(())
  }

  /** An argument type that is a plain value is reported by its position, the first such one. */
  lemma NonTypeArgumentReported(name: string, bndName: string, slot: Option<Val>, ctorsMakeGf: bool,
                                argtypes: seq<Val>, tvars: seq<Val>, li: LambdaInfo, k: nat)
    requires slot.None? || IsGf(slot.value)
    requires k < |argtypes| && !TypeOrVar(argtypes[k]) && forall j :: 0 <= j < k ==> TypeOrVar(argtypes[j])
    ensures MethodDefCheck(name, None, bndName, slot, ctorsMakeGf, argtypes, tvars, li) ==
            Err(InvalidArgType(k, name, li.file, li.line))
  {
    var r := FirstNonType(argtypes, 0);
    assert r.Some?;
    assert r.value == k;
  }

  /**
   * The unused-static-parameter warnings, in order: one for each static
   * parameter (up to the first one that is not a type variable) that does
   * not occur in the argument types.  Hidden names get none.
   */
  function UnusedStaticParams(name: string, argtypes: seq<Val>, tvars: seq<Val>): (w: seq<Warning>)
    ensures IsHidden(name) ==> w == []
    decreases |tvars|
  {
    if tvars == [] || !tvars[0].TypeVar? then []
    else
      (if !IsHidden(name) && !TypeContains(TupleVal(argtypes), tvars[0]) then [UnusedStaticParam(tvars[0].tvName, name)] else []) +
      UnusedStaticParams(name, argtypes, tvars[1..])
  }

  /** For an ordinary name, a type variable is warned about exactly when it does not occur in the signature. */
  lemma {:induction false} UnusedWarningExact(name: string, argtypes: seq<Val>, tvars: seq<Val>, x: string)
    requires !IsHidden(name) && forall k :: 0 <= k < |tvars| ==> tvars[k].TypeVar?
    ensures UnusedStaticParam(x, name) in UnusedStaticParams(name, argtypes, tvars) <==>
      exists k :: 0 <= k < |tvars| && tvars[k] == TypeVar(x) && !TypeContains(TupleVal(argtypes), TypeVar(x))
    decreases |tvars|
  {
    if tvars != [] {
      UnusedWarningExact(name, argtypes, tvars[1..], x);
      if exists k :: 1 <= k < |tvars| && tvars[k] == TypeVar(x) && !TypeContains(TupleVal(argtypes), TypeVar(x)) {
        var k :| 1 <= k < |tvars| && tvars[k] == TypeVar(x) && !TypeContains(TupleVal(argtypes), TypeVar(x));
        assert tvars[1..][k - 1] == tvars[k];
      }
      if exists k :: 0 <= k < |tvars[1..]| && tvars[1..][k] == TypeVar(x) && !TypeContains(TupleVal(argtypes), TypeVar(x)) {
        var k :| 0 <= k < |tvars[1..]| && tvars[1..][k] == TypeVar(x) && !TypeContains(TupleVal(argtypes), TypeVar(x));
        assert tvars[k + 1] == tvars[1..][k];
      }
    }
  }

  // ---------------------------------------------------------------- static parameter conflicts

  /** The warnings for one static parameter: one per local variable with its name. */
  function Matches(tv: Val, vinfo: seq<string>): seq<string>
    decreases |vinfo|
  {
    if vinfo == [] then []
    else Matches(tv, vinfo[..|vinfo| - 1]) +
         (if tv.TypeVar? && vinfo[|vinfo| - 1] == tv.tvName then [tv.tvName] else [])
  }

  /** The warnings for the static parameters `t`, in the order of the nested loops. */
  function Conflicts(t: seq<Val>, vinfo: seq<string>): seq<string>
    decreases |t|
  {
    if t == [] then [] else Conflicts(t[..|t| - 1], vinfo) + Matches(t[|t| - 1], vinfo)
  }

  /** The warnings `jl_check_static_parameter_conflicts` prints for a lambda. */
  function ConflictWarnings(li: LambdaInfo, t: seq<Val>): seq<string> {
    if li.ast.Some? then Conflicts(t, li.ast.value.vinfo) else []
  }

  /** `jl_check_static_parameter_conflicts`: the nested loop over static parameters and locals. */
  method StaticParamConflicts(li: LambdaInfo, t: seq<Val>) returns (warnings: seq<string>)
    ensures warnings == ConflictWarnings(li, t)
  {
    warnings := [];
    if li.ast.Some? {
      var vinfo := li.ast.value.vinfo;
      for i := 0 to |t|
        invariant warnings == Conflicts(t[..i], vinfo)
      {
        assert t[..i + 1][..i] == t[..i];
        for j := 0 to |vinfo|
          invariant warnings == Conflicts(t[..i], vinfo) + Matches(t[i], vinfo[..j])
        {
          assert vinfo[..j + 1][..j] == vinfo[..j];
          var tv := t[i];
          if tv.TypeVar? {
            if vinfo[j] == tv.tvName {
              warnings := warnings + [tv.tvName];
            }
          }
        }
        assert vinfo[..|vinfo|] == vinfo;
      }
      assert t[..|t|] == t;
    }
  }

  /**
   * The inner loop warns about a static parameter once per local variable
   * of that name, and about nothing else.
   */
  lemma {:induction false} MatchesExact(tv: Val, vinfo: seq<string>, x: string)
    ensures multiset(Matches(tv, vinfo))[x] == if tv == TypeVar(x) then multiset(vinfo)[x] else 0
    ensures x in Matches(tv, vinfo) <==> tv == TypeVar(x) && x in vinfo
    decreases |vinfo|
  {
    if vinfo != [] {
      var p := vinfo[..|vinfo| - 1];
      MatchesExact(tv, p, x);
      assert vinfo == p + [vinfo[|vinfo| - 1]];
    }
  }

  /** A warning names exactly the static parameters that are also local variables. */
  lemma {:induction false} ConflictsExact(t: seq<Val>, vinfo: seq<string>, x: string)
    ensures x in Conflicts(t, vinfo) <==> TypeVar(x) in t && x in vinfo
    decreases |t|
  {
    if t != [] {
      var p := t[..|t| - 1];
      ConflictsExact(p, vinfo, x);
      MatchesExact(t[|t| - 1], vinfo, x);
      assert t == p + [t[|t| - 1]];
    }
  }
}
