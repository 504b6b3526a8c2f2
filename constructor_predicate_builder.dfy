/**
 * handle/ConstructorPredicateBuilder: a mutable builder of constructor criteria, then the
 * ConstructorHandle scan over the target's declared constructors.
 */
module ConstructorPredicateBuilder {
  import opened Wrappers
  import opened Reflect
  import opened ComparableTypes
  import ConstructorHandle

  datatype ConstructorQuery = ConstructorQuery(
    target: ClassInfo,
    isPublic: Option<bool>,
    parameterTypes: seq<ComparableType>)

  /** Exact arity, then a positional ComparableType match: no requested types means no parameters. */
  predicate ParametersMatch(ts: TypeSystem, requested: seq<ComparableType>, params: seq<TypeName>) {
    |params| == |requested| && forall i :: 0 <= i < |requested| ==> Matches(requested[i], params[i], ts)
  }

  predicate Accepts(q: ConstructorQuery, ts: TypeSystem, k: Constructor) {
    ModifierMatches(q.isPublic, k.isPublic) && ParametersMatch(ts, q.parameterTypes, k.parameterTypes)
  }

  /** required(): no completeness check, straight to the scan. */
  function Required(q: ConstructorQuery, ts: TypeSystem): Result<Constructor> {
    ConstructorHandle.Locate(Some(q.target), k => Accepts(q, ts, k))
  }

  /** optional(): IncompletePredicateBuilder is rethrown, anything else becomes null. */
  function Optional(q: ConstructorQuery, ts: TypeSystem): Result<Option<Constructor>> {
    match Required(q, ts)
    case Ok(k) => Ok(Some(k))
    case Throw(e) => if e == IncompletePredicateBuilder then Throw(e) else Ok(None)
  }

  /** The arity test and the positional loop of the predicate. */
  method CheckParameters(ts: TypeSystem, requested: seq<ComparableType>, params: seq<TypeName>) returns (ok: bool)
    ensures ok == ParametersMatch(ts, requested, params)
  {
    if |params| != |requested| {
      return false;
    }
    var i := 0;
    while i < |requested|
      invariant 0 <= i <= |requested|
      invariant forall k :: 0 <= k < i ==> Matches(requested[k], params[k], ts)
    {
      if !Matches(requested[i], params[i], ts) {
        return false;
      }
      i := i + 1;
    }
    return true;
  }

  class Builder {
    var target: ClassInfo
    var isPublic: Option<bool>
    var parameterTypes: seq<ComparableType>

    function Query(): ConstructorQuery
      reads this
    {
      ConstructorQuery(target, isPublic, parameterTypes)
    }

    /** A fresh builder has a wildcard public filter and no parameters. */
    constructor(target: ClassInfo)
      ensures Query() == ConstructorQuery(target, None, [])
    {
      this.target := target;
      isPublic := None;
      parameterTypes := [];
    }

    method WithPublic(mode: Option<bool>)
      modifies this
      ensures Query() == old(Query()).(isPublic := mode)
    {
      isPublic := mode;
    }

    method WithParameter(t: TypeName, allowBoxing: bool, assignability: Assignability)
      modifies this
      ensures Query() == old(Query()).(parameterTypes := old(parameterTypes) + [Make(t, allowBoxing, assignability)])
    {
      parameterTypes := parameterTypes + [Make(t, allowBoxing, assignability)];
    }

    method WithParameters(types: seq<TypeName>)
      modifies this
      ensures Query() == old(Query()).(parameterTypes := old(parameterTypes) + seq(|types|, i requires 0 <= i < |types| => Make(types[i], false, NoAssignability)))
    {
      var i := 0;
      while i < |types|
        invariant 0 <= i <= |types|
        invariant Query() == old(Query()).(parameterTypes := old(parameterTypes) + seq(i, k requires 0 <= k < i => Make(types[k], false, NoAssignability)))
      {
        WithParameter(types[i], false, NoAssignability);
        i := i + 1;
      }
    }

    method GetRequired(ts: TypeSystem) returns (r: Result<Constructor>)
      ensures r == Required(Query(), ts)
    {
      var q := Query();
      r := ConstructorHandle.NewConstructorHandle(Some(target), k => Accepts(q, ts, k));
    }

    method GetOptional(ts: TypeSystem) returns (r: Result<Option<Constructor>>)
      ensures r == Optional(Query(), ts)
    {
      var req := GetRequired(ts);
      if req.Ok? {
        return Ok(Some(req.value));
      } else if req.ex == IncompletePredicateBuilder {
        return Throw(req.ex);
      }
      return Ok(None);
    }
  }

  /**
   * required() never reports an incomplete builder; it yields the first accepted declared
   * constructor or NoSuchMethod when none is accepted, and optional() therefore never throws.
   */
  lemma RequiredOutcomes(q: ConstructorQuery, ts: TypeSystem)
    ensures Required(q, ts).Ok? ==>
      exists j :: 0 <= j < |q.target.constructors| && q.target.constructors[j] == Required(q, ts).value
        && Accepts(q, ts, q.target.constructors[j])
        && forall i :: 0 <= i < j ==> !Accepts(q, ts, q.target.constructors[i])
    ensures Required(q, ts).Throw? <==> forall k :: k in q.target.constructors ==> !Accepts(q, ts, k)
    ensures Required(q, ts).Throw? ==> Required(q, ts).ex == NoSuchMethod
    ensures Optional(q, ts).Ok?
    ensures Optional(q, ts) == Ok(None) <==> Required(q, ts).Throw?
  {
    var p := (k: Constructor) => Accepts(q, ts, k);
    if FirstMatch(q.target.constructors, p).Some? {
      var j := FirstMatchIndex(q.target.constructors, p);
    }
  }

  /** Without requested parameters only a zero-argument constructor can be found. */
  lemma NoParametersMeansNullary(target: ClassInfo, isPublic: Option<bool>, ts: TypeSystem)
    ensures var r := Required(ConstructorQuery(target, isPublic, []), ts);
      r.Ok? ==> r.value.parameterTypes == [] && ModifierMatches(isPublic, r.value.isPublic)
  {
  }
}
