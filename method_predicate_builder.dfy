/**
 * handle/MethodPredicateBuilder: a mutable builder collecting method criteria, then running the
 * MethodHandle walk over the target class with a predicate built from them.
 */
module MethodPredicateBuilder {
  import opened Wrappers
  import opened Reflect
  import opened JavaStrings
  import opened ComparableTypes
  import MethodHandle

  /** The builder's state as a value: null criteria are None (wildcards). */
  datatype MethodQuery = MethodQuery(
    target: ClassInfo,
    isStatic: Option<bool>,
    isPublic: Option<bool>,
    name: Option<string>,
    returnType: Option<ComparableType>,
    parameterTypes: seq<ComparableType>,
    allowSuperclass: bool)

  /** Requested parameter types: none requested accepts any list, otherwise exact arity and positional matches. */
  predicate ParametersMatch(ts: TypeSystem, requested: seq<ComparableType>, params: seq<TypeName>) {
    |requested| == 0
    || (|requested| == |params| && forall i :: 0 <= i < |requested| ==> Matches(requested[i], params[i], ts))
  }

  /** The predicate handed to MethodHandle, test by test in the order of the source. */
  predicate Accepts(q: MethodQuery, ts: TypeSystem, m: Method) {
    (q.allowSuperclass || m.declaring == q.target.name)
    && ModifierMatches(q.isStatic, m.isStatic)
    && ModifierMatches(q.isPublic, m.isPublic)
    && (q.name.None? || EqualsIgnoreCase(m.name, q.name.value))
    && (q.returnType.None? || Matches(q.returnType.value, m.returnType, ts))
    && ParametersMatch(ts, q.parameterTypes, m.parameterTypes)
  }

  predicate Incomplete(q: MethodQuery) {
    q.name.None? && q.returnType.None? && |q.parameterTypes| == 0
  }

  /** required(): at least one of name, return type or parameters, then the walk. */
  function Required(q: MethodQuery, ts: TypeSystem): Result<Method> {
    if Incomplete(q) then Throw(IncompletePredicateBuilder)
    else MethodHandle.Locate(Some(q.target), m => Accepts(q, ts, m))
  }

  /** optional(): an incomplete builder still throws; any other failure becomes null. */
  function Optional(q: MethodQuery, ts: TypeSystem): Result<Option<Method>> {
    match Required(q, ts)
    case Ok(m) => Ok(Some(m))
    case Throw(e) => if e == IncompletePredicateBuilder then Throw(e) else Ok(None)
  }

  /** The positional parameter loop of the predicate. */
  method CheckParameters(ts: TypeSystem, requested: seq<ComparableType>, params: seq<TypeName>) returns (ok: bool)
    ensures ok == ParametersMatch(ts, requested, params)
  {
    if |requested| == 0 {
      return true;
    }
    if |requested| != |params| {
      return false;
    }
    var i := 0;
    while i < |requested|
      invariant 0 <= i <= |requested|
      invariant forall k :: 0 <= k < i ==> Matches(requested[k], params[k], ts)
    {
      if !Matches(requested[i], params[i], ts) {
        return false;
      }
      i := i + 1;
    }
    return true;
  }

  class Builder {
    var target: ClassInfo
    var isStatic: Option<bool>
    var isPublic: Option<bool>
    var name: Option<string>
    var returnType: Option<ComparableType>
    var parameterTypes: seq<ComparableType>
    var allowSuperclass: bool

    function Query(): MethodQuery
      reads this
    {
      MethodQuery(target, isStatic, isPublic, name, returnType, parameterTypes, allowSuperclass)
    }

    /** A fresh builder looks for non-static methods of the target itself. */
    constructor(target: ClassInfo)
      ensures Query() == MethodQuery(target, Some(false), None, None, None, [], false)
    {
      this.target := target;
      isStatic := Some(false);
      isPublic := None;
      name := None;
      returnType := None;
      parameterTypes := [];
      allowSuperclass := false;
    }

    method WithStatic(mode: Option<bool>)
      modifies this
      ensures Query() == old(Query()).(isStatic := mode)
    {
      isStatic := mode;
    }

    method WithPublic(mode: Option<bool>)
      modifies this
      ensures Query() == old(Query()).(isPublic := mode)
    {
      isPublic := mode;
    }

    method WithName(n: Option<string>)
      modifies this
      ensures Query() == old(Query()).(name := n)
    {
      name := n;
    }

    /** A null type clears the criterion; otherwise it is wrapped as a ComparableType. */
    method WithReturnType(t: Option<TypeName>, allowBoxing: bool, assignability: Assignability)
      modifies this
      ensures Query() == old(Query()).(returnType := if t.None? then None else Some(Make(t.value, allowBoxing, assignability)))
    {
      if t.None? {
        returnType := None;
      } else {
        returnType := Some(Make(t.value, allowBoxing, assignability));
      }
    }

    method WithParameter(t: TypeName, allowBoxing: bool, assignability: Assignability)
      modifies this
      ensures Query() == old(Query()).(parameterTypes := old(parameterTypes) + [Make(t, allowBoxing, assignability)])
    {
      parameterTypes := parameterTypes + [Make(t, allowBoxing, assignability)];
    }

    /** Appends each type as an exact, boxing-sensitive criterion, in order. */
    method WithParameters(types: seq<TypeName>)
      modifies this
      ensures Query() == old(Query()).(parameterTypes := old(parameterTypes) + seq(|types|, i requires 0 <= i < |types| => Make(types[i], false, NoAssignability)))
    {
      var i := 0;
      while i < |types|
        invariant 0 <= i <= |types|
        invariant Query() == old(Query()).(parameterTypes := old(parameterTypes) + seq(i, k requires 0 <= k < i => Make(types[k], false, NoAssignability)))
      {
        WithParameter(types[i], false, NoAssignability);
        i := i + 1;
      }
    }

    method WithAllowSuperclass(mode: bool)
      modifies this
      ensures Query() == old(Query()).(allowSuperclass := mode)
    {
      allowSuperclass := mode;
    }

    method GetRequired(ts: TypeSystem) returns (r: Result<Method>)
      ensures r == Required(Query(), ts)
    {
      if name.None? && returnType.None? && |parameterTypes| == 0 {
        return Throw(IncompletePredicateBuilder);
      }
      var q := Query();
      r := MethodHandle.NewMethodHandle(Some(target), m => Accepts(q, ts, m));
    }

    method GetOptional(ts: TypeSystem) returns (r: Result<Option<Method>>)
      ensures r == Optional(Query(), ts)
    {
      var req := GetRequired(ts);
      if req.Ok? {
        return Ok(Some(req.value));
      } else if req.ex == IncompletePredicateBuilder {
        return Throw(req.ex);
      }
      return Ok(None);
    }
  }

  /**
   * required() throws IncompletePredicateBuilder exactly for a builder without name, return type
   * and parameters; any other failure is NoSuchMethod; a found method lies on the walk and passes
   * every criterion.
   */
  lemma RequiredOutcomes(q: MethodQuery, ts: TypeSystem)
    ensures Required(q, ts) == Throw(IncompletePredicateBuilder) <==> Incomplete(q)
    ensures Required(q, ts).Throw? && !Incomplete(q) ==> Required(q, ts).ex == NoSuchMethod
    ensures Required(q, ts).Ok? ==> Required(q, ts).value in WalkMethods(q.target) && Accepts(q, ts, Required(q, ts).value)
  {
  }

  /** optional() differs from required() only by turning NoSuchMethod into null. */
  lemma OptionalOutcomes(q: MethodQuery, ts: TypeSystem)
    ensures Optional(q, ts).Throw? <==> Incomplete(q)
    ensures Optional(q, ts) == Ok(None) <==> !Incomplete(q) && Required(q, ts) == Throw(NoSuchMethod)
    ensures forall m :: Optional(q, ts) == Ok(Some(m)) <==> Required(q, ts) == Ok(m)
  {
    RequiredOutcomes(q, ts);
  }

  /** Names are compared ignoring case: two spellings with equal lower case find the same method. */
  lemma NameIgnoresCase(q: MethodQuery, ts: TypeSystem, a: string, b: string)
    requires ToLower(a) == ToLower(b)
    ensures Required(q.(name := Some(a)), ts) == Required(q.(name := Some(b)), ts)
  {
    var qa := q.(name := Some(a));
    var qb := q.(name := Some(b));
    var ms := WalkMethods(q.target);
    forall i | 0 <= i < |ms| ensures Accepts(qa, ts, ms[i]) == Accepts(qb, ts, ms[i]) {
      EqualsIgnoreCaseIffLowerEqual(ms[i].name, a);
      EqualsIgnoreCaseIffLowerEqual(ms[i].name, b);
    }
    FirstMatchPointwise(ms, m => Accepts(qa, ts, m), m => Accepts(qb, ts, m));
  }

  /** With the default static criterion a static method is never found. */
  lemma DefaultSkipsStatic(target: ClassInfo, n: string, ts: TypeSystem)
    ensures var q := MethodQuery(target, Some(false), None, Some(n), None, [], false);
      Required(q, ts).Ok? ==> !Required(q, ts).value.isStatic && Required(q, ts).value.declaring == target.name
  {
    RequiredOutcomes(MethodQuery(target, Some(false), None, Some(n), None, [], false), ts);
  }
}
