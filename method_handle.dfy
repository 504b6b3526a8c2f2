/** handle/MethodHandle: the first declared method the predicate accepts, most derived class first. */
module MethodHandle {
  import opened Wrappers
  import opened Reflect

  type MethodPredicate = Method -> bool

  function Locate(target: Option<ClassInfo>, pred: MethodPredicate): Result<Method> {
    if target.None? then Throw(IllegalState)
    else match FirstMatch(WalkMethods(target.value), pred)
      case Some(m) => Ok(m)
      case None => Throw(NoSuchMethod)
  }

  /** The scan over the methods one class declares: the first one the predicate accepts. */
  method ScanDeclared(ms: seq<Method>, pred: MethodPredicate) returns (res: Option<Method>)
    ensures res == FirstMatch(ms, pred)
  {
    var i := 0;
    while i < |ms|
      invariant 0 <= i <= |ms|
      invariant forall j :: 0 <= j < i ==> !pred(ms[j])
    {
      if pred(ms[i]) {
        FirstMatchIsEarliest(ms, pred, i);
        return Some(ms[i]);
      }
      i := i + 1;
    }
    return None;
  }

  /** One step of the walk: the class's own methods, then the walk from its superclass. */
  lemma WalkStep(c: ClassInfo, pred: MethodPredicate)
    requires c.name != ObjectName
    ensures |ChainFrom(c.superclass)| < |ChainFrom(Some(c))|
    ensures FirstMatch(MethodsOf(ChainFrom(Some(c))), pred) ==
      if FirstMatch(c.methods, pred).Some? then FirstMatch(c.methods, pred)
      else FirstMatch(MethodsOf(ChainFrom(c.superclass)), pred)
  {
    assert Chain(c)[1..] == ChainFrom(c.superclass);
    FirstMatchAppend(c.methods, MethodsOf(ChainFrom(c.superclass)), pred);
  }

  method NewMethodHandle(target: Option<ClassInfo>, pred: MethodPredicate) returns (r: Result<Method>)
    ensures r == Locate(target, pred)
  {
    if target.None? {
      return Throw(IllegalState);
    }
    ghost var spec := FirstMatch(WalkMethods(target.value), pred);
    var res: Option<Method> := None;
    var curr := target;
    while res.None? && curr.Some? && curr.value.name != ObjectName
      invariant res.None? ==> FirstMatch(MethodsOf(ChainFrom(curr)), pred) == spec
      invariant res.Some? ==> res == spec
      decreases |ChainFrom(curr)|
    {
      var c := curr.value;
      WalkStep(c, pred);
      res := ScanDeclared(c.methods, pred);
      curr := c.superclass;
    }
    if res.None? {
      return Throw(NoSuchMethod);
    }
    return Ok(res.value);
  }

  /** A method accepted in the target itself wins over any method of an ancestor. */
  lemma DerivedWins(target: ClassInfo, pred: MethodPredicate)
    requires target.name != ObjectName
    requires FirstMatch(target.methods, pred).Some?
    ensures Locate(Some(target), pred) == Ok(FirstMatch(target.methods, pred).value)
  {
    FirstMatchAppend(target.methods, MethodsOf(ChainFrom(target.superclass)), pred);
  }

  /** Without a match in the target the search continues in the superclass exactly as if it had started there. */
  lemma ContinuesInSuperclass(target: ClassInfo, pred: MethodPredicate)
    requires target.name != ObjectName && target.superclass.Some?
    requires FirstMatch(target.methods, pred).None?
    ensures Locate(Some(target), pred) == Locate(target.superclass, pred)
  {
    FirstMatchAppend(target.methods, MethodsOf(ChainFrom(target.superclass)), pred);
  }

  /** NoSuchMethodException exactly when no method on the walk is accepted. */
  lemma NoMatchThrows(target: ClassInfo, pred: MethodPredicate)
    ensures Locate(Some(target), pred) == Throw(NoSuchMethod)
      <==> forall i :: 0 <= i < |WalkMethods(target)| ==> !pred(WalkMethods(target)[i])
  {
  }
}
