/** handle/ConstructorHandle: the first of the target's own declared constructors the predicate accepts. */
module ConstructorHandle {
  import opened Wrappers
  import opened Reflect

  type ConstructorPredicate = Constructor -> bool

  function Locate(target: Option<ClassInfo>, pred: ConstructorPredicate): (r: Result<Constructor>)
    ensures r.Ok? ==> target.Some? && r.value in target.value.constructors && pred(r.value)
  {
    if target.None? then Throw(IllegalState)
    else match FirstMatch(target.value.constructors, pred)
      case Some(k) => Ok(k)
      case None => Throw(NoSuchMethod)
  }

  method NewConstructorHandle(target: Option<ClassInfo>, pred: ConstructorPredicate) returns (r: Result<Constructor>)
    ensures r == Locate(target, pred)
  {
    if target.None? {
      return Throw(IllegalState);
    }
    var ks := target.value.constructors;
    var i := 0;
    while i < |ks|
      invariant 0 <= i <= |ks|
      invariant FirstMatch(ks[i..], pred) == FirstMatch(ks, pred)
    {
      assert ks[i..][1..] == ks[i + 1..];
      if pred(ks[i]) {
        return Ok(ks[i]);
      }
      i := i + 1;
    }
    return Throw(NoSuchMethod);
  }

  /** getParameterCount: the arity of the selected constructor. */
  function ParameterCount(k: Constructor): nat {
    |k.parameterTypes|
  }

  /** There is no superclass walk: the superclass plays no part in the choice. */
  lemma IgnoresSuperclass(target: ClassInfo, other: Option<ClassInfo>, pred: ConstructorPredicate)
    ensures Locate(Some(target), pred) == Locate(Some(target.(superclass := other)), pred)
  {
  }

  /** The chosen constructor is the earliest accepted one in declared order. */
  lemma ChoosesEarliest(target: ClassInfo, pred: ConstructorPredicate, j: nat)
    requires j < |target.constructors| && pred(target.constructors[j])
    requires forall i :: 0 <= i < j ==> !pred(target.constructors[i])
    ensures Locate(Some(target), pred) == Ok(target.constructors[j])
  {
    FirstMatchIsEarliest(target.constructors, pred, j);
  }
}
