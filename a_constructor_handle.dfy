/** handle/AConstructorHandle: the first of the target's own declared constructors the predicate accepts. */
module AConstructorHandle {
  import opened Wrappers
  import opened Reflect

  function Locate(target: Option<ClassInfo>, pred: Constructor -> bool): (r: Result<Constructor>)
    ensures r.Ok? ==> target.Some? && r.value in target.value.constructors && pred(r.value)
    ensures r == Throw(NoSuchMethod) <==> target.Some? && forall k :: k in target.value.constructors ==> !pred(k)
  {
    if target.None? then Throw(IllegalState)
    else match FirstMatch(target.value.constructors, pred)
      case Some(k) => Ok(k)
      case None => Throw(NoSuchMethod)
  }

  method NewAConstructorHandle(target: Option<ClassInfo>, pred: Constructor -> bool) returns (r: Result<Constructor>)
    ensures r == Locate(target, pred)
  {
    if target.None? {
      return Throw(IllegalState);
    }
    var ks := target.value.constructors;
    var res: Option<Constructor> := None;
    var i := 0;
    while i < |ks|
      invariant 0 <= i <= |ks|
      invariant forall j :: 0 <= j < i ==> !pred(ks[j])
    {
      if pred(ks[i]) {
        res := Some(ks[i]);
        FirstMatchIsEarliest(ks, pred, i);
        break;
      }
      i := i + 1;
    }
    if res.None? {
      return Throw(NoSuchMethod);
    }
    return Ok(res.value);
  }
}
