/**
 * handle/AMethodHandle: the same walk as MethodHandle, with the predicate also told whether
 * the method sits in a superclass of the target (the current class differs from the target).
 */
module AMethodHandle {
  import opened Wrappers
  import opened Reflect
  import MethodHandle

  /** IMethodPredicate as AMethodHandle calls it: a method and the is-superclass flag. */
  type FlaggedMethodPredicate = (Method, bool) -> bool

  /** The walk over the remaining classes `cs`; within a class the first accepted method. */
  function SearchFlagged(cs: seq<ClassInfo>, target: ClassInfo, pred: FlaggedMethodPredicate): (r: Option<Method>)
    ensures r.Some? ==> exists k :: 0 <= k < |cs| && r.value in cs[k].methods && pred(r.value, cs[k] != target)
  {
    if cs == [] then None
    else
      var c := cs[0];
      match FirstMatch(c.methods, m => pred(m, c != target))
      case Some(m) => Some(m)
      case None => SearchFlagged(cs[1..], target, pred)
  }

  function Locate(target: Option<ClassInfo>, pred: FlaggedMethodPredicate): Result<Method> {
    if target.None? then Throw(IllegalState)
    else match SearchFlagged(Chain(target.value), target.value, pred)
      case Some(m) => Ok(m)
      case None => Throw(NoSuchMethod)
  }

  /** One step of the walk: the class's own methods with its flag, then the walk from its superclass. */
  lemma FlaggedStep(c: ClassInfo, target: ClassInfo, pred: FlaggedMethodPredicate)
    requires c.name != ObjectName
    ensures |ChainFrom(c.superclass)| < |ChainFrom(Some(c))|
    ensures SearchFlagged(ChainFrom(Some(c)), target, pred) ==
      var own := FirstMatch(c.methods, m => pred(m, c != target));
      if own.Some? then own else SearchFlagged(ChainFrom(c.superclass), target, pred)
  {
    assert Chain(c)[1..] == ChainFrom(c.superclass);
  }

  method NewAMethodHandle(target: Option<ClassInfo>, pred: FlaggedMethodPredicate) returns (r: Result<Method>)
    ensures r == Locate(target, pred)
  {
    if target.None? {
      return Throw(IllegalState);
    }
    var t := target.value;
    ghost var spec := SearchFlagged(Chain(t), t, pred);
    var res: Option<Method> := None;
    var curr := target;
    while res.None? && curr.Some? && curr.value.name != ObjectName
      invariant res.None? ==> SearchFlagged(ChainFrom(curr), t, pred) == spec
      invariant res.Some? ==> res == spec
      decreases |ChainFrom(curr)|
    {
      var c := curr.value;
      var flag := c != t;
      FlaggedStep(c, t, pred);
      res := MethodHandle.ScanDeclared(c.methods, m => pred(m, flag));
      curr := c.superclass;
    }
    if res.None? {
      return Throw(NoSuchMethod);
    }
    return Ok(res.value);
  }

  /** The flag is false for the target's own methods and true for every method found above it. */
  lemma FlagMarksSuperclasses(target: ClassInfo)
    requires target.name != ObjectName
    ensures Chain(target)[0] == target
    ensures forall k :: 1 <= k < |Chain(target)| ==> Chain(target)[k] != target
  {
    AncestorsDiffer(target);
    assert Chain(target)[1..] == ChainFrom(target.superclass);
    forall k | 1 <= k < |Chain(target)| ensures Chain(target)[k] != target {
      assert Chain(target)[k] in ChainFrom(target.superclass);
    }
  }

  /** A predicate that refuses superclass methods can only select one of the target's own methods. */
  lemma OwnMethodsOnly(target: ClassInfo, pred: FlaggedMethodPredicate)
    requires forall m :: !pred(m, true)
    ensures Locate(Some(target), pred).Ok? ==> Locate(Some(target), pred).value in target.methods
  {
    var cs := Chain(target);
    if target.name != ObjectName {
      FlagMarksSuperclasses(target);
      var r := SearchFlagged(cs, target, pred);
      if r.Some? {
        var k :| 0 <= k < |cs| && r.value in cs[k].methods && pred(r.value, cs[k] != target);
        assert k == 0;
      }
    }
  }

  /** A predicate that ignores the flag makes the walk a plain first match over all methods in walk order. */
  lemma {:induction false} FlagIgnored(cs: seq<ClassInfo>, target: ClassInfo, pred: FlaggedMethodPredicate, p: Method -> bool)
    requires forall m: Method, b: bool :: pred(m, b) == p(m)
    ensures SearchFlagged(cs, target, pred) == FirstMatch(MethodsOf(cs), p)
  {
    if cs != [] {
      var c := cs[0];
      FirstMatchPointwise(c.methods, m => pred(m, c != target), p);
      FirstMatchAppend(c.methods, MethodsOf(cs[1..]), p);
      FlagIgnored(cs[1..], target, pred, p);
    }
  }

  /** With a flag-ignoring predicate the handle is the first accepted method of the whole walk. */
  lemma LocateIgnoringFlag(target: ClassInfo, pred: FlaggedMethodPredicate, p: Method -> bool)
    requires forall m: Method, b: bool :: pred(m, b) == p(m)
    ensures Locate(Some(target), pred) ==
      if FirstMatch(WalkMethods(target), p).Some? then Ok(FirstMatch(WalkMethods(target), p).value) else Throw(NoSuchMethod)
  {
    FlagIgnored(Chain(target), target, pred, p);
  }
}
