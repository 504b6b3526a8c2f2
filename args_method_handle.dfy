/** handle/ArgsMethodHandle: a method looked up by the types of the arguments it will be called with. */
module ArgsMethodHandle {
  import opened Wrappers
  import opened Reflect
  import AMethodHandle

  /** Every declared parameter type accepts the argument type at the same position. */
  predicate PositionallyAssignable(ts: TypeSystem, params: seq<TypeName>, args: seq<TypeName>) {
    |params| == |args| && forall i :: 0 <= i < |params| ==> ts.assignableFrom(params[i], args[i])
  }

  /** The parameter loop of the predicate: a length check, then one assignability test per position. */
  method CheckArguments(ts: TypeSystem, params: seq<TypeName>, args: seq<TypeName>) returns (ok: bool)
    ensures ok == PositionallyAssignable(ts, params, args)
  {
    if |params| != |args| {
      return false;
    }
    var i := 0;
    while i < |params|
      invariant 0 <= i <= |params|
      invariant forall k :: 0 <= k < i ==> ts.assignableFrom(params[k], args[k])
    {
      if !ts.assignableFrom(params[i], args[i]) {
        return false;
      }
      i := i + 1;
    }
    return true;
  }

  /**
   * The predicate of both constructors: the declaring-class check, the positional parameter
   * check and (second constructor) the return type. The method name is never consulted.
   */
  predicate Accepts(ts: TypeSystem, target: TypeName, argTypes: seq<TypeName>, returnType: Option<TypeName>, allowSuper: bool, m: Method) {
    (allowSuper || m.declaring == target)
    && PositionallyAssignable(ts, m.parameterTypes, argTypes)
    && (returnType.None? || ts.assignableFrom(returnType.value, m.returnType))
  }

  function Locate(target: Option<ClassInfo>, ts: TypeSystem, argTypes: seq<TypeName>, returnType: Option<TypeName>, allowSuper: bool): Result<Method> {
    var t := if target.Some? then target.value.name else "";
    AMethodHandle.Locate(target, (m, inSuper) => Accepts(ts, t, argTypes, returnType, allowSuper, m))
  }

  /**
   * The handle holds a method of the walk that is accepted (declared on the target unless
   * superclasses are allowed, parameters accepting the arguments one by one, return type fitting
   * when one is asked for), and no method before it in walk order is; NoSuchMethod exactly when
   * no method of the walk is accepted.
   */
  lemma ArgsSelectsFirst(target: ClassInfo, ts: TypeSystem, argTypes: seq<TypeName>, returnType: Option<TypeName>, allowSuper: bool)
    ensures var r := Locate(Some(target), ts, argTypes, returnType, allowSuper);
      var ms := WalkMethods(target);
      (r.Ok? ==> Accepts(ts, target.name, argTypes, returnType, allowSuper, r.value)
                 && (allowSuper || r.value.declaring == target.name)
                 && (returnType.Some? ==> ts.assignableFrom(returnType.value, r.value.returnType))
                 && |r.value.parameterTypes| == |argTypes|
                 && (forall i :: 0 <= i < |argTypes| ==> ts.assignableFrom(r.value.parameterTypes[i], argTypes[i]))
                 && exists j :: 0 <= j < |ms| && ms[j] == r.value
                      && forall i :: 0 <= i < j ==> !Accepts(ts, target.name, argTypes, returnType, allowSuper, ms[i]))
      && (r.Throw? <==> forall m :: m in ms ==> !Accepts(ts, target.name, argTypes, returnType, allowSuper, m))
      && (r.Throw? ==> r.ex == NoSuchMethod)
  {
    var p := (m: Method) => Accepts(ts, target.name, argTypes, returnType, allowSuper, m);
    AMethodHandle.LocateIgnoringFlag(target, (m: Method, inSuper: bool) => Accepts(ts, target.name, argTypes, returnType, allowSuper, m), p);
    if FirstMatch(WalkMethods(target), p).Some? {
      var j := FirstMatchIndex(WalkMethods(target), p);
    }
  }

  /** With a reflexive subtype relation a method declared with exactly the argument types is accepted. */
  lemma ExactParametersAccepted(ts: TypeSystem, target: TypeName, argTypes: seq<TypeName>, m: Method)
    requires Reflexive(ts)
    requires m.parameterTypes == argTypes && m.declaring == target
    ensures Accepts(ts, target, argTypes, None, false, m)
  {
  }
}
