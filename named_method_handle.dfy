/** handle/NamedMethodHandle: a method looked up by case-insensitive name, optionally by return type. */
module NamedMethodHandle {
  import opened Wrappers
  import opened Reflect
  import opened JavaStrings
  import AMethodHandle

  /**
   * The predicate of both constructors: a method declared outside the target is refused unless
   * superclasses are allowed, then the name must match ignoring case, then (second constructor)
   * the declared return type must be assignable to the requested one. Parameters are not consulted.
   */
  predicate Accepts(ts: TypeSystem, target: TypeName, name: string, returnType: Option<TypeName>, allowSuper: bool, m: Method) {
    (allowSuper || m.declaring == target)
    && EqualsIgnoreCase(m.name, name)
    && (returnType.None? || ts.assignableFrom(returnType.value, m.returnType))
  }

  function Locate(target: Option<ClassInfo>, ts: TypeSystem, name: string, returnType: Option<TypeName>, allowSuper: bool): Result<Method> {
    var t := if target.Some? then target.value.name else "";
    AMethodHandle.Locate(target, (m, inSuper) => Accepts(ts, t, name, returnType, allowSuper, m))
  }

  /**
   * The handle holds the first method in walk order whose name equals the requested one ignoring
   * case (and whose return type fits); when there is none the constructor throws NoSuchMethod.
   */
  lemma NamedSelectsFirst(target: ClassInfo, ts: TypeSystem, name: string, returnType: Option<TypeName>, allowSuper: bool)
    ensures var r := Locate(Some(target), ts, name, returnType, allowSuper);
      var ms := WalkMethods(target);
      (r.Ok? ==> r.value in ms && ToLower(r.value.name) == ToLower(name)
                 && (allowSuper || r.value.declaring == target.name)
                 && (returnType.None? || ts.assignableFrom(returnType.value, r.value.returnType))
                 && forall m :: m in ms && Accepts(ts, target.name, name, returnType, allowSuper, m) ==>
                      exists i, j :: 0 <= j <= i < |ms| && ms[i] == m && ms[j] == r.value)
      && (r.Throw? <==> forall m :: m in ms ==> !Accepts(ts, target.name, name, returnType, allowSuper, m))
      && (r.Throw? ==> r.ex == NoSuchMethod)
  {
    var p := (m: Method) => Accepts(ts, target.name, name, returnType, allowSuper, m);
    var ms := WalkMethods(target);
    AMethodHandle.LocateIgnoringFlag(target, (m: Method, inSuper: bool) => Accepts(ts, target.name, name, returnType, allowSuper, m), p);
    var r := Locate(Some(target), ts, name, returnType, allowSuper);
    if r.Ok? {
      EqualsIgnoreCaseIffLowerEqual(r.value.name, name);
      FirstMatchPrecedes(ms, p);
    }
  }
}
