/** handle/ArgsConstructorHandle: a constructor looked up by the types of its arguments. */
module ArgsConstructorHandle {
  import opened Wrappers
  import opened Reflect
  import AConstructorHandle
  import ArgsMethodHandle

  /** Parameter count first, then positional assignability; visibility is not consulted. */
  predicate Accepts(ts: TypeSystem, args: seq<TypeName>, k: Constructor) {
    ArgsMethodHandle.PositionallyAssignable(ts, k.parameterTypes, args)
  }

  function Locate(target: Option<ClassInfo>, ts: TypeSystem, args: seq<TypeName>): Result<Constructor> {
    AConstructorHandle.Locate(target, k => Accepts(ts, args, k))
  }

  /**
   * The handle holds the first declared constructor of the target itself whose parameters accept
   * the arguments; with no arguments that is the first zero-argument constructor.
   */
  lemma ArgsConstructorSelects(target: ClassInfo, ts: TypeSystem, args: seq<TypeName>)
    ensures var r := Locate(Some(target), ts, args);
      var ks := target.constructors;
      (r.Ok? ==> exists j :: 0 <= j < |ks| && ks[j] == r.value && ArgsMethodHandle.PositionallyAssignable(ts, ks[j].parameterTypes, args)
                    && forall i :: 0 <= i < j ==> !ArgsMethodHandle.PositionallyAssignable(ts, ks[i].parameterTypes, args))
      && (r.Throw? ==> r.ex == NoSuchMethod
                       && forall k :: k in ks ==> !ArgsMethodHandle.PositionallyAssignable(ts, k.parameterTypes, args))
      && (args == [] && r.Ok? ==> r.value.parameterTypes == [])
  {
    var p := (k: Constructor) => Accepts(ts, args, k);
    if FirstMatch(target.constructors, p).Some? {
      var j := FirstMatchIndex(target.constructors, p);
    }
  }
}
