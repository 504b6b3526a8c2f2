/** A query type paired with an assignability mode and an unboxing switch (handle/ComparableType). */
module ComparableTypes {
  import opened Reflect

  /** The direction in which a candidate type may differ from the query type. */
  datatype Assignability = TargetToType | TypeToTarget | NoAssignability

  datatype ComparableType = ComparableType(storedType: TypeName, ignoreBoxing: bool, assignability: Assignability)

  /** The constructor: with ignoreBoxing the type is unwrapped ahead of time. */
  function Make(t: TypeName, ignoreBoxing: bool, assignability: Assignability): (ct: ComparableType)
    ensures ct.ignoreBoxing == ignoreBoxing && ct.assignability == assignability
    ensures ignoreBoxing ==> Unwrap(ct.storedType) == ct.storedType
  {
    ComparableType(if ignoreBoxing then Unwrap(t) else t, ignoreBoxing, assignability)
  }

  /** isAssignable: exact equality, or assignability in the configured direction. */
  function IsAssignable(ct: ComparableType, other: TypeName, ts: TypeSystem): bool {
    match ct.assignability
    case NoAssignability => ct.storedType == other
    case TargetToType => ts.assignableFrom(other, ct.storedType)
    case TypeToTarget => ts.assignableFrom(ct.storedType, other)
  }

  /** matches: the candidate is unwrapped first when boxing is ignored. */
  function Matches(ct: ComparableType, other: TypeName, ts: TypeSystem): bool {
    IsAssignable(ct, if ct.ignoreBoxing then Unwrap(other) else other, ts)
  }

  /** The mode NONE accepts exactly the stored type, compared after unwrapping both sides when boxing is ignored. */
  lemma MatchesExact(t: TypeName, ignoreBoxing: bool, other: TypeName, ts: TypeSystem)
    ensures Matches(Make(t, ignoreBoxing, NoAssignability), other, ts)
      <==> if ignoreBoxing then Unwrap(t) == Unwrap(other) else t == other
  {
  }

  /** TYPE_TO_TARGET accepts a candidate that the stored type is assignable from (a subtype of it). */
  lemma MatchesTypeToTarget(t: TypeName, ignoreBoxing: bool, other: TypeName, ts: TypeSystem)
    ensures Matches(Make(t, ignoreBoxing, TypeToTarget), other, ts)
      <==> if ignoreBoxing then ts.assignableFrom(Unwrap(t), Unwrap(other)) else ts.assignableFrom(t, other)
  {
  }

  /** TARGET_TO_TYPE accepts a candidate that is assignable from the stored type (a supertype of it). */
  lemma MatchesTargetToType(t: TypeName, ignoreBoxing: bool, other: TypeName, ts: TypeSystem)
    ensures Matches(Make(t, ignoreBoxing, TargetToType), other, ts)
      <==> if ignoreBoxing then ts.assignableFrom(Unwrap(other), Unwrap(t)) else ts.assignableFrom(other, t)
  {
  }

  /** With unboxing a wrapper and its primitive match each other in both directions; without it they do not. */
  lemma BoxedMatchesPrimitive(ts: TypeSystem)
    ensures Matches(Make("java.lang.Integer", true, NoAssignability), "int", ts)
    ensures Matches(Make("int", true, NoAssignability), "java.lang.Integer", ts)
    ensures !Matches(Make("java.lang.Integer", false, NoAssignability), "int", ts)
  {
  }

  /** Under a reflexive subtype relation every mode accepts the stored type itself. */
  lemma MatchesItself(t: TypeName, ignoreBoxing: bool, a: Assignability, ts: TypeSystem)
    requires Reflexive(ts)
    ensures Matches(Make(t, ignoreBoxing, a), t, ts)
  {
    UnwrapIdempotent(t);
  }
}
