/** handle/EnumHandle: the constants of an enum class, looked up by ordinal only. */
module EnumHandle {
  import opened Wrappers
  import opened Reflect

  /** The class and an immutable copy of its constants in declaration order. */
  datatype EnumHandle = EnumHandle(cls: ClassInfo, constants: seq<EnumConstant>)

  /** The constructor: a class without enum constants is refused. */
  function New(c: ClassInfo): (r: Result<EnumHandle>)
    ensures r.Throw? <==> c.enumConstants.None?
    ensures r.Throw? ==> r.ex == IllegalState
    ensures r.Ok? ==> r.value.cls == c && r.value.constants == c.enumConstants.value
  {
    if c.enumConstants.None? then Throw(IllegalState) else Ok(EnumHandle(c, c.enumConstants.value))
  }

  /** The list lookup: any index outside the list, negative ones included, is EnumConstantNotPresent. */
  function GetByOrdinal(h: EnumHandle, ordinal: int): (r: Result<EnumConstant>)
    ensures r.Ok? <==> 0 <= ordinal < |h.constants|
    ensures r.Ok? ==> r.value == h.constants[ordinal]
    ensures r.Throw? ==> r.ex == EnumConstantNotPresent
  {
    if 0 <= ordinal < |h.constants| then Ok(h.constants[ordinal]) else Throw(EnumConstantNotPresent)
  }

  /** A constant of a copy enum is mapped through its ordinal alone. */
  function GetByCopy(h: EnumHandle, other: EnumConstant): Result<EnumConstant> {
    GetByOrdinal(h, other.ordinal)
  }

  /** Enum constants carry their own position as ordinal. */
  predicate WellOrdered(cs: seq<EnumConstant>) {
    forall i :: 0 <= i < |cs| ==> cs[i].ordinal == i
  }

  /**
   * A copy whose constants are listed in the same order maps its i-th constant to the i-th constant
   * of the handle, so mapping every handle constant through itself is the identity.
   */
  lemma CopyMapsByPosition(h: EnumHandle, copy: seq<EnumConstant>, i: nat)
    requires WellOrdered(copy) && i < |copy|
    ensures i < |h.constants| ==> GetByCopy(h, copy[i]) == Ok(h.constants[i])
    ensures i >= |h.constants| ==> GetByCopy(h, copy[i]) == Throw(EnumConstantNotPresent)
  {
  }

  lemma OwnConstantsRoundTrip(c: ClassInfo)
    requires c.enumConstants.Some? && WellOrdered(c.enumConstants.value)
    ensures forall k :: k in c.enumConstants.value ==> GetByCopy(New(c).value, k) == Ok(k)
  {
    var cs := c.enumConstants.value;
    forall k | k in cs ensures GetByCopy(New(c).value, k) == Ok(k) {
      var i :| 0 <= i < |cs| && cs[i] == k;
      CopyMapsByPosition(New(c).value, cs, i);
    }
  }
}
