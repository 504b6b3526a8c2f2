/**
 * handle/ClassHandle: a wrapper around a class, with two process-wide caches (plain handles made
 * by `of` and enum handles made by `asEnum`) that are filled on first use and never invalidated.
 */
module ClassHandle {
  import opened Wrappers
  import opened Reflect
  import EnumHandle
  import MethodPredicateBuilder
  import ConstructorPredicateBuilder

  class Handle {
    const c: ClassInfo

    constructor(c: ClassInfo)
      ensures this.c == c
    {
      this.c := c;
    }

    /** locateMethod: a fresh method builder over this class. */
    method LocateMethod() returns (b: MethodPredicateBuilder.Builder)
      ensures fresh(b)
      ensures b.Query() == MethodPredicateBuilder.MethodQuery(c, Some(false), None, None, None, [], false)
    {
      b := new MethodPredicateBuilder.Builder(c);
    }

    /** locateConstructor: a fresh constructor builder over this class. */
    method LocateConstructor() returns (b: ConstructorPredicateBuilder.Builder)
      ensures fresh(b)
      ensures b.Query() == ConstructorPredicateBuilder.ConstructorQuery(c, None, [])
    {
      b := new ConstructorPredicateBuilder.Builder(c);
    }
  }

  /** What `equals` and `isInstance` can be handed. */
  datatype JObject = Null | ClassObject(cls: ClassInfo) | HandleObject(handle: Handle) | Instance(runtimeType: TypeName)

  const ClassClassName: TypeName := "java.lang.Class"
  const HandleClassName: TypeName := "me.blvckbytes.bblibreflect.handle.ClassHandle"

  /** getClass() of a non-null object: a raw class is a java.lang.Class, a handle a ClassHandle. */
  function RuntimeClass(o: JObject): Option<TypeName> {
    match o
    case Null => None
    case ClassObject(_) => Some(ClassClassName)
    case HandleObject(_) => Some(HandleClassName)
    case Instance(t) => Some(t)
  }

  /** isInstance: a non-null object whose runtime class is assignable to the wrapped class. */
  function IsInstance(h: Handle, ts: TypeSystem, o: JObject): (r: bool)
    ensures r ==> !o.Null?
    ensures o.ClassObject? ==> (r <==> ts.assignableFrom(h.c.name, ClassClassName))
    ensures o.HandleObject? ==> (r <==> ts.assignableFrom(h.c.name, HandleClassName))
    ensures o.Instance? ==> (r <==> ts.assignableFrom(h.c.name, o.runtimeType))
  {
    RuntimeClass(o).Some? && ts.assignableFrom(h.c.name, RuntimeClass(o).value)
  }

  /** When every class is assignable to java.lang.Object, every non-null object is an instance of it. */
  lemma EverythingIsAnObject(h: Handle, ts: TypeSystem, o: JObject)
    requires h.c.name == ObjectName && forall t :: ts.assignableFrom(ObjectName, t)
    ensures IsInstance(h, ts, o) <==> !o.Null?
  {
  }

  /** equals as written: only a raw Class equal to the wrapped one compares equal. */
  function Equals(h: Handle, o: JObject): (r: bool)
    ensures r <==> o == ClassObject(h.c)
  {
    match o
    case ClassObject(k) => k == h.c
    case _ => false
  }

  function HashCode(h: Handle): int {
    h.c.hash
  }

  /** equals as written is not reflexive: no handle equals itself or any other handle. */
  lemma EqualsIrreflexive(h: Handle, g: Handle)
    ensures !Equals(h, HandleObject(h))
    ensures !Equals(h, HandleObject(g))
  {
  }

  /** The evidently intended equality: handles compare by wrapped class, raw classes as before. */
  function EqualsCorrected(h: Handle, o: JObject): bool {
    match o
    case ClassObject(k) => k == h.c
    case HandleObject(g) => g.c == h.c
    case _ => false
  }

  /** The corrected equality is an equivalence on handles and agrees with hashCode. */
  lemma EqualsCorrectedContract(h: Handle, g: Handle, k: Handle)
    ensures EqualsCorrected(h, HandleObject(h))
    ensures EqualsCorrected(h, HandleObject(g)) == EqualsCorrected(g, HandleObject(h))
    ensures EqualsCorrected(h, HandleObject(g)) && EqualsCorrected(g, HandleObject(k)) ==> EqualsCorrected(h, HandleObject(k))
    ensures EqualsCorrected(h, HandleObject(g)) ==> HashCode(h) == HashCode(g)
    ensures forall o :: Equals(h, o) ==> EqualsCorrected(h, o)
  {
  }

  /** The two static maps of ClassHandle. */
  class Caches {
    var encapsulations: map<ClassInfo, Handle>
    var enumerations: map<ClassInfo, EnumHandle.EnumHandle>

    /** Every cached handle wraps the class it is filed under. */
    ghost predicate Valid()
      reads this
    {
      (forall k :: k in encapsulations ==> encapsulations[k].c == k)
      && (forall k :: k in enumerations ==> enumerations[k].cls == k && k.enumConstants == Some(enumerations[k].constants))
    }

    constructor()
      ensures Valid()
      ensures encapsulations == map[] && enumerations == map[]
    {
      encapsulations := map[];
      enumerations := map[];
    }

    /** of: the cached handle, or a new one that is stored for every later call. */
    method Of(c: ClassInfo) returns (h: Handle)
      requires Valid()
      modifies this
      ensures Valid()
      ensures h.c == c
      ensures c in old(encapsulations) ==> h == old(encapsulations)[c] && encapsulations == old(encapsulations)
      ensures c !in old(encapsulations) ==> fresh(h) && encapsulations == old(encapsulations)[c := h]
      ensures enumerations == old(enumerations)
    {
      if c in encapsulations {
        h := encapsulations[c];
        return;
      }
      h := new Handle(c);
      encapsulations := encapsulations[c := h];
    }

    /** Two calls of `of` for the same class give the identical handle. */
    method OfTwice(c: ClassInfo) returns (h1: Handle, h2: Handle)
      requires Valid()
      modifies this
      ensures Valid()
      ensures h1 == h2 && h1.c == c
    {
      h1 := Of(c);
      h2 := Of(c);
    }

    /** asEnum: the cached enum handle, or a new one; a failed construction caches nothing. */
    method AsEnum(h: Handle) returns (r: Result<EnumHandle.EnumHandle>)
      requires Valid()
      modifies this
      ensures Valid()
      ensures encapsulations == old(encapsulations)
      ensures h.c in old(enumerations) ==> r == Ok(old(enumerations)[h.c]) && enumerations == old(enumerations)
      ensures h.c !in old(enumerations) ==> r == EnumHandle.New(h.c)
      ensures h.c !in old(enumerations) && r.Ok? ==> enumerations == old(enumerations)[h.c := r.value]
      ensures r.Throw? ==> r.ex == IllegalState && enumerations == old(enumerations)
    {
      if h.c in enumerations {
        return Ok(enumerations[h.c]);
      }
      r := EnumHandle.New(h.c);
      if r.Ok? {
        enumerations := enumerations[h.c := r.value];
      }
    }

    /** A second asEnum on the same class answers from the cache with the same handle. */
    method AsEnumTwice(h: Handle) returns (r1: Result<EnumHandle.EnumHandle>, r2: Result<EnumHandle.EnumHandle>)
      requires Valid()
      modifies this
      ensures Valid()
      ensures r1 == r2
    {
      r1 := AsEnum(h);
      r2 := AsEnum(h);
    }
  }
}
