/**
 * AReflectedAccessor: the require and optional helpers communicators use to reach classes,
 * fields, methods and constructors, and which failures each optional helper absorbs.
 */
module ReflectedAccessor {
  import opened Wrappers
  import opened Reflect
  import ClassNames
  import ReflectionHelper
  import RClassTable
  import ScalarFieldHandle
  import CollectionFieldHandle
  import MapFieldHandle
  import NamedMethodHandle
  import ArgsMethodHandle
  import ArgsConstructorHandle

  /** catch (Exception e) { return null; } */
  function AbsorbAll<T>(r: Result<T>): (o: Result<Option<T>>)
    ensures o.Ok?
    ensures r.Ok? ==> o == Ok(Some(r.value))
    ensures r.Throw? <==> o == Ok(None)
  {
    match r
    case Ok(v) => Ok(Some(v))
    case Throw(_) => Ok(None)
  }

  /** catch (E e) { return null; }: only the one exception kind is absorbed, others propagate. */
  function AbsorbOnly<T>(r: Result<T>, kind: Exception): (o: Result<Option<T>>)
    ensures r.Ok? ==> o == Ok(Some(r.value))
    ensures r.Throw? && r.ex == kind ==> o == Ok(None)
    ensures r.Throw? && r.ex != kind ==> o == Throw(r.ex)
  {
    match r
    case Ok(v) => Ok(Some(v))
    case Throw(e) => if e == kind then Ok(None) else Throw(e)
  }

  function OkValue<T>(r: Result<T>): Option<T> {
    if r.Ok? then Some(r.value) else None
  }

  /** requireClass: the helper's getClass, failure propagated. */
  method RequireClass(helper: ReflectionHelper.Helper, rc: RClassTable.RClass) returns (r: Result<ClassInfo>)
    requires helper.Valid()
    modifies helper, helper.resolver, helper.handles
    ensures helper.Valid()
    ensures rc in old(helper.classes) ==> r == Ok(old(helper.classes)[rc])
    ensures rc !in old(helper.classes) && rc !in old(helper.resolver.cache) ==>
      r == ClassNames.ForName(helper.loader, RClassTable.Name(rc, helper.refactored, helper.versionStr))
    ensures r.Throw? ==> r.ex == ClassNotFound
  {
    r := helper.GetClass(rc);
  }

  /** optionalClass: null exactly when getClass throws ClassNotFoundException. */
  method OptionalClass(helper: ReflectionHelper.Helper, rc: RClassTable.RClass) returns (r: Option<ClassInfo>)
    requires helper.Valid()
    modifies helper, helper.resolver, helper.handles
    ensures helper.Valid()
    ensures rc in old(helper.classes) ==> r == Some(old(helper.classes)[rc])
    ensures rc !in old(helper.classes) && rc !in old(helper.resolver.cache) ==>
      r == OkValue(ClassNames.ForName(helper.loader, RClassTable.Name(rc, helper.refactored, helper.versionStr)))
  {
    var c := helper.GetClass(rc);
    if c.Throw? && c.ex == ClassNotFound {
      return None;
    }
    return Some(c.value);
  }

  function RequireCollectionField(target: Option<ClassInfo>, q: CollectionFieldHandle.CollectionQuery, ts: TypeSystem): Result<Field> {
    CollectionFieldHandle.Locate(target, q, ts)
  }

  function OptionalCollectionField(target: Option<ClassInfo>, q: CollectionFieldHandle.CollectionQuery, ts: TypeSystem): Result<Option<Field>> {
    AbsorbAll(CollectionFieldHandle.Locate(target, q, ts))
  }

  function RequireMapField(target: Option<ClassInfo>, q: MapFieldHandle.MapQuery, ts: TypeSystem): Result<Field> {
    MapFieldHandle.Locate(target, q, ts)
  }

  function OptionalMapField(target: Option<ClassInfo>, q: MapFieldHandle.MapQuery, ts: TypeSystem): Result<Option<Field>> {
    AbsorbAll(MapFieldHandle.Locate(target, q, ts))
  }

  function RequireScalarField(target: Option<ClassInfo>, q: ScalarFieldHandle.ScalarQuery, ts: TypeSystem): Result<Field> {
    ScalarFieldHandle.Locate(target, q, ts)
  }

  function OptionalScalarField(target: Option<ClassInfo>, q: ScalarFieldHandle.ScalarQuery, ts: TypeSystem): Result<Option<Field>> {
    AbsorbOnly(ScalarFieldHandle.Locate(target, q, ts), NoSuchField)
  }

  function RequireNamedMethod(target: Option<ClassInfo>, ts: TypeSystem, name: string, returnType: Option<TypeName>, allowSuper: bool): Result<Method> {
    NamedMethodHandle.Locate(target, ts, name, returnType, allowSuper)
  }

  function RequireArgsMethod(target: Option<ClassInfo>, ts: TypeSystem, argTypes: seq<TypeName>, returnType: Option<TypeName>, allowSuper: bool): Result<Method> {
    ArgsMethodHandle.Locate(target, ts, argTypes, returnType, allowSuper)
  }

  function RequireArgsConstructor(target: Option<ClassInfo>, ts: TypeSystem, args: seq<TypeName>): Result<Constructor> {
    ArgsConstructorHandle.Locate(target, ts, args)
  }

  /**
   * The collection and map helpers absorb every failure, so a raw field that makes the
   * predicate throw ClassCastException still gives null; the optional helper finds a field
   * exactly when the required one does.
   */
  lemma OptionalFieldHelpersNeverThrow(target: Option<ClassInfo>, cq: CollectionFieldHandle.CollectionQuery, mq: MapFieldHandle.MapQuery, ts: TypeSystem)
    ensures OptionalCollectionField(target, cq, ts).Ok? && OptionalMapField(target, mq, ts).Ok?
    ensures forall f :: OptionalCollectionField(target, cq, ts) == Ok(Some(f)) <==> RequireCollectionField(target, cq, ts) == Ok(f)
    ensures forall f :: OptionalMapField(target, mq, ts) == Ok(Some(f)) <==> RequireMapField(target, mq, ts) == Ok(f)
  {
  }

  /**
   * The scalar helper absorbs only NoSuchFieldException: a missing target still throws
   * IllegalStateException through it, and a search without a match gives null.
   */
  lemma OptionalScalarAbsorbsOnlyMissingField(target: Option<ClassInfo>, q: ScalarFieldHandle.ScalarQuery, ts: TypeSystem)
    ensures target.None? ==> OptionalScalarField(target, q, ts) == Throw(IllegalState)
    ensures RequireScalarField(target, q, ts) == Throw(NoSuchField) ==> OptionalScalarField(target, q, ts) == Ok(None)
    ensures forall f :: OptionalScalarField(target, q, ts) == Ok(Some(f)) <==> RequireScalarField(target, q, ts) == Ok(f)
  {
  }
}
