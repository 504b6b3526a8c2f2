/** handle/CollectionFieldHandle: the predicates of a collection field query with an element type. */
module CollectionFieldHandle {
  import opened Wrappers
  import opened Reflect
  import opened JavaStrings
  import AFieldHandle

  datatype CollectionQuery = CollectionQuery(
    collectionType: TypeName,
    genericType: TypeName,
    skip: int,
    allowSuper: bool,
    isStatic: Option<bool>,
    isPublic: Option<bool>)

  /**
   * The two-argument predicate: static mismatch excludes (null); a public mismatch, a field
   * declared outside the target without allowSuper, a counter below skip or a field type not
   * assignable to the collection type rejects (false); otherwise the first type argument must
   * be assignable to the element type. Reading the type arguments of a raw field, or casting a
   * first type argument that is not a class, throws ClassCastException.
   */
  function CollectionPredicate(q: CollectionQuery, ts: TypeSystem, target: TypeName, f: Field, tc: int): Result<Option<bool>> {
    if !ModifierMatches(q.isStatic, f.isStatic) then Ok(None)
    else if !ModifierMatches(q.isPublic, f.isPublic) then Ok(Some(false))
    else if !q.allowSuper && f.declaring != target then Ok(Some(false))
    else if q.skip > tc then Ok(Some(false))
    else if !ts.assignableFrom(q.collectionType, f.fieldType) then Ok(Some(false))
    else if f.typeArguments.None? then Throw(ClassCast)
    else if |f.typeArguments.value| == 0 then Throw(IndexOutOfBounds)
    else if f.typeArguments.value[0].OtherArgument? then Throw(ClassCast)
    else Ok(Some(ts.assignableFrom(q.genericType, f.typeArguments.value[0].name)))
  }

  /**
   * Once a field passes every filter, the predicate throws ClassCastException exactly when the
   * field is raw or its first type argument is not a class.
   */
  lemma CollectionCastFails(q: CollectionQuery, ts: TypeSystem, target: TypeName, f: Field, tc: int)
    requires ModifierMatches(q.isStatic, f.isStatic) && ModifierMatches(q.isPublic, f.isPublic)
    requires (q.allowSuper || f.declaring == target) && q.skip <= tc && ts.assignableFrom(q.collectionType, f.fieldType)
    ensures CollectionPredicate(q, ts, target, f, tc) == Throw(ClassCast) <==>
      f.typeArguments.None? || (|f.typeArguments.value| > 0 && f.typeArguments.value[0].OtherArgument?)
    ensures CollectionPredicate(q, ts, target, f, tc).Ok? <==> Parameterized(f)
  {
  }

  /** The named predicate: collection-assignable and a case-insensitively equal name. */
  function NamedCollectionPredicate(ts: TypeSystem, collectionType: TypeName, name: string, f: Field, tc: int): (r: Option<bool>)
    ensures r.Some?
    ensures r.value <==> ts.assignableFrom(collectionType, f.fieldType) && ToLower(f.name) == ToLower(name)
  {
    EqualsIgnoreCaseIffLowerEqual(f.name, name);
    if !ts.assignableFrom(collectionType, f.fieldType) then Some(false)
    else Some(EqualsIgnoreCase(f.name, name))
  }

  /** The constructor: AFieldHandle over the target with the typed predicate. */
  function Locate(target: Option<ClassInfo>, q: CollectionQuery, ts: TypeSystem): Result<Field> {
    var t := if target.Some? then target.value.name else "";
    AFieldHandle.Locate(target, (f, tc) => CollectionPredicate(q, ts, t, f, tc))
  }

  predicate Counted(q: CollectionQuery, f: Field) {
    ModifierMatches(q.isStatic, f.isStatic)
  }

  /** The field's generic type is parameterized and its first type argument is a class. */
  predicate Parameterized(f: Field) {
    f.typeArguments.Some? && |f.typeArguments.value| > 0 && f.typeArguments.value[0].ClassArgument?
  }

  predicate Accepted(q: CollectionQuery, ts: TypeSystem, target: TypeName, f: Field)
    requires Parameterized(f)
  {
    ModifierMatches(q.isPublic, f.isPublic) && (q.allowSuper || f.declaring == target)
    && ts.assignableFrom(q.collectionType, f.fieldType) && ts.assignableFrom(q.genericType, f.typeArguments.value[0].name)
  }

  /** A selected field is collection-assignable, its element type fits, and it passed every filter. */
  lemma SelectedFieldFits(target: ClassInfo, q: CollectionQuery, ts: TypeSystem)
    ensures Locate(Some(target), q, ts).Ok? ==>
      var f := Locate(Some(target), q, ts).value;
      Parameterized(f) && Counted(q, f) && Accepted(q, ts, target.name, f)
  {
    AFieldHandle.LocateAccepted(Some(target), (f, tc) => CollectionPredicate(q, ts, target.name, f, tc));
  }

  /**
   * When every collection-assignable field of the hierarchy is parameterized with a class first
   * argument (other fields are arbitrary), the handle takes the earliest field that fits and has
   * at least `skip` earlier non-excluded fields of its exact type.
   */
  lemma CollectionSelects(target: ClassInfo, q: CollectionQuery, ts: TypeSystem)
    requires forall f :: f in WalkFields(target) && ts.assignableFrom(q.collectionType, f.fieldType) ==> Parameterized(f)
    ensures var fs := WalkFields(target);
      var counted := (g: Field) => Counted(q, g);
      var accept := (g: Field) => Parameterized(g) && Accepted(q, ts, target.name, g);
      var r := Locate(Some(target), q, ts);
      (r.Ok? <==> exists j :: AFieldHandle.Selectable(fs, counted, accept, q.skip, map[], j))
      && (r.Ok? ==> exists j :: (AFieldHandle.Selectable(fs, counted, accept, q.skip, map[], j) && fs[j] == r.value
            && forall i :: 0 <= i < j ==> !AFieldHandle.Selectable(fs, counted, accept, q.skip, map[], i)))
      && (r.Throw? ==> r.ex == NoSuchField)
  {
    var fs := WalkFields(target);
    var counted := (g: Field) => Counted(q, g);
    var accept := (g: Field) => Parameterized(g) && Accepted(q, ts, target.name, g);
    var p := (f: Field, tc: int) => CollectionPredicate(q, ts, target.name, f, tc);
    var typed := AFieldHandle.TypedSkip(counted, accept, q.skip);
    forall i, tc | 0 <= i < |fs| ensures p(fs[i], tc) == typed(fs[i], tc) {
      assert fs[i] in fs;
    }
    AFieldHandle.SearchTypedPointwise(fs, p, typed, map[]);
    AFieldHandle.TypedSkipSelects(fs, counted, accept, q.skip, map[]);
  }
}
