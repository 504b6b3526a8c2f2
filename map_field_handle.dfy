/** handle/MapFieldHandle: the predicates of a map field query with key and value types. */
module MapFieldHandle {
  import opened Wrappers
  import opened Reflect
  import opened JavaStrings
  import AFieldHandle

  datatype MapQuery = MapQuery(
    keyType: TypeName,
    valueType: TypeName,
    mapType: TypeName,
    skip: int,
    allowSuper: bool,
    isStatic: Option<bool>,
    isPublic: Option<bool>)

  /**
   * The typed predicate over a field, the is-in-superclass flag and the type counter. After the
   * filters, the field type must be assignable to the map type and the two type arguments to the
   * key and value types, evaluated left to right with short-circuit: reading the type arguments
   * of a raw field, or casting a type argument that is not a class, throws ClassCastException,
   * and the value argument is read only once the key argument fits.
   */
  function MapPredicate(q: MapQuery, ts: TypeSystem, f: Field, inSuperclass: bool, tc: int): Result<Option<bool>> {
    if !ModifierMatches(q.isStatic, f.isStatic) then Ok(None)
    else if !ModifierMatches(q.isPublic, f.isPublic) then Ok(Some(false))
    else if inSuperclass && !q.allowSuper then Ok(Some(false))
    else if q.skip > tc then Ok(Some(false))
    else if !ts.assignableFrom(q.mapType, f.fieldType) then Ok(Some(false))
    else if f.typeArguments.None? then Throw(ClassCast)
    else
      var args := f.typeArguments.value;
      if |args| == 0 then Throw(IndexOutOfBounds)
      else if args[0].OtherArgument? then Throw(ClassCast)
      else if !ts.assignableFrom(q.keyType, args[0].name) then Ok(Some(false))
      else if |args| < 2 then Throw(IndexOutOfBounds)
      else if args[1].OtherArgument? then Throw(ClassCast)
      else Ok(Some(ts.assignableFrom(q.valueType, args[1].name)))
  }

  /** The named predicate: the exact map type (no assignability) and a case-insensitively equal name. */
  function NamedMapPredicate(name: string, mapType: TypeName, f: Field, inSuperclass: bool, tc: int): (r: Option<bool>)
    ensures r.Some?
    ensures r.value <==> f.fieldType == mapType && ToLower(f.name) == ToLower(name)
  {
    EqualsIgnoreCaseIffLowerEqual(f.name, name);
    if f.fieldType != mapType then Some(false) else Some(EqualsIgnoreCase(f.name, name))
  }

  /**
   * The constructor: AFieldHandle over the target. AFieldHandle hands the predicate no
   * is-in-superclass flag; the model passes "declared outside the target".
   */
  function Locate(target: Option<ClassInfo>, q: MapQuery, ts: TypeSystem): Result<Field> {
    var t := if target.Some? then target.value.name else "";
    AFieldHandle.Locate(target, (f: Field, tc: int) => MapPredicate(q, ts, f, f.declaring != t, tc))
  }

  /** The field's generic type is parameterized with at least two type arguments, both classes. */
  predicate MapParameterized(f: Field) {
    f.typeArguments.Some? && |f.typeArguments.value| >= 2
    && f.typeArguments.value[0].ClassArgument? && f.typeArguments.value[1].ClassArgument?
  }

  /** A taken field has an assignable map type and fitting key and value type arguments. */
  lemma MapTakes(q: MapQuery, ts: TypeSystem, f: Field, inSuperclass: bool, tc: int)
    ensures MapPredicate(q, ts, f, inSuperclass, tc) == Ok(Some(true)) <==>
      ModifierMatches(q.isStatic, f.isStatic) && ModifierMatches(q.isPublic, f.isPublic)
      && (!inSuperclass || q.allowSuper) && tc >= q.skip
      && ts.assignableFrom(q.mapType, f.fieldType)
      && MapParameterized(f)
      && ts.assignableFrom(q.keyType, f.typeArguments.value[0].name)
      && ts.assignableFrom(q.valueType, f.typeArguments.value[1].name)
  {
  }

  /**
   * Once a field passes every filter, the predicate throws ClassCastException exactly when the
   * field is raw, its key argument is not a class, or its key fits and its value argument is
   * not a class.
   */
  lemma MapCastFails(q: MapQuery, ts: TypeSystem, f: Field, inSuperclass: bool, tc: int)
    requires ModifierMatches(q.isStatic, f.isStatic) && ModifierMatches(q.isPublic, f.isPublic)
    requires (!inSuperclass || q.allowSuper) && q.skip <= tc && ts.assignableFrom(q.mapType, f.fieldType)
    requires f.typeArguments.Some? ==> |f.typeArguments.value| >= 2
    ensures MapPredicate(q, ts, f, inSuperclass, tc) == Throw(ClassCast) <==>
      f.typeArguments.None? || f.typeArguments.value[0].OtherArgument?
      || (ts.assignableFrom(q.keyType, f.typeArguments.value[0].name) && f.typeArguments.value[1].OtherArgument?)
  {
  }

  /** The exclusions and rejections come before the type arguments are read: such fields never throw. */
  lemma MapFiltersBeforeCast(q: MapQuery, ts: TypeSystem, f: Field, inSuperclass: bool, tc: int)
    requires !ModifierMatches(q.isPublic, f.isPublic) || (inSuperclass && !q.allowSuper) || q.skip > tc
    ensures MapPredicate(q, ts, f, inSuperclass, tc) == if ModifierMatches(q.isStatic, f.isStatic) then Ok(Some(false)) else Ok(None)
  {
  }

  predicate MapCounted(q: MapQuery, f: Field) {
    ModifierMatches(q.isStatic, f.isStatic)
  }

  predicate MapAccepted(q: MapQuery, ts: TypeSystem, target: TypeName, f: Field)
    requires MapParameterized(f)
  {
    ModifierMatches(q.isPublic, f.isPublic) && (q.allowSuper || f.declaring == target)
    && ts.assignableFrom(q.mapType, f.fieldType)
    && ts.assignableFrom(q.keyType, f.typeArguments.value[0].name)
    && ts.assignableFrom(q.valueType, f.typeArguments.value[1].name)
  }

  /**
   * When every map-assignable field of the hierarchy carries two class type arguments (other
   * fields are arbitrary), the handle takes the earliest field that fits and has at least `skip`
   * earlier non-excluded fields of its exact type.
   */
  lemma MapSelects(target: ClassInfo, q: MapQuery, ts: TypeSystem)
    requires forall f :: f in WalkFields(target) && ts.assignableFrom(q.mapType, f.fieldType) ==> MapParameterized(f)
    ensures var fs := WalkFields(target);
      var counted := (g: Field) => MapCounted(q, g);
      var accept := (g: Field) => MapParameterized(g) && MapAccepted(q, ts, target.name, g);
      var r := Locate(Some(target), q, ts);
      (r.Ok? <==> exists j :: AFieldHandle.Selectable(fs, counted, accept, q.skip, map[], j))
      && (r.Ok? ==> exists j :: (AFieldHandle.Selectable(fs, counted, accept, q.skip, map[], j) && fs[j] == r.value
            && forall i :: 0 <= i < j ==> !AFieldHandle.Selectable(fs, counted, accept, q.skip, map[], i)))
      && (r.Throw? ==> r.ex == NoSuchField)
  {
    var fs := WalkFields(target);
    var counted := (g: Field) => MapCounted(q, g);
    var accept := (g: Field) => MapParameterized(g) && MapAccepted(q, ts, target.name, g);
    var p := (f: Field, tc: int) => MapPredicate(q, ts, f, f.declaring != target.name, tc);
    var typed := AFieldHandle.TypedSkip(counted, accept, q.skip);
    forall i, tc | 0 <= i < |fs| ensures p(fs[i], tc) == typed(fs[i], tc) {
      assert fs[i] in fs;
      MapTakes(q, ts, fs[i], fs[i].declaring != target.name, tc);
    }
    AFieldHandle.SearchTypedPointwise(fs, p, typed, map[]);
    AFieldHandle.TypedSkipSelects(fs, counted, accept, q.skip, map[]);
  }
}
