/** handle/ScalarFieldHandle: the predicates of a plain (non-generic) field query. */
module ScalarFieldHandle {
  import opened Wrappers
  import opened Reflect
  import opened JavaStrings
  import AFieldHandle

  datatype ScalarQuery = ScalarQuery(
    fieldType: TypeName,
    skip: int,
    allowSuper: bool,
    isStatic: Option<bool>,
    isPublic: Option<bool>)

  /**
   * The typed predicate over a field, the is-in-superclass flag and the type counter:
   * a static mismatch excludes (null); a public mismatch, a disallowed superclass field or a
   * counter below skip rejects (false); otherwise the query type must be assignable from the field's.
   */
  function ScalarPredicate(q: ScalarQuery, ts: TypeSystem, f: Field, inSuperclass: bool, tc: int): Option<bool> {
    if !ModifierMatches(q.isStatic, f.isStatic) then None
    else if !ModifierMatches(q.isPublic, f.isPublic) then Some(false)
    else if inSuperclass && !q.allowSuper then Some(false)
    else if q.skip > tc then Some(false)
    else Some(ts.assignableFrom(q.fieldType, f.fieldType))
  }

  /** The named predicate: true exactly for a case-insensitively equal name. */
  function NamedScalarPredicate(name: string, f: Field, inSuperclass: bool, tc: int): (r: Option<bool>)
    ensures r.Some?
    ensures r.value <==> ToLower(f.name) == ToLower(name)
  {
    EqualsIgnoreCaseIffLowerEqual(f.name, name);
    Some(EqualsIgnoreCase(f.name, name))
  }

  /** Null exactly on a static mismatch, so statically mismatched fields never move a counter. */
  lemma ScalarExcludesOnStaticMismatch(q: ScalarQuery, ts: TypeSystem, f: Field, inSuperclass: bool, tc: int)
    ensures ScalarPredicate(q, ts, f, inSuperclass, tc).None? <==> !ModifierMatches(q.isStatic, f.isStatic)
  {
  }

  /** The skip test comes before the type test: below skip even a field of an unrelated type yields false and is counted. */
  lemma ScalarSkipBeforeType(q: ScalarQuery, ts: TypeSystem, f: Field, tc: int)
    requires ModifierMatches(q.isStatic, f.isStatic)
    requires q.skip > tc
    ensures ScalarPredicate(q, ts, f, false, tc) == Some(false)
  {
  }

  /** The predicate is an instance of the typed counting rule, with the static filter as "counted". */
  lemma ScalarIsTypedSkip(q: ScalarQuery, ts: TypeSystem, inSuperclass: bool, f: Field, tc: int)
    ensures Ok(ScalarPredicate(q, ts, f, inSuperclass, tc))
      == AFieldHandle.TypedSkip(
           (g: Field) => ModifierMatches(q.isStatic, g.isStatic),
           (g: Field) => ModifierMatches(q.isPublic, g.isPublic) && !(inSuperclass && !q.allowSuper) && ts.assignableFrom(q.fieldType, g.fieldType),
           q.skip)(f, tc)
  {
  }

  /**
   * The constructor: AFieldHandle over the target. AFieldHandle hands the predicate no
   * is-in-superclass flag; the model passes "declared outside the target".
   */
  function Locate(target: Option<ClassInfo>, q: ScalarQuery, ts: TypeSystem): Result<Field> {
    var t := if target.Some? then target.value.name else "";
    AFieldHandle.Locate(target, (f: Field, tc: int) => Ok(ScalarPredicate(q, ts, f, f.declaring != t, tc)))
  }

  /** The named constructor over the same walk. */
  function LocateNamed(target: Option<ClassInfo>, name: string): Result<Field> {
    AFieldHandle.Locate(target, (f: Field, tc: int) => Ok(NamedScalarPredicate(name, f, false, tc)))
  }

  /**
   * The named handle holds the first walked field whose name equals the requested one ignoring
   * case; NoSuchField without one, IllegalState without a target.
   */
  lemma NamedScalarSelects(target: Option<ClassInfo>, name: string)
    ensures target.None? ==> LocateNamed(target, name) == Throw(IllegalState)
    ensures target.Some? ==>
      var m := FirstMatch(WalkFields(target.value), (f: Field) => ToLower(f.name) == ToLower(name));
      LocateNamed(target, name) == if m.Some? then Ok(m.value) else Throw(NoSuchField)
  {
    if target.Some? {
      var fs := WalkFields(target.value);
      var accept := (f: Field) => ToLower(f.name) == ToLower(name);
      var pred := (f: Field, tc: int) => Ok(NamedScalarPredicate(name, f, false, tc));
      AFieldHandle.UncountedSelects(fs, pred, accept, map[]);
    }
  }

  /** A field is taken exactly when every filter passes, the counter reached skip and the type is assignable. */
  lemma ScalarTakes(q: ScalarQuery, ts: TypeSystem, f: Field, inSuperclass: bool, tc: int)
    ensures ScalarPredicate(q, ts, f, inSuperclass, tc) == Some(true)
      <==> ModifierMatches(q.isStatic, f.isStatic) && ModifierMatches(q.isPublic, f.isPublic)
           && (!inSuperclass || q.allowSuper) && tc >= q.skip && ts.assignableFrom(q.fieldType, f.fieldType)
  {
  }
}
