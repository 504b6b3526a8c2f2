/**
 * handle/AFieldHandle: walks the hierarchy with one counter per exact declared field type.
 * Here a false verdict counts the field (its type's counter advances), null excludes it without
 * counting, and true takes it: the opposite reading of null to FieldHandle's.
 */
module AFieldHandle {
  import opened Wrappers
  import opened Reflect

  type Counters = map<TypeName, int>

  /** The two-argument predicate AFieldHandle calls: a field and its type's counter. It may throw. */
  type TypedFieldPredicate = (Field, int) -> Result<Option<bool>>

  /** Map.getOrDefault(type, 0). */
  function CountOf(cs: Counters, t: TypeName): int {
    if t in cs then cs[t] else 0
  }

  function SearchTyped(fs: seq<Field>, pred: TypedFieldPredicate, cs: Counters): (r: Result<Option<Field>>)
    ensures r.Ok? && r.value.Some? ==> r.value.value in fs
    ensures r.Ok? && r.value.Some? ==> exists tc :: pred(r.value.value, tc) == Ok(Some(true))
  {
    if fs == [] then Ok(None)
    else
      var f := fs[0];
      var tc := CountOf(cs, f.fieldType);
      match pred(f, tc)
      case Throw(e) => Throw(e)
      case Ok(None) => SearchTyped(fs[1..], pred, cs)
      case Ok(Some(take)) =>
        if take then Ok(Some(f)) else SearchTyped(fs[1..], pred, cs[f.fieldType := tc + 1])
  }

  function Locate(target: Option<ClassInfo>, pred: TypedFieldPredicate): Result<Field> {
    if target.None? then Throw(IllegalState)
    else match SearchTyped(WalkFields(target.value), pred, map[])
      case Throw(e) => Throw(e)
      case Ok(found) => if found.Some? then Ok(found.value) else Throw(NoSuchField)
  }

  /**
   * The scan over the fields one class declares, continuing a walk whose remaining classes hold
   * `tail`: a throw or a take ends the walk, otherwise it goes on with the counters reached.
   */
  method ScanTyped(fs: seq<Field>, ghost tail: seq<Field>, pred: TypedFieldPredicate, cs: Counters)
    returns (r: Result<Option<Field>>, counters: Counters)
    ensures r != Ok(None) ==> r == SearchTyped(fs + tail, pred, cs)
    ensures r == Ok(None) ==> SearchTyped(fs + tail, pred, cs) == SearchTyped(tail, pred, counters)
  {
    counters := cs;
    var i := 0;
    assert fs[0..] == fs;
    while i < |fs|
      invariant 0 <= i <= |fs|
      invariant SearchTyped(fs[i..] + tail, pred, counters) == SearchTyped(fs + tail, pred, cs)
    {
      SuffixStep(fs, i, tail);
      var f := fs[i];
      var typeCounter := CountOf(counters, f.fieldType);
      var result := pred(f, typeCounter);
      if result.Throw? {
        return Throw(result.ex), counters;
      }
      if result.value.Some? && result.value.value {
        return Ok(Some(f)), counters;
      }
      if result.value.Some? {
        counters := counters[f.fieldType := typeCounter + 1];
      }
      i := i + 1;
    }
    assert fs[i..] + tail == tail;
    return Ok(None), counters;
  }

  method NewAFieldHandle(target: Option<ClassInfo>, pred: TypedFieldPredicate) returns (r: Result<Field>)
    ensures r == Locate(target, pred)
  {
    if target.None? {
      return Throw(IllegalState);
    }
    ghost var spec := SearchTyped(WalkFields(target.value), pred, map[]);
    var typeCounters: Counters := map[];
    var curr := target;
    while curr.Some? && curr.value.name != ObjectName
      invariant SearchTyped(FieldsOf(ChainFrom(curr)), pred, typeCounters) == spec
      decreases |ChainFrom(curr)|
    {
      var c := curr.value;
      FieldWalkStep(c);
      var res;
      res, typeCounters := ScanTyped(c.fields, FieldsOf(ChainFrom(c.superclass)), pred, typeCounters);
      if res.Throw? {
        return Throw(res.ex);
      }
      if res.value.Some? {
        return Ok(res.value.value);
      }
      curr := c.superclass;
    }
    return Throw(NoSuchField);
  }

  /** A field that is taken was accepted by the predicate at the counter reached for its type. */
  lemma LocateAccepted(target: Option<ClassInfo>, pred: TypedFieldPredicate)
    ensures Locate(target, pred).Ok? ==>
      target.Some? && Locate(target, pred).value in WalkFields(target.value)
      && exists tc :: pred(Locate(target, pred).value, tc) == Ok(Some(true))
  {
  }

  /** Predicates that agree on every field of the walk give the same search. */
  lemma {:induction false} SearchTypedPointwise(fs: seq<Field>, p: TypedFieldPredicate, q: TypedFieldPredicate, cs: Counters)
    requires forall i, tc :: 0 <= i < |fs| ==> p(fs[i], tc) == q(fs[i], tc)
    ensures SearchTyped(fs, p, cs) == SearchTyped(fs, q, cs)
  {
    if fs != [] {
      var tc := CountOf(cs, fs[0].fieldType);
      assert p(fs[0], tc) == q(fs[0], tc);
      forall i, c | 0 <= i < |fs[1..]| ensures p(fs[1..][i], c) == q(fs[1..][i], c) {
        assert fs[1..][i] == fs[i + 1];
      }
      SearchTypedPointwise(fs[1..], p, q, cs);
      SearchTypedPointwise(fs[1..], p, q, cs[fs[0].fieldType := tc + 1]);
    }
  }

  /** A predicate that never excludes and ignores the counter selects the first field it accepts. */
  lemma {:induction false} UncountedSelects(fs: seq<Field>, pred: TypedFieldPredicate, accept: Field -> bool, cs: Counters)
    requires forall i, tc :: 0 <= i < |fs| ==> pred(fs[i], tc) == Ok(Some(accept(fs[i])))
    ensures SearchTyped(fs, pred, cs) == Ok(FirstMatch(fs, accept))
  {
    if fs != [] {
      var tc := CountOf(cs, fs[0].fieldType);
      assert pred(fs[0], tc) == Ok(Some(accept(fs[0])));
      forall i, c | 0 <= i < |fs[1..]| ensures pred(fs[1..][i], c) == Ok(Some(accept(fs[1..][i]))) {
        assert fs[1..][i] == fs[i + 1];
      }
      UncountedSelects(fs[1..], pred, accept, cs[fs[0].fieldType := tc + 1]);
    }
  }

  // ---------------------------------------------------------------------------
  // The counting rule for predicates of the shape the concrete field handles use:
  // not counted -> null; otherwise true exactly when the counter reached `skip` and
  // the field is accepted, false (and counted) when not.
  // ---------------------------------------------------------------------------

  function TypedSkip(counted: Field -> bool, accept: Field -> bool, skip: int): TypedFieldPredicate {
    (f: Field, tc: int) => if !counted(f) then Ok(None) else Ok(Some(skip <= tc && accept(f)))
  }

  /** How many counted fields of type `t` a prefix holds. */
  function CountTyped(xs: seq<Field>, counted: Field -> bool, t: TypeName): nat {
    if xs == [] then 0
    else (if counted(xs[0]) && xs[0].fieldType == t then 1 else 0) + CountTyped(xs[1..], counted, t)
  }

  /** Field j can be taken: it is counted and accepted, and enough counted fields of its own type came before it. */
  predicate Selectable(fs: seq<Field>, counted: Field -> bool, accept: Field -> bool, skip: int, cs: Counters, j: int) {
    0 <= j < |fs| && counted(fs[j]) && accept(fs[j])
    && CountOf(cs, fs[j].fieldType) + CountTyped(fs[..j], counted, fs[j].fieldType) >= skip
  }

  lemma ShiftSelectable(fs: seq<Field>, counted: Field -> bool, accept: Field -> bool, skip: int, cs: Counters, cs': Counters, j: int)
    requires |fs| > 0 && 1 <= j < |fs|
    requires forall t :: CountOf(cs', t) == CountOf(cs, t) + (if counted(fs[0]) && fs[0].fieldType == t then 1 else 0)
    ensures Selectable(fs, counted, accept, skip, cs, j) <==> Selectable(fs[1..], counted, accept, skip, cs', j - 1)
  {
    assert fs[..j][0] == fs[0] && fs[..j][1..] == fs[1..][..j - 1];
  }

  /**
   * Under the counting rule the walk takes the earliest selectable field: a field is examined
   * with its type's counter equal to the number of counted fields of that exact type before it.
   */
  lemma {:induction false} TypedSkipSelects(fs: seq<Field>, counted: Field -> bool, accept: Field -> bool, skip: int, cs: Counters)
    ensures var r := SearchTyped(fs, TypedSkip(counted, accept, skip), cs);
      r.Ok?
      && (r.value.None? <==> forall j :: !Selectable(fs, counted, accept, skip, cs, j))
      && (r.value.Some? ==>
            exists j :: (Selectable(fs, counted, accept, skip, cs, j) && fs[j] == r.value.value
              && forall i :: 0 <= i < j ==> !Selectable(fs, counted, accept, skip, cs, i)))
  {
    var pred := TypedSkip(counted, accept, skip);
    if fs != [] {
      var f := fs[0];
      var tc := CountOf(cs, f.fieldType);
      assert fs[..0] == [];
      if Selectable(fs, counted, accept, skip, cs, 0) {
        assert SearchTyped(fs, pred, cs) == Ok(Some(f));
      } else {
        var cs' := if counted(f) then cs[f.fieldType := tc + 1] else cs;
        assert SearchTyped(fs, pred, cs) == SearchTyped(fs[1..], pred, cs');
        TypedSkipSelects(fs[1..], counted, accept, skip, cs');
        forall j | 1 <= j < |fs|
          ensures Selectable(fs, counted, accept, skip, cs, j) <==> Selectable(fs[1..], counted, accept, skip, cs', j - 1)
        {
          ShiftSelectable(fs, counted, accept, skip, cs, cs', j);
        }
        var r := SearchTyped(fs[1..], pred, cs');
        if r.value.Some? {
          var j :| Selectable(fs[1..], counted, accept, skip, cs', j) && fs[1..][j] == r.value.value
            && forall i :: 0 <= i < j ==> !Selectable(fs[1..], counted, accept, skip, cs', i);
          assert Selectable(fs, counted, accept, skip, cs, j + 1);
        } else {
          forall j ensures !Selectable(fs, counted, accept, skip, cs, j) {
            if 1 <= j < |fs| {
              assert !Selectable(fs[1..], counted, accept, skip, cs', j - 1);
            }
          }
        }
      }
    }
  }
}
