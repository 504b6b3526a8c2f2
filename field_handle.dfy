/**
 * handle/FieldHandle: walks the class and its superclasses and asks a predicate about each
 * declared field with a skip counter shared by the whole walk. A null verdict means "would
 * match, but is skipped": it advances the counter. False passes over the field, true takes it.
 */
module FieldHandle {
  import opened Wrappers
  import opened Reflect

  /** IFieldPredicate as FieldHandle calls it: a field and the counter, to null, false or true. */
  type FieldPredicate = (Field, int) -> Option<bool>

  /** The shared-counter search over candidates in walk order. */
  function SearchCounted<T>(xs: seq<T>, pred: (T, int) -> Option<bool>, counter: int): (r: Option<T>)
    ensures r.Some? ==> r.value in xs
  {
    if xs == [] then None
    else match pred(xs[0], counter)
      case None => SearchCounted(xs[1..], pred, counter + 1)
      case Some(take) => if take then Some(xs[0]) else SearchCounted(xs[1..], pred, counter)
  }

  /** The counter after searching `xs` without a take. */
  function CounterAfter<T>(xs: seq<T>, pred: (T, int) -> Option<bool>, counter: int): int {
    if xs == [] then counter
    else match pred(xs[0], counter)
      case None => CounterAfter(xs[1..], pred, counter + 1)
      case Some(take) => if take then counter else CounterAfter(xs[1..], pred, counter)
  }

  /** What the constructor yields: IllegalStateException for a null target, NoSuchFieldException without a take. */
  function Locate(target: Option<ClassInfo>, pred: FieldPredicate): Result<Field> {
    if target.None? then Throw(IllegalState)
    else match SearchCounted(WalkFields(target.value), pred, 0)
      case Some(f) => Ok(f)
      case None => Throw(NoSuchField)
  }

  /** The constructor's walk: classes from the target upward, declared fields in order. */
  method NewFieldHandle(target: Option<ClassInfo>, pred: FieldPredicate) returns (r: Result<Field>)
    ensures r == Locate(target, pred)
  {
    if target.None? {
      return Throw(IllegalState);
    }
    ghost var spec := SearchCounted(WalkFields(target.value), pred, 0);
    var counter := 0;
    var res: Option<Field> := None;
    var curr := target;
    while res.None? && curr.Some? && curr.value.name != ObjectName
      invariant res.None? ==> SearchCounted(FieldsOf(ChainFrom(curr)), pred, counter) == spec
      invariant res.Some? ==> res == spec
      decreases |ChainFrom(curr)|
    {
      var c := curr.value;
      var fs := c.fields;
      assert FieldsOf(ChainFrom(curr)) == fs + FieldsOf(ChainFrom(c.superclass));
      var i := 0;
      while i < |fs|
        invariant 0 <= i <= |fs|
        invariant res.None? ==> SearchCounted(fs[i..] + FieldsOf(ChainFrom(c.superclass)), pred, counter) == spec
        invariant res.Some? ==> res == spec
      {
        ghost var rest := fs[i..] + FieldsOf(ChainFrom(c.superclass));
        assert rest[0] == fs[i] && rest[1..] == fs[i + 1..] + FieldsOf(ChainFrom(c.superclass));
        var verdict := pred(fs[i], counter);
        if verdict.None? {
          counter := counter + 1;
        } else if verdict.value {
          res := Some(fs[i]);
          break;
        }
        i := i + 1;
      }
      assert res.None? ==> fs[i..] + FieldsOf(ChainFrom(c.superclass)) == FieldsOf(ChainFrom(c.superclass));
      curr := c.superclass;
    }
    if res.None? {
      return Throw(NoSuchField);
    }
    return Ok(res.value);
  }

  /** The counter is one for the whole walk: the search over one class continues into the next with the counter reached so far. */
  lemma {:induction false} SearchCountedAppend<T>(a: seq<T>, b: seq<T>, pred: (T, int) -> Option<bool>, counter: int)
    ensures SearchCounted(a + b, pred, counter)
      == if SearchCounted(a, pred, counter).Some? then SearchCounted(a, pred, counter)
         else SearchCounted(b, pred, CounterAfter(a, pred, counter))
  {
    if a == [] {
      assert a + b == b;
    } else {
      assert (a + b)[0] == a[0] && (a + b)[1..] == a[1..] + b;
      match pred(a[0], counter)
      case None => SearchCountedAppend(a[1..], b, pred, counter + 1);
      case Some(take) => if !take { SearchCountedAppend(a[1..], b, pred, counter); }
    }
  }

  /** The first field yielding true is taken; nothing after it is examined. */
  lemma SearchStopsAtFirstTake<T>(a: seq<T>, x: T, b: seq<T>, pred: (T, int) -> Option<bool>)
    requires SearchCounted(a, pred, 0).None?
    requires pred(x, CounterAfter(a, pred, 0)) == Some(true)
    ensures SearchCounted(a + [x] + b, pred, 0) == Some(x)
  {
    SearchCountedAppend(a, [x] + b, pred, 0);
    assert a + [x] + b == a + ([x] + b);
  }

  function Filter<T>(xs: seq<T>, p: T -> bool): (r: seq<T>)
    ensures |r| <= |xs|
    ensures forall y :: y in r ==> y in xs && p(y)
  {
    if xs == [] then [] else (if p(xs[0]) then [xs[0]] else []) + Filter(xs[1..], p)
  }

  /** The predicate shape of a skip query: false for an ineligible candidate, null while the counter is below `skip`, then true. */
  function SkipPredicate<T>(eligible: T -> bool, skip: int): (T, int) -> Option<bool> {
    (x: T, c: int) => if !eligible(x) then Some(false) else if skip > c then None else Some(true)
  }

  /** With a skip predicate the search takes the (skip+1)-th eligible candidate in walk order. */
  lemma {:induction false} SkipSelectsNth<T>(xs: seq<T>, eligible: T -> bool, skip: int, counter: int)
    ensures var m := Filter(xs, eligible);
      var n := if skip > counter then skip - counter else 0;
      SearchCounted(xs, SkipPredicate(eligible, skip), counter) == if n < |m| then Some(m[n]) else None
  {
    if xs != [] {
      var p := SkipPredicate(eligible, skip);
      if eligible(xs[0]) {
        if skip > counter {
          SkipSelectsNth(xs[1..], eligible, skip, counter + 1);
        }
      } else {
        SkipSelectsNth(xs[1..], eligible, skip, counter);
      }
    }
  }

  /** FieldHandle with a skip predicate picks the (skip+1)-th eligible field of the whole hierarchy. */
  lemma FieldHandleSkip(target: ClassInfo, eligible: Field -> bool, skip: nat)
    ensures var m := Filter(WalkFields(target), eligible);
      Locate(Some(target), SkipPredicate(eligible, skip)) == if skip < |m| then Ok(m[skip]) else Throw(NoSuchField)
  {
    SkipSelectsNth(WalkFields(target), eligible, skip, 0);
  }
}
