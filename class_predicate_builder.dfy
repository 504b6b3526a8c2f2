/**
 * handle/ClassPredicateBuilder: a builder whose predicate over candidate classes uses the
 * shared-counter skip rule: a class passing the filters yields null (counted) while the counter
 * is below skip, then true.
 */
module ClassPredicateBuilder {
  import opened Wrappers
  import opened Reflect
  import FieldHandle

  datatype ClassQuery = ClassQuery(target: ClassInfo, isPublic: Option<bool>, isStatic: Option<bool>, skip: int)

  predicate PassesFilters(q: ClassQuery, c: ClassInfo) {
    ModifierMatches(q.isStatic, c.isStatic) && ModifierMatches(q.isPublic, c.isPublic)
  }

  /** The tri-state predicate: false on a modifier mismatch, null while skip > counter, else true. */
  function ClassPredicate(q: ClassQuery, c: ClassInfo, counter: int): Option<bool> {
    if !ModifierMatches(q.isStatic, c.isStatic) then Some(false)
    else if !ModifierMatches(q.isPublic, c.isPublic) then Some(false)
    else if q.skip > counter then None
    else Some(true)
  }

  /**
   * required(): the predicate is evaluated over the candidate classes in order with one shared
   * counter starting at 0; a missing match is a reflection failure.
   */
  function Required(q: ClassQuery, candidates: seq<ClassInfo>): Result<ClassInfo> {
    match FieldHandle.SearchCounted(candidates, (c, n) => ClassPredicate(q, c, n), 0)
    case Some(c) => Ok(c)
    case None => Throw(ReflectionFailure)
  }

  function Optional(q: ClassQuery, candidates: seq<ClassInfo>): Result<Option<ClassInfo>> {
    match Required(q, candidates)
    case Ok(c) => Ok(Some(c))
    case Throw(e) => if e == IncompletePredicateBuilder then Throw(e) else Ok(None)
  }

  class Builder {
    var target: ClassInfo
    var isPublic: Option<bool>
    var isStatic: Option<bool>
    var skip: int

    function Query(): ClassQuery
      reads this
    {
      ClassQuery(target, isPublic, isStatic, skip)
    }

    /** A fresh builder: both modifier filters are wildcards and nothing is skipped. */
    constructor(target: ClassInfo)
      ensures Query() == ClassQuery(target, None, None, 0)
    {
      this.target := target;
      isPublic := None;
      isStatic := None;
      skip := 0;
    }

    method WithPublic(mode: Option<bool>)
      modifies this
      ensures Query() == old(Query()).(isPublic := mode)
    {
      isPublic := mode;
    }

    method WithStatic(mode: Option<bool>)
      modifies this
      ensures Query() == old(Query()).(isStatic := mode)
    {
      isStatic := mode;
    }

    method WithSkip(n: int)
      modifies this
      ensures Query() == old(Query()).(skip := n)
    {
      skip := n;
    }
  }

  /** The predicate is FieldHandle's skip predicate over the classes that pass both filters. */
  lemma IsSkipPredicate(q: ClassQuery, c: ClassInfo, counter: int)
    ensures ClassPredicate(q, c, counter) == FieldHandle.SkipPredicate((d: ClassInfo) => PassesFilters(q, d), q.skip)(c, counter)
  {
  }

  /**
   * required() yields the (skip+1)-th candidate that passes the filters (the first with the
   * default skip of 0); optional() never throws and yields null when there are too few.
   */
  lemma SelectsNth(q: ClassQuery, candidates: seq<ClassInfo>)
    ensures var m := FieldHandle.Filter(candidates, (d: ClassInfo) => PassesFilters(q, d));
      var n := if q.skip > 0 then q.skip else 0;
      && Required(q, candidates) == (if n < |m| then Ok(m[n]) else Throw(ReflectionFailure))
      && Optional(q, candidates) == (if n < |m| then Ok(Some(m[n])) else Ok(None))
  {
    var eligible := (d: ClassInfo) => PassesFilters(q, d);
    var p := (c: ClassInfo, n: int) => ClassPredicate(q, c, n);
    SearchCountedPointwise(candidates, p, FieldHandle.SkipPredicate(eligible, q.skip), 0);
    FieldHandle.SkipSelectsNth(candidates, eligible, q.skip, 0);
  }

  /** Two predicates that agree everywhere give the same shared-counter search. */
  lemma {:induction false} SearchCountedPointwise(xs: seq<ClassInfo>, p: (ClassInfo, int) -> Option<bool>, p': (ClassInfo, int) -> Option<bool>, counter: int)
    requires forall c, n :: p(c, n) == p'(c, n)
    ensures FieldHandle.SearchCounted(xs, p, counter) == FieldHandle.SearchCounted(xs, p', counter)
  {
    if xs != [] {
      SearchCountedPointwise(xs[1..], p, p', counter);
      SearchCountedPointwise(xs[1..], p, p', counter + 1);
    }
  }
}
