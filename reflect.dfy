/**
 * The host's reflective view of classes, reduced to plain values: a class is a record of
 * its declared fields, methods and constructors plus an optional superclass. Subtyping
 * (Class.isAssignableFrom) is an abstract relation; boxed types unwrap to primitives.
 */
module Reflect {
  import opened Wrappers

  /** A fully qualified class name; classes are identified by it. */
  type TypeName = string

  const ObjectName: TypeName := "java.lang.Object"

  /**
   * An actual type argument of a parameterized type: a class, or anything a cast to Class
   * refuses (a wildcard, a type variable, a parameterized or array type).
   */
  datatype TypeArgument = ClassArgument(name: TypeName) | OtherArgument

  datatype Field = Field(
    name: string,
    fieldType: TypeName,
    /** The actual type arguments when the generic type is parameterized, otherwise None. */
    typeArguments: Option<seq<TypeArgument>>,
    declaring: TypeName,
    isStatic: bool,
    isPublic: bool)

  datatype Method = Method(
    name: string,
    returnType: TypeName,
    parameterTypes: seq<TypeName>,
    declaring: TypeName,
    isStatic: bool,
    isPublic: bool)

  datatype Constructor = Constructor(
    parameterTypes: seq<TypeName>,
    declaring: TypeName,
    isPublic: bool)

  /** A host enum constant; its ordinal is its position within its own enum. */
  datatype EnumConstant = EnumConstant(name: string, ordinal: nat)

  datatype ClassInfo = ClassInfo(
    name: TypeName,
    isStatic: bool,
    isPublic: bool,
    hash: int,
    /** Class.getEnumConstants: None for a class that is not an enum. */
    enumConstants: Option<seq<EnumConstant>>,
    fields: seq<Field>,
    methods: seq<Method>,
    constructors: seq<Constructor>,
    superclass: Option<ClassInfo>)

  /** Class.isAssignableFrom as an abstract relation: assignableFrom(a, b) says a.isAssignableFrom(b). */
  datatype TypeSystem = TypeSystem(assignableFrom: (TypeName, TypeName) -> bool)

  /** Every class is assignable from itself. */
  ghost predicate Reflexive(ts: TypeSystem) {
    forall t :: ts.assignableFrom(t, t)
  }

  /** A tri-state modifier filter: null is a wildcard, otherwise the modifier must be present or absent as given. */
  predicate ModifierMatches(filter: Option<bool>, actual: bool) {
    filter.None? || filter.value == actual
  }

  /** Primitives.unwrap: a wrapper class becomes its primitive type, anything else is returned as is. */
  function Unwrap(t: TypeName): TypeName {
    match t
    case "java.lang.Boolean" => "boolean"
    case "java.lang.Byte" => "byte"
    case "java.lang.Character" => "char"
    case "java.lang.Double" => "double"
    case "java.lang.Float" => "float"
    case "java.lang.Integer" => "int"
    case "java.lang.Long" => "long"
    case "java.lang.Short" => "short"
    case "java.lang.Void" => "void"
    case _ => t
  }

  lemma UnwrapIdempotent(t: TypeName)
    ensures Unwrap(Unwrap(t)) == Unwrap(t)
  {
  }

  // ---------------------------------------------------------------------------
  // The hierarchy walk shared by the handles: the class itself, then each
  // superclass in turn, stopping before java.lang.Object.
  // ---------------------------------------------------------------------------

  function Chain(c: ClassInfo): (r: seq<ClassInfo>)
    ensures c.name != ObjectName ==> |r| >= 1 && r[0] == c
    ensures forall k :: 0 <= k < |r| ==> r[k].name != ObjectName
  {
    if c.name == ObjectName then []
    else [c] + (if c.superclass.Some? then Chain(c.superclass.value) else [])
  }

  /** The classes still to visit when the walk stands at `curr` (null or a class). */
  function ChainFrom(curr: Option<ClassInfo>): seq<ClassInfo> {
    if curr.None? then [] else Chain(curr.value)
  }

  function FieldsOf(cs: seq<ClassInfo>): seq<Field> {
    if cs == [] then [] else cs[0].fields + FieldsOf(cs[1..])
  }

  function MethodsOf(cs: seq<ClassInfo>): seq<Method> {
    if cs == [] then [] else cs[0].methods + MethodsOf(cs[1..])
  }

  /** Declared fields in walk order: most derived class first, declared order within a class. */
  function WalkFields(c: ClassInfo): seq<Field> {
    FieldsOf(Chain(c))
  }

  function WalkMethods(c: ClassInfo): seq<Method> {
    MethodsOf(Chain(c))
  }

  /** One step of the field walk: the class's own fields, then the walk from its superclass. */
  lemma FieldWalkStep(c: ClassInfo)
    requires c.name != ObjectName
    ensures |ChainFrom(c.superclass)| < |ChainFrom(Some(c))|
    ensures FieldsOf(ChainFrom(Some(c))) == c.fields + FieldsOf(ChainFrom(c.superclass))
  {
    assert Chain(c)[1..] == ChainFrom(c.superclass);
  }

  /** The remainder of a scan at position i: its head is xs[i] and its tail the remainder at i + 1. */
  lemma SuffixStep<T>(xs: seq<T>, i: nat, rest: seq<T>)
    requires i < |xs|
    ensures (xs[i..] + rest)[0] == xs[i]
    ensures (xs[i..] + rest)[1..] == xs[i + 1..] + rest
  {
  }

  /** The length of the superclass chain, Object included. */
  function Depth(c: ClassInfo): nat {
    1 + (if c.superclass.Some? then Depth(c.superclass.value) else 0)
  }

  lemma {:induction false} ChainDepth(c: ClassInfo)
    ensures forall x :: x in Chain(c) ==> Depth(x) <= Depth(c)
  {
    if c.name != ObjectName && c.superclass.Some? {
      ChainDepth(c.superclass.value);
    }
  }

  /** The walk never meets the starting class again above it. */
  lemma AncestorsDiffer(c: ClassInfo)
    ensures forall x :: x in ChainFrom(c.superclass) ==> x != c
  {
    if c.superclass.Some? {
      ChainDepth(c.superclass.value);
    }
  }

  /** Every member of every class on the walk names that class as its declaring class. */
  predicate DeclaresOwnMembers(c: ClassInfo) {
    (forall f :: f in c.fields ==> f.declaring == c.name)
    && (forall m :: m in c.methods ==> m.declaring == c.name)
    && (forall k :: k in c.constructors ==> k.declaring == c.name)
  }

  /** The first element the predicate accepts. */
  function FirstMatch<T>(xs: seq<T>, p: T -> bool): (r: Option<T>)
    ensures r.Some? ==> r.value in xs && p(r.value)
    ensures r.None? <==> forall i :: 0 <= i < |xs| ==> !p(xs[i])
  {
    if xs == [] then None else if p(xs[0]) then Some(xs[0]) else FirstMatch(xs[1..], p)
  }

  /** Two predicates that agree on every element choose the same element. */
  lemma {:induction false} FirstMatchPointwise<T>(xs: seq<T>, p: T -> bool, q: T -> bool)
    requires forall i :: 0 <= i < |xs| ==> p(xs[i]) == q(xs[i])
    ensures FirstMatch(xs, p) == FirstMatch(xs, q)
  {
    if xs != [] {
      FirstMatchPointwise(xs[1..], p, q);
    }
  }

  /** FirstMatch picks the earliest accepted element: every element before it is rejected. */
  lemma {:induction false} FirstMatchIsEarliest<T>(xs: seq<T>, p: T -> bool, j: nat)
    requires j < |xs| && p(xs[j])
    requires forall i :: 0 <= i < j ==> !p(xs[i])
    ensures FirstMatch(xs, p) == Some(xs[j])
  {
    if j > 0 {
      FirstMatchIsEarliest(xs[1..], p, j - 1);
    }
  }

  /** Over a concatenation, a match in the first part wins over any match in the second. */
  lemma {:induction false} FirstMatchAppend<T>(a: seq<T>, b: seq<T>, p: T -> bool)
    ensures FirstMatch(a + b, p) == if FirstMatch(a, p).Some? then FirstMatch(a, p) else FirstMatch(b, p)
  {
    if a != [] {
      assert (a + b)[0] == a[0];
      assert (a + b)[1..] == a[1..] + b;
      FirstMatchAppend(a[1..], b, p);
    } else {
      assert a + b == b;
    }
  }

  /** Every accepted element occurs no earlier than the first match. */
  lemma FirstMatchPrecedes<T>(xs: seq<T>, p: T -> bool)
    requires FirstMatch(xs, p).Some?
    ensures forall m :: m in xs && p(m) ==> exists i, j :: 0 <= j <= i < |xs| && xs[i] == m && xs[j] == FirstMatch(xs, p).value
  {
    var j := FirstMatchIndex(xs, p);
    forall m | m in xs && p(m) ensures exists i, j :: 0 <= j <= i < |xs| && xs[i] == m && xs[j] == FirstMatch(xs, p).value {
      var i :| 0 <= i < |xs| && xs[i] == m;
      assert j <= i;
    }
  }

  /** The index of the first accepted element: nothing before it is accepted. */
  lemma {:induction false} FirstMatchIndex<T>(xs: seq<T>, p: T -> bool) returns (j: nat)
    requires FirstMatch(xs, p).Some?
    ensures j < |xs| && xs[j] == FirstMatch(xs, p).value
    ensures forall i :: 0 <= i < j ==> !p(xs[i])
  {
    if p(xs[0]) {
      j := 0;
    } else {
      var k := FirstMatchIndex(xs[1..], p);
      j := k + 1;
    }
  }
}
