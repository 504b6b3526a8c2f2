/**
 * ServerVersion: the supported server releases in declaration order, the ordinal comparisons,
 * and the parse of the running server's version from its implementation package.
 */
module ServerVersions {
  import opened Wrappers
  import opened Reflect
  import opened JavaStrings

  datatype ServerVersion =
    | V1_7
    | V1_7_1
    | V1_7_2
    | V1_7_3
    | V1_7_4
    | V1_7_5
    | V1_7_6
    | V1_7_7
    | V1_7_8
    | V1_7_9
    | V1_7_10
    | V1_8
    | V1_8_1
    | V1_8_2
    | V1_8_3
    | V1_8_4
    | V1_8_5
    | V1_8_6
    | V1_8_7
    | V1_8_8
    | V1_8_9
    | V1_9
    | V1_9_1
    | V1_9_2
    | V1_9_3
    | V1_9_4
    | V1_10
    | V1_10_1
    | V1_10_2
    | V1_11
    | V1_11_1
    | V1_11_2
    | V1_12
    | V1_12_1
    | V1_12_2
    | V1_13
    | V1_13_1
    | V1_13_2
    | V1_14
    | V1_14_1
    | V1_14_2
    | V1_14_3
    | V1_14_4
    | V1_15
    | V1_15_1
    | V1_15_2
    | V1_16
    | V1_16_1
    | V1_16_2
    | V1_16_3
    | V1_16_4
    | V1_16_5
    | V1_17
    | V1_17_1
    | V1_18
    | V1_18_1
    | V1_18_2
    | V1_19
    | V1_19_1
    | V1_19_2

  /** values()[i]: the constant declared at position i (the last one past the end). */
  function FromOrdinal(i: int): ServerVersion {
    if i == 0 then V1_7
    else if i == 1 then V1_7_1
    else if i == 2 then V1_7_2
    else if i == 3 then V1_7_3
    else if i == 4 then V1_7_4
    else if i == 5 then V1_7_5
    else if i == 6 then V1_7_6
    else if i == 7 then V1_7_7
    else if i == 8 then V1_7_8
    else if i == 9 then V1_7_9
    else if i == 10 then V1_7_10
    else if i == 11 then V1_8
    else if i == 12 then V1_8_1
    else if i == 13 then V1_8_2
    else if i == 14 then V1_8_3
    else if i == 15 then V1_8_4
    else if i == 16 then V1_8_5
    else if i == 17 then V1_8_6
    else if i == 18 then V1_8_7
    else if i == 19 then V1_8_8
    else if i == 20 then V1_8_9
    else if i == 21 then V1_9
    else if i == 22 then V1_9_1
    else if i == 23 then V1_9_2
    else if i == 24 then V1_9_3
    else if i == 25 then V1_9_4
    else if i == 26 then V1_10
    else if i == 27 then V1_10_1
    else if i == 28 then V1_10_2
    else if i == 29 then V1_11
    else if i == 30 then V1_11_1
    else if i == 31 then V1_11_2
    else if i == 32 then V1_12
    else if i == 33 then V1_12_1
    else if i == 34 then V1_12_2
    else if i == 35 then V1_13
    else if i == 36 then V1_13_1
    else if i == 37 then V1_13_2
    else if i == 38 then V1_14
    else if i == 39 then V1_14_1
    else if i == 40 then V1_14_2
    else if i == 41 then V1_14_3
    else if i == 42 then V1_14_4
    else if i == 43 then V1_15
    else if i == 44 then V1_15_1
    else if i == 45 then V1_15_2
    else if i == 46 then V1_16
    else if i == 47 then V1_16_1
    else if i == 48 then V1_16_2
    else if i == 49 then V1_16_3
    else if i == 50 then V1_16_4
    else if i == 51 then V1_16_5
    else if i == 52 then V1_17
    else if i == 53 then V1_17_1
    else if i == 54 then V1_18
    else if i == 55 then V1_18_1
    else if i == 56 then V1_18_2
    else if i == 57 then V1_19
    else if i == 58 then V1_19_1
    else V1_19_2
  }

  /** The constants in declaration order, as values() returns them. */
  function Values(): (r: seq<ServerVersion>)
    ensures |r| == 60
  {
    seq(60, FromOrdinal)
  }

  /** ordinal(): the declaration position. */
  function Ordinal(v: ServerVersion): nat {
    match v
    case V1_7 => 0
    case V1_7_1 => 1
    case V1_7_2 => 2
    case V1_7_3 => 3
    case V1_7_4 => 4
    case V1_7_5 => 5
    case V1_7_6 => 6
    case V1_7_7 => 7
    case V1_7_8 => 8
    case V1_7_9 => 9
    case V1_7_10 => 10
    case V1_8 => 11
    case V1_8_1 => 12
    case V1_8_2 => 13
    case V1_8_3 => 14
    case V1_8_4 => 15
    case V1_8_5 => 16
    case V1_8_6 => 17
    case V1_8_7 => 18
    case V1_8_8 => 19
    case V1_8_9 => 20
    case V1_9 => 21
    case V1_9_1 => 22
    case V1_9_2 => 23
    case V1_9_3 => 24
    case V1_9_4 => 25
    case V1_10 => 26
    case V1_10_1 => 27
    case V1_10_2 => 28
    case V1_11 => 29
    case V1_11_1 => 30
    case V1_11_2 => 31
    case V1_12 => 32
    case V1_12_1 => 33
    case V1_12_2 => 34
    case V1_13 => 35
    case V1_13_1 => 36
    case V1_13_2 => 37
    case V1_14 => 38
    case V1_14_1 => 39
    case V1_14_2 => 40
    case V1_14_3 => 41
    case V1_14_4 => 42
    case V1_15 => 43
    case V1_15_1 => 44
    case V1_15_2 => 45
    case V1_16 => 46
    case V1_16_1 => 47
    case V1_16_2 => 48
    case V1_16_3 => 49
    case V1_16_4 => 50
    case V1_16_5 => 51
    case V1_17 => 52
    case V1_17_1 => 53
    case V1_18 => 54
    case V1_18_1 => 55
    case V1_18_2 => 56
    case V1_19 => 57
    case V1_19_1 => 58
    case V1_19_2 => 59
  }

  /** The minor release a constant stands for (all are 1.x). */
  function Minor(v: ServerVersion): nat {
    match v
    case V1_7 => 7
    case V1_7_1 => 7
    case V1_7_2 => 7
    case V1_7_3 => 7
    case V1_7_4 => 7
    case V1_7_5 => 7
    case V1_7_6 => 7
    case V1_7_7 => 7
    case V1_7_8 => 7
    case V1_7_9 => 7
    case V1_7_10 => 7
    case V1_8 => 8
    case V1_8_1 => 8
    case V1_8_2 => 8
    case V1_8_3 => 8
    case V1_8_4 => 8
    case V1_8_5 => 8
    case V1_8_6 => 8
    case V1_8_7 => 8
    case V1_8_8 => 8
    case V1_8_9 => 8
    case V1_9 => 9
    case V1_9_1 => 9
    case V1_9_2 => 9
    case V1_9_3 => 9
    case V1_9_4 => 9
    case V1_10 => 10
    case V1_10_1 => 10
    case V1_10_2 => 10
    case V1_11 => 11
    case V1_11_1 => 11
    case V1_11_2 => 11
    case V1_12 => 12
    case V1_12_1 => 12
    case V1_12_2 => 12
    case V1_13 => 13
    case V1_13_1 => 13
    case V1_13_2 => 13
    case V1_14 => 14
    case V1_14_1 => 14
    case V1_14_2 => 14
    case V1_14_3 => 14
    case V1_14_4 => 14
    case V1_15 => 15
    case V1_15_1 => 15
    case V1_15_2 => 15
    case V1_16 => 16
    case V1_16_1 => 16
    case V1_16_2 => 16
    case V1_16_3 => 16
    case V1_16_4 => 16
    case V1_16_5 => 16
    case V1_17 => 17
    case V1_17_1 => 17
    case V1_18 => 18
    case V1_18_1 => 18
    case V1_18_2 => 18
    case V1_19 => 19
    case V1_19_1 => 19
    case V1_19_2 => 19
  }

  /** The patch release a constant stands for, 0 for the first of a minor line. */
  function Patch(v: ServerVersion): nat {
    match v
    case V1_7 => 0
    case V1_7_1 => 1
    case V1_7_2 => 2
    case V1_7_3 => 3
    case V1_7_4 => 4
    case V1_7_5 => 5
    case V1_7_6 => 6
    case V1_7_7 => 7
    case V1_7_8 => 8
    case V1_7_9 => 9
    case V1_7_10 => 10
    case V1_8 => 0
    case V1_8_1 => 1
    case V1_8_2 => 2
    case V1_8_3 => 3
    case V1_8_4 => 4
    case V1_8_5 => 5
    case V1_8_6 => 6
    case V1_8_7 => 7
    case V1_8_8 => 8
    case V1_8_9 => 9
    case V1_9 => 0
    case V1_9_1 => 1
    case V1_9_2 => 2
    case V1_9_3 => 3
    case V1_9_4 => 4
    case V1_10 => 0
    case V1_10_1 => 1
    case V1_10_2 => 2
    case V1_11 => 0
    case V1_11_1 => 1
    case V1_11_2 => 2
    case V1_12 => 0
    case V1_12_1 => 1
    case V1_12_2 => 2
    case V1_13 => 0
    case V1_13_1 => 1
    case V1_13_2 => 2
    case V1_14 => 0
    case V1_14_1 => 1
    case V1_14_2 => 2
    case V1_14_3 => 3
    case V1_14_4 => 4
    case V1_15 => 0
    case V1_15_1 => 1
    case V1_15_2 => 2
    case V1_16 => 0
    case V1_16_1 => 1
    case V1_16_2 => 2
    case V1_16_3 => 3
    case V1_16_4 => 4
    case V1_16_5 => 5
    case V1_17 => 0
    case V1_17_1 => 1
    case V1_18 => 0
    case V1_18_1 => 1
    case V1_18_2 => 2
    case V1_19 => 0
    case V1_19_1 => 1
    case V1_19_2 => 2
  }

  /**
   * name(): the constant's identifier, V1_<minor> for the first release of a minor line and
   * V1_<minor>_<patch> after it.
   */
  function Name(v: ServerVersion): string {
    ComposedName(Minor(v), Patch(v))
  }

  function ComposedName(minor: nat, patch: nat): string {
    "V1_" + NatToString(minor) + (if patch == 0 then "" else "_" + NatToString(patch))
  }

  /** Release order: a lower minor line, or the same line with a lower patch. */
  predicate ReleasedBefore(a: ServerVersion, b: ServerVersion) {
    Minor(a) < Minor(b) || (Minor(a) == Minor(b) && Patch(a) < Patch(b))
  }

  /** How many constants a minor line has. */
  function LineSize(minor: nat): nat {
    match minor
    case 7 => 11
    case 8 => 10
    case 9 => 5
    case 10 => 3
    case 11 => 3
    case 12 => 3
    case 13 => 3
    case 14 => 5
    case 15 => 3
    case 16 => 6
    case 17 => 2
    case 18 => 3
    case 19 => 3
    case _ => 0
  }

  /** How many constants precede a minor line (values() is grouped by line). */
  function LineBase(minor: nat): nat {
    match minor
    case 7 => 0
    case 8 => 11
    case 9 => 21
    case 10 => 26
    case 11 => 29
    case 12 => 32
    case 13 => 35
    case 14 => 38
    case 15 => 43
    case 16 => 46
    case 17 => 52
    case 18 => 54
    case 19 => 57
    case _ => 60
  }

  /** Each constant sits inside its minor line's block, at its patch offset. */
  lemma OrdinalLayout(v: ServerVersion)
    ensures 7 <= Minor(v) <= 19 && Patch(v) < LineSize(Minor(v))
    ensures Ordinal(v) == LineBase(Minor(v)) + Patch(v)
  {
    match v
    case V1_7 =>
    case V1_7_1 =>
    case V1_7_2 =>
    case V1_7_3 =>
    case V1_7_4 =>
    case V1_7_5 =>
    case V1_7_6 =>
    case V1_7_7 =>
    case V1_7_8 =>
    case V1_7_9 =>
    case V1_7_10 =>
    case V1_8 =>
    case V1_8_1 =>
    case V1_8_2 =>
    case V1_8_3 =>
    case V1_8_4 =>
    case V1_8_5 =>
    case V1_8_6 =>
    case V1_8_7 =>
    case V1_8_8 =>
    case V1_8_9 =>
    case V1_9 =>
    case V1_9_1 =>
    case V1_9_2 =>
    case V1_9_3 =>
    case V1_9_4 =>
    case V1_10 =>
    case V1_10_1 =>
    case V1_10_2 =>
    case V1_11 =>
    case V1_11_1 =>
    case V1_11_2 =>
    case V1_12 =>
    case V1_12_1 =>
    case V1_12_2 =>
    case V1_13 =>
    case V1_13_1 =>
    case V1_13_2 =>
    case V1_14 =>
    case V1_14_1 =>
    case V1_14_2 =>
    case V1_14_3 =>
    case V1_14_4 =>
    case V1_15 =>
    case V1_15_1 =>
    case V1_15_2 =>
    case V1_16 =>
    case V1_16_1 =>
    case V1_16_2 =>
    case V1_16_3 =>
    case V1_16_4 =>
    case V1_16_5 =>
    case V1_17 =>
    case V1_17_1 =>
    case V1_18 =>
    case V1_18_1 =>
    case V1_18_2 =>
    case V1_19 =>
    case V1_19_1 =>
    case V1_19_2 =>
  }

  /** The blocks of the minor lines follow one another. */
  lemma {:induction false} LineBlocksAscend(m: nat, n: nat)
    requires 7 <= m < n <= 19
    ensures LineBase(m) + LineSize(m) <= LineBase(n)
    decreases n - m
  {
    if m + 1 < n {
      LineBlocksAscend(m + 1, n);
    }
  }

  /** values()[ordinal()] is the constant itself, and every ordinal is a position of values(). */
  lemma OrdinalRoundTrip(v: ServerVersion)
    ensures Ordinal(v) < |Values()| && Values()[Ordinal(v)] == v
  {
    if Ordinal(v) < 21 {
      EarlyLinesRoundTrip(v);
    } else if Ordinal(v) < 43 {
      MiddleLinesRoundTrip(v);
    } else {
      LateLinesRoundTrip(v);
    }
  }

  /** The round trip for the 1.7 and 1.8 lines. */
  lemma EarlyLinesRoundTrip(v: ServerVersion)
    requires Ordinal(v) < 21
    ensures FromOrdinal(Ordinal(v)) == v
  {
  }

  /** The round trip for the 1.9 to 1.14 lines. */
  lemma MiddleLinesRoundTrip(v: ServerVersion)
    requires 21 <= Ordinal(v) < 43
    ensures FromOrdinal(Ordinal(v)) == v
  {
  }

  /** The round trip for the 1.15 to 1.19 lines. */
  lemma LateLinesRoundTrip(v: ServerVersion)
    requires 43 <= Ordinal(v)
    ensures FromOrdinal(Ordinal(v)) == v
  {
  }

  /** Declaration order is release order: ordinals compare exactly as (minor, patch) does. */
  lemma ReleaseOrder(a: ServerVersion, b: ServerVersion)
    ensures ReleasedBefore(a, b) <==> Ordinal(a) < Ordinal(b)
    ensures Ordinal(a) == Ordinal(b) <==> a == b
  {
    OrdinalLayout(a);
    OrdinalLayout(b);
    OrdinalRoundTrip(a);
    OrdinalRoundTrip(b);
    if Minor(a) < Minor(b) {
      LineBlocksAscend(Minor(a), Minor(b));
    } else if Minor(b) < Minor(a) {
      LineBlocksAscend(Minor(b), Minor(a));
    }
  }

  /** greaterThanOrEqual: this version is not released before the other. */
  function GreaterThanOrEqual(self: ServerVersion, other: ServerVersion): (r: bool)
    ensures r <==> !ReleasedBefore(self, other)
  {
    ReleaseOrder(self, other);
    Ordinal(self) >= Ordinal(other)
  }

  /** greaterThan: this version is released after the other. */
  function GreaterThan(self: ServerVersion, other: ServerVersion): (r: bool)
    ensures r <==> ReleasedBefore(other, self)
  {
    ReleaseOrder(other, self);
    Ordinal(self) > Ordinal(other)
  }

  /** lessThan: this version is released before the other. */
  function LessThan(self: ServerVersion, other: ServerVersion): (r: bool)
    ensures r <==> ReleasedBefore(self, other)
  {
    ReleaseOrder(self, other);
    Ordinal(self) < Ordinal(other)
  }

  /** lessThanOrEqual: this version is not released after the other. */
  function LessThanOrEqual(self: ServerVersion, other: ServerVersion): (r: bool)
    ensures r <==> !ReleasedBefore(other, self)
  {
    ReleaseOrder(other, self);
    Ordinal(self) <= Ordinal(other)
  }

  /** The comparisons pair up as negations. */
  lemma ComparisonsAreComplements(a: ServerVersion, b: ServerVersion)
    ensures LessThan(a, b) == !GreaterThanOrEqual(a, b)
    ensures GreaterThan(a, b) == !LessThanOrEqual(a, b)
  {
  }

  /** Release order is total: of two distinct versions one is released before the other. */
  lemma ReleaseOrderTotal(a: ServerVersion, b: ServerVersion)
    ensures a == b <==> !ReleasedBefore(a, b) && !ReleasedBefore(b, a)
  {
    ReleaseOrder(a, b);
    ReleaseOrder(b, a);
  }

  /** first: values()[0]. */
  const First: ServerVersion := Values()[0]

  /** latest: values()[values().length - 1]. */
  const Latest: ServerVersion := Values()[|Values()| - 1]

  /** first is V1_7 and latest V1_19_2; no version is released before first or after latest. */
  lemma FirstAndLatest(v: ServerVersion)
    ensures First == V1_7 && Latest == V1_19_2
    ensures LessThanOrEqual(First, v) && GreaterThanOrEqual(Latest, v)
  {
    assert FromOrdinal(0) == V1_7;
    assert FromOrdinal(59) == V1_19_2;
    ReleaseOrder(First, v);
    ReleaseOrder(v, Latest);
  }

  // ---------------------------------------------------------------------------
  // ServerVersion.valueOf
  // ---------------------------------------------------------------------------

  lemma AppendIndex<T>(a: seq<T>, x: seq<T>)
    ensures forall i :: 0 <= i < |a| ==> (a + x)[i] == a[i]
    ensures forall i :: 0 <= i < |x| ==> (a + x)[|a| + i] == x[i]
  {
  }

  /** Two digit strings each followed by nothing or by an underscore part can only be split one way. */
  lemma DigitPrefixUnique(a: string, x: string, b: string, y: string)
    requires AllDigits(a) && AllDigits(b)
    requires x == [] || x[0] == '_'
    requires y == [] || y[0] == '_'
    requires a + x == b + y
    ensures a == b && x == y
  {
    if |a| < |b| {
      AppendIndex(a, x);
      AppendIndex(b, y);
      assert false;
    } else if |b| < |a| {
      AppendIndex(a, x);
      AppendIndex(b, y);
      assert false;
    } else {
      assert a == (a + x)[..|a|] && b == (b + y)[..|b|];
    }
  }

  lemma NatToStringInjective(m: nat, n: nat)
    requires NatToString(m) == NatToString(n)
    ensures m == n
  {
    NatToStringValue(m);
    NatToStringValue(n);
  }

  /** A composed name determines its minor and patch numbers. */
  lemma ComposedNameInjective(m1: nat, p1: nat, m2: nat, p2: nat)
    requires ComposedName(m1, p1) == ComposedName(m2, p2)
    ensures m1 == m2 && p1 == p2
  {
    var x := if p1 == 0 then "" else "_" + NatToString(p1);
    var y := if p2 == 0 then "" else "_" + NatToString(p2);
    assert NatToString(m1) + x == ComposedName(m1, p1)[3..];
    assert NatToString(m2) + y == ComposedName(m2, p2)[3..];
    DigitPrefixUnique(NatToString(m1), x, NatToString(m2), y);
    NatToStringInjective(m1, m2);
    if p1 != 0 && p2 != 0 {
      assert NatToString(p1) == x[1..] && NatToString(p2) == y[1..];
      NatToStringInjective(p1, p2);
    }
  }

  /** Distinct constants have distinct names. */
  lemma NameInjective(a: ServerVersion, b: ServerVersion)
    requires Name(a) == Name(b)
    ensures a == b
  {
    ComposedNameInjective(Minor(a), Patch(a), Minor(b), Patch(b));
    ReleaseOrder(a, b);
    ReleaseOrder(b, a);
  }

  /** Every constant occurs in values(). */
  lemma EveryConstantListed(name: string)
    requires forall i :: 0 <= i < |Values()| ==> Name(Values()[i]) != name
    ensures forall v :: Name(v) != name
  {
    forall v ensures Name(v) != name {
      OrdinalRoundTrip(v);
    }
  }

  /** valueOf: the constant with exactly this name, IllegalArgumentException for any other string. */
  function ValueOf(name: string): (r: Result<ServerVersion>)
    ensures r.Ok? ==> Name(r.value) == name
    ensures r.Throw? ==> r.ex == IllegalArgument && forall v :: Name(v) != name
  {
    if FirstMatch(Values(), (v: ServerVersion) => Name(v) == name).Some? then
      Ok(FirstMatch(Values(), (v: ServerVersion) => Name(v) == name).value)
    else
      EveryConstantListed(name);
      Throw(IllegalArgument)
  }

  /** Every constant is found under its own name. */
  lemma ValueOfName(v: ServerVersion)
    ensures ValueOf(Name(v)) == Ok(v)
  {
    var r := ValueOf(Name(v));
    if r.Ok? {
      NameInjective(r.value, v);
    }
  }

  // ---------------------------------------------------------------------------
  // parseCurrentVersion
  // ---------------------------------------------------------------------------

  /**
   * replaceAll("_R(\\d+)", "_$1"): an R that follows an underscore and precedes a digit is
   * dropped; scanning resumes at the digits, which can never start another match.
   */
  function RewriteRevision(s: string): (r: string)
    ensures |r| <= |s|
  {
    if |s| >= 3 && s[0] == '_' && s[1] == 'R' && IsDigit(s[2]) then "_" + RewriteRevision(s[2..])
    else if s == [] then []
    else [s[0]] + RewriteRevision(s[1..])
  }

  /** A prefix without R is copied unchanged when what follows does not start with R. */
  lemma {:induction false} RewriteRevisionPrefix(a: string, t: string)
    requires 'R' !in a
    requires t == [] || t[0] != 'R'
    ensures RewriteRevision(a + t) == a + RewriteRevision(t)
  {
    if a != [] {
      var s := a + t;
      assert s[0] == a[0];
      assert |s| >= 2 ==> s[1] != 'R' by {
        if |a| >= 2 {
          assert s[1] == a[1];
        } else if |s| >= 2 {
          assert s[1] == t[0];
        }
      }
      assert s[1..] == a[1..] + t;
      assert RewriteRevision(s) == [a[0]] + RewriteRevision(a[1..] + t);
      RewriteRevisionPrefix(a[1..], t);
      assert a == [a[0]] + a[1..];
    } else {
      assert a + t == t;
    }
  }

  /** "_R" followed by a number loses its R. */
  lemma RewriteRevisionMarker(n: nat)
    ensures RewriteRevision("_R" + NatToString(n)) == "_" + NatToString(n)
  {
    var d := NatToString(n);
    var s := "_R" + d;
    assert s[2] == d[0] && s[2..] == d;
    assert 'R' !in d;
    RewriteRevisionPrefix(d, []);
    assert d + [] == d;
  }

  /** String.toUpperCase applied piecewise. */
  lemma ToUpperAppend(a: string, b: string)
    ensures ToUpper(a + b) == ToUpper(a) + ToUpper(b)
  {
  }

  lemma ToUpperDigits(d: string)
    requires AllDigits(d)
    ensures ToUpper(d) == d
  {
  }

  /** The constant name a package segment is looked up under. */
  function VersionKey(segment: string): string {
    ToUpper(RewriteRevision(segment))
  }

  /**
   * parseCurrentVersion over the server implementation's class name: its fourth dot-separated
   * segment, with the revision marker rewritten and upper-cased, looked up by name; a missing
   * segment or an unknown name gives latest.
   */
  function ParseCurrentVersion(serverClassName: string): (r: ServerVersion)
    ensures |Split(serverClassName, '.')| <= 3 ==> r == Latest
    ensures |Split(serverClassName, '.')| > 3 ==>
      r == Latest || Name(r) == VersionKey(Split(serverClassName, '.')[3])
    ensures |Split(serverClassName, '.')| > 3 && (forall v :: Name(v) != VersionKey(Split(serverClassName, '.')[3])) ==>
      r == Latest
  {
    match At(Split(serverClassName, '.'), 3)
    case Throw(_) => Latest
    case Ok(segment) =>
      match ValueOf(VersionKey(segment))
      case Ok(v) => v
      case Throw(_) => Latest
  }

  /** The revision marker of a package segment v1_<minor>_R<revision> loses its R. */
  lemma SegmentRewrite(m: string, rv: string)
    requires |m| >= 1 && AllDigits(m)
    ensures RewriteRevision("v1_" + m + ("_R" + rv)) == "v1_" + m + RewriteRevision("_R" + rv)
  {
    assert 'R' !in "v1_" + m by {
      assert "v1_" + m == ['v', '1', '_'] + m;
    }
    RewriteRevisionPrefix("v1_" + m, "_R" + rv);
  }

  /** Upper-casing a segment v1_<digits>_<digits> changes only its leading v. */
  lemma SegmentUpper(m: string, rv: string)
    requires AllDigits(m) && AllDigits(rv)
    ensures ToUpper("v1_" + m + ("_" + rv)) == "V1_" + m + ("_" + rv)
  {
    ToUpperAppend("v1_" + m, "_" + rv);
    ToUpperAppend("v1_", m);
    ToUpperAppend("_", rv);
    ToUpperDigits(m);
    ToUpperDigits(rv);
    assert ToUpper("v1_") == "V1_";
    assert ToUpper("_") == "_";
  }

  /** The package segment v1_<minor>_R<revision> is looked up as V1_<minor>_<revision>. */
  lemma PackageSegmentKey(minor: nat, revision: nat)
    requires revision > 0
    ensures VersionKey("v1_" + NatToString(minor) + "_R" + NatToString(revision)) == ComposedName(minor, revision)
  {
    var m := NatToString(minor);
    var rv := NatToString(revision);
    assert "v1_" + m + "_R" + rv == "v1_" + m + ("_R" + rv);
    SegmentRewrite(m, rv);
    RewriteRevisionMarker(revision);
    SegmentUpper(m, rv);
  }

  /**
   * A server package v1_<minor>_R<revision> parses to the constant V1_<minor>_<revision> when
   * the enum declares it, and to latest otherwise: the package revision is read as a patch number.
   */
  lemma ParseCraftBukkitPackage(segments: seq<string>, minor: nat, revision: nat)
    requires |segments| > 4 && segments[|segments| - 1] != []
    requires forall k :: 0 <= k < |segments| ==> '.' !in segments[k]
    requires segments[3] == "v1_" + NatToString(minor) + "_R" + NatToString(revision)
    requires revision > 0
    ensures forall v :: Minor(v) == minor && Patch(v) == revision ==> ParseCurrentVersion(Join(segments, '.')) == v
    ensures (forall v :: !(Minor(v) == minor && Patch(v) == revision)) ==> ParseCurrentVersion(Join(segments, '.')) == Latest
  {
    SplitJoin(segments, '.');
    PackageSegmentKey(minor, revision);
    forall v | Minor(v) == minor && Patch(v) == revision
      ensures ParseCurrentVersion(Join(segments, '.')) == v
    {
      ValueOfName(v);
    }
    forall v | Name(v) == VersionKey(segments[3])
      ensures Minor(v) == minor && Patch(v) == revision
    {
      ComposedNameInjective(Minor(v), Patch(v), minor, revision);
    }
  }
}
