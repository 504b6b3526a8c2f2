/**
 * ReflectionHelper: the server version read from the craftbukkit package name, a per-process
 * class cache over the RClass table, the choice of constructor for an empty packet and a cache
 * of furnace burn times.
 */
module ReflectionHelper {
  import opened Wrappers
  import opened Reflect
  import opened JavaStrings
  import opened ClassNames
  import ClassHandle
  import RClassTable

  /** A Bukkit material, by name. */
  type Material = string

  /** findVersion: the fourth dot-separated segment of the server class name. */
  function FindVersion(serverClassName: string): (r: Result<string>)
    ensures r.Ok? <==> |Split(serverClassName, '.')| > 3
    ensures r.Ok? ==> r.value == Split(serverClassName, '.')[3]
  {
    At(Split(serverClassName, '.'), 3)
  }

  /**
   * parseVersion: "vA_B_RC" split at underscores; the first and third parts lose their first
   * character; each part is parsed as an int, in the order the array initialiser evaluates them.
   */
  function ParseVersion(version: string): (r: Result<seq<int>>)
    ensures r.Ok? ==> |r.value| == 3
  {
    var data := Split(version, '_');
    var d0 :- At(data, 0);
    var s0 :- Substring(d0, 1);
    var major :- ParseInt(s0);
    var d1 :- At(data, 1);
    var minor :- ParseInt(d1);
    var d2 :- At(data, 2);
    var s2 :- Substring(d2, 1);
    var revision :- ParseInt(s2);
    Ok([major, minor, revision])
  }

  /** The package layout changed with 1.17. */
  function Refactored(versionNumbers: seq<int>): bool
    requires |versionNumbers| == 3
  {
    versionNumbers[1] >= 17
  }

  /** The version string of a release, as craftbukkit names its package. */
  function VersionString(major: nat, minor: nat, revision: nat): string {
    "v" + NatToString(major) + "_" + NatToString(minor) + "_R" + NatToString(revision)
  }

  /** parseVersion reads back the three numbers of any well-formed version string. */
  lemma ParseVersionRoundTrip(major: nat, minor: nat, revision: nat)
    requires major <= Int32Max && minor <= Int32Max && revision <= Int32Max
    ensures ParseVersion(VersionString(major, minor, revision)) == Ok([major, minor, revision])
  {
    var a, b, c := NatToString(major), NatToString(minor), NatToString(revision);
    var ps := ["v" + a, b, "R" + c];
    DigitsHaveNoLetters(a, '_');
    DigitsHaveNoLetters(b, '_');
    DigitsHaveNoLetters(c, '_');
    assert Join(ps, '_') == VersionString(major, minor, revision) by {
      assert Join(ps[1..], '_') == b + "_" + ("R" + c) by {
        assert ps[1..][1..] == ["R" + c];
      }
    }
    SplitJoin(ps, '_');
    assert ("v" + a)[1..] == a;
    assert ("R" + c)[1..] == c;
    ParseIntNatToString(major);
    ParseIntNatToString(minor);
    ParseIntNatToString(revision);
  }

  lemma DigitsHaveNoLetters(s: string, d: char)
    requires AllDigits(s) && !IsDigit(d)
    ensures d !in s
  {
  }

  /**
   * findVersion reads the fourth segment of any dotted class name with at least four segments,
   * such as org.bukkit.craftbukkit.v1_16_R3.CraftServer.
   */
  lemma FindVersionOfPackage(segments: seq<string>)
    requires |segments| > 3 && segments[|segments| - 1] != []
    requires forall k :: 0 <= k < |segments| ==> '.' !in segments[k]
    ensures FindVersion(Join(segments, '.')) == Ok(segments[3])
  {
    SplitJoin(segments, '.');
  }

  /** The constructor a packet class offers for an empty instance. */
  datatype EmptyPacketConstructor =
    | WithSerializer(k: Constructor)  // one parameter of the packet data serializer type, fed a fresh 1024-byte buffer
    | WithoutArguments(k: Constructor)

  predicate TakesSerializer(k: Constructor, serializer: TypeName) {
    |k.parameterTypes| == 1 && k.parameterTypes[0] == serializer
  }

  predicate Applicable(k: Constructor, serializer: TypeName) {
    |k.parameterTypes| == 0 || TakesSerializer(k, serializer)
  }

  /** createEmptyPacket's choice: the first declared constructor that is applicable; None when there is none. */
  function EmptyPacketChoice(c: ClassInfo, serializer: TypeName): (r: Option<EmptyPacketConstructor>)
    ensures r.None? <==> forall k :: k in c.constructors ==> !Applicable(k, serializer)
    ensures r.Some? ==> r.value.k in c.constructors && Applicable(r.value.k, serializer)
    ensures r.Some? ==> (r.value.WithSerializer? <==> TakesSerializer(r.value.k, serializer))
  {
    match FirstMatch(c.constructors, k => Applicable(k, serializer))
    case None => None
    case Some(k) => if TakesSerializer(k, serializer) then Some(WithSerializer(k)) else Some(WithoutArguments(k))
  }

  /** The burn-time table of the furnace, each entry already converted to its material. */
  type BurnTable = seq<(Material, int)>

  /** The first entry of the table for the material. */
  function BurnTimeIn(lut: BurnTable, mat: Material): (r: Option<int>)
    ensures r.Some? <==> exists i :: 0 <= i < |lut| && lut[i].0 == mat
    ensures r.Some? ==> exists i :: 0 <= i < |lut| && lut[i] == (mat, r.value)
  {
    match FirstMatch(lut, (e: (Material, int)) => e.0 == mat)
    case None => None
    case Some(e) => Some(e.1)
  }

  class Helper {
    const loader: ClassLoader
    const versionStr: string
    const versionNumbers: seq<int>
    const refactored: bool
    const resolver: RClassTable.ResolveCache
    const handles: ClassHandle.Caches
    var serializer: ClassInfo
    var classes: map<RClassTable.RClass, ClassInfo>
    var burningTimes: map<Material, int>

    /** The class cache agrees with the handles RClass keeps for the same constants. */
    ghost predicate Valid()
      reads this, resolver, handles
    {
      && handles.Valid()
      && |versionNumbers| == 3 && refactored == Refactored(versionNumbers)
      && (forall rc :: rc in classes ==> rc in resolver.cache && resolver.cache[rc].c == classes[rc])
    }

    /** The loader knows the name the constant resolves to with the helper's flag and version. */
    ghost predicate Loadable(rc: RClassTable.RClass) {
      ForName(loader, RClassTable.Name(rc, refactored, versionStr)).Ok?
    }

    /** getClass of the constant succeeds: RClass holds its handle already, or its name loads. */
    ghost predicate Available(rc: RClassTable.RClass)
      reads resolver
    {
      rc in resolver.cache || Loadable(rc)
    }

    constructor(loader: ClassLoader, versionStr: string, versionNumbers: seq<int>)
      requires |versionNumbers| == 3
      ensures Valid() && fresh(resolver) && fresh(handles)
      ensures this.loader == loader && this.versionStr == versionStr && this.versionNumbers == versionNumbers
      ensures classes == map[] && burningTimes == map[] && resolver.cache == map[]
    {
      this.loader := loader;
      this.versionStr := versionStr;
      this.versionNumbers := versionNumbers;
      this.refactored := Refactored(versionNumbers);
      this.resolver := new RClassTable.ResolveCache();
      this.handles := new ClassHandle.Caches();
      this.serializer := ClassInfo("", false, false, 0, None, [], [], [], None);
      this.classes := map[];
      this.burningTimes := map[];
    }

    /**
     * getClass: a cached class is returned as is; otherwise the constant is resolved with the
     * helper's flag and version and the result is cached; a failure caches nothing.
     */
    method GetClass(rc: RClassTable.RClass) returns (r: Result<ClassInfo>)
      requires Valid()
      modifies this, resolver, handles
      ensures Valid()
      ensures burningTimes == old(burningTimes) && serializer == old(serializer)
      ensures rc in old(classes) ==> r == Ok(old(classes)[rc]) && classes == old(classes)
      ensures rc !in old(classes) && r.Ok? ==> classes == old(classes)[rc := r.value]
      ensures rc !in old(classes) && r.Throw? ==> r.ex == ClassNotFound && classes == old(classes)
      ensures rc !in old(resolver.cache) ==>
        r == ForName(loader, RClassTable.Name(rc, refactored, versionStr))
      ensures r.Ok? <==> old(Available(rc))
      ensures resolver.cache.Keys - {rc} == old(resolver.cache.Keys) - {rc}
    {
      if rc in classes {
        assert rc in resolver.cache;
        return Ok(classes[rc]);
      }
      ghost var avail := Available(rc);
      r := Load(rc);
      assert r.Ok? <==> avail;
    }

    /** getClass past its cache: the constant is resolved, and a success is cached. */
    method Load(rc: RClassTable.RClass) returns (r: Result<ClassInfo>)
      requires Valid()
      modifies this, resolver, handles
      ensures Valid()
      ensures burningTimes == old(burningTimes) && serializer == old(serializer)
      ensures r.Ok? ==> classes == old(classes)[rc := r.value]
      ensures r.Throw? ==> r.ex == ClassNotFound && classes == old(classes)
      ensures rc !in old(resolver.cache) ==>
        r == ForName(loader, RClassTable.Name(rc, refactored, versionStr))
      ensures rc in old(resolver.cache) ==> r == Ok(old(resolver.cache[rc].c))
      ensures resolver.cache.Keys - {rc} == old(resolver.cache.Keys) - {rc}
    {
      var h := resolver.Resolve(rc, refactored, versionStr, loader, handles);
      if h.Throw? {
        return Throw(h.ex);
      }
      classes := classes[rc := h.value.c];
      return Ok(h.value.c);
    }

    /** The last step of the constructor: the packet data serializer class is resolved and kept. */
    method LoadSerializer() returns (r: Result<ClassInfo>)
      requires Valid() && resolver.cache == map[]
      modifies this, resolver, handles
      ensures Valid()
      ensures r == ForName(loader, RClassTable.Name(RClassTable.PacketDataSerializer, refactored, versionStr))
      ensures r.Ok? ==> serializer == r.value
    {
      r := GetClass(RClassTable.PacketDataSerializer);
      if r.Ok? {
        serializer := r.value;
      }
    }

    /** The constructor loop of createEmptyPacket. */
    method CreateEmptyPacket(c: ClassInfo) returns (r: Option<EmptyPacketConstructor>)
      ensures r == EmptyPacketChoice(c, serializer.name)
    {
      var ks := c.constructors;
      var pds := serializer.name;
      var i := 0;
      while i < |ks|
        invariant 0 <= i <= |ks|
        invariant forall j :: 0 <= j < i ==> !Applicable(ks[j], pds)
      {
        var isPds := |ks[i].parameterTypes| == 1 && ks[i].parameterTypes[0] == pds;
        if |ks[i].parameterTypes| == 0 || isPds {
          FirstMatchIsEarliest(ks, k => Applicable(k, pds), i);
          if isPds {
            return Some(WithSerializer(ks[i]));
          }
          return Some(WithoutArguments(ks[i]));
        }
        i := i + 1;
      }
      return None;
    }

    /**
     * getBurnTime: a cached duration is returned without consulting the table. Otherwise the
     * classes CRAFT_ITEM_STACK and ITEM are fetched with getClass, asNewCraftStack is looked up,
     * TILE_ENTITY_FURNACE is fetched, and the first table entry for the material is cached and
     * returned; each getClass caches its class. Any failure is caught and yields empty.
     * `hasNewCraftStack` says whether the method lookup succeeds, and `lut` is None when the
     * table could not be read (no static Map getter, or a reflection failure).
     */
    method GetBurnTime(mat: Material, hasNewCraftStack: bool, lut: Option<BurnTable>) returns (r: Option<int>)
      requires Valid()
      modifies this, resolver, handles
      ensures Valid()
      ensures serializer == old(serializer)
      ensures mat in old(burningTimes) ==>
        r == Some(old(burningTimes)[mat]) && burningTimes == old(burningTimes) && classes == old(classes)
      ensures mat !in old(burningTimes) ==>
        r == (if old(BurnClassesAvailable(hasNewCraftStack)) && lut.Some? then BurnTimeIn(lut.value, mat) else None)
      ensures mat !in old(burningTimes) ==> burningTimes == if r.Some? then old(burningTimes)[mat := r.value] else old(burningTimes)
      ensures mat !in old(burningTimes) ==> BurnClassesCached(old(resolver.cache), hasNewCraftStack)
      ensures forall k :: k in old(classes) ==> k in classes && classes[k] == old(classes)[k]
      ensures forall k :: k in classes && k !in old(classes) ==>
        k == RClassTable.CraftItemStack || k == RClassTable.Item || k == RClassTable.TileEntityFurnace
    {
      if mat in burningTimes {
        return Some(burningTimes[mat]);
      }
      var ok := FetchBurnClasses(hasNewCraftStack);
      if !ok || lut.None? {
        return None;
      }
      r := SearchBurnTable(mat, lut.value);
      if r.Some? {
        burningTimes := burningTimes[mat := r.value];
      }
    }

    /** getBurnTime's classes can be had, in the order it asks for them, and asNewCraftStack exists. */
    ghost predicate BurnClassesAvailable(hasNewCraftStack: bool)
      reads resolver
    {
      Available(RClassTable.CraftItemStack) && Available(RClassTable.Item) && hasNewCraftStack
      && Available(RClassTable.TileEntityFurnace)
    }

    /**
     * getBurnTime's getClass calls have cached what they could: each class it reached and could
     * have is in `classes`. `before` is RClass's cache when the calls began.
     */
    ghost predicate BurnClassesCached(before: map<RClassTable.RClass, ClassHandle.Handle>, hasNewCraftStack: bool)
      reads this
    {
      var stack := RClassTable.CraftItemStack in before || Loadable(RClassTable.CraftItemStack);
      var item := RClassTable.Item in before || Loadable(RClassTable.Item);
      var furnace := RClassTable.TileEntityFurnace in before || Loadable(RClassTable.TileEntityFurnace);
      && (stack ==> RClassTable.CraftItemStack in classes)
      && (stack && item ==> RClassTable.Item in classes)
      && (stack && item && hasNewCraftStack && furnace ==> RClassTable.TileEntityFurnace in classes)
    }

    /** The three getClass calls of getBurnTime, stopping at the first failure. */
    method FetchBurnClasses(hasNewCraftStack: bool) returns (ok: bool)
      requires Valid()
      modifies this, resolver, handles
      ensures Valid()
      ensures burningTimes == old(burningTimes) && serializer == old(serializer)
      ensures ok == old(BurnClassesAvailable(hasNewCraftStack))
      ensures BurnClassesCached(old(resolver.cache), hasNewCraftStack)
      ensures forall k :: k in old(classes) ==> k in classes && classes[k] == old(classes)[k]
      ensures forall k :: k in classes && k !in old(classes) ==>
        k == RClassTable.CraftItemStack || k == RClassTable.Item || k == RClassTable.TileEntityFurnace
    {
      ghost var item, furnace := Available(RClassTable.Item), Available(RClassTable.TileEntityFurnace);
      ok := Fetch(RClassTable.CraftItemStack);
      if !ok {
        return;
      }
      assert Available(RClassTable.Item) == item && Available(RClassTable.TileEntityFurnace) == furnace;
      ok := Fetch(RClassTable.Item);
      if !ok || !hasNewCraftStack {
        ok := false;
        return;
      }
      assert Available(RClassTable.TileEntityFurnace) == furnace;
      ok := Fetch(RClassTable.TileEntityFurnace);
    }

    /** A getClass whose failure is caught: only whether the class could be had matters. */
    method Fetch(rc: RClassTable.RClass) returns (ok: bool)
      requires Valid()
      modifies this, resolver, handles
      ensures Valid()
      ensures burningTimes == old(burningTimes) && serializer == old(serializer)
      ensures ok == old(Available(rc))
      ensures ok ==> rc in classes
      ensures forall k :: k in old(classes) ==> k in classes && classes[k] == old(classes)[k]
      ensures forall k :: k in classes ==> k in old(classes) || k == rc
      ensures forall k :: k != rc ==> (k in resolver.cache <==> k in old(resolver.cache))
    {
      var c := GetClass(rc);
      ok := c.Ok?;
      forall k | k != rc
        ensures k in resolver.cache <==> k in old(resolver.cache)
      {
        assert k in resolver.cache.Keys - {rc} <==> k in old(resolver.cache.Keys) - {rc};
      }
    }

    /** The loop over the furnace table: the first entry for the material gives its duration. */
    static method SearchBurnTable(mat: Material, entries: BurnTable) returns (r: Option<int>)
      ensures r == BurnTimeIn(entries, mat)
    {
      var i := 0;
      while i < |entries|
        invariant 0 <= i <= |entries|
        invariant FirstMatch(entries[i..], (e: (Material, int)) => e.0 == mat) == FirstMatch(entries, (e: (Material, int)) => e.0 == mat)
      {
        assert entries[i..][1..] == entries[i + 1..];
        if entries[i].0 == mat {
          return Some(entries[i].1);
        }
        i := i + 1;
      }
      return None;
    }
  }

  /**
   * The constructor: version string, version numbers and refactor flag, then the packet data
   * serializer class, which must resolve.
   */
  method NewHelper(serverClassName: string, loader: ClassLoader) returns (r: Result<Helper>)
    ensures r.Ok? ==> fresh(r.value) && r.value.Valid()
    ensures r.Ok? ==> (Ok(r.value.versionStr) == FindVersion(serverClassName)
      && Ok(r.value.versionNumbers) == ParseVersion(r.value.versionStr)
      && r.value.refactored == (r.value.versionNumbers[1] >= 17)
      && Ok(r.value.serializer) == ForName(loader, RClassTable.Name(RClassTable.PacketDataSerializer, r.value.refactored, r.value.versionStr)))
    ensures FindVersion(serverClassName).Throw? ==> r.Throw?
    ensures FindVersion(serverClassName).Ok? && ParseVersion(FindVersion(serverClassName).value).Throw? ==> r.Throw?
  {
    var v := FindVersion(serverClassName);
    if v.Throw? {
      return Throw(v.ex);
    }
    var nums := ParseVersion(v.value);
    if nums.Throw? {
      return Throw(nums.ex);
    }
    var h := new Helper(loader, v.value, nums.value);
    var pds := h.LoadSerializer();
    if pds.Throw? {
      return Throw(pds.ex);
    }
    return Ok(h);
  }
}
