/**
 * The vocabulary shared by the packet interceptor and its channel handlers: messages,
 * modifiers with their priorities, the evaluation of a modifier chain, the priority-ordered
 * modifier lists, and a channel pipeline reduced to its handler names.
 */
module Interception {
  import opened Wrappers
  import opened JavaStrings

  /** A player's UUID. */
  type Uuid = nat

  /** The identity of a registered packet modifier (equals on the modifier object). */
  type ModifierId = nat

  /**
   * A message travelling through a channel: its runtime class name, its int fields in
   * declaration order and, for a login message, the game profile's id.
   */
  datatype Message = Message(className: string, intFields: seq<int>, profileId: Option<Uuid>)

  datatype Priority = High | Low

  /** Tuple<IPacketModifier, ModificationPriority>. */
  datatype Entry = Entry(modifier: ModifierId, priority: Priority)

  /** What one modifier call does with a message: replaces it, terminates it (null) or throws. */
  datatype ModifierOutcome = Replace(msg: Message) | Terminate | Fail

  /** The behaviour of every modifier towards one receiver in one direction. */
  type Behaviour = (ModifierId, Message) -> ModifierOutcome

  /**
   * The state after running a list of modifiers: every modifier passed a message on, one
   * terminated it, or one threw while the message was the given one.
   */
  datatype ChainOutcome = Passed(msg: Message) | Terminated | FailedAt(msg: Message)

  /** Runs the modifiers in list order, each receiving its predecessor's output. */
  function RunChain(mods: seq<Entry>, apply: Behaviour, msg: Message): ChainOutcome {
    if mods == [] then Passed(msg)
    else match apply(mods[0].modifier, msg)
      case Replace(next) => RunChain(mods[1..], apply, next)
      case Terminate => Terminated
      case Fail => FailedAt(msg)
  }

  /** What reaches the next handler: nothing after a termination, else the latest message. */
  function Relayed(c: ChainOutcome): Option<Message> {
    match c
    case Passed(m) => Some(m)
    case Terminated => None
    case FailedAt(m) => Some(m)
  }

  /**
   * Running two lists one after the other is running their concatenation; the second list
   * runs only when the first passed the message on.
   */
  lemma {:induction false} RunChainAppend(a: seq<Entry>, b: seq<Entry>, apply: Behaviour, msg: Message)
    ensures RunChain(a + b, apply, msg)
      == match RunChain(a, apply, msg)
         case Passed(m) => RunChain(b, apply, m)
         case Terminated => Terminated
         case FailedAt(m) => FailedAt(m)
  {
    if a == [] {
      assert a + b == b;
    } else {
      assert (a + b)[0] == a[0];
      assert (a + b)[1..] == a[1..] + b;
      match apply(a[0].modifier, msg)
      case Replace(next) => RunChainAppend(a[1..], b, apply, next);
      case Terminate =>
      case Fail =>
    }
  }

  /** A terminating modifier stops the chain: nothing after it runs and nothing is relayed. */
  lemma {:induction false} TerminationStopsChain(a: seq<Entry>, i: nat, apply: Behaviour, msg: Message)
    requires i < |a|
    requires RunChain(a[..i], apply, msg).Passed?
    requires apply(a[i].modifier, RunChain(a[..i], apply, msg).msg) == Terminate
    ensures RunChain(a, apply, msg) == Terminated
  {
    assert a == a[..i] + a[i..];
    RunChainAppend(a[..i], a[i..], apply, msg);
  }

  // ---------------------------------------------------------------------------
  // Priority-ordered modifier lists
  // ---------------------------------------------------------------------------

  /** list.add(HIGH ? 0 : size, entry): high priority goes first, low priority last. */
  function InsertByPriority(mods: seq<Entry>, m: ModifierId, p: Priority): (r: seq<Entry>)
    ensures |r| == |mods| + 1
    ensures p == High ==> r[0] == Entry(m, p) && r[1..] == mods
    ensures p == Low ==> r[|mods|] == Entry(m, p) && r[..|mods|] == mods
  {
    if p == High then [Entry(m, p)] + mods else mods + [Entry(m, p)]
  }

  /** removeIf(t -> t.getA().equals(modifier)): every entry of the modifier goes, the others keep their order. */
  function WithoutModifier(mods: seq<Entry>, m: ModifierId): (r: seq<Entry>)
    ensures forall i :: 0 <= i < |r| ==> r[i].modifier != m
    ensures forall e :: e in mods && e.modifier != m ==> e in r
    ensures forall e :: e in r ==> e in mods
    ensures |r| <= |mods|
  {
    if mods == [] then []
    else if mods[0].modifier == m then WithoutModifier(mods[1..], m)
    else [mods[0]] + WithoutModifier(mods[1..], m)
  }

  /** anyMatch(t -> t.getA().equals(modifier)). */
  predicate IsRegistered(mods: seq<Entry>, m: ModifierId) {
    exists i :: 0 <= i < |mods| && mods[i].modifier == m
  }

  /** After registering, the modifier is registered; after unregistering, it is not. */
  lemma RegistrationQueries(mods: seq<Entry>, m: ModifierId, p: Priority)
    ensures IsRegistered(InsertByPriority(mods, m, p), m)
    ensures !IsRegistered(WithoutModifier(mods, m), m)
  {
    var r := InsertByPriority(mods, m, p);
    if p == High {
      assert r[0].modifier == m;
    } else {
      assert r[|mods|].modifier == m;
    }
  }

  /** Removing a modifier that is not registered changes nothing. */
  lemma {:induction false} WithoutAbsentModifier(mods: seq<Entry>, m: ModifierId)
    requires !IsRegistered(mods, m)
    ensures WithoutModifier(mods, m) == mods
  {
    if mods != [] {
      assert mods[0].modifier != m;
      assert !IsRegistered(mods[1..], m) by {
        forall i | 0 <= i < |mods[1..]| ensures mods[1..][i].modifier != m {
          assert mods[1..][i] == mods[i + 1];
        }
      }
      WithoutAbsentModifier(mods[1..], m);
      assert mods == [mods[0]] + mods[1..];
    }
  }

  /** Removal distributes over concatenation. */
  lemma {:induction false} WithoutModifierAppend(a: seq<Entry>, b: seq<Entry>, m: ModifierId)
    ensures WithoutModifier(a + b, m) == WithoutModifier(a, m) + WithoutModifier(b, m)
  {
    if a == [] {
      assert a + b == b;
    } else {
      assert (a + b)[0] == a[0];
      assert (a + b)[1..] == a[1..] + b;
      WithoutModifierAppend(a[1..], b, m);
    }
  }

  /** Unregistering a freshly registered modifier restores the list it was registered in. */
  lemma RegisterThenUnregister(mods: seq<Entry>, m: ModifierId, p: Priority)
    requires !IsRegistered(mods, m)
    ensures WithoutModifier(InsertByPriority(mods, m, p), m) == mods
  {
    WithoutAbsentModifier(mods, m);
    if p == High {
      WithoutModifierAppend([Entry(m, p)], mods, m);
    } else {
      WithoutModifierAppend(mods, [Entry(m, p)], m);
    }
  }

  /** Registration keeps the relative order of the other modifiers. */
  lemma RegistrationKeepsOthers(mods: seq<Entry>, m: ModifierId, n: ModifierId, p: Priority)
    requires n != m
    ensures WithoutModifier(InsertByPriority(mods, m, p), n) == WithoutModifier(mods, n)
      || WithoutModifier(InsertByPriority(mods, m, p), n) == [Entry(m, p)] + WithoutModifier(mods, n)
      || WithoutModifier(InsertByPriority(mods, m, p), n) == WithoutModifier(mods, n) + [Entry(m, p)]
  {
    if p == High {
      WithoutModifierAppend([Entry(m, p)], mods, n);
    } else {
      WithoutModifierAppend(mods, [Entry(m, p)], n);
    }
  }

  // ---------------------------------------------------------------------------
  // Channel pipeline
  // ---------------------------------------------------------------------------

  /** Removes the one occurrence of a name. */
  function RemoveName(names: seq<string>, name: string): (r: seq<string>)
    ensures name !in names ==> r == names
    ensures forall x :: x in r ==> x in names
  {
    if names == [] then []
    else if names[0] == name then names[1..]
    else [names[0]] + RemoveName(names[1..], name)
  }

  /** The index of a name that occurs. */
  function IndexOf(names: seq<string>, name: string): (i: nat)
    requires name in names
    ensures i < |names| && names[i] == name && name !in names[..i]
  {
    if names[0] == name then 0 else 1 + IndexOf(names[1..], name)
  }

  predicate Distinct(names: seq<string>) {
    forall i, j :: 0 <= i < j < |names| ==> names[i] != names[j]
  }

  /** Netty's ChannelPipeline, reduced to the names of its handlers in order; names are unique. */
  class Pipeline {
    var names: seq<string>

    ghost predicate Valid()
      reads this
    {
      Distinct(names)
    }

    constructor(names: seq<string>)
      requires Distinct(names)
      ensures Valid() && this.names == names
    {
      this.names := names;
    }

    /** pipeline.remove(name) for a name that is present. */
    method Remove(name: string)
      requires Valid() && name in names
      modifies this
      ensures Valid()
      ensures names == old(names[..IndexOf(names, name)] + names[IndexOf(names, name) + 1..])
      ensures name !in names
    {
      var i := IndexOf(names, name);
      names := names[..i] + names[i + 1..];
      assert forall k :: 0 <= k < |names| ==> names[k] == (if k < i then old(names)[k] else old(names)[k + 1]);
    }

    /** pipeline.addBefore(base, name, handler) for a present base and an absent name. */
    method AddBefore(base: string, name: string)
      requires Valid() && base in names && name !in names
      modifies this
      ensures Valid()
      ensures names == old(names[..IndexOf(names, base)] + [name] + names[IndexOf(names, base)..])
    {
      var i := IndexOf(names, base);
      names := names[..i] + [name] + names[i..];
      assert forall k :: 0 <= k < |names| ==> names[k] == (if k < i then old(names)[k] else if k == i then name else old(names)[k - 1]);
    }

    /** pipeline.addLast(name, handler) for an absent name. */
    method AddLast(name: string)
      requires Valid() && name !in names
      modifies this
      ensures Valid()
      ensures names == old(names) + [name]
    {
      names := names + [name];
    }
  }
}
