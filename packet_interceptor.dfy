/**
 * PacketInterceptor: keeps the global and per-player modifier lists, places its channel handler
 * in every viewer's pipeline, swaps the server's channel-future list for a proxy, and updates
 * viewer state from the handshake, login and open-window messages it sees as a modifier itself.
 */
module PacketInterceptors {
  import opened Wrappers
  import opened JavaStrings
  import opened Interception
  import opened InterceptedViewers

  /** The name of the vanilla handler this interceptor's handler is placed in front of. */
  const PacketHandlerName: string := "packet_handler"

  // ---------------------------------------------------------------------------
  // Handler name
  // ---------------------------------------------------------------------------

  /** "pi_" + plugin name with spaces replaced by underscores, lower-cased. */
  function HandlerName(pluginName: string): string {
    "pi_" + ToLower(JavaStrings.Replace(pluginName, " ", "_"))
  }

  /**
   * The handler name starts with "pi_", keeps the plugin name's length, contains no space and
   * no upper-case letter, and so never collides with the vanilla packet handler.
   */
  lemma HandlerNameShape(pluginName: string)
    ensures |HandlerName(pluginName)| == 3 + |pluginName|
    ensures HandlerName(pluginName)[..3] == "pi_"
    ensures ' ' !in HandlerName(pluginName)
    ensures forall i :: 0 <= i < |HandlerName(pluginName)| ==> !('A' <= HandlerName(pluginName)[i] <= 'Z')
    ensures HandlerName(pluginName) != PacketHandlerName
  {
    var replaced := JavaStrings.Replace(pluginName, " ", "_");
    ReplaceCharLength(pluginName, ' ', '_');
    ReplaceCharRemoves(pluginName, ' ', "_");
    ToLowerKeepsNonLetter(replaced, ' ');
    var h := HandlerName(pluginName);
    assert h[..3] == "pi_";
    assert PacketHandlerName[..3] == "pac";
  }

  // ---------------------------------------------------------------------------
  // Registration maps for player-specific modifiers
  // ---------------------------------------------------------------------------

  /** Every identity present in the map has at least one modifier. */
  predicate NonEmptyLists(m: map<Uuid, seq<Entry>>) {
    forall u :: u in m ==> m[u] != []
  }

  /** registerSpecific: an empty list is created for a new identity, then the entry is inserted by priority. */
  function WithSpecific(m: map<Uuid, seq<Entry>>, target: Uuid, modifier: ModifierId, p: Priority): (r: map<Uuid, seq<Entry>>)
    ensures target in r && IsRegistered(r[target], modifier)
    ensures r.Keys == m.Keys + {target}
    ensures forall u :: u in m && u != target ==> r[u] == m[u]
    ensures NonEmptyLists(m) ==> NonEmptyLists(r)
  {
    var current := if target in m then m[target] else [];
    RegistrationQueries(current, modifier, p);
    m[target := InsertByPriority(current, modifier, p)]
  }

  /**
   * unregisterSpecific: an unknown identity is left alone; otherwise every entry of the modifier
   * goes, and the identity goes with them if nothing remains.
   */
  function WithoutSpecific(m: map<Uuid, seq<Entry>>, target: Uuid, modifier: ModifierId): (r: map<Uuid, seq<Entry>>)
    ensures target !in m ==> r == m
    ensures target in r ==> !IsRegistered(r[target], modifier) && r[target] != []
    ensures r.Keys <= m.Keys && r.Keys >= m.Keys - {target}
    ensures forall u :: u in m && u != target ==> r[u] == m[u]
    ensures NonEmptyLists(m) ==> NonEmptyLists(r)
  {
    if target !in m then m
    else
      var rest := WithoutModifier(m[target], modifier);
      RegistrationQueries(m[target], modifier, High);
      if rest == [] then m - {target} else m[target := rest]
  }

  /** getOrDefault(target, empty).anyMatch(...). */
  predicate IsRegisteredFor(m: map<Uuid, seq<Entry>>, target: Uuid, modifier: ModifierId) {
    target in m && IsRegistered(m[target], modifier)
  }

  /** Unregistering a freshly registered, previously unregistered modifier restores the map. */
  lemma SpecificRoundTrip(m: map<Uuid, seq<Entry>>, target: Uuid, modifier: ModifierId, p: Priority)
    requires NonEmptyLists(m)
    requires !IsRegisteredFor(m, target, modifier)
    ensures WithoutSpecific(WithSpecific(m, target, modifier, p), target, modifier) == m
  {
    if target in m {
      RoundTripKnown(m, target, modifier, p);
    } else {
      RoundTripNew(m, target, modifier, p);
    }
  }

  /** The round trip for an identity that already has modifiers: its list comes back. */
  lemma RoundTripKnown(m: map<Uuid, seq<Entry>>, target: Uuid, modifier: ModifierId, p: Priority)
    requires target in m && m[target] != [] && !IsRegistered(m[target], modifier)
    ensures WithoutSpecific(WithSpecific(m, target, modifier, p), target, modifier) == m
  {
    var current := m[target];
    RegisterThenUnregister(current, modifier, p);
    var w := WithSpecific(m, target, modifier, p);
    assert w == m[target := InsertByPriority(current, modifier, p)];
    assert WithoutSpecific(w, target, modifier) == w[target := current];
    assert w[target := current] == m;
  }

  /** The round trip for a new identity: its key goes again with its only entry. */
  lemma RoundTripNew(m: map<Uuid, seq<Entry>>, target: Uuid, modifier: ModifierId, p: Priority)
    requires target !in m
    ensures WithoutSpecific(WithSpecific(m, target, modifier, p), target, modifier) == m
  {
    RegisterThenUnregister([], modifier, p);
    var w := WithSpecific(m, target, modifier, p);
    assert w == m[target := InsertByPriority([], modifier, p)];
    assert WithoutSpecific(w, target, modifier) == w - {target};
    assert w - {target} == m;
  }

  // ---------------------------------------------------------------------------
  // Handler placement
  // ---------------------------------------------------------------------------

  /** Removing a present name from a list cuts it out at its first occurrence. */
  lemma {:induction false} RemoveNameSplice(names: seq<string>, name: string)
    requires name in names
    ensures RemoveName(names, name) == names[..IndexOf(names, name)] + names[IndexOf(names, name) + 1..]
  {
    if names[0] != name {
      RemoveNameSplice(names[1..], name);
      assert names[1..][..IndexOf(names[1..], name)] == names[1..IndexOf(names, name)];
    }
  }

  /** Cutting one element out of a list of distinct names leaves distinct names without it. */
  lemma CutDistinct(names: seq<string>, i: nat)
    requires Distinct(names) && i < |names|
    ensures Distinct(names[..i] + names[i + 1..])
    ensures names[i] !in names[..i] + names[i + 1..]
  {
    var r := names[..i] + names[i + 1..];
    assert forall k :: 0 <= k < |r| ==> r[k] == (if k < i then names[k] else names[k + 1]);
  }

  /** The pipeline after injectChannel: any old handler removed, then the handler before the packet handler or last. */
  function Injected(names: seq<string>, h: string): seq<string> {
    var base := RemoveName(names, h);
    if PacketHandlerName in base then
      base[..IndexOf(base, PacketHandlerName)] + [h] + base[IndexOf(base, PacketHandlerName)..]
    else base + [h]
  }

  /** Removing the handler from distinct names leaves distinct names without it and keeps the packet handler. */
  lemma RemovedBase(names: seq<string>, h: string)
    requires Distinct(names) && h != PacketHandlerName
    ensures Distinct(RemoveName(names, h)) && h !in RemoveName(names, h)
    ensures PacketHandlerName in RemoveName(names, h) <==> PacketHandlerName in names
  {
    if h in names {
      var i := IndexOf(names, h);
      RemoveNameSplice(names, h);
      CutDistinct(names, i);
      assert names == names[..i] + [h] + names[i + 1..];
    }
  }

  /** The elements of base[..j] + [h] + base[j..], position by position. */
  lemma InsertedElements(base: seq<string>, h: string, j: nat)
    requires j <= |base|
    ensures |base[..j] + [h] + base[j..]| == |base| + 1
    ensures forall k :: 0 <= k < |base| + 1 ==>
      (base[..j] + [h] + base[j..])[k] == (if k < j then base[k] else if k == j then h else base[k - 1])
  {
  }

  /** Inserting an absent name at position j into distinct names keeps them distinct and puts it at j. */
  lemma InsertedAt(base: seq<string>, h: string, j: nat)
    requires Distinct(base) && h !in base && j <= |base|
    ensures Distinct(base[..j] + [h] + base[j..])
    ensures h in base[..j] + [h] + base[j..]
    ensures IndexOf(base[..j] + [h] + base[j..], h) == j
  {
    var r := base[..j] + [h] + base[j..];
    InsertedElements(base, h, j);
    forall a, b | 0 <= a < b < |r| ensures r[a] != r[b] {
      if a != j && b != j {
        var a' := if a < j then a else a - 1;
        var b' := if b < j then b else b - 1;
        assert r[a] == base[a'] && r[b] == base[b'];
      } else if a == j {
        assert r[b] in base;
      } else {
        assert r[a] in base;
      }
    }
    assert r[j] == h;
  }

  /** Removing the name inserted at j undoes the insertion. */
  lemma RemoveInserted(base: seq<string>, h: string, j: nat)
    requires Distinct(base) && h !in base && j <= |base|
    ensures RemoveName(base[..j] + [h] + base[j..], h) == base
  {
    var r := base[..j] + [h] + base[j..];
    InsertedAt(base, h, j);
    RemoveNameSplice(r, h);
    assert r[..j] == base[..j] && r[j + 1..] == base[j..];
    assert base[..j] + base[j..] == base;
  }

  /**
   * Injection leaves exactly one handler of that name, keeps every other handler in order,
   * and puts the handler right in front of the packet handler when there is one, else last.
   */
  lemma InjectedPlacesOnce(names: seq<string>, h: string)
    requires Distinct(names) && h != PacketHandlerName
    ensures Distinct(Injected(names, h)) && h in Injected(names, h)
    ensures RemoveName(Injected(names, h), h) == RemoveName(names, h)
    ensures PacketHandlerName in names ==>
      IndexOf(Injected(names, h), h) + 1 < |Injected(names, h)|
      && Injected(names, h)[IndexOf(Injected(names, h), h) + 1] == PacketHandlerName
    ensures PacketHandlerName !in names ==> Injected(names, h)[|Injected(names, h)| - 1] == h
  {
    var base := RemoveName(names, h);
    RemovedBase(names, h);
    if PacketHandlerName in base {
      InsertPlaces(base, h, IndexOf(base, PacketHandlerName));
    } else {
      InsertPlaces(base, h, |base|);
      assert base[..|base|] + [h] + base[|base|..] == base + [h];
    }
  }

  /** Inserting a new name at position j: it sits at j, in front of what was at j, and removing it restores the list. */
  lemma InsertPlaces(base: seq<string>, h: string, j: nat)
    requires Distinct(base) && h !in base && j <= |base|
    ensures var r := base[..j] + [h] + base[j..];
      Distinct(r) && h in r && RemoveName(r, h) == base && IndexOf(r, h) == j
      && (j < |base| ==> r[j + 1] == base[j])
      && r[|r| - 1] == (if j == |base| then h else base[|base| - 1])
  {
    InsertedAt(base, h, j);
    RemoveInserted(base, h, j);
    var r := base[..j] + [h] + base[j..];
    if j < |base| {
      assert r[j + 1] == base[j];
      assert r[|r| - 1] == base[|base| - 1];
    }
  }

  // ---------------------------------------------------------------------------
  // Channel-future list proxy
  // ---------------------------------------------------------------------------

  /** A reference held in the server connection's future-list field: the vanilla list or a proxy over a list. */
  datatype ListRef = Vanilla(id: nat) | ProxyOver(inner: ListRef)

  /** The future-list field's value and the saved vanilla reference. */
  datatype FutureLists = FutureLists(installed: ListRef, saved: Option<ListRef>)

  /**
   * proxyFutureList, when the server connection is reachable: a proxy over the current list is
   * installed and the current list saved. A failure is logged and changes nothing.
   */
  function Proxied(s: FutureLists, reachable: bool): (r: FutureLists)
    ensures reachable ==> r.installed == ProxyOver(s.installed) && r.saved == Some(s.installed)
    ensures !reachable ==> r == s
  {
    if reachable then FutureLists(ProxyOver(s.installed), Some(s.installed)) else s
  }

  /** unproxyFutureList: a no-op when nothing is saved; else the saved list is restored and forgotten. */
  function Unproxied(s: FutureLists, reachable: bool): (r: FutureLists)
    ensures s.saved.None? ==> r == s
    ensures s.saved.Some? && reachable ==> r == FutureLists(s.saved.value, None)
    ensures !reachable ==> r == s
  {
    if s.saved.None? then s
    else if reachable then FutureLists(s.saved.value, None)
    else s
  }

  /** Proxying and unproxying an unproxied state restores the vanilla list; unproxying twice is unproxying once. */
  lemma ProxyRoundTrip(s: FutureLists, reachable: bool)
    requires s.saved.None?
    ensures Unproxied(Proxied(s, reachable), reachable) == s
    ensures Unproxied(Unproxied(s, reachable), reachable) == Unproxied(s, reachable)
  {
  }

  /** One argument of a call on the proxied list: a channel future or an index. */
  datatype Arg = FutureArg(future: nat) | IndexArg(index: int)

  /** What the proxy's handler does with one call. */
  datatype ProxyCall = Forwarded | HookedThenForwarded(future: nat) | CastFailure

  /**
   * The list proxy: an add first hooks its first argument as a channel future and then forwards;
   * every other call is forwarded unchanged. add(index, future) fails the cast before forwarding.
   */
  function ListProxyCall(name: string, args: seq<Arg>): (r: ProxyCall)
    ensures name != "add" <==> r == Forwarded
    ensures r.HookedThenForwarded? <==> name == "add" && |args| > 0 && args[0].FutureArg?
    ensures r.HookedThenForwarded? ==> r.future == args[0].future
  {
    if name != "add" then Forwarded
    else if |args| > 0 && args[0].FutureArg? then HookedThenForwarded(args[0].future)
    else CastFailure
  }

  // ---------------------------------------------------------------------------
  // Return value of modifyOutgoing
  // ---------------------------------------------------------------------------

  /** What a modifier returns: a message, or (as written) the receiver object itself. */
  datatype Returned = ReturnedMessage(msg: Message) | ReturnedReceiver

  /** modifyOutgoing's return as written: the receiver for a receiver that is not an intercepted viewer. */
  function OutgoingReturnAsWritten(isViewer: bool, msg: Message): Returned {
    if !isViewer then ReturnedReceiver else ReturnedMessage(msg)
  }

  /** The intended return: the outgoing message, unchanged, in every case (as modifyIncoming does). */
  function OutgoingReturn(isViewer: bool, msg: Message): (r: Returned)
    ensures r == ReturnedMessage(msg)
  {
    ReturnedMessage(msg)
  }

  /** As written, a non-viewer receiver makes the chain carry on with the receiver instead of the packet. */
  lemma OutgoingReturnAsWrittenLosesMessage(msg: Message)
    ensures OutgoingReturnAsWritten(false, msg) != ReturnedMessage(msg)
    ensures OutgoingReturnAsWritten(false, msg) != OutgoingReturn(false, msg)
    ensures OutgoingReturnAsWritten(true, msg) == OutgoingReturn(true, msg)
  {
  }

  class Interceptor {
    /** This interceptor as a modifier of its own lists. */
    const self: ModifierId
    const handlerName: string
    /** Class names of the handshake, login and open-window packets. */
    const handshakeClass: string
    const loginClass: string
    const openWindowClass: string

    var globalModifiers: seq<Entry>
    var specificModifiers: map<Uuid, seq<Entry>>
    var viewers: map<Uuid, Viewer>
    var clientVersions: map<Uuid, int>
    var futureLists: FutureLists

    ghost predicate Valid()
      reads this
    {
      NonEmptyLists(specificModifiers) && handlerName != PacketHandlerName
    }

    /**
     * The interceptor registers itself as the first global modifier and proxies the server's
     * future list, which is at first the vanilla one.
     */
    constructor(self: ModifierId, pluginName: string, handshakeClass: string, loginClass: string,
                openWindowClass: string, serverList: ListRef, reachable: bool)
      ensures Valid()
      ensures this.self == self && handlerName == HandlerName(pluginName)
      ensures this.handshakeClass == handshakeClass && this.loginClass == loginClass && this.openWindowClass == openWindowClass
      ensures globalModifiers == [Entry(self, High)]
      ensures specificModifiers == map[] && viewers == map[] && clientVersions == map[]
      ensures futureLists == Proxied(FutureLists(serverList, None), reachable)
    {
      HandlerNameShape(pluginName);
      this.self := self;
      this.handlerName := HandlerName(pluginName);
      this.handshakeClass := handshakeClass;
      this.loginClass := loginClass;
      this.openWindowClass := openWindowClass;
      globalModifiers := [Entry(self, High)];
      specificModifiers := map[];
      viewers := map[];
      clientVersions := map[];
      futureLists := FutureLists(serverList, None);
      new;
      ProxyFutureList(reachable);
    }

    method Register(modifier: ModifierId, p: Priority)
      requires Valid()
      modifies this
      ensures Valid()
      ensures globalModifiers == InsertByPriority(old(globalModifiers), modifier, p)
      ensures specificModifiers == old(specificModifiers) && viewers == old(viewers)
      ensures clientVersions == old(clientVersions) && futureLists == old(futureLists)
    {
      globalModifiers := InsertByPriority(globalModifiers, modifier, p);
    }

    method Unregister(modifier: ModifierId)
      requires Valid()
      modifies this
      ensures Valid()
      ensures globalModifiers == WithoutModifier(old(globalModifiers), modifier)
      ensures specificModifiers == old(specificModifiers) && viewers == old(viewers)
      ensures clientVersions == old(clientVersions) && futureLists == old(futureLists)
    {
      globalModifiers := WithoutModifier(globalModifiers, modifier);
    }

    predicate IsRegisteredGlobally(modifier: ModifierId)
      reads this
    {
      IsRegistered(globalModifiers, modifier)
    }

    method RegisterSpecific(target: Uuid, modifier: ModifierId, p: Priority)
      requires Valid()
      modifies this
      ensures Valid()
      ensures specificModifiers == WithSpecific(old(specificModifiers), target, modifier, p)
      ensures globalModifiers == old(globalModifiers) && viewers == old(viewers)
      ensures clientVersions == old(clientVersions) && futureLists == old(futureLists)
    {
      if target !in specificModifiers {
        specificModifiers := specificModifiers[target := []];
      }
      var list := specificModifiers[target];
      specificModifiers := specificModifiers[target := InsertByPriority(list, modifier, p)];
    }

    method UnregisterSpecific(target: Uuid, modifier: ModifierId)
      requires Valid()
      modifies this
      ensures Valid()
      ensures specificModifiers == WithoutSpecific(old(specificModifiers), target, modifier)
      ensures globalModifiers == old(globalModifiers) && viewers == old(viewers)
      ensures clientVersions == old(clientVersions) && futureLists == old(futureLists)
    {
      if target !in specificModifiers {
        return;
      }
      var modifiers := WithoutModifier(specificModifiers[target], modifier);
      specificModifiers := specificModifiers[target := modifiers];
      if |modifiers| == 0 {
        specificModifiers := specificModifiers - {target};
      }
    }

    predicate IsRegisteredSpecific(target: Uuid, modifier: ModifierId)
      reads this
    {
      IsRegisteredFor(specificModifiers, target, modifier)
    }

    /** injectChannel: a null receiver is ignored; otherwise the handler is (re)placed in its pipeline. */
    method InjectChannel(receiver: Viewer?)
      requires Valid()
      requires receiver != null ==> receiver.channel.Valid()
      modifies if receiver == null then {} else {receiver.channel}
      ensures receiver != null ==> receiver.channel.Valid()
      ensures receiver != null ==> receiver.channel.names == Injected(old(receiver.channel.names), handlerName)
    {
      if receiver == null {
        return;
      }
      var pipe := receiver.channel;
      ghost var before := pipe.names;
      if handlerName in pipe.names {
        RemoveNameSplice(pipe.names, handlerName);
        pipe.Remove(handlerName);
      }
      assert pipe.names == RemoveName(before, handlerName);
      if PacketHandlerName in pipe.names {
        pipe.AddBefore(PacketHandlerName, handlerName);
      } else {
        pipe.AddLast(handlerName);
      }
    }

    /** uninject: the handler is removed from the receiver's pipeline, if it is there. */
    method Uninject(receiver: Viewer)
      requires receiver.channel.Valid()
      modifies receiver.channel
      ensures receiver.channel.Valid()
      ensures receiver.channel.names == RemoveName(old(receiver.channel.names), handlerName)
    {
      var pipe := receiver.channel;
      if handlerName !in pipe.names {
        return;
      }
      RemoveNameSplice(pipe.names, handlerName);
      pipe.Remove(handlerName);
    }

    method ProxyFutureList(reachable: bool)
      modifies this
      ensures futureLists == Proxied(old(futureLists), reachable)
      ensures globalModifiers == old(globalModifiers) && specificModifiers == old(specificModifiers)
      ensures viewers == old(viewers) && clientVersions == old(clientVersions)
    {
      if !reachable {
        return;
      }
      var current := futureLists.installed;
      futureLists := FutureLists(ProxyOver(current), Some(current));
    }

    method UnproxyFutureList(reachable: bool)
      modifies this
      ensures futureLists == Unproxied(old(futureLists), reachable)
      ensures globalModifiers == old(globalModifiers) && specificModifiers == old(specificModifiers)
      ensures viewers == old(viewers) && clientVersions == old(clientVersions)
    {
      if futureLists.saved.None? || !reachable {
        return;
      }
      futureLists := FutureLists(futureLists.saved.value, None);
    }

    /**
     * modifyIncoming: a handshake from an intercepted viewer records the client version, its
     * first int field; the message is returned unchanged. A null sender stands for a receiver
     * that is not an intercepted viewer.
     */
    method ModifyIncoming(sender: Viewer?, msg: Message) returns (r: Message)
      modifies if sender == null then {} else {sender}
      ensures r == msg
      ensures sender != null && msg.className == handshakeClass && |msg.intFields| > 0 ==>
        sender.clientVersion == msg.intFields[0]
      ensures sender != null && !(msg.className == handshakeClass && |msg.intFields| > 0) ==>
        sender.clientVersion == old(sender.clientVersion)
      ensures sender != null ==> sender.uuid == old(sender.uuid) && sender.currentWindowId == old(sender.currentWindowId)
      ensures sender != null ==> sender.ping == old(sender.ping)
    {
      if sender == null {
        return msg;
      }
      if msg.className == handshakeClass && |msg.intFields| > 0 {
        sender.SetClientVersion(msg.intFields[0]);
      }
      return msg;
    }

    /**
     * The state updates of modifyOutgoing on an intercepted viewer: a login with a profile sets
     * the viewer's identity, registers the viewer and caches its client version; a login without
     * one throws and is logged; an open-window message records its window id.
     */
    method RecordOutgoing(viewer: Viewer, msg: Message)
      modifies this, viewer
      ensures msg.className == loginClass && msg.profileId.Some? ==>
        viewer.uuid == msg.profileId
        && viewers == old(viewers)[msg.profileId.value := viewer]
        && clientVersions == old(clientVersions)[msg.profileId.value := old(viewer.clientVersion)]
      ensures !(msg.className == loginClass && msg.profileId.Some?) ==>
        viewer.uuid == old(viewer.uuid) && viewers == old(viewers) && clientVersions == old(clientVersions)
      ensures !(msg.className == loginClass && msg.profileId.None?) && msg.className == openWindowClass && |msg.intFields| > 0 ==>
        viewer.currentWindowId == msg.intFields[0]
      ensures (msg.className == loginClass && msg.profileId.None?) || msg.className != openWindowClass || |msg.intFields| == 0 ==>
        viewer.currentWindowId == old(viewer.currentWindowId)
      ensures viewer.clientVersion == old(viewer.clientVersion) && viewer.ping == old(viewer.ping)
      ensures globalModifiers == old(globalModifiers) && specificModifiers == old(specificModifiers)
      ensures futureLists == old(futureLists)
    {
      if msg.className == loginClass {
        match msg.profileId {
          case None =>
            return;
          case Some(id) =>
            viewer.SetUuid(Some(id));
            viewers := viewers[id := viewer];
            clientVersions := clientVersions[id := viewer.clientVersion];
        }
      }
      if msg.className == openWindowClass && |msg.intFields| > 0 {
        viewer.SetCurrentWindowId(msg.intFields[0]);
      }
    }

    /** modifyOutgoing as written: a receiver that is not an intercepted viewer is returned in place of the message. */
    method ModifyOutgoingAsWritten(receiver: Viewer?, msg: Message) returns (r: Returned)
      modifies if receiver == null then {this} else {this, receiver}
      ensures r == OutgoingReturnAsWritten(receiver != null, msg)
      ensures receiver == null ==> viewers == old(viewers) && clientVersions == old(clientVersions)
    {
      if receiver == null {
        return ReturnedReceiver;
      }
      RecordOutgoing(receiver, msg);
      return ReturnedMessage(msg);
    }

    /** modifyOutgoing: the state updates on an intercepted viewer; the message is returned unchanged. */
    method ModifyOutgoing(receiver: Viewer?, msg: Message) returns (r: Returned)
      modifies if receiver == null then {this} else {this, receiver}
      ensures r == OutgoingReturn(receiver != null, msg)
      ensures receiver == null ==> viewers == old(viewers) && clientVersions == old(clientVersions)
    {
      if receiver != null {
        RecordOutgoing(receiver, msg);
      }
      return ReturnedMessage(msg);
    }

    /** onQuit: the player's viewer is forgotten and uninjected, and the cached version dropped. */
    method OnQuit(player: Uuid)
      requires player in viewers ==> viewers[player].channel.Valid()
      modifies this, if player in viewers then {viewers[player].channel} else {}
      ensures viewers == old(viewers) - {player}
      ensures clientVersions == old(clientVersions) - {player}
      ensures player in old(viewers) ==>
        old(viewers)[player].channel.names == RemoveName(old(viewers[player].channel.names), handlerName)
      ensures globalModifiers == old(globalModifiers) && specificModifiers == old(specificModifiers)
      ensures futureLists == old(futureLists)
    {
      if player in viewers {
        var receiver := viewers[player];
        viewers := viewers - {player};
        Uninject(receiver);
      }
      clientVersions := clientVersions - {player};
    }

    /**
     * inject(p) as written. The channel is what the reflective walk from the player to its
     * network manager's channel yields, null when one of those lookups throws; then the error is
     * logged and null returned with nothing registered. Otherwise a new viewer over the channel
     * with its cached client version (or -1) and its identity is registered, but its channel is
     * left without the handler.
     */
    method InjectAsWritten(player: Uuid, channel: Pipeline?) returns (viewer: Viewer?)
      modifies this
      ensures channel == null ==> viewer == null && viewers == old(viewers)
      ensures channel != null ==>
        viewer != null && fresh(viewer) && viewer.channel == channel
        && viewer.uuid == Some(player)
        && viewer.clientVersion == (if player in clientVersions then clientVersions[player] else -1)
        && viewers == old(viewers)[player := viewer]
      ensures clientVersions == old(clientVersions)
      ensures globalModifiers == old(globalModifiers) && specificModifiers == old(specificModifiers)
      ensures futureLists == old(futureLists)
    {
      if channel == null {
        return null;
      }
      var v := new Viewer(channel);
      v.SetClientVersion(if player in clientVersions then clientVersions[player] else -1);
      v.SetUuid(Some(player));
      viewers := viewers[player := v];
      viewer := v;
    }

    /** inject(p) with the channel handler placed, as the reload path needs for existing players. */
    method Inject(player: Uuid, channel: Pipeline?) returns (viewer: Viewer?)
      requires Valid() && (channel != null ==> channel.Valid())
      modifies this, channel
      ensures Valid()
      ensures channel == null ==> viewer == null && viewers == old(viewers)
      ensures channel != null ==>
        viewer != null && fresh(viewer) && viewer.channel == channel
        && channel.Valid()
        && viewer.uuid == Some(player)
        && viewer.clientVersion == (if player in old(clientVersions) then old(clientVersions)[player] else -1)
        && viewers == old(viewers)[player := viewer]
        && channel.names == Injected(old(channel.names), handlerName)
      ensures clientVersions == old(clientVersions)
      ensures globalModifiers == old(globalModifiers) && specificModifiers == old(specificModifiers)
    {
      viewer := InjectAsWritten(player, channel);
      if viewer != null {
        InjectChannel(viewer);
      }
    }

    /**
     * getPlayerAsViewer: the registered viewer, or else the result of inject as written, which
     * is null when the reflective lookups fail and otherwise a registered viewer whose channel is
     * left as it was.
     */
    method GetPlayerAsViewer(player: Uuid, channel: Pipeline?) returns (viewer: Viewer?)
      requires Valid()
      modifies this
      ensures Valid()
      ensures player in old(viewers) ==> viewer == old(viewers)[player] && viewers == old(viewers)
      ensures player !in old(viewers) && channel == null ==> viewer == null && viewers == old(viewers)
      ensures player !in old(viewers) && channel != null ==>
        viewer != null && fresh(viewer) && viewer.channel == channel && viewers == old(viewers)[player := viewer]
      ensures viewer != null ==> player in viewers && viewers[player] == viewer
    {
      if player in viewers {
        return viewers[player];
      }
      viewer := InjectAsWritten(player, channel);
    }

    /** getPlayerAsViewer over the corrected inject: a newly injected viewer also has the handler in its channel. */
    method GetPlayerAsViewerCorrected(player: Uuid, channel: Pipeline?) returns (viewer: Viewer?)
      requires Valid() && (channel != null ==> channel.Valid())
      modifies this, channel
      ensures Valid()
      ensures player in old(viewers) ==> viewer == old(viewers)[player] && viewers == old(viewers)
      ensures player !in old(viewers) && channel == null ==> viewer == null && viewers == old(viewers)
      ensures player !in old(viewers) && channel != null ==>
        viewer != null && fresh(viewer) && viewer.channel == channel && viewers == old(viewers)[player := viewer]
        && channel.names == Injected(old(channel.names), handlerName)
      ensures viewer != null ==> player in viewers && viewers[player] == viewer
    {
      if player in viewers {
        return viewers[player];
      }
      viewer := Inject(player, channel);
    }
  }
}
