/**
 * APacketCommunicator and its outgoing and incoming refinements: build one packet from a
 * parameter, optionally personalise it per viewer, hand it to one or many receivers, and run
 * a completion callback once every delivery completed. The three classes share this logic;
 * outgoing deliveries are sendPacket calls, incoming ones receivePacket calls.
 */
module PacketCommunicators {
  import opened Wrappers
  import opened Interception

  datatype CommunicatorResult = Success | ReflectionError | ViewerRequired | UnknownParameterType

  /** A packet receiver (a viewer is a receiver too). */
  type ReceiverId = nat

  datatype Direction = Outbound | Inbound

  /** One sendPacket or receivePacket call: the packet and whether a completion callback went with it. */
  datatype Delivery = Delivery(direction: Direction, receiver: ReceiverId, packet: Message, withCallback: bool)

  /** What personalizeBasePacket does: personalises the packet, is unsupported, or fails otherwise. */
  datatype Personalized = Personalized(packet: Message) | Unsupported | PersonalizeFailed

  type Personalizer = (ReceiverId, Message) -> Personalized

  /** A communicator call's result code and the deliveries it made. */
  datatype Outcome = Outcome(code: CommunicatorResult, deliveries: seq<Delivery>)

  // ---------------------------------------------------------------------------
  // Deliveries
  // ---------------------------------------------------------------------------

  /** Each packet once, in order, to one receiver, with a callback exactly when one was given. */
  function PacketDeliveries(d: Direction, r: ReceiverId, packets: seq<Message>, withCallback: bool): seq<Delivery> {
    seq(|packets|, i requires 0 <= i < |packets| => Delivery(d, r, packets[i], withCallback))
  }

  /** One packet to every receiver in turn, each with a callback exactly when one was given. */
  function ReceiversDeliveries(d: Direction, rs: seq<ReceiverId>, packet: Message, withCallback: bool): seq<Delivery> {
    seq(|rs|, i requires 0 <= i < |rs| => Delivery(d, rs[i], packet, withCallback))
  }

  /**
   * The viewer variants' routine over one shared packet: each viewer personalises the packet as
   * the previous viewers left it and then gets it; an unsupported personalisation is ignored;
   * another failure ends the walk.
   */
  function ViewersDeliveries(d: Direction, vs: seq<ReceiverId>, packet: Message, personalize: Personalizer, withCallback: bool): (Option<seq<Delivery>>, seq<Delivery>) {
    if vs == [] then (Some([]), [])
    else if personalize(vs[0], packet).PersonalizeFailed? then (None, [])
    else
      var next := NextPacket(personalize(vs[0], packet), packet);
      var rest := ViewersDeliveries(d, vs[1..], next, personalize, withCallback);
      (if rest.0.Some? then Some([Delivery(d, vs[0], next, withCallback)] + rest.0.value) else None,
       [Delivery(d, vs[0], next, withCallback)] + rest.1)
  }

  /** The packet as a viewer leaves it: personalised, or unchanged when personalisation is unsupported. */
  function NextPacket(verdict: Personalized, packet: Message): Message {
    if verdict.Personalized? then verdict.packet else packet
  }

  /**
   * The walk either completes with one delivery per viewer, in viewer order, or fails; in both
   * cases the deliveries made so far are a prefix over the viewers, and they all match the callback flag.
   */
  lemma {:induction false} ViewersDeliveriesShape(d: Direction, vs: seq<ReceiverId>, packet: Message, personalize: Personalizer, withCallback: bool)
    ensures ViewersDeliveries(d, vs, packet, personalize, withCallback).0.Some? ==>
      ViewersDeliveries(d, vs, packet, personalize, withCallback).0.value == ViewersDeliveries(d, vs, packet, personalize, withCallback).1
    ensures |ViewersDeliveries(d, vs, packet, personalize, withCallback).1| <= |vs|
    ensures ViewersDeliveries(d, vs, packet, personalize, withCallback).0.Some? ==> |ViewersDeliveries(d, vs, packet, personalize, withCallback).1| == |vs|
    ensures forall i :: 0 <= i < |ViewersDeliveries(d, vs, packet, personalize, withCallback).1| ==>
      ViewersDeliveries(d, vs, packet, personalize, withCallback).1[i].receiver == vs[i]
      && ViewersDeliveries(d, vs, packet, personalize, withCallback).1[i].withCallback == withCallback
      && ViewersDeliveries(d, vs, packet, personalize, withCallback).1[i].direction == d
  {
    if vs != [] && !personalize(vs[0], packet).PersonalizeFailed? {
      ViewersDeliveriesShape(d, vs[1..], NextPacket(personalize(vs[0], packet), packet), personalize, withCallback);
    }
  }

  /** Without any supported personalisation, every viewer gets the base packet, as for plain receivers. */
  lemma {:induction false} UnpersonalizedViewersGetBasePacket(d: Direction, vs: seq<ReceiverId>, packet: Message, personalize: Personalizer, withCallback: bool)
    requires forall i :: 0 <= i < |vs| ==> personalize(vs[i], packet) == Unsupported
    ensures ViewersDeliveries(d, vs, packet, personalize, withCallback).0 == Some(ReceiversDeliveries(d, vs, packet, withCallback))
  {
    if vs != [] {
      assert personalize(vs[0], packet) == Unsupported;
      assert forall i :: 0 <= i < |vs[1..]| ==> personalize(vs[1..][i], packet) == Unsupported by {
        forall i | 0 <= i < |vs[1..]| ensures personalize(vs[1..][i], packet) == Unsupported {
          assert vs[1..][i] == vs[i + 1];
        }
      }
      UnpersonalizedViewersGetBasePacket(d, vs[1..], packet, personalize, withCallback);
      assert [Delivery(d, vs[0], packet, withCallback)] + ReceiversDeliveries(d, vs[1..], packet, withCallback)
        == ReceiversDeliveries(d, vs, packet, withCallback);
    }
  }

  /** sendPacketsToReceiver / receivePacketsFromReceiver: the loop over the packets. */
  method DeliverPackets(d: Direction, r: ReceiverId, packets: seq<Message>, withCallback: bool) returns (ds: seq<Delivery>)
    ensures ds == PacketDeliveries(d, r, packets, withCallback)
    ensures |ds| == |packets|
    ensures forall i :: 0 <= i < |ds| ==> ds[i].packet == packets[i] && ds[i].receiver == r && ds[i].withCallback == withCallback
  {
    ds := [];
    var i := 0;
    while i < |packets|
      invariant 0 <= i <= |packets|
      invariant |ds| == i
      invariant forall k :: 0 <= k < i ==> ds[k] == Delivery(d, r, packets[k], withCallback)
    {
      ds := ds + [Delivery(d, r, packets[i], withCallback)];
      i := i + 1;
    }
  }

  /** sendPacketsToReceivers with the single-receiver routine for one packet. */
  method DeliverToReceivers(d: Direction, rs: seq<ReceiverId>, packet: Message, withCallback: bool) returns (ds: seq<Delivery>)
    ensures ds == ReceiversDeliveries(d, rs, packet, withCallback)
    ensures |ds| == |rs|
    ensures forall i :: 0 <= i < |ds| ==> ds[i].receiver == rs[i] && ds[i].packet == packet && ds[i].withCallback == withCallback
  {
    ds := [];
    var i := 0;
    while i < |rs|
      invariant 0 <= i <= |rs|
      invariant |ds| == i
      invariant forall k :: 0 <= k < i ==> ds[k] == Delivery(d, rs[k], packet, withCallback)
    {
      var one := DeliverPackets(d, rs[i], [packet], withCallback);
      ds := ds + one;
      i := i + 1;
    }
  }

  /** sendPacketsToReceivers with the personalising routine, over one shared packet. */
  method DeliverToViewers(d: Direction, vs: seq<ReceiverId>, packet: Message, personalize: Personalizer, withCallback: bool)
    returns (completed: bool, ds: seq<Delivery>)
    ensures completed <==> ViewersDeliveries(d, vs, packet, personalize, withCallback).0.Some?
    ensures ds == ViewersDeliveries(d, vs, packet, personalize, withCallback).1
  {
    ghost var total := ViewersDeliveries(d, vs, packet, personalize, withCallback);
    ds := [];
    var cur := packet;
    var i := 0;
    assert vs[0..] == vs;
    while i < |vs|
      invariant 0 <= i <= |vs|
      invariant total.0.Some? <==> ViewersDeliveries(d, vs[i..], cur, personalize, withCallback).0.Some?
      invariant total.1 == ds + ViewersDeliveries(d, vs[i..], cur, personalize, withCallback).1
    {
      assert vs[i..][0] == vs[i] && vs[i..][1..] == vs[i + 1..];
      var verdict := personalize(vs[i], cur);
      if verdict.PersonalizeFailed? {
        assert ds + [] == ds;
        return false, ds;
      }
      cur := NextPacket(verdict, cur);
      ghost var rest := ViewersDeliveries(d, vs[i + 1..], cur, personalize, withCallback);
      assert ds + ([Delivery(d, vs[i], cur, withCallback)] + rest.1) == (ds + [Delivery(d, vs[i], cur, withCallback)]) + rest.1;
      ds := ds + [Delivery(d, vs[i], cur, withCallback)];
      i := i + 1;
    }
    assert ds + [] == ds;
    return true, ds;
  }

  // ---------------------------------------------------------------------------
  // Result codes
  // ---------------------------------------------------------------------------

  /**
   * sendToReceiver / receiveFromReceiver: a communicator that needs a viewer refuses before
   * building anything; a failing build gives REFLECTION_ERROR; otherwise the packet is delivered.
   */
  function ToReceiver(d: Direction, requiresViewer: bool, build: Result<Message>, r: ReceiverId, withCallback: bool): (o: Outcome)
    ensures requiresViewer ==> o == Outcome(ViewerRequired, [])
    ensures !requiresViewer && build.Throw? ==> o == Outcome(ReflectionError, [])
    ensures !requiresViewer && build.Ok? ==>
      o.code == Success && o.deliveries == [Delivery(d, r, build.value, withCallback)]
  {
    if requiresViewer then Outcome(ViewerRequired, [])
    else if build.Throw? then Outcome(ReflectionError, [])
    else Outcome(Success, PacketDeliveries(d, r, [build.value], withCallback))
  }

  /** sendToReceivers / receiveFromReceivers: the same checks, then one delivery per receiver. */
  function ToReceivers(d: Direction, requiresViewer: bool, build: Result<Message>, rs: seq<ReceiverId>, withCallback: bool): (o: Outcome)
    ensures requiresViewer ==> o == Outcome(ViewerRequired, [])
    ensures !requiresViewer && build.Throw? ==> o == Outcome(ReflectionError, [])
    ensures !requiresViewer && build.Ok? ==> o.code == Success && |o.deliveries| == |rs|
    ensures !requiresViewer && build.Ok? ==> forall i :: 0 <= i < |rs| ==> o.deliveries[i] == Delivery(d, rs[i], build.value, withCallback)
  {
    if requiresViewer then Outcome(ViewerRequired, [])
    else if build.Throw? then Outcome(ReflectionError, [])
    else Outcome(Success, ReceiversDeliveries(d, rs, build.value, withCallback))
  }

  /**
   * sendToViewer / receiveFromViewer: no viewer check; the packet is personalised for the viewer,
   * an unsupported personalisation leaves the base packet, and any other failure is REFLECTION_ERROR.
   */
  function ToViewer(d: Direction, build: Result<Message>, personalize: Personalizer, v: ReceiverId, withCallback: bool): (o: Outcome)
    ensures build.Throw? ==> o == Outcome(ReflectionError, [])
    ensures build.Ok? && personalize(v, build.value).PersonalizeFailed? ==> o == Outcome(ReflectionError, [])
    ensures build.Ok? && personalize(v, build.value).Unsupported? ==> o == Outcome(Success, [Delivery(d, v, build.value, withCallback)])
    ensures build.Ok? && personalize(v, build.value).Personalized? ==>
      o == Outcome(Success, [Delivery(d, v, personalize(v, build.value).packet, withCallback)])
  {
    if build.Throw? then Outcome(ReflectionError, [])
    else
      match personalize(v, build.value)
      case PersonalizeFailed => Outcome(ReflectionError, [])
      case Unsupported => Outcome(Success, [Delivery(d, v, build.value, withCallback)])
      case Personalized(p) => Outcome(Success, [Delivery(d, v, p, withCallback)])
  }

  /**
   * sendToViewers / receiveFromViewers: the personalising walk over all viewers; a failure part
   * way is REFLECTION_ERROR, with the deliveries already made left made.
   */
  function ToViewers(d: Direction, build: Result<Message>, personalize: Personalizer, vs: seq<ReceiverId>, withCallback: bool): (o: Outcome)
    ensures build.Throw? ==> o == Outcome(ReflectionError, [])
    ensures o.code == Success ==> |o.deliveries| == |vs|
    ensures o.code == Success || o.code == ReflectionError
    ensures |o.deliveries| <= |vs|
    ensures forall i :: 0 <= i < |o.deliveries| ==> o.deliveries[i].receiver == vs[i] && o.deliveries[i].withCallback == withCallback
    ensures build.Ok? && (forall i :: 0 <= i < |vs| ==> personalize(vs[i], build.value) == Unsupported) ==>
      o == Outcome(Success, ReceiversDeliveries(d, vs, build.value, withCallback))
  {
    if build.Throw? then Outcome(ReflectionError, [])
    else
      ViewersDeliveriesShape(d, vs, build.value, personalize, withCallback);
      if (forall i :: 0 <= i < |vs| ==> personalize(vs[i], build.value) == Unsupported) then
        UnpersonalizedViewersGetBasePacket(d, vs, build.value, personalize, withCallback);
        ToViewersWalk(d, build.value, personalize, vs, withCallback)
      else ToViewersWalk(d, build.value, personalize, vs, withCallback)
  }

  function ToViewersWalk(d: Direction, packet: Message, personalize: Personalizer, vs: seq<ReceiverId>, withCallback: bool): Outcome {
    var (all, partial) := ViewersDeliveries(d, vs, packet, personalize, withCallback);
    if all.Some? then Outcome(Success, all.value) else Outcome(ReflectionError, partial)
  }

  /** A single viewer is served exactly as a one-viewer collection is. */
  lemma ViewerIsOneViewerWalk(d: Direction, build: Result<Message>, personalize: Personalizer, v: ReceiverId, withCallback: bool)
    ensures ToViewer(d, build, personalize, v, withCallback) == ToViewers(d, build, personalize, [v], withCallback)
  {
    if build.Ok? {
      assert [v][0] == v && [v][1..] == [];
      assert ToViewers(d, build, personalize, [v], withCallback) == ToViewersWalk(d, build.value, personalize, [v], withCallback);
      match personalize(v, build.value)
      case PersonalizeFailed =>
      case Unsupported =>
        assert ViewersDeliveries(d, [v][1..], build.value, personalize, withCallback) == (Some([]), []);
        assert [Delivery(d, v, build.value, withCallback)] + [] == [Delivery(d, v, build.value, withCallback)];
        assert ViewersDeliveries(d, [v], build.value, personalize, withCallback)
          == (Some([Delivery(d, v, build.value, withCallback)]), [Delivery(d, v, build.value, withCallback)]);
      case Personalized(p) =>
        assert ViewersDeliveries(d, [v][1..], p, personalize, withCallback) == (Some([]), []);
        assert [Delivery(d, v, p, withCallback)] + [] == [Delivery(d, v, p, withCallback)];
        assert ViewersDeliveries(d, [v], build.value, personalize, withCallback)
          == (Some([Delivery(d, v, p, withCallback)]), [Delivery(d, v, p, withCallback)]);
    }
  }

  /** sendToPlayer / receiveFromPlayer: the viewer call on the player's viewer. */
  function ToPlayer(d: Direction, build: Result<Message>, personalize: Personalizer, viewerOf: Uuid -> ReceiverId, player: Uuid, withCallback: bool): (o: Outcome)
    ensures build.Throw? ==> o == Outcome(ReflectionError, [])
    ensures o.code == Success || o.code == ReflectionError
    ensures o.code == Success ==> |o.deliveries| == 1 && o.deliveries[0].receiver == viewerOf(player)
    ensures build.Ok? && personalize(viewerOf(player), build.value).Unsupported? ==>
      o == Outcome(Success, [Delivery(d, viewerOf(player), build.value, withCallback)])
  {
    ToViewer(d, build, personalize, viewerOf(player), withCallback)
  }

  /** sendToPlayers / receiveFromPlayers: the viewers call over the players' viewers, in player order. */
  function ToPlayers(d: Direction, build: Result<Message>, personalize: Personalizer, viewerOf: Uuid -> ReceiverId, players: seq<Uuid>, withCallback: bool): (o: Outcome)
    ensures build.Throw? ==> o == Outcome(ReflectionError, [])
    ensures o.code == Success || o.code == ReflectionError
    ensures o.code == Success ==> |o.deliveries| == |players|
    ensures |o.deliveries| <= |players|
    ensures forall i :: 0 <= i < |o.deliveries| ==> o.deliveries[i].receiver == viewerOf(players[i]) && o.deliveries[i].withCallback == withCallback
  {
    ToViewers(d, build, personalize, seq(|players|, i requires 0 <= i < |players| => viewerOf(players[i])), withCallback)
  }

  // ---------------------------------------------------------------------------
  // Completion counting
  // ---------------------------------------------------------------------------

  /**
   * The shared completion counter behind a done callback: every delivery's callback increments
   * it, and the one whose increment reaches the total runs done.
   */
  class CompletionCounter {
    const total: nat
    var count: nat
    /** How often done has run. */
    var doneRuns: nat

    constructor(total: nat)
      ensures this.total == total && count == 0 && doneRuns == 0
    {
      this.total := total;
      count := 0;
      doneRuns := 0;
    }

    /** One delivery completed: incrementAndGet() == total runs done. */
    method Complete()
      modifies this
      ensures count == old(count) + 1
      ensures doneRuns == old(doneRuns) + (if count == total then 1 else 0)
    {
      count := count + 1;
      if count == total {
        doneRuns := doneRuns + 1;
      }
    }

    /**
     * k of the total deliveries complete, in whatever order (their callbacks are alike): done
     * has run once exactly when all completed, and never when there was nothing to deliver.
     */
    method CompleteMany(k: nat)
      requires count == 0 && doneRuns == 0 && k <= total
      modifies this
      ensures count == k
      ensures doneRuns == (if k == total && total > 0 then 1 else 0)
      ensures total == 0 ==> doneRuns == 0
    {
      var i := 0;
      while i < k
        invariant 0 <= i <= k
        invariant count == i
        invariant doneRuns == (if i == total && i > 0 then 1 else 0)
      {
        Complete();
        i := i + 1;
      }
    }
  }
}
