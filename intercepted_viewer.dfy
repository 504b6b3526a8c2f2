/**
 * InterceptedViewer: a connected client whose traffic is intercepted. It sends and receives
 * packets over its channel, tells whether the client can render hex colours, and keeps a
 * smoothed ping from handshake round trips.
 */
module InterceptedViewers {
  import opened Wrappers
  import opened JavaStrings
  import opened JavaInts
  import opened Interception

  /** The first protocol version (1.16-pre1) that renders hex colours. */
  const HexColorProtocol: int := 721

  /** What sendPacket did: whether the send was invoked, a completion listener was attached, the callback ran at once. */
  datatype SendOutcome = SendOutcome(invoked: bool, listenerAttached: bool, callbackRanNow: bool)

  /** What receivePacket did: whether the receive was invoked, the callback ran, an error was logged. */
  datatype ReceiveOutcome = ReceiveOutcome(invoked: bool, callbackRan: bool, errorLogged: bool)

  /**
   * sendPacket: a closed channel sends nothing and releases the callback at once; an open one
   * invokes the send with a listener wrapping the callback, or with no listener for no callback.
   */
  function SendPacket(open: bool, hasCallback: bool): (r: SendOutcome)
    ensures r.invoked <==> open
    ensures r.listenerAttached <==> open && hasCallback
    ensures r.callbackRanNow <==> !open && hasCallback
  {
    if !open then SendOutcome(false, false, hasCallback)
    else SendOutcome(true, hasCallback, false)
  }

  /** A callback given to sendPacket is handed over exactly once: run at once or attached, never both. */
  lemma SendHandsCallbackOverOnce(open: bool, hasCallback: bool)
    ensures hasCallback <==> (SendPacket(open, hasCallback).listenerAttached != SendPacket(open, hasCallback).callbackRanNow)
    ensures !(SendPacket(open, hasCallback).listenerAttached && SendPacket(open, hasCallback).callbackRanNow)
  {
  }

  /**
   * receivePacket: a closed channel releases the callback without receiving; an open one runs the
   * callback only after the receive succeeded, and logs the error otherwise.
   */
  function ReceivePacket(open: bool, hasCallback: bool, invocationSucceeds: bool): (r: ReceiveOutcome)
    ensures r.invoked <==> open
    ensures r.callbackRan <==> hasCallback && (!open || invocationSucceeds)
    ensures r.errorLogged <==> open && !invocationSucceeds
    ensures r.callbackRan && r.invoked ==> invocationSucceeds
  {
    if !open then ReceiveOutcome(false, hasCallback, false)
    else if invocationSucceeds then ReceiveOutcome(true, hasCallback, false)
    else ReceiveOutcome(true, false, true)
  }

  /** (int) (now - stamp), capped below at zero. */
  function ResponseTime(now: int, stamp: int): (r: int)
    ensures 0 <= r <= Int32Max
    ensures 0 <= now - stamp <= Int32Max ==> r == now - stamp
    ensures Int32Min <= now - stamp < 0 ==> r == 0
  {
    var rt := Wrap32(now - stamp);
    if rt < 0 then 0 else rt
  }

  /** (ping * 3 + responseTime) / 4 in int arithmetic. */
  function SmoothedPing(ping: int, responseTime: int): (r: int)
    ensures IsInt32(r)
  {
    TruncDiv(Wrap32(ping * 3 + responseTime), 4)
  }

  /**
   * Without overflow, the new ping lies between the old ping and the response time, weighted
   * three to one toward the old ping.
   */
  lemma SmoothedPingBetween(ping: int, responseTime: int)
    requires 0 <= ping && 0 <= responseTime
    requires ping * 3 + responseTime <= Int32Max
    ensures ping <= responseTime ==> ping <= SmoothedPing(ping, responseTime) <= responseTime
    ensures responseTime <= ping ==> responseTime <= SmoothedPing(ping, responseTime) <= ping
    ensures 4 * SmoothedPing(ping, responseTime) <= ping * 3 + responseTime < 4 * SmoothedPing(ping, responseTime) + 4
  {
    var r := SmoothedPing(ping, responseTime);
    assert Wrap32(ping * 3 + responseTime) == ping * 3 + responseTime;
    assert r * 4 <= ping * 3 + responseTime < r * 4 + 4;
  }

  /** A steady response time is a fixed point of the smoothing. */
  lemma SmoothedPingSteady(ping: int)
    requires 0 <= ping && ping * 4 <= Int32Max
    ensures SmoothedPing(ping, ping) == ping
  {
    SmoothedPingBetween(ping, ping);
  }

  class Viewer {
    /** The viewer's channel pipeline. */
    const channel: Pipeline
    var uuid: Option<Uuid>
    var clientVersion: int
    var currentWindowId: int
    var lastHandshakeRequestStamp: int
    var lastHandshakeRequestId: int
    var ping: int

    /** The fields left at Java's defaults: no identity and zero everywhere. */
    constructor(channel: Pipeline)
      ensures this.channel == channel
      ensures uuid == None && clientVersion == 0 && currentWindowId == 0
      ensures lastHandshakeRequestStamp == 0 && lastHandshakeRequestId == 0 && ping == 0
    {
      this.channel := channel;
      uuid := None;
      clientVersion := 0;
      currentWindowId := 0;
      lastHandshakeRequestStamp := 0;
      lastHandshakeRequestId := 0;
      ping := 0;
    }

    predicate CannotRenderHexColors()
      reads this
    {
      clientVersion < HexColorProtocol
    }

    method SetUuid(u: Option<Uuid>)
      modifies this
      ensures uuid == u
      ensures clientVersion == old(clientVersion) && currentWindowId == old(currentWindowId)
      ensures lastHandshakeRequestStamp == old(lastHandshakeRequestStamp) && lastHandshakeRequestId == old(lastHandshakeRequestId)
      ensures ping == old(ping)
    {
      uuid := u;
    }

    method SetClientVersion(v: int)
      modifies this
      ensures clientVersion == v
      ensures uuid == old(uuid) && currentWindowId == old(currentWindowId)
      ensures lastHandshakeRequestStamp == old(lastHandshakeRequestStamp) && lastHandshakeRequestId == old(lastHandshakeRequestId)
      ensures ping == old(ping)
    {
      clientVersion := v;
    }

    method SetCurrentWindowId(id: int)
      modifies this
      ensures currentWindowId == id
      ensures uuid == old(uuid) && clientVersion == old(clientVersion)
      ensures lastHandshakeRequestStamp == old(lastHandshakeRequestStamp) && lastHandshakeRequestId == old(lastHandshakeRequestId)
      ensures ping == old(ping)
    {
      currentWindowId := id;
    }

    method SetLastHandshakeRequest(stamp: int, id: int)
      modifies this
      ensures lastHandshakeRequestStamp == stamp && lastHandshakeRequestId == id
      ensures uuid == old(uuid) && clientVersion == old(clientVersion) && currentWindowId == old(currentWindowId)
      ensures ping == old(ping)
    {
      lastHandshakeRequestStamp := stamp;
      lastHandshakeRequestId := id;
    }

    /** completedHandshake, at the current time now: folds the round trip into the ping. */
    method CompletedHandshake(now: int)
      modifies this
      ensures ping == SmoothedPing(old(ping), ResponseTime(now, lastHandshakeRequestStamp))
      ensures uuid == old(uuid) && clientVersion == old(clientVersion) && currentWindowId == old(currentWindowId)
      ensures lastHandshakeRequestStamp == old(lastHandshakeRequestStamp) && lastHandshakeRequestId == old(lastHandshakeRequestId)
    {
      var responseTime := Wrap32(now - lastHandshakeRequestStamp);
      if responseTime < 0 {
        responseTime := 0;
      }
      ping := TruncDiv(Wrap32(ping * 3 + responseTime), 4);
    }
  }
}
