/**
 * SetSlotCommunicator: builds a set-slot packet (window id, state or slot, optional slot, item)
 * and stamps the window id per viewer: the open window for a top-inventory slot, else -2.
 */
module SetSlotCommunicator {
  import opened Wrappers
  import opened PacketCommunicators

  /** The window id that addresses the player's own inventory. */
  const PlayerInventoryWindow: int := -2

  /** An item stack; a missing item is sent as AIR. */
  datatype Item = Air | Stack(id: nat)

  /** A set-slot packet: its int fields in declaration order and its item field. */
  class SlotPacket {
    const ints: array<int>
    var item: Item

    /** createEmptyPacket: every int field zero, the item AIR. */
    constructor(intFieldCount: nat)
      ensures fresh(ints) && ints.Length == intFieldCount
      ensures forall i :: 0 <= i < intFieldCount ==> ints[i] == 0
      ensures item == Air
    {
      ints := new int[intFieldCount](_ => 0);
      item := Air;
    }
  }

  /** SetSlotParameter: whether the slot is in the top inventory, the slot and the item. */
  datatype SetSlotParameter = SetSlotParameter(top: bool, slot: int, item: Option<Item>)

  /** The window id for a viewer: its open window for a top-inventory slot, else the player inventory. */
  function WindowIdFor(top: bool, currentWindowId: int): (w: int)
    ensures top ==> w == currentWindowId
    ensures !top ==> w == PlayerInventoryWindow
  {
    if top then currentWindowId else PlayerInventoryWindow
  }

  /**
   * The int fields of a built packet: the window id field, then 0 in the state-or-slot field,
   * and the slot in the third int field, or in the second when there is no third.
   */
  function Layout(intFieldCount: nat, windowId: int, slot: int): (r: seq<int>)
    requires intFieldCount >= 2
    ensures |r| == intFieldCount && r[0] == windowId
    ensures intFieldCount == 2 ==> r[1] == slot
    ensures intFieldCount > 2 ==> r[1] == 0 && r[2] == slot
    ensures forall i :: 3 <= i < intFieldCount ==> r[i] == 0
  {
    var zeros := seq(intFieldCount, _ => 0);
    if intFieldCount > 2 then zeros[0 := windowId][2 := slot] else zeros[0 := windowId][1 := slot]
  }

  /** A missing item is AIR. */
  function ItemOrAir(item: Option<Item>): (r: Item)
    ensures item.None? ==> r == Air
    ensures item.Some? ==> r == item.value
  {
    if item.Some? then item.value else Air
  }

  /**
   * createPacket: the int fields are chosen by position (the first, the one after skipping one,
   * and an optional one after skipping two); the window id field is left at zero for the caller.
   */
  method CreatePacket(intFieldCount: nat, parameter: SetSlotParameter) returns (p: SlotPacket)
    requires intFieldCount >= 2
    ensures fresh(p) && fresh(p.ints)
    ensures p.ints[..] == Layout(intFieldCount, 0, parameter.slot)
    ensures p.item == ItemOrAir(parameter.item)
  {
    p := new SlotPacket(intFieldCount);
    p.ints[1] := 0;
    if intFieldCount > 2 {
      p.ints[2] := parameter.slot;
    } else {
      p.ints[1] := parameter.slot;
    }
    var item := parameter.item;
    if item.None? {
      item := Some(Air);
    }
    p.item := item.value;
  }

  /** A packet handed to a viewer: its int fields and item at that moment, and whether a callback went with it. */
  datatype SlotSend = SlotSend(receiver: ReceiverId, ints: seq<int>, item: Item, withCallback: bool)

  /** A viewer as this communicator sees it: its identity and its current window id. */
  datatype SlotViewer = SlotViewer(id: ReceiverId, currentWindowId: int)

  /**
   * sendToViewer as written: the packet is built and stamped with the window id, and SUCCESS
   * is returned, but nothing is sent.
   */
  method SendToViewerAsWritten(intFieldCount: nat, buildOk: bool, parameter: SetSlotParameter, viewer: SlotViewer, withCallback: bool)
    returns (code: CommunicatorResult, sends: seq<SlotSend>)
    requires intFieldCount >= 2
    ensures buildOk ==> code == Success && sends == []
    ensures !buildOk ==> code == ReflectionError && sends == []
  {
    if !buildOk {
      return ReflectionError, [];
    }
    var p := CreatePacket(intFieldCount, parameter);
    p.ints[0] := WindowIdFor(parameter.top, viewer.currentWindowId);
    return Success, [];
  }

  /** sendToViewer as intended: the stamped packet is sent to the viewer, as every other send does. */
  method SendToViewer(intFieldCount: nat, buildOk: bool, parameter: SetSlotParameter, viewer: SlotViewer, withCallback: bool)
    returns (code: CommunicatorResult, sends: seq<SlotSend>)
    requires intFieldCount >= 2
    ensures buildOk ==> code == Success
    ensures buildOk ==>
      sends == [SlotSend(viewer.id, Layout(intFieldCount, WindowIdFor(parameter.top, viewer.currentWindowId), parameter.slot),
                         ItemOrAir(parameter.item), withCallback)]
    ensures !buildOk ==> code == ReflectionError && sends == []
  {
    if !buildOk {
      return ReflectionError, [];
    }
    var p := CreatePacket(intFieldCount, parameter);
    p.ints[0] := WindowIdFor(parameter.top, viewer.currentWindowId);
    assert p.ints[..] == Layout(intFieldCount, WindowIdFor(parameter.top, viewer.currentWindowId), parameter.slot);
    return Success, [SlotSend(viewer.id, p.ints[..], p.item, withCallback)];
  }

  /** As written, a successful sendToViewer reaches nobody, while the intended one reaches the viewer. */
  method SendToViewerDiscrepancy(intFieldCount: nat, parameter: SetSlotParameter, viewer: SlotViewer)
    returns (asWritten: seq<SlotSend>, intended: seq<SlotSend>)
    requires intFieldCount >= 2
    ensures asWritten == [] && |intended| == 1 && intended[0].receiver == viewer.id
  {
    var c1, c2;
    c1, asWritten := SendToViewerAsWritten(intFieldCount, true, parameter, viewer, false);
    c2, intended := SendToViewer(intFieldCount, true, parameter, viewer, false);
  }

  /**
   * sendToViewers / sendToPlayers: one packet, re-stamped with each viewer's window id just
   * before it is handed to that viewer.
   */
  method SendToViewers(intFieldCount: nat, buildOk: bool, parameter: SetSlotParameter, viewers: seq<SlotViewer>, withCallback: bool)
    returns (code: CommunicatorResult, sends: seq<SlotSend>)
    requires intFieldCount >= 2
    ensures !buildOk ==> code == ReflectionError && sends == []
    ensures buildOk ==> code == Success && |sends| == |viewers|
    ensures buildOk ==> forall i :: 0 <= i < |viewers| ==>
      sends[i] == SlotSend(viewers[i].id, Layout(intFieldCount, WindowIdFor(parameter.top, viewers[i].currentWindowId), parameter.slot),
                           ItemOrAir(parameter.item), withCallback)
  {
    if !buildOk {
      return ReflectionError, [];
    }
    var p := CreatePacket(intFieldCount, parameter);
    sends := [];
    var i := 0;
    while i < |viewers|
      invariant 0 <= i <= |viewers|
      invariant p.ints[1..] == Layout(intFieldCount, 0, parameter.slot)[1..]
      invariant p.item == ItemOrAir(parameter.item)
      invariant |sends| == i
      invariant forall k :: 0 <= k < i ==>
        sends[k] == SlotSend(viewers[k].id, Layout(intFieldCount, WindowIdFor(parameter.top, viewers[k].currentWindowId), parameter.slot),
                             ItemOrAir(parameter.item), withCallback)
      modifies p.ints
    {
      var w := WindowIdFor(parameter.top, viewers[i].currentWindowId);
      p.ints[0] := w;
      assert p.ints[..] == Layout(intFieldCount, w, parameter.slot) by {
        assert p.ints[..][1..] == p.ints[1..];
        assert Layout(intFieldCount, w, parameter.slot)[1..] == Layout(intFieldCount, 0, parameter.slot)[1..];
      }
      sends := sends + [SlotSend(viewers[i].id, p.ints[..], p.item, withCallback)];
      i := i + 1;
    }
    return Success, sends;
  }
}
