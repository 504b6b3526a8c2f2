/**
 * FakeItemCommunicator: a client-side only change of one slot of the player's inventory or of
 * the window the player has open, sent as a set-slot packet.
 */
module FakeItemCommunicator {
  import opened Wrappers
  import opened SetSlotCommunicator

  /** The highest slot of the player's inventory that may be faked. */
  const MaxSlot: int := 35

  /** The window id the player has open when viewing no inventory. */
  const NoOpenWindow: int := 0

  /**
   * The int fields after the writes of setFakeSlot, for any number of int fields: the window id
   * in the first, 0 in the second, and the slot in the third, or in the second when there is no
   * third; a write to a field that does not exist does nothing.
   */
  function FakeLayout(intFieldCount: nat, windowId: int, slot: int): (r: seq<int>)
    ensures |r| == intFieldCount
    ensures intFieldCount > 0 ==> r[0] == windowId
    ensures intFieldCount == 2 ==> r[1] == slot
    ensures intFieldCount > 2 ==> r[1] == 0 && r[2] == slot
    ensures forall i :: 3 <= i < intFieldCount ==> r[i] == 0
  {
    var zeros := seq(intFieldCount, _ => 0);
    if intFieldCount > 2 then zeros[0 := windowId][2 := slot]
    else if intFieldCount == 2 then zeros[0 := windowId][1 := slot]
    else if intFieldCount == 1 then zeros[0 := windowId]
    else zeros
  }

  /** Wherever the set-slot packet has its two required int fields, both communicators lay it out alike. */
  lemma LayoutsAgree(intFieldCount: nat, windowId: int, slot: int)
    requires intFieldCount >= 2
    ensures FakeLayout(intFieldCount, windowId, slot) == Layout(intFieldCount, windowId, slot)
  {
    var a := FakeLayout(intFieldCount, windowId, slot);
    var b := Layout(intFieldCount, windowId, slot);
    assert forall i :: 0 <= i < intFieldCount ==> a[i] == b[i] by {
      forall i | 0 <= i < intFieldCount
        ensures a[i] == b[i]
      {
        if i >= 3 {
        } else if i == 0 {
        } else if intFieldCount == 2 {
        } else {
        }
      }
    }
  }

  /** setFieldByType for an int field: writes the field at that position among the int fields, if there is one. */
  method SetIntField(p: SlotPacket, value: int, index: nat) returns (found: bool)
    modifies p.ints
    ensures found <==> index < p.ints.Length
    ensures found ==> p.ints[..] == old(p.ints[..])[index := value]
    ensures !found ==> p.ints[..] == old(p.ints[..])
  {
    if index < p.ints.Length {
      p.ints[index] := value;
      return true;
    }
    return false;
  }

  /** The packet a call handed to the player: its int fields and item. */
  datatype SentSlot = SentSlot(ints: seq<int>, item: Item)

  /**
   * setFakeSlot: a slot outside 0..35 is refused; otherwise the packet is built and sent, and the
   * result is the send's result, or false when the reflection throws.
   */
  method SetFakeSlot(intFieldCount: nat, reflectionOk: bool, sendResult: bool, item: Option<Item>, slot: int, windowId: int)
    returns (ok: bool, sent: Option<SentSlot>)
    ensures (slot < 0 || slot > MaxSlot) ==> !ok && sent.None?
    ensures 0 <= slot <= MaxSlot && !reflectionOk ==> !ok && sent.None?
    ensures 0 <= slot <= MaxSlot && reflectionOk ==>
      ok == sendResult && sent == Some(SentSlot(FakeLayout(intFieldCount, windowId, slot), ItemOrAir(item)))
  {
    if slot < 0 || slot > MaxSlot {
      return false, None;
    }
    if !reflectionOk {
      return false, None;
    }
    var p := new SlotPacket(intFieldCount);
    var found := SetIntField(p, windowId, 0);
    found := SetIntField(p, 0, 1);
    found := SetIntField(p, slot, 2);
    if !found {
      found := SetIntField(p, slot, 1);
    }
    var stack := item;
    if stack.None? {
      stack := Some(Air);
    }
    p.item := stack.value;
    assert p.ints[..] == FakeLayout(intFieldCount, windowId, slot);
    return sendResult, Some(SentSlot(p.ints[..], p.item));
  }

  /** setFakeTopInventorySlot: refused while no window is open, otherwise aimed at the open window. */
  method SetFakeTopInventorySlot(openWindowId: int, intFieldCount: nat, reflectionOk: bool, sendResult: bool, item: Option<Item>, slot: int)
    returns (ok: bool, sent: Option<SentSlot>)
    ensures openWindowId == NoOpenWindow ==> !ok && sent.None?
    ensures openWindowId != NoOpenWindow && 0 <= slot <= MaxSlot && reflectionOk ==>
      ok == sendResult && sent == Some(SentSlot(FakeLayout(intFieldCount, openWindowId, slot), ItemOrAir(item)))
    ensures openWindowId != NoOpenWindow && !(0 <= slot <= MaxSlot && reflectionOk) ==> !ok && sent.None?
  {
    if openWindowId == NoOpenWindow {
      return false, None;
    }
    ok, sent := SetFakeSlot(intFieldCount, reflectionOk, sendResult, item, slot, openWindowId);
  }

  /** setFakeInventorySlot: always aimed at the player's own inventory. */
  method SetFakeInventorySlot(intFieldCount: nat, reflectionOk: bool, sendResult: bool, item: Option<Item>, slot: int)
    returns (ok: bool, sent: Option<SentSlot>)
    ensures 0 <= slot <= MaxSlot && reflectionOk ==>
      ok == sendResult && sent == Some(SentSlot(FakeLayout(intFieldCount, PlayerInventoryWindow, slot), ItemOrAir(item)))
    ensures !(0 <= slot <= MaxSlot && reflectionOk) ==> !ok && sent.None?
  {
    ok, sent := SetFakeSlot(intFieldCount, reflectionOk, sendResult, item, slot, PlayerInventoryWindow);
  }
}
