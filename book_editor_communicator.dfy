/**
 * BookEditorCommunicator, the older variant of the book-edit communicator: the fake book goes
 * through the fake item communicator, keyed by the player itself.
 */
module BookEditorCommunicator {
  import opened Wrappers
  import opened JavaInts
  import opened Interception
  import opened BookEditRequests
  import FakeItemCommunicator
  import SetSlotCommunicator

  /** setFakeInventorySlot: the book goes into the player's inventory, unless the slot is out of bounds. */
  function FakeInventoryEffects(p: PlayerId, slot: int, book: Book): (r: seq<Effect>)
    ensures 0 <= slot <= FakeItemCommunicator.MaxSlot <==> r == [FakeSlotSent(p, SetSlotCommunicator.PlayerInventoryWindow, slot, book)]
    ensures !(0 <= slot <= FakeItemCommunicator.MaxSlot) <==> r == []
  {
    if 0 <= slot <= FakeItemCommunicator.MaxSlot then [FakeSlotSent(p, SetSlotCommunicator.PlayerInventoryWindow, slot, book)] else []
  }

  /** setFakeTopInventorySlot: the book goes into the open window, and nowhere while none is open. */
  function FakeTopEffects(p: PlayerId, openWindowId: int, slot: int, book: Book): (r: seq<Effect>)
    ensures openWindowId != FakeItemCommunicator.NoOpenWindow && 0 <= slot <= FakeItemCommunicator.MaxSlot <==>
      r == [FakeSlotSent(p, openWindowId, slot, book)]
    ensures openWindowId == FakeItemCommunicator.NoOpenWindow || !(0 <= slot <= FakeItemCommunicator.MaxSlot) <==> r == []
  {
    if openWindowId == FakeItemCommunicator.NoOpenWindow then []
    else if 0 <= slot <= FakeItemCommunicator.MaxSlot then [FakeSlotSent(p, openWindowId, slot, book)]
    else []
  }

  /**
   * onInteract re-sends into the top inventory, not into the player's inventory the book was
   * placed in: with no window open nothing is re-sent, and with a window open the book lands in
   * a different window.
   */
  lemma InteractResendAsWrittenMisses(p: PlayerId, held: Int32, openWindowId: int, book: Book)
    requires 0 <= held <= 8
    ensures FakeInventoryEffects(p, FakeSlot(held), book) == [FakeSlotSent(p, SetSlotCommunicator.PlayerInventoryWindow, held, book)]
    ensures openWindowId == FakeItemCommunicator.NoOpenWindow ==> FakeTopEffects(p, openWindowId, FakeSlot(held), book) == []
    ensures openWindowId != SetSlotCommunicator.PlayerInventoryWindow ==>
      FakeTopEffects(p, openWindowId, FakeSlot(held), book) != FakeInventoryEffects(p, FakeSlot(held), book)
  {
    HotbarFakeSlot(held);
  }

  /** The deferred part of initBookEditor: the player and the book built for it. */
  datatype PendingRequest = PendingRequest(player: PlayerId, submit: CallbackId, book: Book)

  class BookEditor {
    const state: Requests
    const creativeSlotClass: string
    const bookEditClass: string

    constructor(creativeSlotClass: string, bookEditClass: string)
      ensures fresh(state) && state.requests == map[] && state.effects == []
      ensures this.creativeSlotClass == creativeSlotClass && this.bookEditClass == bookEditClass
    {
      state := new Requests();
      this.creativeSlotClass := creativeSlotClass;
      this.bookEditClass := bookEditClass;
    }

    /** initBookEditor: undoes any previous fake hand without a callback, defers the rest, and always accepts. */
    method InitBookEditor(p: PlayerId, pages: seq<string>, submit: CallbackId, author: string)
      returns (accepted: bool, task: PendingRequest)
      modifies state
      ensures accepted
      ensures task == PendingRequest(p, submit, Book(pages, author))
      ensures state.requests == old(state.requests)
      ensures state.effects == old(state.effects) + [InventoryUpdated(p)]
    {
      state.UndoFakeHand(p, false);
      return true, PendingRequest(p, submit, Book(pages, author));
    }

    /** The deferred task: the book goes into the held slot of the inventory and the request replaces any previous one. */
    method RunRequestTask(task: PendingRequest, held: Int32)
      modifies state
      ensures state.requests == old(state.requests)[task.player := Request(task.player, task.submit, task.book, held)]
      ensures state.effects == old(state.effects) + FakeInventoryEffects(task.player, FakeSlot(held), task.book)
    {
      state.effects := state.effects + FakeInventoryEffects(task.player, FakeSlot(held), task.book);
      state.requests := state.requests[task.player := Request(task.player, task.submit, task.book, held)];
    }

    /** quitBookEditor: the request is dropped without a callback. */
    method QuitBookEditor(p: PlayerId)
      modifies state
      ensures state.requests == old(state.requests) - {p}
      ensures state.effects == old(state.effects) + [InventoryUpdated(p)]
    {
      state.Withdraw(p);
    }

    /** onInteract as written: the event is cancelled and the book is re-sent into the open window. */
    method OnInteractAsWritten(p: PlayerId, openWindowId: int) returns (cancelEvent: bool)
      modifies state
      ensures cancelEvent <==> p in old(state.requests)
      ensures state.requests == old(state.requests)
      ensures p in old(state.requests) ==> var req := old(state.requests)[p];
        state.effects == old(state.effects) + FakeTopEffects(p, openWindowId, FakeSlot(req.slot), req.fakeItem)
      ensures p !in old(state.requests) ==> state.effects == old(state.effects)
    {
      if p !in state.requests {
        return false;
      }
      var req := state.requests[p];
      state.effects := state.effects + FakeTopEffects(p, openWindowId, FakeSlot(req.slot), req.fakeItem);
      return true;
    }

    /** onInteract as intended: the book is re-sent where it was placed, in the player's inventory. */
    method OnInteract(p: PlayerId) returns (cancelEvent: bool)
      modifies state
      ensures cancelEvent <==> p in old(state.requests)
      ensures state.requests == old(state.requests)
      ensures p in old(state.requests) ==> var req := old(state.requests)[p];
        state.effects == old(state.effects) + FakeInventoryEffects(p, FakeSlot(req.slot), req.fakeItem)
      ensures p !in old(state.requests) ==> state.effects == old(state.effects)
    {
      if p !in state.requests {
        return false;
      }
      var req := state.requests[p];
      state.effects := state.effects + FakeInventoryEffects(p, FakeSlot(req.slot), req.fakeItem);
      return true;
    }

    /** modifyIncoming: the sender is always a player id; the shared decision applies. */
    method ModifyIncoming(sender: Uuid, playerOf: Uuid -> Option<PlayerId>, msg: Message, pages: Result<seq<string>>)
      returns (r: Option<Message>)
      modifies state
      ensures var a := DecideIncoming(playerOf(sender), msg, creativeSlotClass, bookEditClass, pages, old(state.requests));
        (a.CancelAndDrop? <==> r.None?) && (r.Some? ==> r == Some(msg))
        && ((a.CancelAndDrop? || a.Deliver?) ==> state.requests == old(state.requests) - {a.player})
        && (a.CancelAndDrop? ==> state.effects == old(state.effects) + UndoEffects(a.player, true, old(state.requests)))
        && (a.Deliver? ==>
              state.effects == old(state.effects) + ReceivedEffects(a.player, Some(a.pages), old(state.requests)) + [InventoryUpdated(a.player)])
        && ((a.PassUnchanged? || a.PassAfterFailedExtract?) ==> state.requests == old(state.requests) && state.effects == old(state.effects))
    {
      r := state.HandleIncoming(playerOf(sender), msg, creativeSlotClass, bookEditClass, pages);
    }

    /** modifyOutgoing: outbound messages are never touched. */
    function ModifyOutgoing(msg: Message): (r: Option<Message>)
      ensures r == Some(msg)
    {
      Some(msg)
    }
  }
}
