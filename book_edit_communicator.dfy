/**
 * BookEditCommunicator: places a fake writable book in the player's held slot through the
 * set-slot communicator, registers a request, and turns the client's book-edit message into the
 * request's callback.
 */
module BookEditCommunicator {
  import opened Wrappers
  import opened JavaInts
  import opened Interception
  import opened BookEditRequests
  import SetSlotCommunicator

  /** The constructor needs the lines field or the item field of the book-edit message, else IllegalState. */
  function PagesFieldCheck(hasLinesField: bool, hasItemField: bool): (r: Result<()>)
    ensures r.Throw? <==> !hasLinesField && !hasItemField
    ensures r.Throw? ==> r.ex == IllegalState
  {
    if !hasLinesField && !hasItemField then Throw(IllegalState) else Ok(())
  }

  /** BookEditParameter: the editing player, the initial pages, the submit callback and whether a cancel hook is given. */
  datatype BookEditParameter = BookEditParameter(player: PlayerId, pages: seq<string>, submit: CallbackId, hasCancelHook: bool)

  /** What sendParameterized leaves for the next tick: the receiver, the parameter and the book built for it. */
  datatype PendingRequest = PendingRequest(receiver: nat, parameter: BookEditParameter, book: Book)

  /** The fake book resent on interaction, through the set-slot communicator into the player's inventory. */
  function Resend(req: Request): (e: Effect)
    ensures e.FakeSlotSent? && e.receiver == req.receiver && e.book == req.fakeItem
    ensures e.windowId == SetSlotCommunicator.PlayerInventoryWindow
    ensures e.slot == FakeSlot(req.slot)
  {
    FakeSlotSent(req.receiver, SetSlotCommunicator.WindowIdFor(false, 0), FakeSlot(req.slot), req.fakeItem)
  }

  /** A request placed from a hotbar slot is resent into the same window and slot it was first placed in. */
  lemma ResendMatchesPlacement(receiver: nat, submit: CallbackId, book: Book, held: Int32)
    requires 0 <= held <= 8
    ensures Resend(Request(receiver, submit, book, held)) ==
      FakeSlotSent(receiver, SetSlotCommunicator.WindowIdFor(false, 0), held, book)
  {
    HotbarFakeSlot(held);
  }

  class BookEdit {
    const state: Requests
    const creativeSlotClass: string
    const bookEditClass: string

    constructor(creativeSlotClass: string, bookEditClass: string)
      ensures fresh(state) && state.requests == map[] && state.effects == []
      ensures this.creativeSlotClass == creativeSlotClass && this.bookEditClass == bookEditClass
    {
      state := new Requests();
      this.creativeSlotClass := creativeSlotClass;
      this.bookEditClass := bookEditClass;
    }

    /** sendParameterized: any previous fake hand is undone without a callback; the rest is deferred. */
    method SendParameterized(receiver: nat, parameter: BookEditParameter, author: string) returns (task: PendingRequest)
      modifies state
      ensures task == PendingRequest(receiver, parameter, Book(parameter.pages, author))
      ensures state.requests == old(state.requests)
      ensures state.effects == old(state.effects) + [InventoryUpdated(parameter.player)]
    {
      state.UndoFakeHand(parameter.player, false);
      task := PendingRequest(receiver, parameter, Book(parameter.pages, author));
    }

    /**
     * The deferred task: the book is sent into the held slot of the player's inventory and the
     * request replaces any previous one of the player; the cancel hook is installed when given.
     */
    method RunRequestTask(task: PendingRequest, held: Int32) returns (installsCancelHook: bool)
      modifies state
      ensures state.requests == old(state.requests)[task.parameter.player := Request(task.receiver, task.parameter.submit, task.book, held)]
      ensures state.effects ==
        old(state.effects) + [FakeSlotSent(task.receiver, SetSlotCommunicator.PlayerInventoryWindow, FakeSlot(held), task.book)]
      ensures installsCancelHook == task.parameter.hasCancelHook
    {
      var window := SetSlotCommunicator.WindowIdFor(false, 0);
      state.effects := state.effects + [FakeSlotSent(task.receiver, window, FakeSlot(held), task.book)];
      state.requests := state.requests[task.parameter.player := Request(task.receiver, task.parameter.submit, task.book, held)];
      installsCancelHook := task.parameter.hasCancelHook;
    }

    /** onInteract: with a request, the event is cancelled and the fake book is sent again. */
    method OnInteract(p: PlayerId) returns (cancelEvent: bool)
      modifies state
      ensures cancelEvent <==> p in old(state.requests)
      ensures state.requests == old(state.requests)
      ensures p in old(state.requests) ==> state.effects == old(state.effects) + [Resend(old(state.requests)[p])]
      ensures p !in old(state.requests) ==> state.effects == old(state.effects)
    {
      if p !in state.requests {
        return false;
      }
      var req := state.requests[p];
      state.effects := state.effects + [Resend(req)];
      return true;
    }

    /** modifyIncoming: a receiver without identity passes unchanged; otherwise the shared decision applies. */
    method ModifyIncoming(uuid: Option<Uuid>, playerOf: Uuid -> Option<PlayerId>, msg: Message, pages: Result<seq<string>>)
      returns (r: Option<Message>)
      modifies state
      ensures uuid.None? ==> r == Some(msg) && state.requests == old(state.requests) && state.effects == old(state.effects)
      ensures uuid.Some? ==>
        var a := DecideIncoming(playerOf(uuid.value), msg, creativeSlotClass, bookEditClass, pages, old(state.requests));
        (a.CancelAndDrop? <==> r.None?) && (r.Some? ==> r == Some(msg))
        && ((a.CancelAndDrop? || a.Deliver?) ==> state.requests == old(state.requests) - {a.player})
        && (a.CancelAndDrop? ==> state.effects == old(state.effects) + UndoEffects(a.player, true, old(state.requests)))
        && (a.Deliver? ==>
              state.effects == old(state.effects) + ReceivedEffects(a.player, Some(a.pages), old(state.requests)) + [InventoryUpdated(a.player)])
        && ((a.PassUnchanged? || a.PassAfterFailedExtract?) ==> state.requests == old(state.requests) && state.effects == old(state.effects))
    {
      if uuid.None? {
        return Some(msg);
      }
      r := state.HandleIncoming(playerOf(uuid.value), msg, creativeSlotClass, bookEditClass, pages);
    }

    /** modifyOutgoing: outbound messages are never touched. */
    function ModifyOutgoing(msg: Message): (r: Option<Message>)
      ensures r == Some(msg)
    {
      Some(msg)
    }
  }
}
