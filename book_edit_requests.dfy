/**
 * The book-edit request lifecycle shared by BookEditCommunicator and its older variant
 * BookEditorCommunicator: at most one request per player, held in a map; a request leaves the
 * map exactly when its callback is scheduled (with the typed pages, or with null pages on a
 * cancel), or when it is withdrawn without a callback.
 */
module BookEditRequests {
  import opened Wrappers
  import opened JavaStrings
  import opened JavaInts
  import opened Interception
  import FakeItemCommunicator

  type PlayerId = nat
  type CallbackId = nat

  /** The fake writable book: its pages and its author. */
  datatype Book = Book(pages: seq<string>, author: string)

  /** BookEditRequest: where the fake book was sent, the submit callback, the book and the held slot. */
  datatype Request = Request(receiver: nat, submit: CallbackId, fakeItem: Book, slot: Int32)

  /**
   * What the communicators make happen outside the map: a re-send of the player's real inventory
   * (updateInventory), a submit callback scheduled on the main thread, and a fake slot sent.
   */
  datatype Effect =
    | InventoryUpdated(player: PlayerId)
    | SubmitScheduled(submit: CallbackId, pages: Option<seq<string>>)
    | FakeSlotSent(receiver: nat, windowId: int, slot: int, book: Book)

  /** The number of slots the fake slot index is reduced by. */
  const SlotModulus: int := 36

  /** (held + 36) % 36 in Java int arithmetic: the slot the fake book is placed in. */
  function FakeSlot(held: Int32): (s: int)
    ensures -SlotModulus <= held <= Int32Max - SlotModulus ==> 0 <= s < SlotModulus
    ensures 0 <= held < SlotModulus ==> s == held
  {
    JavaRem(Wrap32(held + SlotModulus), SlotModulus)
  }

  /** Any hotbar slot (0 to 8) is its own fake slot, and the fake item sender never refuses it. */
  lemma HotbarFakeSlot(held: Int32)
    requires 0 <= held <= 8
    ensures FakeSlot(held) == held
    ensures 0 <= FakeSlot(held) <= FakeItemCommunicator.MaxSlot
  {
  }

  /** The effects of bookEditReceived: the callback of the player's request, if there is one. */
  function ReceivedEffects(p: PlayerId, pages: Option<seq<string>>, requests: map<PlayerId, Request>): (r: seq<Effect>)
    ensures p !in requests <==> r == []
    ensures p in requests ==> r == [SubmitScheduled(requests[p].submit, pages)]
  {
    if p in requests then [SubmitScheduled(requests[p].submit, pages)] else []
  }

  /** The effects of undoFakeHand: the inventory is re-sent, and a cancel delivers null pages. */
  function UndoEffects(p: PlayerId, isCancel: bool, requests: map<PlayerId, Request>): (r: seq<Effect>)
    ensures |r| >= 1 && r[0] == InventoryUpdated(p)
    ensures r[1..] == if isCancel then ReceivedEffects(p, None, requests) else []
  {
    [InventoryUpdated(p)] + (if isCancel then ReceivedEffects(p, None, requests) else [])
  }

  /** A second delivery for the same player, after the first removed the request, schedules nothing. */
  lemma CallbackAtMostOnce(p: PlayerId, pages: Option<seq<string>>, later: Option<seq<string>>, requests: map<PlayerId, Request>)
    ensures |ReceivedEffects(p, pages, requests)| <= 1
    ensures ReceivedEffects(p, later, requests - {p}) == []
  {
  }

  /** order lists each key of the map exactly once: an iteration order of its key set. */
  predicate Enumerates(order: seq<PlayerId>, requests: map<PlayerId, Request>) {
    (forall i, j :: 0 <= i < j < |order| ==> order[i] != order[j])
    && Remaining(order, 0) == requests.Keys
  }

  /** The players listed from position i on. */
  function Remaining(order: seq<PlayerId>, i: nat): set<PlayerId> {
    set x | i <= x < |order| :: order[x]
  }

  /** The effects of cancelling every request in the given order. */
  function CleanupEffects(order: seq<PlayerId>, requests: map<PlayerId, Request>): seq<Effect> {
    if order == [] then []
    else CleanupEffects(order[..|order| - 1], requests) + UndoEffects(order[|order| - 1], true, requests)
  }

  /** Cancelling every request schedules each callback once, with null pages, right after its inventory re-send. */
  lemma {:induction false} CleanupEffectsAt(order: seq<PlayerId>, requests: map<PlayerId, Request>, i: nat)
    requires forall p :: p in order ==> p in requests
    requires i < |order|
    ensures |CleanupEffects(order, requests)| == 2 * |order|
    ensures CleanupEffects(order, requests)[2 * i] == InventoryUpdated(order[i])
    ensures CleanupEffects(order, requests)[2 * i + 1] == SubmitScheduled(requests[order[i]].submit, None)
    decreases |order|
  {
    var n := |order| - 1;
    var front := order[..n];
    var last := UndoEffects(order[n], true, requests);
    assert last == [InventoryUpdated(order[n]), SubmitScheduled(requests[order[n]].submit, None)];
    if n == 0 {
      assert CleanupEffects(order, requests) == [] + last;
    } else {
      assert forall p :: p in front ==> p in order;
      CleanupEffectsAt(front, requests, if i < n then i else 0);
      assert CleanupEffects(order, requests) == CleanupEffects(front, requests) + last;
      if i < n {
        assert order[i] == front[i];
      }
    }
  }

  /**
   * cleanup as written iterates the live key set while each cancel removes from it: the first
   * cancel succeeds and the iterator's next step throws, so only the first request is cancelled.
   */
  function CleanupAsWrittenEffects(order: seq<PlayerId>, requests: map<PlayerId, Request>): (r: seq<Effect>)
    ensures order == [] ==> r == []
    ensures order != [] ==> r == UndoEffects(order[0], true, requests)
  {
    if order == [] then [] else UndoEffects(order[0], true, requests)
  }

  /** With two requests open, the as-written cleanup never calls back the second one; the corrected one does. */
  lemma CleanupAsWrittenMissesSecond(order: seq<PlayerId>, requests: map<PlayerId, Request>)
    requires Enumerates(order, requests) && |order| >= 2
    ensures SubmitScheduled(requests[order[1]].submit, None) in CleanupEffects(order, requests)
    ensures requests[order[1]].submit != requests[order[0]].submit ==>
      SubmitScheduled(requests[order[1]].submit, None) !in CleanupAsWrittenEffects(order, requests)
  {
    CleanupEffectsAt(order, requests, 1);
    var r := CleanupAsWrittenEffects(order, requests);
    assert r == [InventoryUpdated(order[0]), SubmitScheduled(requests[order[0]].submit, None)];
  }

  /** Stepping past a distinct element removes exactly that element from the remaining ones. */
  lemma DropFirstStep(order: seq<PlayerId>, i: nat)
    requires forall a, b :: 0 <= a < b < |order| ==> order[a] != order[b]
    requires i < |order|
    ensures Remaining(order, i + 1) == Remaining(order, i) - {order[i]}
  {
    assert order[i] in Remaining(order, i);
  }

  /** What modifyIncoming does with a client message. */
  datatype IncomingAction =
    | PassUnchanged
    | CancelAndDrop(player: PlayerId)
    | Deliver(player: PlayerId, pages: seq<string>)
    | PassAfterFailedExtract

  /**
   * modifyIncoming's decision: messages of no online player pass; a creative-slot message is
   * dropped, cancelling the request, when the player has one; a book-edit message delivers its
   * pages (or passes when they cannot be extracted); everything else passes.
   */
  function DecideIncoming(online: Option<PlayerId>, msg: Message, creativeSlotClass: string, bookEditClass: string,
                          pages: Result<seq<string>>, requests: map<PlayerId, Request>): (a: IncomingAction)
    ensures a.CancelAndDrop? <==> online.Some? && msg.className == creativeSlotClass && online.value in requests
    ensures a.Deliver? <==> online.Some? && msg.className != creativeSlotClass && msg.className == bookEditClass && pages.Ok?
    ensures a.PassAfterFailedExtract? <==>
      online.Some? && msg.className != creativeSlotClass && msg.className == bookEditClass && pages.Throw?
    ensures a.CancelAndDrop? || a.Deliver? ==> a.player == online.value
    ensures a.Deliver? ==> a.pages == pages.value
  {
    if online.None? then PassUnchanged
    else if msg.className == creativeSlotClass then
      (if online.value in requests then CancelAndDrop(online.value) else PassUnchanged)
    else if msg.className != bookEditClass then PassUnchanged
    else if pages.Ok? then Deliver(online.value, pages.value)
    else PassAfterFailedExtract
  }

  /** The request map and the effects the communicator has caused so far. */
  class Requests {
    var requests: map<PlayerId, Request>
    var effects: seq<Effect>

    constructor()
      ensures requests == map[] && effects == []
    {
      requests := map[];
      effects := [];
    }

    /** bookEditReceived: the request is removed and its callback scheduled, once. */
    method BookEditReceived(p: PlayerId, pages: Option<seq<string>>)
      modifies this
      ensures requests == old(requests) - {p}
      ensures effects == old(effects) + ReceivedEffects(p, pages, old(requests))
    {
      if p in requests {
        var request := requests[p];
        requests := requests - {p};
        effects := effects + [SubmitScheduled(request.submit, pages)];
      }
    }

    /** undoFakeHand: the real inventory is re-sent; a cancel also delivers null pages. */
    method UndoFakeHand(p: PlayerId, isCancel: bool)
      modifies this
      ensures requests == if isCancel then old(requests) - {p} else old(requests)
      ensures effects == old(effects) + UndoEffects(p, isCancel, old(requests))
    {
      effects := effects + [InventoryUpdated(p)];
      if isCancel {
        BookEditReceived(p, None);
      }
    }

    /** The cancel hook's runnable, and quitBookEditor: the request is dropped without a callback. */
    method Withdraw(p: PlayerId)
      modifies this
      ensures requests == old(requests) - {p}
      ensures effects == old(effects) + [InventoryUpdated(p)]
    {
      requests := requests - {p};
      UndoFakeHand(p, false);
    }

    /** onQuit and onInvOpen: a player with a request leaving the book cancels it. */
    method OnLeave(p: PlayerId)
      modifies this
      ensures p in old(requests) ==> requests == old(requests) - {p} && effects == old(effects) + UndoEffects(p, true, old(requests))
      ensures p !in old(requests) ==> requests == old(requests) && effects == old(effects)
    {
      if p !in requests {
        return;
      }
      UndoFakeHand(p, true);
    }

    /** onInvClick, onHotbarSelect and onDrop: as OnLeave, and the event is cancelled when there was a request. */
    method OnAbandon(p: PlayerId) returns (cancelEvent: bool)
      modifies this
      ensures cancelEvent <==> p in old(requests)
      ensures p in old(requests) ==> requests == old(requests) - {p} && effects == old(effects) + UndoEffects(p, true, old(requests))
      ensures p !in old(requests) ==> requests == old(requests) && effects == old(effects)
    {
      if p !in requests {
        return false;
      }
      UndoFakeHand(p, true);
      return true;
    }

    /** The shared part of modifyIncoming, for the player the message's receiver resolved to. */
    method HandleIncoming(online: Option<PlayerId>, msg: Message, creativeSlotClass: string, bookEditClass: string,
                          pages: Result<seq<string>>) returns (r: Option<Message>)
      modifies this
      ensures var a := DecideIncoming(online, msg, creativeSlotClass, bookEditClass, pages, old(requests));
        && (a.CancelAndDrop? ==>
              r == None && requests == old(requests) - {a.player}
              && effects == old(effects) + UndoEffects(a.player, true, old(requests)))
        && (a.Deliver? ==>
              r == Some(msg) && requests == old(requests) - {a.player}
              && effects == old(effects) + ReceivedEffects(a.player, Some(a.pages), old(requests)) + [InventoryUpdated(a.player)])
        && (a.PassUnchanged? || a.PassAfterFailedExtract? ==> r == Some(msg) && requests == old(requests) && effects == old(effects))
    {
      var a := DecideIncoming(online, msg, creativeSlotClass, bookEditClass, pages, requests);
      match a {
        case CancelAndDrop(p) =>
          UndoFakeHand(p, true);
          return None;
        case Deliver(p, typed) =>
          BookEditReceived(p, Some(typed));
          UndoFakeHand(p, false);
          return Some(msg);
        case PassUnchanged =>
          return Some(msg);
        case PassAfterFailedExtract =>
          return Some(msg);
      }
    }

    /**
     * cleanup as written: the first cancel removes a key from the set being iterated, so the
     * iteration throws ConcurrentModificationException at its second step.
     */
    method CleanupAsWritten(order: seq<PlayerId>) returns (r: Result<()>)
      requires Enumerates(order, requests)
      modifies this
      ensures |order| >= 2 ==> r == Throw(ConcurrentModification)
      ensures |order| < 2 ==> r == Ok(())
      ensures order != [] ==> requests == old(requests) - {order[0]}
      ensures order == [] ==> requests == old(requests)
      ensures effects == old(effects) + CleanupAsWrittenEffects(order, old(requests))
    {
      if order == [] {
        return Ok(());
      }
      UndoFakeHand(order[0], true);
      if |order| >= 2 {
        return Throw(ConcurrentModification);
      }
      return Ok(());
    }

    /** cleanup as intended: every open request is cancelled, iterating a snapshot of the players. */
    method Cleanup(order: seq<PlayerId>)
      requires Enumerates(order, requests)
      modifies this
      ensures requests == map[]
      ensures effects == old(effects) + CleanupEffects(order, old(requests))
    {
      var i := 0;
      while i < |order|
        invariant 0 <= i <= |order|
        invariant requests.Keys == Remaining(order, i)
        invariant forall p :: p in requests ==> requests[p] == old(requests)[p]
        invariant effects == old(effects) + CleanupEffects(order[..i], old(requests))
      {
        var p := order[i];
        assert UndoEffects(p, true, requests) == UndoEffects(p, true, old(requests));
        DropFirstStep(order, i);
        UndoFakeHand(p, true);
        assert order[..i + 1][..i] == order[..i];
        assert CleanupEffects(order[..i + 1], old(requests)) == CleanupEffects(order[..i], old(requests)) + UndoEffects(p, true, old(requests));
        i := i + 1;
      }
      assert order[..|order|] == order;
      assert requests.Keys == {};
    }
  }
}
