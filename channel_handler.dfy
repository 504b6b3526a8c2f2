/**
 * InterceptedChannelDuplexHandler (bblibreflect): relays a channel's traffic through the global
 * modifiers and then the receiver's specific modifiers, dropping terminated messages.
 */
module InterceptedChannelHandler {
  import opened Wrappers
  import opened JavaStrings
  import opened Interception

  /**
   * The loop over one modifier list: each modifier gets the current message; a null result
   * ends the chain, an exception leaves the current message as the last one produced.
   */
  method RunModifiers(mods: seq<Entry>, apply: Behaviour, msg: Message) returns (out: ChainOutcome)
    ensures out == RunChain(mods, apply, msg)
  {
    var cur := msg;
    var i := 0;
    while i < |mods|
      invariant 0 <= i <= |mods|
      invariant RunChain(mods, apply, msg) == RunChain(mods[i..], apply, cur)
    {
      assert mods[i..][0] == mods[i] && mods[i..][1..] == mods[i + 1..];
      match apply(mods[i].modifier, cur) {
        case Replace(next) =>
          cur := next;
        case Terminate =>
          return Terminated;
        case Fail =>
          return FailedAt(cur);
      }
      i := i + 1;
    }
    return Passed(cur);
  }

  /** The specific list consulted: only for a receiver with a UUID that has a registered list. */
  function SpecificsFor(uuid: Option<Uuid>, specifics: map<Uuid, seq<Entry>>): (r: seq<Entry>)
    ensures uuid.None? ==> r == []
    ensures uuid.Some? && uuid.value !in specifics ==> r == []
    ensures uuid.Some? && uuid.value in specifics ==> r == specifics[uuid.value]
  {
    if uuid.Some? && uuid.value in specifics then specifics[uuid.value] else []
  }

  /** Both directions: globals, then the receiver's specifics, as one chain. */
  function Evaluate(globals: seq<Entry>, specifics: map<Uuid, seq<Entry>>, uuid: Option<Uuid>, apply: Behaviour, msg: Message): Option<Message> {
    Relayed(RunChain(globals + SpecificsFor(uuid, specifics), apply, msg))
  }

  /** Evaluation of the two lists in turn, with the early returns and the shared catch. */
  method EvaluateLists(globals: seq<Entry>, specifics: map<Uuid, seq<Entry>>, uuid: Option<Uuid>, apply: Behaviour, msg: Message)
    returns (relayed: Option<Message>)
    ensures relayed == Evaluate(globals, specifics, uuid, apply, msg)
  {
    RunChainAppend(globals, SpecificsFor(uuid, specifics), apply, msg);
    var g := RunModifiers(globals, apply, msg);
    match g
    case Terminated =>
      return None;
    case FailedAt(m) =>
      return Some(m);
    case Passed(m) =>
      if uuid.Some? && uuid.value in specifics {
        var s := RunModifiers(specifics[uuid.value], apply, m);
        return Relayed(s);
      }
      assert SpecificsFor(uuid, specifics) == [];
      return Some(m);
  }

  /** channelRead: every inbound message goes through the modifiers; what is relayed is returned. */
  method ChannelRead(globals: seq<Entry>, specifics: map<Uuid, seq<Entry>>, uuid: Option<Uuid>, apply: Behaviour, msg: Message)
    returns (relayed: Option<Message>)
    ensures relayed == Evaluate(globals, specifics, uuid, apply, msg)
  {
    relayed := EvaluateLists(globals, specifics, uuid, apply, msg);
  }

  /** write: a message whose class name lacks "Packet" is relayed untouched; others are evaluated. */
  method Write(globals: seq<Entry>, specifics: map<Uuid, seq<Entry>>, uuid: Option<Uuid>, apply: Behaviour, msg: Message)
    returns (relayed: Option<Message>)
    ensures !Contains(msg.className, "Packet") ==> relayed == Some(msg)
    ensures Contains(msg.className, "Packet") ==> relayed == Evaluate(globals, specifics, uuid, apply, msg)
  {
    if !Contains(msg.className, "Packet") {
      return Some(msg);
    }
    relayed := EvaluateLists(globals, specifics, uuid, apply, msg);
  }

  /**
   * Globals run first; the specific list runs only on what they passed on, and only for a
   * receiver with an identity and a registered list. A throwing modifier still relays the
   * latest message.
   */
  lemma EvaluationOrder(globals: seq<Entry>, specifics: map<Uuid, seq<Entry>>, uuid: Option<Uuid>, apply: Behaviour, msg: Message)
    ensures RunChain(globals, apply, msg).Terminated? ==> Evaluate(globals, specifics, uuid, apply, msg) == None
    ensures RunChain(globals, apply, msg).FailedAt? ==> Evaluate(globals, specifics, uuid, apply, msg) == Some(RunChain(globals, apply, msg).msg)
    ensures RunChain(globals, apply, msg).Passed? ==>
      Evaluate(globals, specifics, uuid, apply, msg) == Relayed(RunChain(SpecificsFor(uuid, specifics), apply, RunChain(globals, apply, msg).msg))
    ensures uuid.None? ==> Evaluate(globals, specifics, uuid, apply, msg) == Relayed(RunChain(globals, apply, msg))
  {
    RunChainAppend(globals, SpecificsFor(uuid, specifics), apply, msg);
    if uuid.None? {
      assert globals + [] == globals;
    }
  }
}
