/**
 * InterceptedChannelDuplexHandler (bblibpackets), the older variant: the identity is fixed when
 * the handler is built, both directions skip non-packet messages, and the specific list is
 * looked up under the identity even when it is null.
 */
module PacketsChannelHandler {
  import opened Wrappers
  import opened JavaStrings
  import opened Interception
  import InterceptedChannelHandler

  /** The specific modifier map, which here is also consulted under a null key. */
  type SpecificMap = map<Option<Uuid>, seq<Entry>>

  /** The entries stored under a present UUID, as the newer handler's map holds them. */
  function KnownOnly(specifics: SpecificMap): (r: map<Uuid, seq<Entry>>)
    ensures forall k :: k in r <==> Some(k) in specifics
    ensures forall k :: k in r ==> r[k] == specifics[Some(k)]
  {
    map k | k in (set o | o in specifics && o.Some? :: o.value) :: specifics[Some(k)]
  }

  function SpecificsUnder(u: Option<Uuid>, specifics: SpecificMap): seq<Entry> {
    if u in specifics then specifics[u] else []
  }

  /** The message relayed for a packet message: globals, then the list under the identity. */
  function Evaluate(u: Option<Uuid>, globals: seq<Entry>, specifics: SpecificMap, apply: Behaviour, msg: Message): Option<Message> {
    if !Contains(msg.className, "Packet") then Some(msg)
    else Relayed(RunChain(globals + SpecificsUnder(u, specifics), apply, msg))
  }

  class DuplexHandler {
    /** The receiver's UUID, fixed at construction. */
    const u: Option<Uuid>

    constructor(u: Option<Uuid>)
      ensures this.u == u
    {
      this.u := u;
    }

    method Relay(globals: seq<Entry>, specifics: SpecificMap, apply: Behaviour, msg: Message) returns (relayed: Option<Message>)
      ensures relayed == Evaluate(u, globals, specifics, apply, msg)
    {
      if !Contains(msg.className, "Packet") {
        return Some(msg);
      }
      RunChainAppend(globals, SpecificsUnder(u, specifics), apply, msg);
      var g := InterceptedChannelHandler.RunModifiers(globals, apply, msg);
      match g
      case Terminated =>
        return None;
      case FailedAt(m) =>
        return Some(m);
      case Passed(m) =>
        if u in specifics {
          var s := InterceptedChannelHandler.RunModifiers(specifics[u], apply, m);
          return Relayed(s);
        }
        assert globals + [] == globals;
        return Some(m);
    }

    /** channelRead: the modifiers see the identity and a packet source over the network manager. */
    method ChannelRead(globals: seq<Entry>, specifics: SpecificMap, apply: Behaviour, msg: Message) returns (relayed: Option<Message>)
      ensures relayed == Evaluate(u, globals, specifics, apply, msg)
    {
      relayed := Relay(globals, specifics, apply, msg);
    }

    /** write: the modifiers see the identity and the network manager. */
    method Write(globals: seq<Entry>, specifics: SpecificMap, apply: Behaviour, msg: Message) returns (relayed: Option<Message>)
      ensures relayed == Evaluate(u, globals, specifics, apply, msg)
    {
      relayed := Relay(globals, specifics, apply, msg);
    }
  }

  /**
   * Non-packet messages bypass every modifier in both directions; a handler without identity
   * still runs the list registered under the null key; a handler with an identity agrees with
   * the newer handler's evaluation.
   */
  lemma VariantDifferences(u: Option<Uuid>, globals: seq<Entry>, specifics: SpecificMap, apply: Behaviour, msg: Message)
    ensures !Contains(msg.className, "Packet") ==> Evaluate(u, globals, specifics, apply, msg) == Some(msg)
    ensures Contains(msg.className, "Packet") && u.None? && None in specifics ==>
      Evaluate(u, globals, specifics, apply, msg) == Relayed(RunChain(globals + specifics[None], apply, msg))
    ensures Contains(msg.className, "Packet") && u.Some? ==>
      Evaluate(u, globals, specifics, apply, msg)
        == InterceptedChannelHandler.Evaluate(globals, KnownOnly(specifics), u, apply, msg)
  {
  }
}
