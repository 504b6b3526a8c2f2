/**
 * PacketCommunicatorRegistry: maps parameter types and packet types to the communicators that
 * handle them, and routes every send, receive and parse to the registered communicator.
 */
module CommunicatorRegistry {
  import opened Wrappers
  import opened PacketCommunicators

  /** A communicator's identity, the interfaces it implements, and its parameter and packet types. */
  datatype Communicator = Communicator(id: nat, incoming: bool, outgoing: bool, parameterType: string, packetType: string)

  /** The four maps: parameter type and packet type to incoming and to outgoing communicators. */
  datatype Maps = Maps(inCommunicators: map<string, nat>, outCommunicators: map<string, nat>,
                       inParsers: map<string, nat>, outParsers: map<string, nat>)

  const EmptyMaps := Maps(map[], map[], map[], map[])

  /**
   * registerCommunicator: an incoming communicator goes into the incoming maps (even when it is
   * outgoing too); an outgoing one into the outgoing maps; any other communicator is refused.
   */
  function Register(s: Maps, c: Communicator): (r: Result<Maps>)
    ensures r.Throw? <==> !c.incoming && !c.outgoing
    ensures r.Throw? ==> r.ex == IllegalArgument
    ensures r.Ok? && c.incoming ==>
      r.value == s.(inCommunicators := s.inCommunicators[c.parameterType := c.id],
                    inParsers := s.inParsers[c.packetType := c.id])
    ensures r.Ok? && !c.incoming ==>
      r.value == s.(outCommunicators := s.outCommunicators[c.parameterType := c.id],
                    outParsers := s.outParsers[c.packetType := c.id])
  {
    if c.incoming then
      Ok(s.(inCommunicators := s.inCommunicators[c.parameterType := c.id],
            inParsers := s.inParsers[c.packetType := c.id]))
    else if c.outgoing then
      Ok(s.(outCommunicators := s.outCommunicators[c.parameterType := c.id],
            outParsers := s.outParsers[c.packetType := c.id]))
    else Throw(IllegalArgument)
  }

  /** A lookup of the parameter's runtime class: missing gives UNKNOWN_PARAMETER_TYPE, otherwise the communicator answers. */
  function Route(m: map<string, nat>, parameterType: string, call: nat -> CommunicatorResult): (r: CommunicatorResult)
    ensures parameterType !in m ==> r == UnknownParameterType
    ensures parameterType in m ==> r == call(m[parameterType])
  {
    if parameterType in m then call(m[parameterType]) else UnknownParameterType
  }

  /** parseIncoming / parseOutgoing: null for an unregistered packet class, else the communicator's parse. */
  function Parse<P>(m: map<string, nat>, packetType: string, parse: nat -> Option<P>): (r: Option<P>)
    ensures packetType !in m ==> r == None
    ensures packetType in m ==> r == parse(m[packetType])
  {
    if packetType in m then parse(m[packetType]) else None
  }

  /**
   * After registration, sends (for an outgoing-only communicator) or receives (for an incoming
   * one) with its parameter type reach it, and parses of its packet type reach it; the other
   * direction's routing is untouched, and a later registration for the same type replaces it.
   */
  lemma RegistrationRoutes(s: Maps, c: Communicator, call: nat -> CommunicatorResult, parse: nat -> Option<nat>)
    requires c.incoming || c.outgoing
    ensures c.incoming ==>
      Route(Register(s, c).value.inCommunicators, c.parameterType, call) == call(c.id)
      && Parse(Register(s, c).value.inParsers, c.packetType, parse) == parse(c.id)
      && Register(s, c).value.outCommunicators == s.outCommunicators
    ensures !c.incoming ==>
      Route(Register(s, c).value.outCommunicators, c.parameterType, call) == call(c.id)
      && Parse(Register(s, c).value.outParsers, c.packetType, parse) == parse(c.id)
      && Register(s, c).value.inCommunicators == s.inCommunicators
  {
  }

  /** Registering a second communicator of the same kind for the same parameter type replaces the first. */
  lemma RegistrationReplaces(s: Maps, c1: Communicator, c2: Communicator, call: nat -> CommunicatorResult)
    requires c1.incoming == c2.incoming && (c1.incoming || (c1.outgoing && c2.outgoing))
    requires c1.parameterType == c2.parameterType
    ensures var s2 := Register(Register(s, c1).value, c2).value;
      (if c1.incoming then Route(s2.inCommunicators, c1.parameterType, call)
       else Route(s2.outCommunicators, c1.parameterType, call)) == call(c2.id)
  {
  }

  class Registry {
    var maps: Maps

    constructor()
      ensures maps == EmptyMaps
    {
      maps := EmptyMaps;
    }

    method RegisterCommunicator(c: Communicator) returns (r: Result<()>)
      modifies this
      ensures Register(old(maps), c).Ok? ==> r == Ok(()) && maps == Register(old(maps), c).value
      ensures Register(old(maps), c).Throw? ==> r == Throw(IllegalArgument) && maps == old(maps)
    {
      if c.incoming {
        maps := maps.(inCommunicators := maps.inCommunicators[c.parameterType := c.id],
                      inParsers := maps.inParsers[c.packetType := c.id]);
        return Ok(());
      }
      if c.outgoing {
        maps := maps.(outCommunicators := maps.outCommunicators[c.parameterType := c.id],
                      outParsers := maps.outParsers[c.packetType := c.id]);
        return Ok(());
      }
      return Throw(IllegalArgument);
    }

    /** Every send* call: routed by the parameter's runtime class through the outgoing map. */
    function Send(parameterType: string, call: nat -> CommunicatorResult): CommunicatorResult
      reads this
    {
      Route(maps.outCommunicators, parameterType, call)
    }

    /** Every receive* call: routed by the parameter's runtime class through the incoming map. */
    function Receive(parameterType: string, call: nat -> CommunicatorResult): CommunicatorResult
      reads this
    {
      Route(maps.inCommunicators, parameterType, call)
    }

    function ParseIncoming<P>(packetType: string, parse: nat -> Option<P>): Option<P>
      reads this
    {
      Parse(maps.inParsers, packetType, parse)
    }

    function ParseOutgoing<P>(packetType: string, parse: nat -> Option<P>): Option<P>
      reads this
    {
      Parse(maps.outParsers, packetType, parse)
    }

    /** The registry is itself a communicator in name only: both type queries throw. */
    function GetParameterType(): (r: Result<string>)
      ensures r.Throw? && r.ex == UnsupportedOperation
    {
      Throw(UnsupportedOperation)
    }

    function GetPacketType(): (r: Result<string>)
      ensures r.Throw? && r.ex == UnsupportedOperation
    {
      Throw(UnsupportedOperation)
    }
  }
}
