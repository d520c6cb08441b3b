/**
 * Which execution context may process a packet: the map-tick filter, the
 * world-tick filter, and the three-way routing of an incoming packet.
 */
module Filters {
  import opened Protocol

  /** Map-tick eligibility of a non-in-place opcode for the current player. */
  predicate MapSessionFilterHelper(h: OpcodeHandler, player: Option<Player>)
  {
    if h.processing == ThreadUnsafe then false
    else if player.None? then false
    else player.value.inWorld
  }

  /** The filter used while a map ticks. */
  predicate MapSessionFilterProcess(h: OpcodeHandler, player: Option<Player>)
  {
    if h.processing == InPlace then true else MapSessionFilterHelper(h, player)
  }

  /** The filter used while the world ticks. */
  predicate WorldSessionFilterProcess(h: OpcodeHandler, player: Option<Player>)
  {
    if h.processing == InPlace then true else !MapSessionFilterHelper(h, player)
  }

  /**
   * Exactly one of the two filters accepts a packet that is not in-place; both
   * accept an in-place one. The map filter accepts a non-in-place packet only
   * for a thread-safe opcode and a player that is in the world.
   */
  lemma FiltersPartition(h: OpcodeHandler, player: Option<Player>)
    ensures h.processing == InPlace ==>
      MapSessionFilterProcess(h, player) && WorldSessionFilterProcess(h, player)
    ensures h.processing != InPlace ==>
      (MapSessionFilterProcess(h, player) <==> !WorldSessionFilterProcess(h, player))
    ensures MapSessionFilterProcess(h, player) && h.processing != InPlace ==>
      h.processing != ThreadUnsafe && player.Some? && player.value.inWorld
  {
  }

  /** Where QueuePacket sends a packet. */
  datatype Route = RunNow | ToMapQueue | ToGenericQueue

  function RouteFor(mode: ProcessingMode): (r: Route)
    ensures r == RunNow <==> mode == Immediate
    ensures r == ToMapQueue <==> mode == MapThread
    ensures r == ToGenericQueue <==> mode == InPlace || mode == ThreadUnsafe
  {
    match mode
    case Immediate => RunNow
    case MapThread => ToMapQueue
    case InPlace => ToGenericQueue
    case ThreadUnsafe => ToGenericQueue
  }
}
