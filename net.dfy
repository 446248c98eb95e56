/** The packets the client hands to the server, and the dispatcher that sends them.
    The socket work behind `sendUDP` is not part of this model: the dispatcher
    keeps a ghost log of everything it was asked to send. */
module Net {

  /** The four packet shapes the player entity sends. Java's `float` fields are
      modelled as `real`. */
  datatype Packet =
    | KeyPressed(playerId: int, keycode: int)
    | KeyUnpressed(playerId: int, keycode: int)
    | Location(playerId: int, x: real, y: real)
    | Rotation(playerId: int, rotation: real)

  /** The fire-and-forget UDP sink. */
  class PacketDispatcher {
    /** Every packet handed to `SendUdp`, oldest first. */
    ghost var sent: seq<Packet>

    constructor ()
      ensures sent == []
    {
      sent := [];
    }

    /** Enqueues one datagram; nothing is awaited and nothing is returned. */
    method SendUdp(packet: Packet)
      modifies this
      ensures sent == old(sent) + [packet]
    {
      sent := sent + [packet];
    }
  }
}
