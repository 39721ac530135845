/** The peer pairing chosen when the physics module starts: two instances on
    one host, each listening on one of two fixed ports and connecting to the
    other one. */
module Peer {

  const Host := "127.0.0.1"
  const PortA := "12682"
  const PortB := "12683"

  /** The port the network client connects to, given the configured
      NetServerListenPort value. */
  function PeerPort(listenPort: string): (peer: string)
    ensures peer == PortA || peer == PortB
    ensures peer == PortA <==> listenPort == PortB
  {
    if listenPort == PortB then PortA else PortB
  }

  /** For either of the two paired ports, the peer is the other one, and the
      peer of the peer is the instance itself. */
  lemma PeerPairing(listenPort: string)
    requires listenPort == PortA || listenPort == PortB
    ensures PeerPort(listenPort) != listenPort
    ensures PeerPort(PeerPort(listenPort)) == listenPort
  {
  }
}
