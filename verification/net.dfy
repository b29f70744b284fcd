/**
 * Network addresses and the metadata records a keep reports for accepted
 * and established connections.
 */
module Net {
  import opened Bytes
  import Identity

  datatype IpAddr = V4(a: byte, b: byte, c: byte, d: byte) | V6(segments: seq<nat>)

  /** `127.0.0.1` */
  const LOCALHOST: IpAddr := V4(127, 0, 0, 1)
  /** `0.0.0.0` */
  const UNSPECIFIED: IpAddr := V4(0, 0, 0, 0)

  datatype SocketAddr = SocketAddr(ip: IpAddr, port: nat)

  /**
   * Where a socket binds or connects: a concrete address, or a host name
   * with a port that the operating system resolves.
   */
  datatype Endpoint = Address(addr: SocketAddr) | Named(host: string, port: nat)

  /** A host as reported in connection metadata. */
  datatype Host = Domain(name: string) | Ipv4(v4: IpAddr) | Ipv6(v6: IpAddr)

  /** What the workload learns about a connection it established. */
  datatype ConnectMetadata = ConnectMetadata(host: Host, port: nat, peer: Identity.Peer)

  /** What the workload learns about a connection it accepted. */
  datatype AcceptMetadata = AcceptMetadata(addr: SocketAddr, peer: Identity.Peer)
}
