/**
 * The `connect` directory: every file in it is an outgoing stream. Opening
 * `host[:port]` connects to that host (port 443 by default) over raw TCP or
 * TLS, as the node's protocol says. The connect, `set_nonblocking` and TLS
 * client calls are not modelled; their success or failure is an input.
 */
module Connect {
  import opened Wrappers
  import opened Text
  import opened Wasi
  import opened Net
  import EnarxConfig
  import NodeGraph

  /** The TLS client configuration the directory builds once; opaque here. */
  datatype ClientConfig = ClientConfig(id: nat)

  /** A node of the directory: a raw TCP stream, or a TLS stream with the shared configuration. */
  datatype Socket = Tcp | Tls(config: ClientConfig)

  /** The node a configured protocol gives. */
  function SocketFor(file: EnarxConfig.ConnectFile, config: ClientConfig): (s: Socket)
    ensures s.Tcp? <==> file == EnarxConfig.ConnectFile.Tcp
    ensures s.Tls? ==> s.config == config
  {
    match file
    case Tcp => Tcp
    case Tls => Tls(config)
  }

  const DEFAULT_PORT: nat := 443

  /**
   * An address component as host and port: split at the first `:`, whose
   * right side must be a 16-bit port; without `:` the whole component is the
   * host and the port is 443.
   */
  function HostPort(addr: string): (r: Option<(string, nat)>)
    ensures ':' !in addr ==> r == Some((addr, DEFAULT_PORT))
    ensures r.Some? ==> r.value.1 <= U16_MAX && ':' !in r.value.0
    ensures ':' in addr ==>
      (r.None? <==> ParseU16(SplitOnce(addr, ':').value.1).None?)
  {
    match SplitOnce(addr, ':')
    case None => Some((addr, DEFAULT_PORT))
    case Some((host, port)) =>
      match ParseU16(port)
      case None => None
      case Some(p) => Some((host, p))
  }

  /** `localhost` and `127.0.0.1` reach IPv4 loopback; any other host is resolved as given. */
  function EndpointFor(host: string, port: nat): (e: Endpoint)
    ensures e.Address? <==> host == "localhost" || host == "127.0.0.1"
    ensures e.Address? ==> e.addr == SocketAddr(LOCALHOST, port)
    ensures e.Named? ==> e == Named(host, port)
  {
    if host == "localhost" || host == "127.0.0.1" then Address(SocketAddr(LOCALHOST, port))
    else Named(host, port)
  }

  /** The outcomes of the operating system calls an open makes, in order. */
  datatype Syscalls = Syscalls(connect: bool, setNonblocking: bool, handshake: bool)

  /** A raw stream, or a TLS stream whose server name is the address component. */
  datatype Stream = Raw | TlsStream(serverName: string, config: ClientConfig)

  datatype Connection = Connection(endpoint: Endpoint, nonblocking: bool, stream: Stream)

  /** A socket node is never a directory. */
  function OpenDir(node: Socket): (r: Result<(), Errno>)
    ensures r.Err? && r.error == NotDir
  {
    Err(NotDir)
  }

  /** Opening a socket node: the checks, in the order the node makes them. */
  function OpenFile(node: Socket, path: string, dir: bool, read: bool, write: bool,
                    flags: set<FdFlag>, sys: Syscalls): (r: Result<Connection, Errno>)
    ensures dir ==> r == Err(NotDir)
    ensures !dir && !(read && write) ==> r == Err(Perm)
    ensures !dir && read && write && path == "" ==> r == Err(Inval)
    ensures !dir && read && write && path != "" && HostPort(LastComponent(path).value).None? ==>
      r == Err(Inval)
    ensures !dir && read && write && path != "" && HostPort(LastComponent(path).value).Some? && !sys.connect ==>
      r == Err(Io)
    ensures !dir && read && write && path != "" && HostPort(LastComponent(path).value).Some? && sys.connect ==>
      (NonblockingFromFlags(flags).None? ==> r == Err(Inval))
      && (NonblockingFromFlags(flags).Some? && !sys.setNonblocking ==> r == Err(Unclassified))
      && (NonblockingFromFlags(flags).Some? && sys.setNonblocking && node.Tls? && !sys.handshake ==>
            r == Err(Unclassified))
    ensures r.Ok? ==>
      && !dir && read && write && path != ""
      && sys.connect && sys.setNonblocking
      && NonblockingFromFlags(flags) == Some(r.value.nonblocking)
    ensures r.Ok? ==>
      var (host, port) := HostPort(LastComponent(path).value).value;
      r.value.endpoint == EndpointFor(host, port)
    ensures r.Ok? ==> (node.Tcp? <==> r.value.stream.Raw?)
    ensures r.Ok? && node.Tls? ==>
      sys.handshake && r.value.stream == TlsStream(LastComponent(path).value, node.config)
  {
    if dir then Err(NotDir)
    else if !read || !write then Err(Perm)
    else match LastComponent(path)
      case None => Err(Inval)
      case Some(addr) =>
        match HostPort(addr)
        case None => Err(Inval)
        case Some((host, port)) =>
          if !sys.connect then Err(Io)
          else match NonblockingFromFlags(flags)
            case None => Err(Inval)
            case Some(nonblocking) =>
              if !sys.setNonblocking then Err(Unclassified)
              else match node
                case Tcp => Ok(Connection(EndpointFor(host, port), nonblocking, Raw))
                case Tls(config) =>
                  if !sys.handshake then Err(Unclassified)
                  else Ok(Connection(EndpointFor(host, port), nonblocking, TlsStream(addr, config)))
  }

  /** Every system call succeeds. */
  const ALL_OK := Syscalls(true, true, true)

  /** Without `:`, a name connects to port 443 of that host, for TCP and TLS alike. */
  lemma DefaultPort(node: Socket, prefix: string, host: string)
    requires prefix == [] || prefix[|prefix| - 1] == '/'
    requires '/' !in host && ':' !in host && host != []
    ensures OpenFile(node, prefix + host, false, true, true, {}, ALL_OK)
      == Ok(Connection(EndpointFor(host, DEFAULT_PORT), false,
                       if node.Tcp? then Raw else TlsStream(host, node.config)))
  {
    LastComponentOfJoin(prefix, host);
  }

  /** An open that reaches `host` and `port` succeeds when every system call does. */
  lemma OpensAddress(node: Socket, path: string, addr: string, host: string, port: nat, nonblocking: bool)
    requires LastComponent(path) == Some(addr) && HostPort(addr) == Some((host, port))
    ensures OpenFile(node, path, false, true, true, if nonblocking then {Nonblock} else {}, ALL_OK)
      == Ok(Connection(EndpointFor(host, port), nonblocking,
                       if node.Tcp? then Raw else TlsStream(addr, node.config)))
  {
  }

  /** `host:port` with the port in decimal connects to that port of that host. */
  lemma ExplicitPort(node: Socket, prefix: string, host: string, port: nat, nonblocking: bool)
    requires prefix == [] || prefix[|prefix| - 1] == '/'
    requires '/' !in host && ':' !in host && port <= U16_MAX
    ensures var addr := host + ":" + DecimalText(port);
      OpenFile(node, prefix + addr, false, true, true, if nonblocking then {Nonblock} else {}, ALL_OK)
        == Ok(Connection(EndpointFor(host, port), nonblocking,
                         if node.Tcp? then Raw else TlsStream(addr, node.config)))
  {
    var addr := host + ":" + DecimalText(port);
    HostPortText(host, port);
    LastComponentOfJoin(prefix, addr);
    assert HostPort(addr) == Some((host, port));
    OpensAddress(node, prefix + addr, addr, host, port, nonblocking);
  }

  /** Why building the directory failed. */
  datatype NewError = TlsConfigFailed | AttachFailed(name: string)

  /**
   * Building the directory: a fresh device whose factory mints nodes of the
   * outgoing default protocol, and one node, with the next inode number and
   * its declared protocol, per configured stream. `config` is the TLS client
   * configuration, or `None` when the certificates and key do not make one.
   */
  method New(streams: seq<(string, EnarxConfig.ConnectFile)>, network: EnarxConfig.OutgoingNetwork,
             config: Option<ClientConfig>)
    returns (r: Result<NodeGraph.Directory<Socket>, NewError>)
    ensures config.None? ==> r == Err(TlsConfigFailed)
    ensures r.Ok? <==> config.Some? && NodeGraph.DistinctNames(streams)
    ensures r.Ok? ==>
      && fresh(r.value) && r.value.Valid()
      && r.value.factory == Some(SocketFor(network.default, config.value))
      && r.value.next == |streams| + 1
      && r.value.entries.Keys == NodeGraph.Names(streams)
      && forall i :: 0 <= i < |streams| ==>
           r.value.entries[streams[i].0] == NodeGraph.Entry(i + 1, SocketFor(streams[i].1, config.value))
  {
    if config.None? {
      return Err(TlsConfigFailed);
    }
    var tls := config.value;
    var dir := new NodeGraph.Directory<Socket>(Some(SocketFor(network.default, tls)));
    var mint := file => SocketFor(file, tls);
    var i := 0;
    while i < |streams|
      invariant 0 <= i <= |streams|
      invariant fresh(dir) && dir.Valid()
      invariant dir.factory == Some(SocketFor(network.default, tls))
      invariant dir.next == i + 1
      invariant NodeGraph.DistinctNames(streams[..i])
      invariant dir.entries == NodeGraph.Attached(streams[..i], mint)
    {
      NodeGraph.AttachNext(streams, i, mint);
      var ok := dir.CreateAndAttach(streams[i].0, mint(streams[i].1));
      if !ok {
        return Err(AttachFailed(streams[i].0));
      }
      i := i + 1;
    }
    assert streams[..i] == streams;
    NodeGraph.AttachedEntries(streams, mint);
    return Ok(dir);
  }

  /**
   * The node a name opens in a freshly built directory: the configured
   * stream of that name with its declared protocol, or else a node of the
   * outgoing default protocol on the next free inode.
   */
  method Resolve(streams: seq<(string, EnarxConfig.ConnectFile)>, network: EnarxConfig.OutgoingNetwork,
                 config: ClientConfig, name: string)
    returns (e: NodeGraph.Entry<Socket>)
    requires NodeGraph.DistinctNames(streams)
    ensures match NodeGraph.IndexOf(streams, name)
      case Some(i) => e == NodeGraph.Entry(i + 1, SocketFor(streams[i].1, config))
      case None => e == NodeGraph.Entry(|streams| + 1, SocketFor(network.default, config))
  {
    var r := New(streams, network, Some(config));
    var dir := r.value;
    var found := dir.Lookup(name);
    e := found.value;
  }
}
