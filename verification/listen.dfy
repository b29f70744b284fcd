/**
 * The `listen` directory: every file in it is a listening socket. Opening
 * `[host:]port` binds that port (on all interfaces when no host is given)
 * and serves raw TCP or TLS, as the node's protocol says. The bind and
 * `set_nonblocking` calls are not modelled; their outcome is an input.
 */
module Listen {
  import opened Wrappers
  import opened Text
  import opened Wasi
  import opened Net
  import EnarxConfig
  import NodeGraph

  /** The TLS server configuration the directory builds once; opaque here. */
  datatype ServerConfig = ServerConfig(id: nat)

  /** A node of the directory: a raw TCP listener, or a TLS listener with the shared configuration. */
  datatype Socket = Tcp | Tls(config: ServerConfig)

  /** The node a configured protocol gives. */
  function SocketFor(file: EnarxConfig.ListenFile, config: ServerConfig): (s: Socket)
    ensures s.Tcp? <==> file == EnarxConfig.ListenFile.Tcp
    ensures s.Tls? ==> s.config == config
  {
    match file
    case Tcp => Tcp
    case Tls => Tls(config)
  }

  /**
   * An address component as optional host and port: split at the first `:`;
   * without `:` there is no host and the whole component is the port, which
   * must be a 16-bit number either way.
   */
  function HostPort(addr: string): (r: Option<(Option<string>, nat)>)
    ensures r.Some? ==> r.value.1 <= U16_MAX
    ensures ':' !in addr ==>
      (r.Some? <==> ParseU16(addr).Some?) && (r.Some? ==> r.value == (None, ParseU16(addr).value))
    ensures ':' in addr ==>
      var (host, port) := SplitOnce(addr, ':').value;
      (r.Some? <==> ParseU16(port).Some?) && (r.Some? ==> r.value == (Some(host), ParseU16(port).value))
  {
    var (host, port) := match SplitOnce(addr, ':')
      case Some((h, p)) => (Some(h), p)
      case None => (None, addr);
    match ParseU16(port)
    case None => None
    case Some(p) => Some((host, p))
  }

  /**
   * `localhost` and `127.0.0.1` bind IPv4 loopback; no host or `0.0.0.0`
   * binds every interface; any other host, even the empty one, is bound as
   * given.
   */
  function EndpointFor(host: Option<string>, port: nat): (e: Endpoint)
    ensures e == Address(SocketAddr(LOCALHOST, port)) <==> host in {Some("localhost"), Some("127.0.0.1")}
    ensures e == Address(SocketAddr(UNSPECIFIED, port)) <==> host in {None, Some("0.0.0.0")}
    ensures e.Named? <==> host !in {None, Some("localhost"), Some("127.0.0.1"), Some("0.0.0.0")}
    ensures e.Named? ==> e == Named(host.value, port)
  {
    match host
    case Some("localhost") => Address(SocketAddr(LOCALHOST, port))
    case Some("127.0.0.1") => Address(SocketAddr(LOCALHOST, port))
    case None => Address(SocketAddr(UNSPECIFIED, port))
    case Some("0.0.0.0") => Address(SocketAddr(UNSPECIFIED, port))
    case Some(h) => Named(h, port)
  }

  /** The outcomes of the operating system calls an open makes, in order. */
  datatype Syscalls = Syscalls(bind: bool, setNonblocking: bool)

  /** A raw listener, or a TLS listener serving with the shared configuration. */
  datatype Listener = RawListener | TlsListener(config: ServerConfig)

  datatype Bound = Bound(endpoint: Endpoint, nonblocking: bool, listener: Listener)

  /** A listener node is never a directory. */
  function OpenDir(node: Socket): (r: Result<(), Errno>)
    ensures r.Err? && r.error == NotDir
  {
    Err(NotDir)
  }

  /** Opening a listener node: the checks, in the order the node makes them. */
  function OpenFile(node: Socket, path: string, dir: bool, read: bool, write: bool,
                    flags: set<FdFlag>, sys: Syscalls): (r: Result<Bound, Errno>)
    ensures dir ==> r == Err(NotDir)
    ensures !dir && !(read && write) ==> r == Err(Perm)
    ensures !dir && read && write && path == "" ==> r == Err(Inval)
    ensures !dir && read && write && path != "" && HostPort(LastComponent(path).value).None? ==>
      r == Err(Inval)
    ensures !dir && read && write && path != "" && HostPort(LastComponent(path).value).Some? && !sys.bind ==>
      r == Err(Io)
    ensures !dir && read && write && path != "" && HostPort(LastComponent(path).value).Some? && sys.bind ==>
      (NonblockingFromFlags(flags).None? ==> r == Err(Inval))
      && (NonblockingFromFlags(flags).Some? && !sys.setNonblocking ==> r == Err(Unclassified))
    ensures r.Ok? ==>
      && !dir && read && write && path != ""
      && sys.bind && sys.setNonblocking
      && NonblockingFromFlags(flags) == Some(r.value.nonblocking)
    ensures r.Ok? ==>
      var (host, port) := HostPort(LastComponent(path).value).value;
      r.value.endpoint == EndpointFor(host, port)
    ensures r.Ok? ==> (node.Tcp? <==> r.value.listener == RawListener)
    ensures r.Ok? && node.Tls? ==> r.value.listener == TlsListener(node.config)
  {
    if dir then Err(NotDir)
    else if !read || !write then Err(Perm)
    else match LastComponent(path)
      case None => Err(Inval)
      case Some(addr) =>
        match HostPort(addr)
        case None => Err(Inval)
        case Some((host, port)) =>
          if !sys.bind then Err(Io)
          else match NonblockingFromFlags(flags)
            case None => Err(Inval)
            case Some(nonblocking) =>
              if !sys.setNonblocking then Err(Unclassified)
              else match node
                case Tcp => Ok(Bound(EndpointFor(host, port), nonblocking, RawListener))
                case Tls(config) => Ok(Bound(EndpointFor(host, port), nonblocking, TlsListener(config)))
  }

  /** Every system call succeeds. */
  const ALL_OK := Syscalls(true, true)

  /** A bare decimal port binds that port on every interface. */
  lemma PortOnly(node: Socket, prefix: string, port: nat, nonblocking: bool)
    requires prefix == [] || prefix[|prefix| - 1] == '/'
    requires port <= U16_MAX
    ensures OpenFile(node, prefix + DecimalText(port), false, true, true,
                     if nonblocking then {Nonblock} else {}, ALL_OK)
      == Ok(Bound(Address(SocketAddr(UNSPECIFIED, port)), nonblocking,
                  if node.Tcp? then RawListener else TlsListener(node.config)))
  {
    var digits := DecimalText(port);
    assert forall i :: 0 <= i < |digits| ==> digits[i] != '/' && digits[i] != ':';
    LastComponentOfJoin(prefix, digits);
    ParseU16RoundTrip(port);
    assert HostPort(digits) == Some((None, port));
    OpensAddress(node, prefix + digits, digits, None, port, nonblocking);
  }

  /** An open that reaches an optional host and a port succeeds when every system call does. */
  lemma OpensAddress(node: Socket, path: string, addr: string, host: Option<string>, port: nat, nonblocking: bool)
    requires LastComponent(path) == Some(addr) && HostPort(addr) == Some((host, port))
    ensures OpenFile(node, path, false, true, true, if nonblocking then {Nonblock} else {}, ALL_OK)
      == Ok(Bound(EndpointFor(host, port), nonblocking,
                  if node.Tcp? then RawListener else TlsListener(node.config)))
  {
  }

  /** `host:port` with the port in decimal binds that port for that host. */
  lemma HostAndPort(node: Socket, prefix: string, host: string, port: nat, nonblocking: bool)
    requires prefix == [] || prefix[|prefix| - 1] == '/'
    requires '/' !in host && ':' !in host && port <= U16_MAX
    ensures var addr := host + ":" + DecimalText(port);
      OpenFile(node, prefix + addr, false, true, true, if nonblocking then {Nonblock} else {}, ALL_OK)
        == Ok(Bound(EndpointFor(Some(host), port), nonblocking,
                    if node.Tcp? then RawListener else TlsListener(node.config)))
  {
    var addr := host + ":" + DecimalText(port);
    HostPortText(host, port);
    LastComponentOfJoin(prefix, addr);
    assert HostPort(addr) == Some((Some(host), port));
    OpensAddress(node, prefix + addr, addr, Some(host), port, nonblocking);
  }

  /** Why building the directory failed. */
  datatype NewError = TlsConfigFailed | AttachFailed(name: string)

  /**
   * Building the directory: a fresh device whose factory always mints TLS
   * listeners, and one node, with the next inode number and its declared
   * protocol, per configured socket. `config` is the TLS server
   * configuration, or `None` when the certificates and key do not make one.
   */
  method New(sockets: seq<(string, EnarxConfig.ListenFile)>, config: Option<ServerConfig>)
    returns (r: Result<NodeGraph.Directory<Socket>, NewError>)
    ensures config.None? ==> r == Err(TlsConfigFailed)
    ensures r.Ok? <==> config.Some? && NodeGraph.DistinctNames(sockets)
    ensures r.Ok? ==>
      && fresh(r.value) && r.value.Valid()
      && r.value.factory == Some(Tls(config.value))
      && r.value.next == |sockets| + 1
      && r.value.entries.Keys == NodeGraph.Names(sockets)
      && forall i :: 0 <= i < |sockets| ==>
           r.value.entries[sockets[i].0] == NodeGraph.Entry(i + 1, SocketFor(sockets[i].1, config.value))
  {
    if config.None? {
      return Err(TlsConfigFailed);
    }
    var tls := config.value;
    var dir := new NodeGraph.Directory<Socket>(Some(Tls(tls)));
    var mint := file => SocketFor(file, tls);
    var i := 0;
    while i < |sockets|
      invariant 0 <= i <= |sockets|
      invariant fresh(dir) && dir.Valid()
      invariant dir.factory == Some(Tls(tls))
      invariant dir.next == i + 1
      invariant NodeGraph.DistinctNames(sockets[..i])
      invariant dir.entries == NodeGraph.Attached(sockets[..i], mint)
    {
      NodeGraph.AttachNext(sockets, i, mint);
      var ok := dir.CreateAndAttach(sockets[i].0, mint(sockets[i].1));
      if !ok {
        return Err(AttachFailed(sockets[i].0));
      }
      i := i + 1;
    }
    assert sockets[..i] == sockets;
    NodeGraph.AttachedEntries(sockets, mint);
    return Ok(dir);
  }

  /**
   * The node a name opens in a freshly built directory: the configured
   * socket of that name with its declared protocol, or else a TLS listener
   * on the next free inode.
   */
  method Resolve(sockets: seq<(string, EnarxConfig.ListenFile)>, config: ServerConfig, name: string)
    returns (e: NodeGraph.Entry<Socket>)
    requires NodeGraph.DistinctNames(sockets)
    ensures match NodeGraph.IndexOf(sockets, name)
      case Some(i) => e == NodeGraph.Entry(i + 1, SocketFor(sockets[i].1, config))
      case None => e == NodeGraph.Entry(|sockets| + 1, Tls(config))
  {
    var r := New(sockets, Some(config));
    var dir := r.value;
    var found := dir.Lookup(name);
    e := found.value;
  }
}
