/**
 * The `peer` directory: a synthetic directory through which the workload
 * learns about its connections. Opening `con` in it waits for the next
 * established-connection event and opening `lis` for the next accepted-
 * connection event; each comes back as a read-only file holding the event's
 * JSON text. Paths are walked one `/`-separated component at a time: `.`
 * stays, `..` moves to the parent node while it is alive (and stays once it
 * is gone), and every other name is refused.
 */
module PeerDir {
  import opened Wrappers
  import opened Text
  import opened Wasi
  import opened Net
  import opened Bytes
  import BlobFile
  import NodeGraph

  // ---------------------------------------------------------------- descent

  /** Where walking the leading components of a path ends. */
  datatype Position =
    | Here(leaf: string)           // on this directory, with the last component left
    | ThroughParent(rest: string)  // on the living parent, with `rest` left to open there

  /**
   * Walking the path up to its last component: an empty component is
   * invalid, `.` stays, `..` moves to the parent while it is alive and stays
   * once it is gone, and any other name is not supported.
   */
  function Descend(path: string, parentAlive: bool): (r: Result<Position, Errno>)
    ensures '/' !in path ==> r == Ok(Here(path))
    ensures r.Ok? && r.value.Here? ==> '/' !in r.value.leaf && |r.value.leaf| <= |path|
    ensures r.Ok? && r.value.ThroughParent? ==> parentAlive && |r.value.rest| < |path|
    ensures r.Err? ==> r.error in {Inval, NotSupported}
    decreases |path|
  {
    match SplitOnce(path, '/')
    case None => Ok(Here(path))
    case Some((lhs, rhs)) =>
      if lhs == "" then Err(Inval)
      else if lhs == "." then Descend(rhs, parentAlive)
      else if lhs == ".." then
        if parentAlive then Ok(ThroughParent(rhs)) else Descend(rhs, parentAlive)
      else Err(NotSupported)
  }

  /** The `/`-separated components of a path; there is always at least one. */
  function Components(path: string): (cs: seq<string>)
    ensures |cs| >= 1
    decreases |path|
  {
    match SplitOnce(path, '/')
    case None => [path]
    case Some((lhs, rhs)) => [lhs] + Components(rhs)
  }

  /** Components joined back with `/`. */
  function Join(cs: seq<string>): string
    requires |cs| >= 1
  {
    if |cs| == 1 then cs[0] else cs[0] + "/" + Join(cs[1..])
  }

  /** Splitting a path into components and joining them gives the path back. */
  lemma {:induction false} ComponentsJoin(path: string)
    ensures Join(Components(path)) == path
    decreases |path|
  {
    match SplitOnce(path, '/')
    case None =>
    case Some((lhs, rhs)) =>
      ComponentsJoin(rhs);
  }

  /** A component the walk passes over without leaving this directory. */
  predicate Transparent(c: string, parentAlive: bool) {
    c == "." || (c == ".." && !parentAlive)
  }

  /** Every component but the last is transparent. */
  predicate PassesThrough(cs: seq<string>, parentAlive: bool)
    requires |cs| >= 1
  {
    forall i :: 0 <= i < |cs| - 1 ==> Transparent(cs[i], parentAlive)
  }

  lemma PassesThroughFirst(cs: seq<string>, parentAlive: bool)
    requires |cs| >= 2
    ensures PassesThrough(cs, parentAlive) <==> Transparent(cs[0], parentAlive) && PassesThrough(cs[1..], parentAlive)
  {
    var tail := cs[1..];
    assert forall i :: 1 <= i < |cs| ==> cs[i] == tail[i - 1];
    if Transparent(cs[0], parentAlive) && PassesThrough(tail, parentAlive) {
      forall i | 0 <= i < |cs| - 1 ensures Transparent(cs[i], parentAlive) {
        if i > 0 {
          assert cs[i] == tail[i - 1];
        }
      }
    }
  }

  /**
   * The walk ends on this directory exactly when every component but the
   * last is transparent, and the leaf is then the last component.
   */
  lemma {:induction false} DescendHere(path: string, parentAlive: bool, leaf: string)
    ensures HereIff(path, parentAlive, leaf)
    decreases |path|
  {
    var split := SplitOnce(path, '/');
    if split.None? {
      assert Components(path) == [path];
    } else {
      var rhs := split.value.1;
      DescendHere(rhs, parentAlive, leaf);
      HereIffStep(path, parentAlive, leaf);
    }
  }

  /** The statement of `DescendHere` for one path. */
  ghost predicate HereIff(path: string, parentAlive: bool, leaf: string) {
    var cs := Components(path);
    Descend(path, parentAlive) == Ok(Here(leaf)) <==> leaf == cs[|cs| - 1] && PassesThrough(cs, parentAlive)
  }

  /** The statement carries over from the rest of a path to the whole of it. */
  lemma HereIffStep(path: string, parentAlive: bool, leaf: string)
    requires SplitOnce(path, '/').Some?
    requires HereIff(SplitOnce(path, '/').value.1, parentAlive, leaf)
    ensures HereIff(path, parentAlive, leaf)
  {
    var cs := Components(path);
    DescendStep(path, parentAlive);
    PassesThroughFirst(cs, parentAlive);
  }

  /** One component further along the walk. */
  lemma DescendStep(path: string, parentAlive: bool)
    requires SplitOnce(path, '/').Some?
    ensures var (lhs, rhs) := SplitOnce(path, '/').value;
      var cs := Components(path);
      && |cs| >= 2 && cs[0] == lhs && cs[1..] == Components(rhs)
      && cs[|cs| - 1] == Components(rhs)[|Components(rhs)| - 1]
      && (Transparent(lhs, parentAlive) ==> Descend(path, parentAlive) == Descend(rhs, parentAlive))
      && (!Transparent(lhs, parentAlive) ==> Descend(path, parentAlive).Err? || Descend(path, parentAlive).value.ThroughParent?)
  {
    ComponentsStep(path);
  }

  lemma ComponentsStep(path: string)
    requires SplitOnce(path, '/').Some?
    ensures var (lhs, rhs) := SplitOnce(path, '/').value;
      var cs := Components(path);
      && |cs| >= 2 && cs[0] == lhs && cs[1..] == Components(rhs)
      && cs[|cs| - 1] == Components(rhs)[|Components(rhs)| - 1]
  {
    var split := SplitOnce(path, '/').value;
    ConsFacts(split.0, Components(split.1));
  }

  lemma ConsFacts<T>(x: T, t: seq<T>)
    requires |t| >= 1
    ensures var s := [x] + t;
      |s| >= 2 && s[0] == x && s[1..] == t && s[|s| - 1] == t[|t| - 1]
  {
  }

  /** A leading `./` changes nothing. */
  lemma DescendDot(path: string, parentAlive: bool)
    ensures Descend("./" + path, parentAlive) == Descend(path, parentAlive)
  {
    SplitOnceJoin(".", '/', path);
    assert "./" + path == "." + ['/'] + path;
  }

  /** A leading `../` moves to the living parent with the rest of the path. */
  lemma DescendLivingParent(path: string)
    ensures Descend("../" + path, true) == Ok(ThroughParent(path))
  {
    SplitOnceJoin("..", '/', path);
    assert "../" + path == ".." + ['/'] + path;
  }

  /** Once the parent is gone, a leading `../` changes nothing. */
  lemma DescendOrphan(path: string)
    ensures Descend("../" + path, false) == Descend(path, false)
  {
    SplitOnceJoin("..", '/', path);
    assert "../" + path == ".." + ['/'] + path;
  }

  /** A path starting with `/` is invalid, and one starting with any other name is not supported. */
  lemma DescendRefused(name: string, path: string, parentAlive: bool)
    requires '/' !in name && name != "." && name != ".."
    ensures Descend(name + "/" + path, parentAlive) == Err(if name == "" then Inval else NotSupported)
  {
    SplitOnceJoin(name, '/', path);
    assert name + "/" + path == name + ['/'] + path;
  }

  // ------------------------------------------------------------- open flags

  /** The open-flag combinations an open accepts. */
  const VALID_OFLAGS: set<set<OFlag>> := {
    {}, {OCreate}, {ODirectory}, {OTruncate},
    {OCreate, ODirectory}, {OCreate, OExclusive}, {OCreate, OTruncate},
    {OCreate, ODirectory, OExclusive}
  }

  /**
   * The accepted combinations, stated as rules: `EXCLUSIVE` only with
   * `CREATE`, and `TRUNCATE` neither with `DIRECTORY` nor with `EXCLUSIVE`.
   */
  lemma ValidOFlags(oflags: set<OFlag>)
    ensures oflags in VALID_OFLAGS <==>
      && (OExclusive in oflags ==> OCreate in oflags)
      && !(OTruncate in oflags && ODirectory in oflags)
      && !(OTruncate in oflags && OExclusive in oflags)
  {
    var c, d, e, t := OCreate in oflags, ODirectory in oflags, OExclusive in oflags, OTruncate in oflags;
    var rebuilt := (if c then {OCreate} else {}) + (if d then {ODirectory} else {})
      + (if e then {OExclusive} else {}) + (if t then {OTruncate} else {});
    assert oflags == rebuilt by {
      forall f ensures f in oflags <==> f in rebuilt {
        match f
        case OCreate =>
        case ODirectory =>
        case OExclusive =>
        case OTruncate =>
      }
    }
    if (e ==> c) && !(t && d) && !(t && e) {
      if t {
        assert oflags == (if c then {OCreate, OTruncate} else {OTruncate});
      } else if e {
        assert oflags == (if d then {OCreate, ODirectory, OExclusive} else {OCreate, OExclusive});
      } else {
        assert oflags == (if c && d then {OCreate, ODirectory} else if c then {OCreate}
                          else if d then {ODirectory} else {});
      }
    }
  }

  // ------------------------------------------------------------------ opens

  /** What an open on the directory turns to. */
  datatype Target =
    | SelfNode             // this directory's node opens itself
    | ParentNode           // the parent node opens `..` itself
    | ParentDir(rest: string)  // the parent directory opens the rest of the path
    | NextConnected        // the next established-connection event
    | NextAccepted         // the next accepted-connection event
    | Unimplemented        // a name the directory does not implement: the keep panics

  /**
   * Opening a last component: the open flags must be an accepted combination
   * and `TRUNCATE` needs write access; `.` and `..` refuse `EXCLUSIVE` and
   * then `TRUNCATE`; `.` and the empty name open this directory, `..` the
   * parent node, which once the parent is gone is this one, and it does not
   * open `..`.
   */
  function OpenLeaf(leaf: string, oflags: set<OFlag>, write: bool, parentAlive: bool): (r: Result<Target, Errno>)
    ensures oflags !in VALID_OFLAGS ==> r == Err(Inval)
    ensures OTruncate in oflags && !write ==> r == Err(Inval)
    ensures r.Ok? ==> oflags in VALID_OFLAGS && (OTruncate in oflags ==> write)
    ensures r == Ok(SelfNode) <==>
      (leaf == "" || leaf == ".") && oflags in VALID_OFLAGS && (OTruncate in oflags ==> write)
      && (leaf == "." ==> OExclusive !in oflags && OTruncate !in oflags)
    ensures r == Ok(ParentNode) <==>
      leaf == ".." && parentAlive && oflags in VALID_OFLAGS && OExclusive !in oflags && OTruncate !in oflags
    ensures r == Ok(NextConnected) <==> leaf == "con" && oflags in VALID_OFLAGS && (OTruncate in oflags ==> write)
    ensures r == Ok(NextAccepted) <==> leaf == "lis" && oflags in VALID_OFLAGS && (OTruncate in oflags ==> write)
    ensures r == Ok(Unimplemented) <==>
      leaf !in {"", ".", "..", "con", "lis"} && oflags in VALID_OFLAGS && (OTruncate in oflags ==> write)
    ensures r.Ok? ==> !r.value.ParentDir?
    ensures r.Err? ==> r.error in {Inval, Exist, Io, NotSupported}
    ensures oflags in VALID_OFLAGS && (OTruncate in oflags ==> write) && leaf in {".", ".."} ==>
      (OExclusive in oflags ==> r == Err(Exist))
      && (OExclusive !in oflags && OTruncate in oflags ==> r == Err(Io))
    ensures leaf == ".." && !parentAlive && oflags in VALID_OFLAGS && OExclusive !in oflags && OTruncate !in oflags ==>
      r == Err(NotSupported)
  {
    if oflags !in VALID_OFLAGS then Err(Inval)
    else if OTruncate in oflags && !write then Err(Inval)
    else if leaf == "." && OExclusive in oflags then Err(Exist)
    else if leaf == "." && OTruncate in oflags then Err(Io)
    else if leaf == "." || leaf == "" then Ok(SelfNode)
    else if leaf == ".." && OExclusive in oflags then Err(Exist)
    else if leaf == ".." && OTruncate in oflags then Err(Io)
    else if leaf == ".." then (if parentAlive then Ok(ParentNode) else Err(NotSupported))
    else if leaf == "con" then Ok(NextConnected)
    else if leaf == "lis" then Ok(NextAccepted)
    else Ok(Unimplemented)
  }

  /** Opening a file through the directory: walk the path, then open its last component. */
  function OpenPlan(path: string, oflags: set<OFlag>, write: bool, parentAlive: bool): (r: Result<Target, Errno>)
    ensures Descend(path, parentAlive).Err? ==> r == Err(Descend(path, parentAlive).error)
    ensures Descend(path, parentAlive).Ok? && Descend(path, parentAlive).value.ThroughParent? ==>
      r == Ok(ParentDir(Descend(path, parentAlive).value.rest))
    ensures Descend(path, parentAlive).Ok? && Descend(path, parentAlive).value.Here? ==>
      r == OpenLeaf(Descend(path, parentAlive).value.leaf, oflags, write, parentAlive)
  {
    var pos :- Descend(path, parentAlive);
    match pos
    case ThroughParent(rest) => Ok(ParentDir(rest))
    case Here(leaf) => OpenLeaf(leaf, oflags, write, parentAlive)
  }

  /** The operations of the directory that take a path. */
  datatype DirOp =
    | OpenDir | CreateDir | RemoveDir | UnlinkFile | Symlink | ReadLink
    | Rename | HardLink | GetPathFilestat | SetTimes

  /** What a path operation acts on once the walk is done. */
  datatype Effect =
    | OnSelf                    // this directory
    | OnParentNode              // the parent node, opened as a directory
    | OnParentDir(rest: string) // the parent directory, with the rest of the path

  /**
   * A path operation on a last component: opening `.` and `..` as a
   * directory, and the metadata and time operations on `.`, the empty name
   * and `..`, act on this directory or its living parent; creating and
   * removing refuse `.`, `..` and the empty name as invalid; everything else
   * is not supported.
   */
  function DirLeaf(op: DirOp, leaf: string, parentAlive: bool): (r: Result<Effect, Errno>)
    ensures r.Ok? ==> op in {OpenDir, GetPathFilestat, SetTimes} && leaf in {"", ".", ".."}
    ensures r.Ok? ==> !r.value.OnParentDir?
    ensures r == Ok(OnParentNode) <==> parentAlive && leaf == ".." && op in {OpenDir, GetPathFilestat, SetTimes}
    ensures op in {CreateDir, RemoveDir, UnlinkFile} ==>
      r == Err(if leaf in {"", ".", ".."} then Inval else NotSupported)
    ensures op in {Symlink, ReadLink, Rename, HardLink} ==> r == Err(NotSupported)
    ensures op == OpenDir && leaf == "" ==> r == Err(Inval)
    ensures op in {OpenDir, GetPathFilestat, SetTimes} && leaf !in {"", ".", ".."} ==> r == Err(NotSupported)
    ensures r == Ok(OnSelf) <==>
      (op == OpenDir && (leaf == "." || (leaf == ".." && !parentAlive)))
      || (op in {GetPathFilestat, SetTimes} && (leaf in {"", "."} || (leaf == ".." && !parentAlive)))
  {
    match op
    case OpenDir =>
      if leaf == "" then Err(Inval)
      else if leaf == "." then Ok(OnSelf)
      else if leaf == ".." then Ok(if parentAlive then OnParentNode else OnSelf)
      else Err(NotSupported)
    case CreateDir | RemoveDir | UnlinkFile =>
      if leaf in {"", ".", ".."} then Err(Inval) else Err(NotSupported)
    case Symlink | ReadLink | Rename | HardLink =>
      Err(NotSupported)
    case GetPathFilestat | SetTimes =>
      if leaf == "." || leaf == "" then Ok(OnSelf)
      else if leaf == ".." then Ok(if parentAlive then OnParentNode else OnSelf)
      else Err(NotSupported)
  }

  /** A path operation through the directory: walk the path, then act on its last component. */
  function DirOpAt(op: DirOp, path: string, parentAlive: bool): (r: Result<Effect, Errno>)
    ensures Descend(path, parentAlive).Err? ==> r == Err(Descend(path, parentAlive).error)
    ensures Descend(path, parentAlive).Ok? && Descend(path, parentAlive).value.ThroughParent? ==>
      r == Ok(OnParentDir(Descend(path, parentAlive).value.rest))
    ensures Descend(path, parentAlive).Ok? && Descend(path, parentAlive).value.Here? ==>
      r == DirLeaf(op, Descend(path, parentAlive).value.leaf, parentAlive)
  {
    var pos :- Descend(path, parentAlive);
    match pos
    case ThroughParent(rest) => Ok(OnParentDir(rest))
    case Here(leaf) => DirLeaf(op, leaf, parentAlive)
  }

  /** Listing the directory is not supported. */
  function ReadDir(): (r: Result<seq<string>, Errno>)
    ensures r == Err(NotSupported)
  {
    Err(NotSupported)
  }

  // --------------------------------------------------------- open handles

  /** An open handle on the directory: its access and descriptor flags. */
  datatype Handle = Handle(read: bool, write: bool, flags: set<FdFlag>)

  /** Opening the directory node as a directory: no access, default flags. */
  function NodeOpenDir(): (h: Handle)
    ensures !h.read && !h.write && h.flags == {}
  {
    Handle(false, false, {})
  }

  /** Opening the directory node as a file: only itself, by `.` or the empty name. */
  function NodeOpenFile(path: string, read: bool, write: bool, flags: set<FdFlag>): (r: Result<Handle, Errno>)
    ensures r.Ok? <==> path in {"", "."}
    ensures r.Ok? ==> r.value.read == read && r.value.write == write && r.value.flags == flags
    ensures r.Err? ==> r.error == NotSupported
  {
    if path == "" || path == "." then Ok(Handle(read, write, flags)) else Err(NotSupported)
  }

  /** The operations on an open handle of the directory. */
  datatype FileOp =
    | GetFiletype | Datasync | Fsync | GetFdflags | SetFdflags | GetFilestat
    | SetFilestatSize | Advise | Allocate | SetHandleTimes | ReadVectored | ReadVectoredAt
    | WriteVectored | WriteVectoredAt | Seek | Peek | NumReadyBytes | Readable | Writable

  datatype Reply = Done | Kind(filetype: FileType)

  /**
   * A handle reports a directory, accepts syncs and time updates, and
   * supports nothing else: no reads, writes, seeks or flag changes.
   */
  function HandleOp(op: FileOp): (r: Result<Reply, Errno>)
    ensures r.Ok? <==> op in {GetFiletype, Datasync, Fsync, SetHandleTimes}
    ensures op == GetFiletype <==> r == Ok(Kind(Directory))
    ensures r.Err? ==> r.error == NotSupported
  {
    match op
    case GetFiletype => Ok(Kind(Directory))
    case Datasync | Fsync | SetHandleTimes => Ok(Done)
    case _ => Err(NotSupported)
  }

  /** The metadata a directory handle reports. */
  datatype Filestat = Filestat(inode: nat, filetype: FileType, nlink: nat, size: nat)

  /** What an open through the directory gives. */
  datatype Opened =
    | PeerHandle(handle: Handle)        // a handle on this directory
    | Event(file: BlobFile.Blob)        // a file holding one connection event
    | Delegated(target: Target)         // whatever the parent opens

  // ------------------------------------------------------------------ nodes

  /**
   * The directory node: its inode, whether its parent node is still alive,
   * and the connection events that have arrived and not yet been read, in
   * arrival order.
   */
  class Peer {
    const ino: nat
    /** Cleared when the last strong reference to the parent node goes away, outside this model. */
    var parentAlive: bool
    var accepted: seq<AcceptMetadata>
    var connected: seq<ConnectMetadata>

    constructor (ino: nat, accepted: seq<AcceptMetadata>, connected: seq<ConnectMetadata>)
      ensures this.ino == ino && parentAlive
      ensures this.accepted == accepted && this.connected == connected
    {
      this.ino := ino;
      parentAlive := true;
      this.accepted := accepted;
      this.connected := connected;
    }

    /** The node is a directory. */
    function FileType(): (t: FileType)
      ensures t == Directory
    {
      Directory
    }

    /**
     * A handle's metadata: a directory of size 0 on this inode, with two
     * links per strong reference to the inode (`holders`).
     */
    function Stat(holders: nat): (s: Filestat)
      reads this
      ensures s.inode == ino && s.filetype == Directory && s.size == 0
      ensures s.nlink == 2 * holders
    {
      Filestat(ino, Directory, 2 * holders, 0)
    }

    /**
     * Opening `path` through an open handle on this directory. A walk or
     * open that ends on the living parent is handed to it. Opening `con` or
     * `lis` takes the oldest event of that kind, and of that kind only, into
     * a fresh file holding its JSON text (`json`, not modelled); the keep
     * waits while there is none, which is outside this model.
     */
    method OpenFile(path: string, oflags: set<OFlag>, read: bool, write: bool, flags: set<FdFlag>,
                    connectJson: ConnectMetadata -> seq<byte>, acceptJson: AcceptMetadata -> seq<byte>)
      returns (r: Result<Opened, Errno>)
      requires OpenPlan(path, oflags, write, parentAlive) != Ok(Unimplemented)
      requires OpenPlan(path, oflags, write, parentAlive) == Ok(NextConnected) ==> connected != []
      requires OpenPlan(path, oflags, write, parentAlive) == Ok(NextAccepted) ==> accepted != []
      modifies this
      ensures parentAlive == old(parentAlive)
      ensures var plan := OpenPlan(path, oflags, write, old(parentAlive));
        match plan
        case Err(e) =>
          r == Err(e) && accepted == old(accepted) && connected == old(connected)
        case Ok(SelfNode) =>
          r == Ok(PeerHandle(Handle(read, write, flags)))
          && accepted == old(accepted) && connected == old(connected)
        case Ok(NextConnected) =>
          && r.Ok? && r.value.Event? && fresh(r.value.file) && r.value.file.Valid()
          && r.value.file.content == connectJson(old(connected)[0]) && r.value.file.pos == 0
          && connected == old(connected)[1..] && accepted == old(accepted)
        case Ok(NextAccepted) =>
          && r.Ok? && r.value.Event? && fresh(r.value.file) && r.value.file.Valid()
          && r.value.file.content == acceptJson(old(accepted)[0]) && r.value.file.pos == 0
          && accepted == old(accepted)[1..] && connected == old(connected)
        case Ok(t) =>
          r == Ok(Delegated(t)) && accepted == old(accepted) && connected == old(connected)
    {
      var plan := OpenPlan(path, oflags, write, parentAlive);
      match plan {
        case Err(e) =>
          r := Err(e);
        case Ok(SelfNode) =>
          var h := NodeOpenFile("", read, write, flags);
          r := Ok(PeerHandle(h.value));
        case Ok(NextConnected) =>
          var md := connected[0];
          connected := connected[1..];
          var file := new BlobFile.Blob(connectJson(md));
          r := Ok(Event(file));
        case Ok(NextAccepted) =>
          var md := accepted[0];
          accepted := accepted[1..];
          var file := new BlobFile.Blob(acceptJson(md));
          r := Ok(Event(file));
        case Ok(t) =>
          r := Ok(Delegated(t));
      }
    }
  }

  /** A new directory node takes the next inode number of its parent's device. */
  method NewPeer<N>(parent: NodeGraph.Directory<N>, accepted: seq<AcceptMetadata>, connected: seq<ConnectMetadata>)
    returns (p: Peer)
    requires parent.Valid()
    modifies parent
    ensures parent.Valid() && parent.entries == old(parent.entries) && parent.next == old(parent.next) + 1
    ensures fresh(p) && p.ino == old(parent.next) && p.parentAlive
    ensures p.accepted == accepted && p.connected == connected
  {
    var ino := parent.CreateInode();
    p := new Peer(ino, accepted, connected);
  }

  /**
   * Opening `lis` `k` times gives `k` fresh files holding the first `k`
   * accepted-connection events, in arrival order, and leaves the rest queued.
   */
  method ReadAccepted(peer: Peer, k: nat, connectJson: ConnectMetadata -> seq<byte>,
                      acceptJson: AcceptMetadata -> seq<byte>)
    returns (files: seq<BlobFile.Blob>)
    requires k <= |peer.accepted|
    modifies peer
    ensures |files| == k
    ensures forall i :: 0 <= i < k ==> files[i].content == acceptJson(old(peer.accepted)[i])
    ensures forall i :: 0 <= i < k ==> fresh(files[i]) && files[i].Valid() && files[i].pos == 0
    ensures forall i, j :: 0 <= i < j < k ==> files[i] != files[j]
    ensures peer.accepted == old(peer.accepted)[k..] && peer.connected == old(peer.connected)
  {
    files := [];
    var i := 0;
    while i < k
      invariant 0 <= i <= k
      invariant |files| == i
      invariant forall j :: 0 <= j < i ==> files[j].content == acceptJson(old(peer.accepted)[j])
      invariant forall j :: 0 <= j < i ==> fresh(files[j]) && files[j].Valid() && files[j].pos == 0
      invariant forall j, l :: 0 <= j < l < i ==> files[j] != files[l]
      invariant peer.accepted == old(peer.accepted)[i..] && peer.connected == old(peer.connected)
    {
      assert OpenPlan("lis", {}, false, peer.parentAlive) == Ok(NextAccepted);
      var r := peer.OpenFile("lis", {}, true, false, {}, connectJson, acceptJson);
      files := files + [r.value.file];
      i := i + 1;
    }
  }
}
