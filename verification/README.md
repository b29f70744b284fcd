# Enarx keep: network directories, peer events and identity, in Dafny

This project models the part of an Enarx keep that a WebAssembly workload
sees as files, together with the string logic that names a keep.

- **Configuration** (`Enarx.toml`). The `Config` record, its network policy,
  the listen/connect/stdio file kinds, their defaults and the decoding rules
  serde derives for them: internal tags, per-field defaults, unknown fields
  refused in the configuration and its network policies (a tagged unit
  variant skips every field besides its tag). A document is a tree of strings, arrays and tables; the TOML text
  is not modelled.
- **`connect` directory.** Every name in it is an outgoing stream. Opening
  `host[:port]` (port 443 by default) connects over raw TCP or TLS, as the
  node's protocol says.
- **`listen` directory.** Every name in it is a listening socket. Opening
  `[host:]port` binds that port, on every interface when no host is given.
- **`peer` directory.** Opening `con` or `lis` takes the oldest
  established-connection or accepted-connection event from its own FIFO
  queue and serves it as a read-only file. Paths are walked component by
  component (`.`, `..` while the parent lives). Every other operation fails
  with a fixed error code.
- **Blob.** The read-only file that serves each event: a byte string with a
  cursor. A vectored read fills the buffers in order.
- **Identity.**
  - The subject common name `<workload>@<digest>` a keep puts in its
    certificate request and self-signed certificate.
  - The peer that a certificate chain names.
  - The curve and key hash each TEE technology uses.
  - The steward's scheme check and certificate order.
- **Workload.** The Drawbridge slug parser
  (`[host/]user/repo:tag` to a package URL) and the acceptance rules for
  fetched content: size limits, media types, metadata agreement, an
  optional `Enarx.toml`, and unsigned tags only.

The virtual-filesystem primitives (`Directory`, device inode counters,
`attach`, name-minting factories) belong to the wasmtime VFS crates, which
are not part of this model. `NodeGraph` states their assumed behaviour:
- the device hands out inode numbers 1, 2, … in order;
- `attach` refuses a name that is taken;
- a lookup of a name that is not attached mints a node from the factory,
  on a fresh inode.

Where descriptions of this component and its code disagree, the model
follows the code:
- `connect` defaults the port to 443 for TCP as well as TLS.
- A TLS connection is given the whole last component (`host` or
  `host:port`) as its server name, not the host alone.
- The last component of a path drops ONE trailing `/` only, so
  `a//` has an empty last component. That component then fails port
  parsing (`listen`) or reaches the connect with an empty host (`connect`).
- In the peer directory, opening the file `..` once the parent is gone is
  refused as not supported. Opening it as a directory, by contrast, gives
  the peer directory itself.

Files: `wrappers.dfy` (Option, Result, byte), `text.dfy` (the `str`
operations used), `wasi.dfy` (errno, flags, file types), `config.dfy`,
`nodegraph.dfy`, `net.dfy` (addresses, connection metadata),
`connect.dfy`, `listen.dfy`, `peer.dfy`, `blob.dfy`, `identity.dfy`,
`workload.dfy`.

## Model

| member | source | states |
|---|---|---|
| Text.SplitOnce | crates/exec-wasmtime/src/runtime/vfs/connect.rs:78 | `split_once`: the input is the part before, the separator and the part after, with no separator in the part before; there is no split exactly when the separator is absent |
| Text.RSplitOnce | crates/exec-wasmtime/src/workload.rs:57 | `rsplit_once`: the same, with no separator in the part after |
| Text.SplitOnceJoin | crates/exec-wasmtime/src/runtime/vfs/listen.rs:78-81 | splitting `a + c + b` at the first `c`, when `a` has none, gives back `(a, b)` |
| Text.RSplitOnceJoin | crates/exec-wasmtime/src/workload.rs:61-75 | splitting `a + c + b` at the last `c`, when `b` has none, gives back `(a, b)` |
| Text.LastComponent | crates/exec-wasmtime/src/runtime/vfs/connect.rs:74-77 | `rsplit_terminator('/').next()`: none exactly for the empty path; otherwise a `/`-free suffix of the path, after at most one trailing `/`, that starts the path or follows a `/` |
| Text.LastComponentOfJoin | crates/exec-wasmtime/src/runtime/vfs/listen.rs:74-77 | a non-empty `/`-free name appended to a directory path is that path's last component |
| Text.HostPortText | crates/exec-wasmtime/src/runtime/vfs/connect.rs:78-84 | `host:port`, with a `/`- and `:`-free host and the port in decimal, is one component that splits into the host and a text parsing back to the port |
| Text.ParseU16 | crates/exec-wasmtime/src/runtime/vfs/connect.rs:79 | `u16` parsing: a text is accepted exactly when, less one optional leading `+`, it is one or more decimal digits whose value is at most 65535, and the result is that value |
| Text.ParseU16RoundTrip | crates/exec-wasmtime/src/runtime/vfs/listen.rs:82-85 | every port printed in decimal parses back to itself |
| Text.DecimalRoundTrip | crates/exec-wasmtime/src/runtime/vfs/listen.rs:82-85 | the value of the decimal text of `n` is `n` |
| Text.Replace | crates/exec-wasmtime/src/runtime/identity/mod.rs:90 | `replace` of one character: same length, each `from` becomes `to`, all else unchanged |
| Text.TrimEnd | crates/exec-wasmtime/src/runtime/identity/mod.rs:134 | `trim_end_matches`: a prefix that does not end in the character, with only that character after it |
| Wasi.NonblockingFromFlags | crates/exec-wasmtime/src/runtime/vfs/connect.rs:103-113 | flags exactly `NONBLOCK` select non-blocking and no flags select blocking; every other combination is refused (all three as if-and-only-if) |
| EnarxConfig.DefaultListenFile | crates/enarx-config/src/lib.rs:204-208 | the default listening protocol is TLS |
| EnarxConfig.DefaultConnectFile | crates/enarx-config/src/lib.rs:235-239 | the default stream protocol is TLS |
| EnarxConfig.DefaultStdioFile | crates/enarx-config/src/lib.rs:254-258 | standard I/O is discarded (`Null`) by default |
| EnarxConfig.DefaultsAreTlsAndNull | crates/enarx-config/src/lib.rs:74-177 | the default configuration: no steward; empty args, env, listen and connect; all three stdio `Null`; both network defaults TLS |
| EnarxConfig.DecodeTag | crates/enarx-config/src/lib.rs:185 | an internally tagged unit variant decodes exactly from a table whose tag field is a string, and yields that string; other fields are skipped, because the enums have no struct variants for `deny_unknown_fields` to reach |
| EnarxConfig.DecodeListenFile | crates/enarx-config/src/lib.rs:184-202 | a listen file decodes to `Tls` exactly from a table whose `prot` is `"tls"` and to `Tcp` exactly from one whose `prot` is `"tcp"` |
| EnarxConfig.DecodeConnectFile | crates/enarx-config/src/lib.rs:215-233 | a connect file decodes to `Tls` exactly from a table whose `prot` is `"tls"` and to `Tcp` exactly from one whose `prot` is `"tcp"` |
| EnarxConfig.DecodeStdioFile | crates/enarx-config/src/lib.rs:242-252 | a stdio file decodes to `Null` exactly from a table whose `kind` is `"null"` and to `Host` exactly from one whose `kind` is `"host"` |
| EnarxConfig.DefaultConfig | crates/enarx-config/src/lib.rs:74-118 | the derived `Config::default`: no steward, no arguments, environment or sockets, all stdio `Null`, TLS both ways (EmptyDocumentIsDefault ties it to decoding) |
| EnarxConfig.Decode | crates/enarx-config/src/lib.rs:74-118 | the derived deserializer: a success comes from a table of declared fields only; the steward is set exactly when its field is present; an absent args, stdin or network field takes its default (RoundTrip, EmptyDocumentIsDefault and UnknownFieldsRejected carry the rest) |
| EnarxConfig.Encode | crates/enarx-config/src/lib.rs:74-118 | the derived serializer: a table of declared fields only, holding the steward exactly when there is one (RoundTrip: Decode gives the configuration back) |
| EnarxConfig.DefaultsDecode | crates/enarx-config/src/lib.rs:160-258 | each `default` function is what decoding yields for an absent field: an empty incoming, outgoing or network policy and a missing stdio field decode to the default values |
| EnarxConfig.EmptyDocumentIsDefault | crates/enarx-config/src/lib.rs:264-268 | the empty document decodes to the default configuration |
| EnarxConfig.TagsDecode | crates/enarx-config/src/lib.rs:184-252 | a protocol tag is accepted iff it is `tls` or `tcp`, a stdio tag iff it is `null` or `host`, each giving the variant it names |
| EnarxConfig.UnknownFieldsRejected | crates/enarx-config/src/lib.rs:75-160 | a field outside the declared ones fails decoding of the configuration, the network policy and each direction's policy |
| EnarxConfig.OtherFieldsIgnored | crates/enarx-config/src/lib.rs:184-252 | adding or changing a field other than the tag does not change how a listen, connect or stdio file decodes |
| EnarxConfig.ListenTagRoundTrip | crates/enarx-config/src/lib.rs:184-202 | a listen protocol encoded as its tag decodes back to itself |
| EnarxConfig.ConnectTagRoundTrip | crates/enarx-config/src/lib.rs:215-233 | a stream protocol encoded as its tag decodes back to itself |
| EnarxConfig.StdioTagRoundTrip | crates/enarx-config/src/lib.rs:242-252 | a stdio kind encoded as its tag decodes back to itself |
| EnarxConfig.StringsRoundTrip | crates/enarx-config/src/lib.rs:80-81 | the argument list encoded as an array decodes back to itself |
| EnarxConfig.EnvRoundTrip | crates/enarx-config/src/lib.rs:83-84 | the environment encoded as a table decodes back to itself |
| EnarxConfig.ListenTableRoundTrip | crates/enarx-config/src/lib.rs:95-101 | the listen table decodes back to itself, entry by entry |
| EnarxConfig.ConnectTableRoundTrip | crates/enarx-config/src/lib.rs:103-109 | the connect table decodes back to itself, entry by entry |
| EnarxConfig.NetworkRoundTrip | crates/enarx-config/src/lib.rs:125-177 | the network policy decodes back to itself |
| EnarxConfig.DecodeFields | crates/enarx-config/src/lib.rs:74-118 | a table of declared fields, each decoding (or defaulting) to the matching part of `c`, decodes to `c` |
| EnarxConfig.EncodedKeys | crates/enarx-config/src/lib.rs:74-78 | an encoded configuration holds only declared fields, and the steward exactly when there is one |
| EnarxConfig.RoundTrip | crates/enarx-config/src/lib.rs:74-258 | decoding the encoding of any configuration gives it back |
| EnarxConfig.TemplateRoundTrip | crates/enarx-config/src/lib.rs:341-349 | the template decodes to the default configuration with all stdio `Host`, and encoding and decoding that gives the same result |
| NodeGraph.Directory.constructor | crates/exec-wasmtime/src/runtime/vfs/connect.rs:149 | a new device root: no entries, the given factory, next inode 1 |
| NodeGraph.Directory.CreateInode | crates/exec-wasmtime/src/runtime/vfs/connect.rs:172 | hands out the device's next inode number and advances the counter by one |
| NodeGraph.Directory.Attach | crates/exec-wasmtime/src/runtime/vfs/connect.rs:185-187 | attaching succeeds iff the name is free, and then adds exactly that entry |
| NodeGraph.Directory.CreateAndAttach | crates/exec-wasmtime/src/runtime/vfs/listen.rs:144-160 | a fresh inode is used up either way; the node is attached on it iff the name is free; inode numbers stay distinct and below the counter |
| NodeGraph.Directory.Lookup | crates/exec-wasmtime/src/runtime/vfs/listen.rs:133-142 | an attached name gives its entry; any other name gets a node minted by the factory on the next inode, or nothing without a factory |
| NodeGraph.IndexOf | crates/exec-wasmtime/src/runtime/vfs/listen.rs:143 | the first position holding a name, and none exactly when the name is absent |
| NodeGraph.AttachNext | crates/exec-wasmtime/src/runtime/vfs/listen.rs:143-161 | attaching the next configured item fails exactly on a repeated name; otherwise the directory grows by that item on the next inode |
| NodeGraph.AttachedKeys | crates/exec-wasmtime/src/runtime/vfs/listen.rs:143-161 | attaching items in order holds exactly their names |
| NodeGraph.AttachedEntries | crates/exec-wasmtime/src/runtime/vfs/connect.rs:170-188 | with distinct names, the item at position `i` is attached under its name on inode `i + 1` |
| Connect.SocketFor | crates/exec-wasmtime/src/runtime/vfs/connect.rs:173-184 | a node is TCP iff configured `tcp`; a TLS node carries the one shared client configuration |
| Connect.HostPort | crates/exec-wasmtime/src/runtime/vfs/connect.rs:78-87 | without `:` the component is the host with port 443; with `:` it splits at the first `:` and fails iff the rest is not a `u16` |
| Connect.EndpointFor | crates/exec-wasmtime/src/runtime/vfs/connect.rs:88-95 | `localhost` and `127.0.0.1` (and only they) connect to IPv4 loopback; any other host is passed on as named |
| Connect.OpenDir | crates/exec-wasmtime/src/runtime/vfs/connect.rs:54-56 | a socket node is not a directory |
| Connect.OpenFile | crates/exec-wasmtime/src/runtime/vfs/connect.rs:58-121 | not-a-directory, then permission unless read and write, then invalid argument for no component or a bad port, then I/O on a failed connect, then invalid argument for any flag set other than none or `NONBLOCK`, then an unclassified error when `set_nonblocking` or the TLS handshake fails; a success has the endpoint of the parsed host and port, TCP raw and TLS wrapped with the component as server name |
| Connect.DefaultPort | crates/exec-wasmtime/src/runtime/vfs/connect.rs:85-87 | a name without `:` connects to port 443 for TCP and TLS alike |
| Connect.ExplicitPort | crates/exec-wasmtime/src/runtime/vfs/connect.rs:78-84 | `host:port` connects to that port of that host |
| Connect.New | crates/exec-wasmtime/src/runtime/vfs/connect.rs:123-190 | builds a fresh device whose factory mints the outgoing default protocol, with the `i`-th configured stream on inode `i + 1` under its declared protocol; fails iff there is no TLS configuration or a name repeats |
| Connect.Resolve | crates/exec-wasmtime/src/runtime/vfs/connect.rs:149-188 | in a built directory a configured name opens its own node; any other name opens a node of the default protocol on the next inode |
| Listen.SocketFor | crates/exec-wasmtime/src/runtime/vfs/listen.rs:146-157 | a node is TCP iff configured `tcp`; a TLS node carries the one shared server configuration |
| Listen.HostPort | crates/exec-wasmtime/src/runtime/vfs/listen.rs:74-85 | with `:` the host is before the first `:`; without it there is no host; either way the port text must parse as `u16` |
| Listen.EndpointFor | crates/exec-wasmtime/src/runtime/vfs/listen.rs:86-94 | `localhost`/`127.0.0.1` bind loopback, no host or `0.0.0.0` binds every interface, any other host (even empty) is passed on (each as if-and-only-if) |
| Listen.OpenDir | crates/exec-wasmtime/src/runtime/vfs/listen.rs:54-56 | a listener node is not a directory |
| Listen.OpenFile | crates/exec-wasmtime/src/runtime/vfs/listen.rs:58-115 | the same order of checks as a connect, with bind in place of connect: invalid argument for a bad flag set after a successful bind, an unclassified error when `set_nonblocking` fails (no handshake); a success binds the endpoint of the parsed host and port, raw for TCP and wrapped with the node's server configuration for TLS |
| Listen.PortOnly | crates/exec-wasmtime/src/runtime/vfs/listen.rs:78-92 | a bare decimal port binds that port on every interface |
| Listen.HostAndPort | crates/exec-wasmtime/src/runtime/vfs/listen.rs:78-94 | `host:port` binds that port for that host |
| Listen.New | crates/exec-wasmtime/src/runtime/vfs/listen.rs:117-163 | builds a fresh device whose factory always mints TLS listeners, with the `i`-th configured socket on inode `i + 1` under its declared protocol; fails iff there is no TLS configuration or a name repeats |
| Listen.Resolve | crates/exec-wasmtime/src/runtime/vfs/listen.rs:133-161 | a configured name opens its own node; any other name opens a TLS listener on the next inode |
| PeerDir.Descend | crates/exec-wasmtime/src/runtime/vfs/peer.rs:175-180 | walking the leading components: a `/`-free path stays here; a result leaf has no `/`; moving to the parent needs it alive; errors are invalid argument or not supported |
| PeerDir.ComponentsJoin | crates/exec-wasmtime/src/runtime/vfs/peer.rs:175-180 | splitting a path at every `/` and joining it back gives the path |
| PeerDir.DescendHere | crates/exec-wasmtime/src/runtime/vfs/peer.rs:234-246 | the walk ends in this directory on leaf `l` iff `l` is the last component and every earlier one is `.`, or `..` with the parent gone |
| PeerDir.PassesThroughFirst | crates/exec-wasmtime/src/runtime/vfs/peer.rs:175-180 | a path passes through this directory iff its first component does and the rest of it does |
| PeerDir.DescendDot | crates/exec-wasmtime/src/runtime/vfs/peer.rs:242 | a leading `./` changes nothing |
| PeerDir.DescendLivingParent | crates/exec-wasmtime/src/runtime/vfs/peer.rs:52-57 | a leading `../` hands the rest of the path to the living parent |
| PeerDir.DescendOrphan | crates/exec-wasmtime/src/runtime/vfs/peer.rs:243 | once the parent is gone a leading `../` changes nothing |
| PeerDir.DescendRefused | crates/exec-wasmtime/src/runtime/vfs/peer.rs:240-245 | a leading empty component is invalid and any other leading name is not supported |
| PeerDir.ValidOFlags | crates/exec-wasmtime/src/runtime/vfs/peer.rs:163-172 | the eight accepted open-flag sets are exactly those where `EXCLUSIVE` implies `CREATE` and `TRUNCATE` goes with neither `DIRECTORY` nor `EXCLUSIVE` |
| PeerDir.OpenLeaf | crates/exec-wasmtime/src/runtime/vfs/peer.rs:182-231 | bad flags, or `TRUNCATE` without write, are invalid; `.`/`..` refuse `EXCLUSIVE` (exists) then `TRUNCATE` (I/O); `""`/`.` open this node, `..` the living parent, `con`/`lis` the next event, and any other name is unimplemented (each as if-and-only-if); `..` with the parent gone is not supported |
| PeerDir.OpenPlan | crates/exec-wasmtime/src/runtime/vfs/peer.rs:154-232 | an open walks the path; a walk error is the result, reaching the parent delegates the rest to it, and otherwise the leaf is opened |
| PeerDir.DirLeaf | crates/exec-wasmtime/src/runtime/vfs/peer.rs:240-380 | `open_dir("")` is invalid; create/remove/unlink of `""`, `.`, `..` are invalid and of other names not supported; symlink, read_link, rename and hard_link are not supported; `.`, `""` and `..` of the stat and time operations act on this node or the living parent; the result is this node exactly for `open_dir` of `.` or of an orphan `..`, and for stat and time operations on `""`, `.` or an orphan `..` |
| PeerDir.DirOpAt | crates/exec-wasmtime/src/runtime/vfs/peer.rs:234-380 | every path operation first walks the path as an open does, then acts on the leaf |
| PeerDir.ReadDir | crates/exec-wasmtime/src/runtime/vfs/peer.rs:260-265 | listing the directory is not supported |
| PeerDir.NodeOpenDir | crates/exec-wasmtime/src/runtime/vfs/peer.rs:99-107 | the node opened as a directory has neither read nor write access |
| PeerDir.NodeOpenFile | crates/exec-wasmtime/src/runtime/vfs/peer.rs:110-128 | the node opens as a file only by `""` or `.`, keeping the requested access and flags; anything else is not supported |
| PeerDir.HandleOp | crates/exec-wasmtime/src/runtime/vfs/peer.rs:384-476 | an open handle reports a directory and accepts datasync, sync and time updates; everything else, reads, writes and seeks included, is not supported |
| PeerDir.Peer.FileType | crates/exec-wasmtime/src/runtime/vfs/peer.rs:90-92 | the peer node is a directory |
| PeerDir.Peer.Stat | crates/exec-wasmtime/src/runtime/vfs/peer.rs:309-322 | the node's inode, type directory, size 0, and two links per strong reference |
| PeerDir.Peer.OpenFile | crates/exec-wasmtime/src/runtime/vfs/peer.rs:154-232 | errors and opens of this node leave both queues as they were; `con`/`lis` give a fresh blob at position 0 holding the oldest event of that kind, which leaves that queue only; everything else is handed on |
| PeerDir.NewPeer | crates/exec-wasmtime/src/runtime/vfs/peer.rs:36-50 | a new peer node takes the next inode of its parent's device, with a living parent and the given queues |
| PeerDir.ReadAccepted | crates/exec-wasmtime/src/runtime/vfs/peer.rs:220-229 | `k` opens of `lis` give `k` distinct fresh files, each unread, holding the first `k` accepted events in arrival order, and leave the rest, and the other queue, untouched |
| BlobFile.Chunks | crates/exec-wasmtime/src/runtime/io/blob.rs:30-38 | one chunk per buffer |
| BlobFile.ChunksFit | crates/exec-wasmtime/src/runtime/io/blob.rs:30-38 | no buffer receives more than it holds |
| BlobFile.ChunksFlatten | crates/exec-wasmtime/src/runtime/io/blob.rs:30-38 | together the buffers receive the front of the remaining bytes, as many as they hold in total |
| BlobFile.ChunksOfNothing | crates/exec-wasmtime/src/runtime/io/blob.rs:30-38 | with nothing left, every buffer receives nothing |
| BlobFile.ChunksStopEarly | crates/exec-wasmtime/src/runtime/io/blob.rs:30-38 | after the first buffer that is not filled, no buffer receives anything |
| BlobFile.ReadsAll | crates/exec-wasmtime/src/runtime/io/blob.rs:30-38 | a read returns all remaining bytes iff the buffers can hold them |
| BlobFile.NothingAtEnd | crates/exec-wasmtime/src/runtime/io/blob.rs:30-38 | a read at the end returns nothing |
| BlobFile.Overwrite | crates/exec-wasmtime/src/runtime/io/blob.rs:30-38 | a buffer written over its start keeps its length and the rest of its bytes |
| BlobFile.Lengths | crates/exec-wasmtime/src/runtime/io/blob.rs:30-33 | the lengths of the buffers, one per buffer |
| BlobFile.Blob.constructor | crates/exec-wasmtime/src/runtime/io/blob.rs:14-18 | a blob holds its content with the cursor at 0 and nothing delivered |
| BlobFile.Blob.FileType | crates/exec-wasmtime/src/runtime/io/blob.rs:26-28 | a blob is a regular file |
| BlobFile.Blob.Readable | crates/exec-wasmtime/src/runtime/io/blob.rs:40-42 | readiness to read always succeeds |
| BlobFile.Blob.Writable | crates/exec-wasmtime/src/runtime/io/blob.rs:44-46 | readiness to write always succeeds |
| BlobFile.Blob.ReadVectored | crates/exec-wasmtime/src/runtime/io/blob.rs:30-38 | buffer `j` receives chunk `j` of the remaining content over its start; the count is the chunks' total; the cursor advances by it; the bytes delivered so far stay the content's prefix up to the cursor; a count of 0 into buffers with room means the cursor is at the end and everything delivered is the whole content |
| BlobFile.NothingOnlyAtEnd | crates/exec-wasmtime/src/runtime/io/blob.rs:30-38 | into buffers with room, a read returns nothing exactly when no bytes remain |
| BlobFile.Fill | crates/exec-wasmtime/src/runtime/io/blob.rs:34-35 | the in-place copy loop: the bytes copied are the content from the start to the returned position, split into the buffers' chunks |
| Identity.EncodeDigest | crates/exec-wasmtime/src/runtime/identity/mod.rs:130-137 | the digest text in a name is no longer than the digest, has no `+` or `/`, and does not end in `=` |
| Identity.DecodeDigest | crates/exec-wasmtime/src/runtime/identity/mod.rs:90 | reading a digest back maps `-` to `+` and `_` to `/`, character by character, and changes nothing else |
| Identity.DigestRoundTrip | crates/exec-wasmtime/src/runtime/identity/mod.rs:90-137 | a standard base64 digest survives encoding and decoding, less its `=` padding |
| Identity.EncodedDigestHasNoAt | crates/exec-wasmtime/src/runtime/identity/mod.rs:130-143 | an encoded standard base64 digest has no `@`, so the last `@` of a name precedes it |
| Identity.CommonNames | crates/exec-wasmtime/src/runtime/identity/mod.rs:61-77 | the set holds exactly the values of the common-name attributes of the subject's RDNs: every one is collected, and nothing else is |
| Identity.PeerFromName | crates/exec-wasmtime/src/runtime/identity/mod.rs:89-100 | a name with `@` names a local or keep peer, never anonymous; a keep's workload is never `localhost`; the digest holds no `-` or `_` |
| Identity.PeerFromNameJoin | crates/exec-wasmtime/src/runtime/identity/mod.rs:89-100 | `w@d`, with no `@` in `d`, names `Local(decode(d))` for `w = localhost` and `Keep(w, decode(d))` otherwise |
| Identity.FromCerts | crates/exec-wasmtime/src/runtime/identity/mod.rs:54-101 | a chain is anonymous iff it is empty or its first certificate has no common name; otherwise the peer is the one some common name of that certificate names |
| Identity.SubjectName | crates/exec-wasmtime/src/runtime/identity/mod.rs:130-143 | `<workload>@<encoded digest>`: its last `@` separates the workload name from the encoded digest (SubjectRoundTrip reads the peer back from it) |
| Identity.Subject | crates/exec-wasmtime/src/runtime/identity/mod.rs:139-147 | the subject of a keep's request holds exactly the one common name `<workload>@<encoded digest>` |
| Identity.SubjectRoundTrip | crates/exec-wasmtime/src/runtime/identity/mod.rs:89-143 | a chain whose first subject was built for a package names that package's slug or URL as a keep, or a local package as local, with the digest less its padding |
| Identity.HashLength | crates/exec-wasmtime/src/runtime/identity/mod.rs:195-205 | a key hash fits the 64-byte buffer |
| Identity.CurveFor | crates/exec-wasmtime/src/runtime/identity/mod.rs:183-187 | P-384 iff the technology is SEV-SNP; P-256 for SGX and KVM |
| Identity.KeyHashMatchesCurve | crates/exec-wasmtime/src/runtime/identity/mod.rs:183-205 | the key hash is 48 bytes on SEV-SNP and 32 bytes otherwise |
| Identity.KeyHashOf | crates/exec-wasmtime/src/runtime/identity/mod.rs:195-205 | 64 bytes: the hash in front and zeros after |
| Identity.FillKeyHash | crates/exec-wasmtime/src/runtime/identity/mod.rs:195-205 | filling the buffer in place gives SHA-384 of the key on SEV-SNP and SHA-256 otherwise, zero-padded to 64 bytes |
| Identity.Generate | crates/exec-wasmtime/src/runtime/identity/mod.rs:178-220 | a request fails iff attestation of the key hash fails; otherwise it uses the technology's curve, the package's subject name and one non-critical extension carrying the report |
| Identity.Reverse | crates/exec-wasmtime/src/runtime/identity/mod.rs:239 | element `i` of the reversal is element `n-1-i` of the input |
| Identity.ReverseReverse | crates/exec-wasmtime/src/runtime/identity/mod.rs:239 | reversing twice gives the input |
| Identity.Steward | crates/exec-wasmtime/src/runtime/identity/mod.rs:223-240 | a non-`https` steward is refused; the call succeeds iff the scheme is `https` and the exchange succeeds, and then returns the path in reverse |
| Identity.StewardLeafFirst | crates/exec-wasmtime/src/runtime/identity/mod.rs:238-239 | the last certificate of the steward's path comes first |
| Identity.SelfSigned | crates/exec-wasmtime/src/runtime/identity/mod.rs:243-321 | fails iff drawing the serial fails; otherwise one certificate, issuer equal to subject, named for the package, with a 16-byte serial, valid one year from now, usable as TLS server and client |
| Identity.SelfSignedIdentity | crates/exec-wasmtime/src/runtime/identity/mod.rs:243-321 | a keep's self-signed chain names the keep's own package as the peer |
| Workload.ParseUser | crates/exec-wasmtime/src/workload.rs:56-59 | with `/` the input is `host/user` with a `/`-free user; without `/` the host is `store.profian.com` and the user is the whole input |
| Workload.ParseRepo | crates/exec-wasmtime/src/workload.rs:61-67 | fails exactly when there is no `/`, with the missing-`/` error; a success splits the text into `host/user/repo`, or `user/repo` on the default host, with no `/` in user or repo |
| Workload.ParseTag | crates/exec-wasmtime/src/workload.rs:69-75 | fails with the missing-`:` error when there is no `:` |
| Workload.ParseSlug | crates/exec-wasmtime/src/workload.rs:77-85 | succeeds iff the tag parse does, giving `https://{host}/api/v{version}/{user}/{repo}/_tag/{tag}` |
| Workload.ParseTagSound | crates/exec-wasmtime/src/workload.rs:56-75 | every accepted slug is the text of its parts, with the default host's part left out or present |
| Workload.ParseTagErrors | crates/exec-wasmtime/src/workload.rs:61-75 | a slug is refused iff it has no `:`, or no `/` before its last `:` |
| Workload.ParseTagComplete | crates/exec-wasmtime/src/workload.rs:56-75 | parsing `host/user/repo:tag` recovers all four parts |
| Workload.ParseTagDefaultHost | crates/exec-wasmtime/src/workload.rs:54-59 | `user/repo:tag` names a package on the default host |
| Workload.AcceptedSlugIsNotLocalhost | crates/exec-wasmtime/src/workload.rs:69-75 | an accepted slug contains `:` and so is never `localhost` |
| Workload.Fetch | crates/exec-wasmtime/src/workload.rs:121-123 | a fetch succeeds iff the node exists within the size limit, and gives that node |
| Workload.GetWasm | crates/exec-wasmtime/src/workload.rs:114-130 | the entrypoint is accepted iff the essence of its media type is Wasm, it is at most 100 000 000 bytes, and its fetched metadata, media-type parameters included, equals the entry's; a wrong media type is reported by its essence |
| Workload.Essence | crates/exec-wasmtime/src/workload.rs:116 | `essence_str`: a `;`-free prefix of the media type, the whole type when it has no parameters |
| Workload.ParametersDistinguishMetadata | crates/exec-wasmtime/src/workload.rs:114-130 | an entry listed as `application/wasm` but served as `application/wasm; charset=binary` passes the type check and is refused by the metadata check |
| Workload.GetPackage | crates/exec-wasmtime/src/workload.rs:141-177 | `main.wasm` is required; no `Enarx.toml` gives no configuration; a present one must be TOML, at most 1 000 000 bytes, with matching metadata, and the configuration returned is what its body decodes to; success exactly when the module is accepted and any `Enarx.toml` passes all of these |
| Workload.FromTop | crates/exec-wasmtime/src/workload.rs:192-278 | a Wasm top-level is accepted iff at most 100 000 000 bytes and read in full; a directory top-level gives the package it lists under the top-level hash, and an undecodable one is refused; a signed tag is refused; an unsigned tag to a Wasm module gives that module, one to a directory needs the tree root's metadata to equal the tag entry and gives its package, both under the entry's hash; any other root type is refused as unsupported |

## Left out

- Sockets, DNS and TLS: connecting, binding, `set_nonblocking` and the TLS
  handshake are not performed. Whether each succeeded is an input
  (`Syscalls`). A failed connect or bind is the I/O error. The other
  failures raise an error without a WASI code of their own, modelled as
  `Unclassified`. The rustls configurations are opaque values, and a
  failed configuration build is an input of `New`.
- Cryptography and encodings: key generation, SHA-2, ECDSA signing,
  DER/X.509/PKCS#10 encoding, certificate parsing, HTTP and the serde
  TOML/JSON text formats. Their results are parameters. Parse failures
  that the source turns into panics (`expect`) are not modelled.
- The `mpsc` receivers and locks of the peer directory are sequences of
  pending events. The keep's wait for an event is outside the model.
- PeerDir.Peer.OpenFile: requires that the queue being read is not empty,
  because the keep blocks there instead of returning.
- PeerDir.Peer.OpenFile: requires that the opened name is one the
  directory implements, because any other leaf reaches `todo!()` and
  panics.
- PeerDir.Peer.OpenFile and PeerDir.DirOpAt: what the parent node does
  with a delegated open or operation is outside the model. They return the
  delegation and the rest of the path.
- PeerDir.Peer.Stat: takes the strong reference count of the inode as a
  parameter (`holders`). It leaves out the device id and the three
  timestamps.
- Timestamps: `set_times` on a path or a handle updates inode times. It is
  modelled only as succeeding on the node it reaches.
- PeerDir.Peer: `parentAlive` stands for a successful upgrade of the weak
  parent reference. When the parent goes away is not modelled.
- The `follow` argument of the peer directory's operations is ignored by
  the source, and is not a parameter here.
- BlobFile.Blob.ReadVectored: requires the buffers to be distinct
  arrays, as Rust's mutable slices are. Reading from an in-memory cursor
  cannot fail, so the result carries no error.
- Connect.New and Listen.New: the `parent` node and the certificate
  and key inputs are not modelled. Only whether a TLS configuration could
  be built is an input.
- Connect.New, Listen.New: the node-graph primitives are assumed, not
  verified, as `NodeGraph` states.
- Connect.Resolve and Listen.Resolve: require distinct configured
  names. The configuration keeps these in a map, so they always are.
- File names: the `FileName` (`TreeName`) validation of configured names
  is not modelled. Names are any strings.
- EnarxConfig.Decode: the steward URL is kept as its text, without URL
  syntax checking. `Encode` writes every field, and omits an absent
  steward.
- Workload.ParseSlug: the API version is a parameter, since its value is
  defined by the Drawbridge client. The final URL syntax check, which
  can refuse a host the parser accepts, is not modelled.
- Workload.Fetch: assumes that the Drawbridge client refuses a body
  longer than the limit it is given.
- Workload.FromTop: the HTTP client, the top-level size limit handed to
  it (`MAX_TOP_SIZE`, 100 000 000 bytes) and the `usize` conversion are
  not modelled. The decoded body of the response is an input.
- Workload.FromTop: the tree root listing of a tag is an input, already
  fetched and decoded; the 1 000 000-byte limit (`MAX_DIR_SIZE`) its
  fetch is given is not modelled.
- Workload.Essence: a media type is its text. Its essence is the text
  before the first `;`. The lower-casing and whitespace handling of
  media-type parsing are not modelled, so metadata equality compares the
  media types as text.
- Workload.GetPackage: `toml` stands for TOML parsing, after which the
  document is decoded as a configuration; a TOML integer, float, boolean or date
  has no counterpart in the modelled document tree.
- Local packages (`Package::Local`): reading the module and configuration
  from file descriptors, and the tree digest Drawbridge computes over
  them, are not modelled.
- Identity.FromCerts: the common name is picked from a hash set in no
  defined order. The model picks an arbitrary one. A name without `@`
  panics in the source, so `NamesAreSplittable` is required.
- Identity.Subject: the subject is one RDN holding the common name. The
  string-to-RDN parsing (RFC 4514) that the source applies to
  `CN=<name>` is not modelled, so a slug holding `,` or `+` is outside
  this model.
- Identity.Generate and Identity.SelfSigned: only attestation and
  randomness failures are modelled. Platform queries, key generation,
  DER encoding and signing are assumed to succeed.
- The runtime wiring that builds the keep's file system out of these
  directories (`runtime/mod.rs`) is not part of this model.
