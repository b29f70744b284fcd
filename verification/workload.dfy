/**
 * Workload packages: the Drawbridge slug parser that turns
 * `[host/]user/repo:tag` into a package URL, and the acceptance rules applied
 * to what the Drawbridge server returns (size limits, media types, metadata
 * agreement, optional configuration, unsigned tags only). The HTTP client and
 * JSON/TOML decoding are not modelled: what they produce is given as input.
 */
module Workload {
  import opened Wrappers
  import opened Text
  import opened Bytes
  import EnarxConfig

  const PACKAGE_ENTRYPOINT: string := "main.wasm"
  const PACKAGE_CONFIG: string := "Enarx.toml"

  /** Maximum size of a Wasm module in bytes. */
  const MAX_WASM_SIZE: nat := 100_000_000
  /** Maximum size of `Enarx.toml` in bytes. */
  const MAX_CONF_SIZE: nat := 1_000_000

  const TOML_MEDIA_TYPE: string := "application/toml"
  const WASM_MEDIA_TYPE: string := "application/wasm"
  /** The media type of a Drawbridge tree directory (defined by the Drawbridge types). */
  const DIRECTORY_MEDIA_TYPE: string := "application/vnd.drawbridge.directory.v1+json"

  const DEFAULT_HOST: string := "store.profian.com"

  /** A remote package is named by a URL (kept as its text) or a slug. */
  datatype PackageSpec = Url(url: string) | Slug(slug: string)

  /** The text a package spec goes by. */
  function SpecText(spec: PackageSpec): string {
    match spec
    case Url(url) => url
    case Slug(slug) => slug
  }

  /** A local package is given as open descriptors for the module and the optional config. */
  datatype Package = Remote(spec: PackageSpec) | Local(wasm: int, conf: Option<int>)

  datatype DigestAlgorithm = Sha224 | Sha256 | Sha384 | Sha512

  /** A content digest: the base64 text of the hash under each algorithm it carries. */
  type ContentDigest = map<DigestAlgorithm, string>

  datatype Error =
    | MissingSlash(spec: string)
    | MissingColon(spec: string)
    | InvalidMediaType(file: string, mime: string)
    | FetchFailed(file: string)
    | MetadataMismatch(file: string)
    | MissingEntrypoint
    | ConfigUnparsable
    | WasmTooLarge(size: nat)
    | WrongByteCount(read: nat, size: nat)
    | UndecodableBody
    | SignedTag
    | UnsupportedRootType(mime: string)

  // ---------------------------------------------------------------------
  // Slugs

  /** `[host/]user`: the text after the last `/` is the user; without `/`, the host is the default. */
  function ParseUser(slug: string): (r: (string, string))
    ensures '/' in slug ==> slug == r.0 + "/" + r.1 && '/' !in r.1
    ensures '/' !in slug ==> r == (DEFAULT_HOST, slug)
  {
    match RSplitOnce(slug, '/')
    case None => (DEFAULT_HOST, slug)
    case Some((host, user)) => (host, user)
  }

  /** `[host/]user/repo`: a `/` is required; the repository is the text after the last one. */
  function ParseRepo(slug: string): (r: Result<(string, string, string), Error>)
    ensures r.Err? <==> '/' !in slug
    ensures r.Err? ==> r.error == MissingSlash(slug)
    ensures r.Ok? ==> var (host, user, repo) := r.value;
      && '/' !in user && '/' !in repo
      && (slug == host + "/" + user + "/" + repo
          || (host == DEFAULT_HOST && slug == user + "/" + repo))
  {
    match RSplitOnce(slug, '/')
    case None => Err(MissingSlash(slug))
    case Some((head, repo)) =>
      var (host, user) := ParseUser(head);
      Ok((host, user, repo))
  }

  /** `[host/]user/repo:tag`: a `:` is required; the tag is the text after the last one. */
  function ParseTag(slug: string): (r: Result<(string, string, string, string), Error>)
    ensures ':' !in slug ==> r == Err(MissingColon(slug))
  {
    match RSplitOnce(slug, ':')
    case None => Err(MissingColon(slug))
    case Some((head, tag)) =>
      var (host, user, repo) :- ParseRepo(head);
      Ok((host, user, repo, tag))
  }

  /** The Drawbridge URL of a slug under API version `apiVersion`. */
  function ParseSlug(slug: string, apiVersion: string): (r: Result<string, Error>)
    ensures r.Ok? <==> ParseTag(slug).Ok?
    ensures r.Ok? ==>
      var (host, user, repo, tag) := ParseTag(slug).value;
      r.value == "https://" + host + "/api/v" + apiVersion + "/" + user + "/" + repo + "/_tag/" + tag
  {
    var (host, user, repo, tag) :- ParseTag(slug);
    Ok("https://" + host + "/api/v" + apiVersion + "/" + user + "/" + repo + "/_tag/" + tag)
  }

  /** The slug text for its parts, host included. */
  function SlugText(host: string, user: string, repo: string, tag: string): string {
    host + "/" + user + "/" + repo + ":" + tag
  }

  /** Every accepted slug is the text of its parts, in full or with the default host left out. */
  lemma ParseTagSound(slug: string)
    requires ParseTag(slug).Ok?
    ensures var (host, user, repo, tag) := ParseTag(slug).value;
      && '/' !in user && '/' !in repo && ':' !in tag
      && (slug == SlugText(host, user, repo, tag)
          || (host == DEFAULT_HOST && slug == user + "/" + repo + ":" + tag))
  {
    var (head, tag) := RSplitOnce(slug, ':').value;
    var (head2, repo) := RSplitOnce(head, '/').value;
    if '/' in head2 {
      var (host, user) := RSplitOnce(head2, '/').value;
      assert slug == SlugText(host, user, repo, tag);
    } else {
      assert slug == head2 + "/" + repo + ":" + tag;
    }
  }

  /** A slug is refused exactly when it has no `:`, or no `/` before its last `:`. */
  lemma ParseTagErrors(slug: string)
    ensures ParseTag(slug).Err? <==>
      ':' !in slug || '/' !in RSplitOnce(slug, ':').value.0
  {
  }

  /** Parsing the full text of a slug recovers its parts. */
  lemma ParseTagComplete(host: string, user: string, repo: string, tag: string)
    requires '/' !in user && '/' !in repo && ':' !in tag
    ensures ParseTag(SlugText(host, user, repo, tag)) == Ok((host, user, repo, tag))
  {
    var slug := SlugText(host, user, repo, tag);
    assert slug == (host + "/" + user + "/" + repo) + [':'] + tag;
    RSplitOnceJoin(host + "/" + user + "/" + repo, ':', tag);
    assert host + "/" + user + "/" + repo == (host + "/" + user) + ['/'] + repo;
    RSplitOnceJoin(host + "/" + user, '/', repo);
    assert host + "/" + user == host + ['/'] + user;
    RSplitOnceJoin(host, '/', user);
  }

  /** Without a host, a slug names a package on the default host. */
  lemma ParseTagDefaultHost(user: string, repo: string, tag: string)
    requires '/' !in user && '/' !in repo && ':' !in tag
    ensures ParseTag(user + "/" + repo + ":" + tag) == Ok((DEFAULT_HOST, user, repo, tag))
  {
    var slug := user + "/" + repo + ":" + tag;
    assert slug == (user + "/" + repo) + [':'] + tag;
    RSplitOnceJoin(user + "/" + repo, ':', tag);
    assert user + "/" + repo == user + ['/'] + repo;
    RSplitOnceJoin(user, '/', repo);
  }

  /** An accepted slug always contains `:`, so it is never the local workload name. */
  lemma AcceptedSlugIsNotLocalhost(slug: string)
    requires ParseTag(slug).Ok?
    ensures slug != "localhost"
  {
    assert ':' in slug;
    assert ':' !in "localhost";
  }

  // ---------------------------------------------------------------------
  // Fetched content

  /**
   * Size, media type and digest of a node. The media type is kept in full,
   * parameters included, so metadata equality compares them too.
   */
  datatype Meta = Meta(size: nat, mime: string, hash: ContentDigest)

  /** The essence of a media type: the text before its first `;`, without parameters. */
  function Essence(mime: string): (e: string)
    ensures e <= mime && ';' !in e
    ensures ';' !in mime ==> e == mime
  {
    match SplitOnce(mime, ';')
    case None => mime
    case Some((t, rest)) =>
      assert mime == t + [';'] + rest;
      t
  }

  /** A node of a package tree as the Drawbridge server returns it. */
  datatype Fetched = Fetched(meta: Meta, body: seq<byte>)

  /** What the server returns for each path below one package root. */
  type Store = map<string, Fetched>

  /** A directory listing: an entry's metadata for each file name. */
  type TreeDirectory = map<string, Meta>

  datatype TagEntry = Unsigned(entry: Meta) | Signed

  /**
   * Fetching a node with a size limit. The limit is handed to the Drawbridge
   * client, which is assumed to refuse a longer body.
   */
  function Fetch(store: Store, path: string, limit: nat): (r: Result<Fetched, Error>)
    ensures r.Ok? <==> path in store && |store[path].body| <= limit
    ensures r.Ok? ==> r.value == store[path]
  {
    if path in store && |store[path].body| <= limit then Ok(store[path]) else Err(FetchFailed(path))
  }

  datatype WorkloadContent = WorkloadContent(webasm: seq<byte>, config: Option<EnarxConfig.Config>)

  datatype Workload = Workload(digest: ContentDigest, content: WorkloadContent)

  /**
   * The entrypoint of a package: its entry must be a Wasm module, and the
   * metadata fetched with it must equal the directory entry's.
   */
  function GetWasm(root: Store, entry: Meta): (r: Result<seq<byte>, Error>)
    ensures r.Ok? <==>
      Essence(entry.mime) == WASM_MEDIA_TYPE && PACKAGE_ENTRYPOINT in root
      && |root[PACKAGE_ENTRYPOINT].body| <= MAX_WASM_SIZE && root[PACKAGE_ENTRYPOINT].meta == entry
    ensures r.Ok? ==> r.value == root[PACKAGE_ENTRYPOINT].body
    ensures Essence(entry.mime) != WASM_MEDIA_TYPE ==>
      r == Err(InvalidMediaType(PACKAGE_ENTRYPOINT, Essence(entry.mime)))
  {
    if Essence(entry.mime) != WASM_MEDIA_TYPE then Err(InvalidMediaType(PACKAGE_ENTRYPOINT, Essence(entry.mime)))
    else
      var fetched :- Fetch(root, PACKAGE_ENTRYPOINT, MAX_WASM_SIZE);
      if fetched.meta != entry then Err(MetadataMismatch(PACKAGE_ENTRYPOINT))
      else Ok(fetched.body)
  }

  /**
   * `Enarx.toml` as a package directory lists it: TOML, fetched within its
   * size limit with matching metadata, and decoding to a configuration.
   */
  predicate ConfigAccepted(root: Store, entry: Meta, toml: seq<byte> -> Option<EnarxConfig.Value>) {
    && Essence(entry.mime) == TOML_MEDIA_TYPE
    && PACKAGE_CONFIG in root && |root[PACKAGE_CONFIG].body| <= MAX_CONF_SIZE
    && root[PACKAGE_CONFIG].meta == entry
    && toml(root[PACKAGE_CONFIG].body).Some?
    && EnarxConfig.Decode(toml(root[PACKAGE_CONFIG].body).value).Ok?
  }

  /**
   * A package directory: the entrypoint is required; `Enarx.toml` is optional,
   * and when present it must be TOML, its fetched metadata must match, and it
   * must decode. `toml` stands for the TOML reader.
   */
  function GetPackage(root: Store, dir: TreeDirectory,
                      toml: seq<byte> -> Option<EnarxConfig.Value>): (r: Result<WorkloadContent, Error>)
    ensures r.Ok? ==> PACKAGE_ENTRYPOINT in dir && GetWasm(root, dir[PACKAGE_ENTRYPOINT]) == Ok(r.value.webasm)
    ensures r.Ok? ==> (r.value.config.None? <==> PACKAGE_CONFIG !in dir)
    ensures r.Ok? && r.value.config.Some? ==>
      Essence(dir[PACKAGE_CONFIG].mime) == TOML_MEDIA_TYPE
      && PACKAGE_CONFIG in root && root[PACKAGE_CONFIG].meta == dir[PACKAGE_CONFIG]
      && |root[PACKAGE_CONFIG].body| <= MAX_CONF_SIZE
    ensures r.Ok? && r.value.config.Some? ==>
      && toml(root[PACKAGE_CONFIG].body).Some?
      && EnarxConfig.Decode(toml(root[PACKAGE_CONFIG].body).value) == Ok(r.value.config.value)
    ensures r.Ok? <==>
      && PACKAGE_ENTRYPOINT in dir && GetWasm(root, dir[PACKAGE_ENTRYPOINT]).Ok?
      && (PACKAGE_CONFIG in dir ==> ConfigAccepted(root, dir[PACKAGE_CONFIG], toml))
    ensures PACKAGE_ENTRYPOINT !in dir ==> r == Err(MissingEntrypoint)
    ensures (PACKAGE_ENTRYPOINT in dir && GetWasm(root, dir[PACKAGE_ENTRYPOINT]).Ok? && PACKAGE_CONFIG in dir
             && Essence(dir[PACKAGE_CONFIG].mime) != TOML_MEDIA_TYPE) ==>
      r == Err(InvalidMediaType(PACKAGE_CONFIG, Essence(dir[PACKAGE_CONFIG].mime)))
  {
    if PACKAGE_ENTRYPOINT !in dir then Err(MissingEntrypoint)
    else
      var webasm :- GetWasm(root, dir[PACKAGE_ENTRYPOINT]);
      if PACKAGE_CONFIG !in dir then Ok(WorkloadContent(webasm, None))
      else
        var entry := dir[PACKAGE_CONFIG];
        if Essence(entry.mime) != TOML_MEDIA_TYPE then Err(InvalidMediaType(PACKAGE_CONFIG, Essence(entry.mime)))
        else
          var fetched :- Fetch(root, PACKAGE_CONFIG, MAX_CONF_SIZE);
          if fetched.meta != entry then Err(MetadataMismatch(PACKAGE_CONFIG))
          else match toml(fetched.body)
            case None => Err(ConfigUnparsable)
            case Some(doc) =>
              match EnarxConfig.Decode(doc)
              case Err(_) => Err(ConfigUnparsable)
              case Ok(config) => Ok(WorkloadContent(webasm, Some(config)))
  }

  /**
   * How the top-level response body decodes: as a directory listing (for the
   * directory media type), as a tag entry (for any other non-Wasm type), or
   * not at all.
   */
  datatype Decoded = Undecodable | AsDirectory(dir: TreeDirectory) | AsTag(tag: TagEntry)

  /** The top-level response: its metadata, the bytes read from it, and how it decodes. */
  datatype Top = Top(meta: Meta, body: seq<byte>, decoded: Decoded)

  /**
   * Acquiring a remote workload from the top-level response. `scope` is the
   * store below the package URL, `tree` the store below its `tree` child and
   * `treeRoot` the fetched root directory listing of that tree.
   */
  function FromTop(top: Top, scope: Store, tree: Store,
                   treeRoot: Result<(Meta, TreeDirectory), Error>,
                   toml: seq<byte> -> Option<EnarxConfig.Value>): (r: Result<Workload, Error>)
    ensures Essence(top.meta.mime) == WASM_MEDIA_TYPE ==>
      (r.Ok? <==> top.meta.size <= MAX_WASM_SIZE && |top.body| == top.meta.size)
    ensures Essence(top.meta.mime) == WASM_MEDIA_TYPE && r.Ok? ==>
      r.value == Workload(top.meta.hash, WorkloadContent(top.body, None))
    ensures Essence(top.meta.mime) == WASM_MEDIA_TYPE && top.meta.size > MAX_WASM_SIZE ==>
      r == Err(WasmTooLarge(top.meta.size))
    ensures Essence(top.meta.mime) != WASM_MEDIA_TYPE && Essence(top.meta.mime) != DIRECTORY_MEDIA_TYPE ==>
      (top.decoded == AsTag(Signed) ==> r == Err(SignedTag))
    ensures Essence(top.meta.mime) != WASM_MEDIA_TYPE && Essence(top.meta.mime) != DIRECTORY_MEDIA_TYPE && r.Ok? ==>
      top.decoded.AsTag? && top.decoded.tag.Unsigned? && r.value.digest == top.decoded.tag.entry.hash
    ensures Essence(top.meta.mime) == DIRECTORY_MEDIA_TYPE && r.Ok? ==>
      top.decoded.AsDirectory? && r.value.digest == top.meta.hash
    ensures Essence(top.meta.mime) == DIRECTORY_MEDIA_TYPE && !top.decoded.AsDirectory? ==> r == Err(UndecodableBody)
    ensures Essence(top.meta.mime) == DIRECTORY_MEDIA_TYPE && top.decoded.AsDirectory? ==>
      var content := GetPackage(scope, top.decoded.dir, toml);
      && (r.Ok? <==> content.Ok?)
      && (r.Ok? ==> r.value == Workload(top.meta.hash, content.value))
    ensures Essence(top.meta.mime) != WASM_MEDIA_TYPE && Essence(top.meta.mime) != DIRECTORY_MEDIA_TYPE && !top.decoded.AsTag? ==>
      r == Err(UndecodableBody)
    ensures (Essence(top.meta.mime) != WASM_MEDIA_TYPE && Essence(top.meta.mime) != DIRECTORY_MEDIA_TYPE
             && top.decoded.AsTag? && top.decoded.tag.Unsigned?) ==>
      var entry := top.decoded.tag.entry;
      && (Essence(entry.mime) == WASM_MEDIA_TYPE ==>
            && (r.Ok? <==> GetWasm(tree, entry).Ok?)
            && (r.Ok? ==> r.value == Workload(entry.hash, WorkloadContent(GetWasm(tree, entry).value, None))))
      && (Essence(entry.mime) == DIRECTORY_MEDIA_TYPE ==>
            && (treeRoot.Ok? && treeRoot.value.0 != entry ==> r == Err(MetadataMismatch("/")))
            && (r.Ok? <==> treeRoot.Ok? && treeRoot.value.0 == entry && GetPackage(tree, treeRoot.value.1, toml).Ok?)
            && (r.Ok? ==> r.value == Workload(entry.hash, GetPackage(tree, treeRoot.value.1, toml).value)))
      && (Essence(entry.mime) != WASM_MEDIA_TYPE && Essence(entry.mime) != DIRECTORY_MEDIA_TYPE ==>
            r == Err(UnsupportedRootType(Essence(entry.mime))))
  {
    var Meta(size, mime, hash) := top.meta;
    if Essence(mime) == WASM_MEDIA_TYPE then
      if size > MAX_WASM_SIZE then Err(WasmTooLarge(size))
      else if |top.body| != size then Err(WrongByteCount(|top.body|, size))
      else Ok(Workload(hash, WorkloadContent(top.body, None)))
    else if Essence(mime) == DIRECTORY_MEDIA_TYPE then
      match top.decoded
      case AsDirectory(dir) =>
        var content :- GetPackage(scope, dir, toml);
        Ok(Workload(hash, content))
      case _ => Err(UndecodableBody)
    else
      match top.decoded
      case AsTag(Signed) => Err(SignedTag)
      case AsTag(Unsigned(entry)) =>
        if Essence(entry.mime) == WASM_MEDIA_TYPE then
          var webasm :- GetWasm(tree, entry);
          Ok(Workload(entry.hash, WorkloadContent(webasm, None)))
        else if Essence(entry.mime) == DIRECTORY_MEDIA_TYPE then
          var (meta, dir) :- treeRoot;
          if meta != entry then Err(MetadataMismatch("/"))
          else
            var content :- GetPackage(tree, dir, toml);
            Ok(Workload(entry.hash, content))
        else Err(UnsupportedRootType(Essence(entry.mime)))
      case _ => Err(UndecodableBody)
  }

  /**
   * Media-type parameters take part in the metadata check: a module listed
   * as `application/wasm` but served as `application/wasm; charset=binary`
   * is refused, though its essence passes the type check.
   */
  lemma ParametersDistinguishMetadata(size: nat, hash: ContentDigest, body: seq<byte>)
    requires |body| <= MAX_WASM_SIZE
    ensures var entry := Meta(size, WASM_MEDIA_TYPE, hash);
      var served := Meta(size, WASM_MEDIA_TYPE + "; charset=binary", hash);
      && Essence(served.mime) == Essence(entry.mime)
      && GetWasm(map[PACKAGE_ENTRYPOINT := Fetched(served, body)], entry) == Err(MetadataMismatch(PACKAGE_ENTRYPOINT))
  {
    var served := WASM_MEDIA_TYPE + "; charset=binary";
    assert served == WASM_MEDIA_TYPE + [';'] + " charset=binary";
    SplitOnceJoin(WASM_MEDIA_TYPE, ';', " charset=binary");
    assert served != WASM_MEDIA_TYPE by { assert |served| != |WASM_MEDIA_TYPE|; }
  }
}
