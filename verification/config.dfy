/**
 * The configuration of a WASI application in a keep (`Enarx.toml`): the
 * `Config` record, its network policy and file kinds, their defaults, and the
 * decoding rules the configuration follows. The TOML text itself is not
 * modelled: a document is the tree of strings, arrays and tables TOML
 * describes, and decoding applies the same rules serde derives for these
 * types (tags, per-field defaults, unknown fields refused).
 */
module EnarxConfig {
  import opened Wrappers

  /** Protocol of a listening socket; tag field `prot`. */
  datatype ListenFile = Tls | Tcp

  /** Protocol of a connected stream; tag field `prot`. */
  datatype ConnectFile = Tls | Tcp

  /** Where a standard I/O stream goes; tag field `kind`. */
  datatype StdioFile = Null | Host

  datatype IncomingNetwork = IncomingNetwork(default: ListenFile)

  datatype OutgoingNetwork = OutgoingNetwork(default: ConnectFile)

  datatype Network = Network(incoming: IncomingNetwork, outgoing: OutgoingNetwork)

  /** The steward URL is kept as its text; URL syntax is not modelled. */
  datatype Config = Config(
    steward: Option<string>,
    args: seq<string>,
    env: map<string, string>,
    stdin: StdioFile,
    stdout: StdioFile,
    stderr: StdioFile,
    listen: map<string, ListenFile>,
    connect: map<string, ConnectFile>,
    network: Network)

  // ---------------------------------------------------------------------
  // Defaults

  function DefaultListenFile(): (f: ListenFile)
    ensures f == ListenFile.Tls
  {
    ListenFile.Tls
  }

  function DefaultConnectFile(): (f: ConnectFile)
    ensures f == ConnectFile.Tls
  {
    ConnectFile.Tls
  }

  function DefaultStdioFile(): (f: StdioFile)
    ensures f == Null
  {
    Null
  }

  function DefaultNetwork(): Network {
    Network(IncomingNetwork(DefaultListenFile()), OutgoingNetwork(DefaultConnectFile()))
  }

  /**
   * The configuration with every field at its default: no steward, no
   * arguments, environment or sockets, standard I/O discarded, TLS both ways.
   */
  function DefaultConfig(): (c: Config)
    ensures c.steward.None? && c.args == [] && c.env == map[]
    ensures c.listen == map[] && c.connect == map[]
    ensures c.stdin == Null && c.stdout == Null && c.stderr == Null
    ensures c.network.incoming.default == ListenFile.Tls && c.network.outgoing.default == ConnectFile.Tls
  {
    Config(None, [], map[], DefaultStdioFile(), DefaultStdioFile(), DefaultStdioFile(),
           map[], map[], DefaultNetwork())
  }

  // ---------------------------------------------------------------------
  // Documents

  /** A TOML document as a tree: strings, arrays and tables. */
  datatype Value = Str(s: string) | Array(items: seq<Value>) | Table(fields: map<string, Value>)

  datatype DecodeError =
    | UnknownField
    | MissingTag(tag: string)
    | UnknownVariant(variant: string)
    | WrongType(field: string)

  const CONFIG_FIELDS: set<string> :=
    {"steward", "args", "env", "stdin", "stdout", "stderr", "listen", "connect", "network"}
  const NETWORK_FIELDS: set<string> := {"incoming", "outgoing"}
  const POLICY_FIELDS: set<string> := {"default"}

  /** The variant tag strings. */
  function ListenTag(f: ListenFile): string {
    match f
    case Tls => "tls"
    case Tcp => "tcp"
  }

  function ConnectTag(f: ConnectFile): string {
    match f
    case Tls => "tls"
    case Tcp => "tcp"
  }

  function StdioTag(f: StdioFile): string {
    match f
    case Null => "null"
    case Host => "host"
  }

  /** A table whose field `tagField` is the string `tag`, whatever else it holds. */
  predicate HasTag(v: Value, tagField: string, tag: string) {
    v.Table? && tagField in v.fields && v.fields[tagField] == Str(tag)
  }

  /**
   * An internally tagged unit variant: a table with a string tag field. A
   * unit variant has no fields of its own, so the derived deserializer skips
   * every other entry unread; `deny_unknown_fields` on the enum reaches only
   * struct variants, which these enums do not have.
   */
  function DecodeTag(v: Value, tagField: string): (r: Result<string, DecodeError>)
    ensures r.Ok? <==> v.Table? && tagField in v.fields && v.fields[tagField].Str?
    ensures r.Ok? ==> r.value == v.fields[tagField].s && HasTag(v, tagField, r.value)
  {
    if !v.Table? then Err(WrongType(tagField))
    else if tagField !in v.fields then Err(MissingTag(tagField))
    else if !v.fields[tagField].Str? then Err(WrongType(tagField))
    else Ok(v.fields[tagField].s)
  }

  function DecodeListenFile(v: Value): (r: Result<ListenFile, DecodeError>)
    ensures r == Ok(ListenFile.Tls) <==> HasTag(v, "prot", "tls")
    ensures r == Ok(ListenFile.Tcp) <==> HasTag(v, "prot", "tcp")
  {
    var tag :- DecodeTag(v, "prot");
    if tag == "tls" then Ok(ListenFile.Tls)
    else if tag == "tcp" then Ok(ListenFile.Tcp)
    else Err(UnknownVariant(tag))
  }

  function DecodeConnectFile(v: Value): (r: Result<ConnectFile, DecodeError>)
    ensures r == Ok(ConnectFile.Tls) <==> HasTag(v, "prot", "tls")
    ensures r == Ok(ConnectFile.Tcp) <==> HasTag(v, "prot", "tcp")
  {
    var tag :- DecodeTag(v, "prot");
    if tag == "tls" then Ok(ConnectFile.Tls)
    else if tag == "tcp" then Ok(ConnectFile.Tcp)
    else Err(UnknownVariant(tag))
  }

  function DecodeStdioFile(v: Value): (r: Result<StdioFile, DecodeError>)
    ensures r == Ok(Null) <==> HasTag(v, "kind", "null")
    ensures r == Ok(Host) <==> HasTag(v, "kind", "host")
  {
    var tag :- DecodeTag(v, "kind");
    if tag == "null" then Ok(Null)
    else if tag == "host" then Ok(Host)
    else Err(UnknownVariant(tag))
  }

  function DecodeIncoming(v: Value): Result<IncomingNetwork, DecodeError> {
    if !v.Table? then Err(WrongType("incoming"))
    else if !(v.fields.Keys <= POLICY_FIELDS) then Err(UnknownField)
    else
        if "default" !in v.fields then Ok(IncomingNetwork(DefaultListenFile()))
        else var d :- DecodeListenFile(v.fields["default"]); Ok(IncomingNetwork(d))
  }

  function DecodeOutgoing(v: Value): Result<OutgoingNetwork, DecodeError> {
    if !v.Table? then Err(WrongType("outgoing"))
    else if !(v.fields.Keys <= POLICY_FIELDS) then Err(UnknownField)
    else
        if "default" !in v.fields then Ok(OutgoingNetwork(DefaultConnectFile()))
        else var d :- DecodeConnectFile(v.fields["default"]); Ok(OutgoingNetwork(d))
  }

  function DecodeNetwork(v: Value): Result<Network, DecodeError> {
    if !v.Table? then Err(WrongType("network"))
    else if !(v.fields.Keys <= NETWORK_FIELDS) then Err(UnknownField)
    else
        var i :- if "incoming" in v.fields then DecodeIncoming(v.fields["incoming"])
                 else Ok(IncomingNetwork(DefaultListenFile()));
        var o :- if "outgoing" in v.fields then DecodeOutgoing(v.fields["outgoing"])
                 else Ok(OutgoingNetwork(DefaultConnectFile()));
        Ok(Network(i, o))
  }

  function DecodeStrings(v: Value): Result<seq<string>, DecodeError> {
    if v.Array? && forall i :: 0 <= i < |v.items| ==> v.items[i].Str?
    then Ok(seq(|v.items|, i requires 0 <= i < |v.items| && v.items[i].Str? => v.items[i].s))
    else Err(WrongType("args"))
  }

  function DecodeEnv(v: Value): Result<map<string, string>, DecodeError> {
    if v.Table? && forall k :: k in v.fields ==> v.fields[k].Str?
    then Ok(map k | k in v.fields :: v.fields[k].s)
    else Err(WrongType("env"))
  }

  function DecodeListenTable(v: Value): Result<map<string, ListenFile>, DecodeError> {
    if v.Table? && forall k :: k in v.fields ==> DecodeListenFile(v.fields[k]).Ok?
    then Ok(map k | k in v.fields :: DecodeListenFile(v.fields[k]).value)
    else Err(WrongType("listen"))
  }

  function DecodeConnectTable(v: Value): Result<map<string, ConnectFile>, DecodeError> {
    if v.Table? && forall k :: k in v.fields ==> DecodeConnectFile(v.fields[k]).Ok?
    then Ok(map k | k in v.fields :: DecodeConnectFile(v.fields[k]).value)
    else Err(WrongType("connect"))
  }

  /** Decodes field `name` of `fields` with `decode`, or gives `default` when absent. */
  function FieldOr<T>(fields: map<string, Value>, name: string, default: T,
                      decode: Value -> Result<T, DecodeError>): Result<T, DecodeError>
  {
    if name in fields then decode(fields[name]) else Ok(default)
  }

  /**
   * Decodes a whole configuration document. Every absent field takes the
   * value of `DefaultConfig()`; a field outside the known ones is refused.
   */
  function Decode(doc: Value): (r: Result<Config, DecodeError>)
    ensures r.Ok? ==> doc.Table? && doc.fields.Keys <= CONFIG_FIELDS
    ensures r.Ok? ==> (r.value.steward.Some? <==> "steward" in doc.fields)
    ensures r.Ok? && "args" !in doc.fields ==> r.value.args == []
    ensures r.Ok? && "stdin" !in doc.fields ==> r.value.stdin == Null
    ensures r.Ok? && "network" !in doc.fields ==> r.value.network == DefaultNetwork()
  {
    if !doc.Table? then Err(WrongType("config"))
    else if !(doc.fields.Keys <= CONFIG_FIELDS) then Err(UnknownField)
    else
        var f := doc.fields;
        var d := DefaultConfig();
        var steward :- if "steward" !in f then Ok(None)
                       else if f["steward"].Str? then Ok(Some(f["steward"].s))
                       else Err(WrongType("steward"));
        var args :- FieldOr(f, "args", d.args, DecodeStrings);
        var env :- FieldOr(f, "env", d.env, DecodeEnv);
        var stdin :- FieldOr(f, "stdin", d.stdin, DecodeStdioFile);
        var stdout :- FieldOr(f, "stdout", d.stdout, DecodeStdioFile);
        var stderr :- FieldOr(f, "stderr", d.stderr, DecodeStdioFile);
        var listen :- FieldOr(f, "listen", d.listen, DecodeListenTable);
        var connect :- FieldOr(f, "connect", d.connect, DecodeConnectTable);
        var network :- FieldOr(f, "network", d.network, DecodeNetwork);
        Ok(Config(steward, args, env, stdin, stdout, stderr, listen, connect, network))
  }

  // ---------------------------------------------------------------------
  // Encoding, as a serializer writes every field (an absent steward is omitted)

  function EncodeTag(tagField: string, tag: string): Value {
    Table(map[tagField := Str(tag)])
  }

  function EncodeNetwork(n: Network): Value {
    Table(map[
      "incoming" := Table(map["default" := EncodeTag("prot", ListenTag(n.incoming.default))]),
      "outgoing" := Table(map["default" := EncodeTag("prot", ConnectTag(n.outgoing.default))])])
  }

  function EncodeStrings(xs: seq<string>): Value {
    Array(seq(|xs|, i requires 0 <= i < |xs| => Str(xs[i])))
  }

  function EncodeEnv(env: map<string, string>): Value {
    Table(map k | k in env :: Str(env[k]))
  }

  function EncodeListenTable(listen: map<string, ListenFile>): Value {
    Table(map k | k in listen :: EncodeTag("prot", ListenTag(listen[k])))
  }

  function EncodeConnectTable(connect: map<string, ConnectFile>): Value {
    Table(map k | k in connect :: EncodeTag("prot", ConnectTag(connect[k])))
  }

  /** The document a serializer writes: every declared field, the steward only when set. */
  function Encode(c: Config): (v: Value)
    ensures v.Table? && v.fields.Keys <= CONFIG_FIELDS
    ensures "steward" in v.fields <==> c.steward.Some?
  {
    var fields := map[
      "args" := EncodeStrings(c.args),
      "env" := EncodeEnv(c.env),
      "stdin" := EncodeTag("kind", StdioTag(c.stdin)),
      "stdout" := EncodeTag("kind", StdioTag(c.stdout)),
      "stderr" := EncodeTag("kind", StdioTag(c.stderr)),
      "listen" := EncodeListenTable(c.listen),
      "connect" := EncodeConnectTable(c.connect),
      "network" := EncodeNetwork(c.network)];
    Table(if c.steward.Some? then fields["steward" := Str(c.steward.value)] else fields)
  }

  // ---------------------------------------------------------------------
  // Properties

  /** The default protocols are TLS and the default standard I/O is discarded. */
  lemma DefaultsAreTlsAndNull()
    ensures DefaultConfig().network.incoming.default == ListenFile.Tls
    ensures DefaultConfig().network.outgoing.default == ConnectFile.Tls
    ensures DefaultConfig().stdin == Null && DefaultConfig().stdout == Null
    ensures DefaultConfig().stderr == Null
    ensures DefaultConfig().steward == None && DefaultConfig().args == []
    ensures DefaultConfig().env == map[] && DefaultConfig().listen == map[]
    ensures DefaultConfig().connect == map[]
  {
  }

  /**
   * Each default is what decoding gives when its field is absent: an empty
   * policy table gives the default protocol, and a document without a
   * stdio field gives the default stdio kind.
   */
  lemma DefaultsDecode(stdio: string)
    requires stdio in {"stdin", "stdout", "stderr"}
    ensures DecodeIncoming(Table(map[])) == Ok(IncomingNetwork(DefaultListenFile()))
    ensures DecodeOutgoing(Table(map[])) == Ok(OutgoingNetwork(DefaultConnectFile()))
    ensures DecodeNetwork(Table(map[])) == Ok(DefaultNetwork())
    ensures Decode(Table(map[])).Ok?
    ensures var c := Decode(Table(map[])).value;
      match stdio
      case "stdin" => c.stdin == DefaultStdioFile()
      case "stdout" => c.stdout == DefaultStdioFile()
      case _ => c.stderr == DefaultStdioFile()
  {
    EmptyDocumentIsDefault();
  }

  /** An empty document decodes to the default configuration. */
  lemma EmptyDocumentIsDefault()
    ensures Decode(Table(map[])) == Ok(DefaultConfig())
  {
  }

  /** A tag decodes to exactly the variant it names; every other tag is refused. */
  lemma TagsDecode(tag: string)
    ensures DecodeListenFile(EncodeTag("prot", tag)).Ok? <==> tag == "tls" || tag == "tcp"
    ensures DecodeConnectFile(EncodeTag("prot", tag)).Ok? <==> tag == "tls" || tag == "tcp"
    ensures DecodeStdioFile(EncodeTag("kind", tag)).Ok? <==> tag == "null" || tag == "host"
    ensures tag == "tls" ==>
      DecodeListenFile(EncodeTag("prot", tag)) == Ok(ListenFile.Tls)
      && DecodeConnectFile(EncodeTag("prot", tag)) == Ok(ConnectFile.Tls)
    ensures tag == "tcp" ==>
      DecodeListenFile(EncodeTag("prot", tag)) == Ok(ListenFile.Tcp)
      && DecodeConnectFile(EncodeTag("prot", tag)) == Ok(ConnectFile.Tcp)
    ensures tag == "null" ==> DecodeStdioFile(EncodeTag("kind", tag)) == Ok(Null)
    ensures tag == "host" ==> DecodeStdioFile(EncodeTag("kind", tag)) == Ok(Host)
  {
  }

  /** A field the configuration does not declare makes decoding fail, at every level. */
  lemma UnknownFieldsRejected(fields: map<string, Value>, k: string)
    requires k in fields
    ensures k !in CONFIG_FIELDS ==> Decode(Table(fields)).Err?
    ensures k !in NETWORK_FIELDS ==> DecodeNetwork(Table(fields)).Err?
    ensures k !in POLICY_FIELDS ==>
      DecodeIncoming(Table(fields)).Err? && DecodeOutgoing(Table(fields)).Err?
  {
  }

  /** A tagged unit variant ignores every field besides its tag. */
  lemma OtherFieldsIgnored(fields: map<string, Value>, k: string, x: Value)
    ensures k != "prot" ==>
      && DecodeListenFile(Table(fields[k := x])) == DecodeListenFile(Table(fields))
      && DecodeConnectFile(Table(fields[k := x])) == DecodeConnectFile(Table(fields))
    ensures k != "kind" ==> DecodeStdioFile(Table(fields[k := x])) == DecodeStdioFile(Table(fields))
  {
  }

  lemma ListenTagRoundTrip(f: ListenFile)
    ensures DecodeListenFile(EncodeTag("prot", ListenTag(f))) == Ok(f)
  {
  }

  lemma ConnectTagRoundTrip(f: ConnectFile)
    ensures DecodeConnectFile(EncodeTag("prot", ConnectTag(f))) == Ok(f)
  {
  }

  lemma StdioTagRoundTrip(f: StdioFile)
    ensures DecodeStdioFile(EncodeTag("kind", StdioTag(f))) == Ok(f)
  {
  }

  lemma StringsRoundTrip(xs: seq<string>)
    ensures DecodeStrings(EncodeStrings(xs)) == Ok(xs)
  {
    var items := EncodeStrings(xs).items;
    assert seq(|items|, i requires 0 <= i < |items| && items[i].Str? => items[i].s) == xs;
  }

  lemma EnvRoundTrip(env: map<string, string>)
    ensures DecodeEnv(EncodeEnv(env)) == Ok(env)
  {
    var fields := EncodeEnv(env).fields;
    assert (map k | k in fields :: fields[k].s) == env;
  }

  lemma ListenTableRoundTrip(listen: map<string, ListenFile>)
    ensures DecodeListenTable(EncodeListenTable(listen)) == Ok(listen)
  {
    var fields := EncodeListenTable(listen).fields;
    forall k | k in fields ensures DecodeListenFile(fields[k]) == Ok(listen[k]) {
      ListenTagRoundTrip(listen[k]);
    }
    assert (map k | k in fields :: DecodeListenFile(fields[k]).value) == listen;
  }

  lemma ConnectTableRoundTrip(connect: map<string, ConnectFile>)
    ensures DecodeConnectTable(EncodeConnectTable(connect)) == Ok(connect)
  {
    var fields := EncodeConnectTable(connect).fields;
    forall k | k in fields ensures DecodeConnectFile(fields[k]) == Ok(connect[k]) {
      ConnectTagRoundTrip(connect[k]);
    }
    assert (map k | k in fields :: DecodeConnectFile(fields[k]).value) == connect;
  }

  lemma NetworkRoundTrip(n: Network)
    ensures DecodeNetwork(EncodeNetwork(n)) == Ok(n)
  {
    ListenTagRoundTrip(n.incoming.default);
    ConnectTagRoundTrip(n.outgoing.default);
  }

  /** A table whose every field decodes to the matching part of `c` decodes to `c`. */
  lemma DecodeFields(f: map<string, Value>, c: Config)
    requires f.Keys <= CONFIG_FIELDS
    requires c.steward.None? ==> "steward" !in f
    requires c.steward.Some? ==> "steward" in f && f["steward"] == Str(c.steward.value)
    requires FieldOr(f, "args", DefaultConfig().args, DecodeStrings) == Ok(c.args)
    requires FieldOr(f, "env", DefaultConfig().env, DecodeEnv) == Ok(c.env)
    requires FieldOr(f, "stdin", DefaultConfig().stdin, DecodeStdioFile) == Ok(c.stdin)
    requires FieldOr(f, "stdout", DefaultConfig().stdout, DecodeStdioFile) == Ok(c.stdout)
    requires FieldOr(f, "stderr", DefaultConfig().stderr, DecodeStdioFile) == Ok(c.stderr)
    requires FieldOr(f, "listen", DefaultConfig().listen, DecodeListenTable) == Ok(c.listen)
    requires FieldOr(f, "connect", DefaultConfig().connect, DecodeConnectTable) == Ok(c.connect)
    requires FieldOr(f, "network", DefaultConfig().network, DecodeNetwork) == Ok(c.network)
    ensures Decode(Table(f)) == Ok(c)
  {
  }

  /** The fields an encoded configuration holds: the steward only when there is one. */
  lemma EncodedKeys(c: Config)
    ensures Encode(c).fields.Keys <= CONFIG_FIELDS
    ensures "steward" in Encode(c).fields <==> c.steward.Some?
    ensures c.steward.Some? ==> Encode(c).fields["steward"] == Str(c.steward.value)
  {
  }

  lemma EncodedArgs(c: Config)
    ensures "args" in Encode(c).fields && Encode(c).fields["args"] == EncodeStrings(c.args)
  {
  }

  lemma EncodedEnv(c: Config)
    ensures "env" in Encode(c).fields && Encode(c).fields["env"] == EncodeEnv(c.env)
  {
  }

  lemma EncodedStdin(c: Config)
    ensures "stdin" in Encode(c).fields && Encode(c).fields["stdin"] == EncodeTag("kind", StdioTag(c.stdin))
  {
  }

  lemma EncodedStdout(c: Config)
    ensures "stdout" in Encode(c).fields && Encode(c).fields["stdout"] == EncodeTag("kind", StdioTag(c.stdout))
  {
  }

  lemma EncodedStderr(c: Config)
    ensures "stderr" in Encode(c).fields && Encode(c).fields["stderr"] == EncodeTag("kind", StdioTag(c.stderr))
  {
  }

  lemma EncodedListen(c: Config)
    ensures "listen" in Encode(c).fields && Encode(c).fields["listen"] == EncodeListenTable(c.listen)
  {
  }

  lemma EncodedConnect(c: Config)
    ensures "connect" in Encode(c).fields && Encode(c).fields["connect"] == EncodeConnectTable(c.connect)
  {
  }

  lemma EncodedNetwork(c: Config)
    ensures "network" in Encode(c).fields && Encode(c).fields["network"] == EncodeNetwork(c.network)
  {
  }

  /** Encoding a configuration and decoding it again gives the same configuration. */
  lemma RoundTrip(c: Config)
    ensures Decode(Encode(c)) == Ok(c)
  {
    var f := Encode(c).fields;
    EncodedKeys(c);
    EncodedArgs(c);
    EncodedEnv(c);
    EncodedStdin(c);
    EncodedStdout(c);
    EncodedStderr(c);
    EncodedListen(c);
    EncodedConnect(c);
    EncodedNetwork(c);
    StringsRoundTrip(c.args);
    EnvRoundTrip(c.env);
    StdioTagRoundTrip(c.stdin);
    StdioTagRoundTrip(c.stdout);
    StdioTagRoundTrip(c.stderr);
    ListenTableRoundTrip(c.listen);
    ConnectTableRoundTrip(c.connect);
    NetworkRoundTrip(c.network);
    DecodeFields(f, c);
  }

  /**
   * The shipped template, once its comments are dropped, holds only the three
   * standard I/O tables set to `host`.
   */
  function TemplateDocument(): Value {
    Table(map[
      "stdin" := EncodeTag("kind", "host"),
      "stdout" := EncodeTag("kind", "host"),
      "stderr" := EncodeTag("kind", "host")])
  }

  /** The template decodes, and re-encoding what it decodes to decodes to the same value. */
  lemma TemplateRoundTrip()
    ensures Decode(TemplateDocument()) == Ok(DefaultConfig().(stdin := Host, stdout := Host, stderr := Host))
    ensures Decode(Encode(Decode(TemplateDocument()).value)) == Decode(TemplateDocument())
  {
    var c := DefaultConfig().(stdin := Host, stdout := Host, stderr := Host);
    var f := TemplateDocument().fields;
    assert f.Keys == {"stdin", "stdout", "stderr"};
    StdioTagRoundTrip(Host);
    DecodeFields(f, c);
    RoundTrip(c);
  }
}
