/**
  The configuration renderers of internal/core/wireguard.go and the two operations that store
  their output in the runtime directory.

  A rendered configuration is text written one line at a time; the functions here give its
  lines, and the lemmas show that the WireGuard reader of module WgSyntax reads back exactly the
  sections and entries the profile calls for, provided no field holds a line break.
 */
module WireGuard {
  import opened Results
  import opened Text
  import opened Files
  import opened Paths
  import opened HostPort
  import opened WgSyntax
  import opened Profiles

  /** The listen port of an endpoint: it must split into a non-empty host and a non-empty port. */
  function EndpointPort(endpoint: string): (r: Result<string>)
    ensures r.Err? ==> r.error == InvalidInput
    ensures r.Ok? <==> SplitHostPort(endpoint).Ok? && SplitHostPort(endpoint).value.0 != "" && SplitHostPort(endpoint).value.1 != ""
    ensures r.Ok? ==> r.value == SplitHostPort(endpoint).value.1
  {
    match SplitHostPort(endpoint)
    case Err(e) => Err(e)
    case Ok((host, port)) => if host == "" || port == "" then Err(InvalidInput) else Ok(port)
  }

  /** An endpoint without a port gives no listen port. */
  lemma EndpointWithoutPort()
    ensures EndpointPort("203.0.113.1").Err?
  {
    MissingPortRefused();
  }

  /** The listen port is the text after the endpoint's colon. */
  lemma EndpointListenPort()
    ensures EndpointPort("203.0.113.1:51820") == Ok("51820")
  {
    PortOfEndpoint();
  }

  /** An endpoint with an empty host is refused although it splits. */
  lemma EndpointWithoutHost()
    ensures EndpointPort(":51820").Err?
  {
    var port := "51820";
    assert ':' !in port && '[' !in port && ']' !in port by {
      assert forall j :: 0 <= j < |port| ==> port[j] != ':' && port[j] != '[' && port[j] != ']';
    }
    SplitJoin("", port);
    assert JoinHostPort("", port) == ":51820";
  }

  /** A bracketed IPv6 endpoint gives its port. */
  lemma EndpointIPv6()
    ensures EndpointPort("[fd00::1]:51820") == Ok("51820")
  {
    BracketedIPv6();
  }

  // ---------------------------------------------------------------- client configuration

  /** The DNS line: present only when the profile names resolvers. */
  function DnsLines(dns: seq<string>): seq<string> {
    if |dns| > 0 then ["DNS = " + Join(dns, ", ")] else []
  }

  function ClientConfigLines(profile: ServerProfile, client: ClientProfile): seq<string> {
    ["[Interface]", "PrivateKey = " + client.privateKey, "Address = " + client.address] +
    DnsLines(profile.dns) +
    ["", "[Peer]", "PublicKey = " + profile.serverPublicKey, "AllowedIPs = " + Join(client.allowedIPs, ", "),
     "Endpoint = " + profile.endpoint, "PersistentKeepalive = 25"]
  }

  /** `BuildClientConfig`: refuses a missing profile or an unnamed client, and otherwise renders. */
  function BuildClientConfig(profile: Option<ServerProfile>, client: ClientProfile): (r: Result<string>)
    ensures r.Err? <==> profile.None? || client.name == ""
    ensures r.Err? ==> r.error == InvalidInput
    ensures r.Ok? ==> SplitLines(r.value) == ClientConfigLines(profile.value, client) || !ClientSingleLine(profile.value, client)
  {
    if profile.None? then Err(InvalidInput)
    else if client.name == "" then Err(InvalidInput)
    else
      ClientLinesSingle(profile.value, client);
      Ok(Unlines(ClientConfigLines(profile.value, client)))
  }

  predicate SingleLine(s: string) {
    '\n' !in s
  }

  predicate AllSingleLine(items: seq<string>) {
    forall i :: 0 <= i < |items| ==> SingleLine(items[i])
  }

  /** No field the client configuration shows holds a line break. */
  predicate ClientSingleLine(profile: ServerProfile, client: ClientProfile) {
    SingleLine(client.privateKey) && SingleLine(client.address) && AllSingleLine(profile.dns) &&
    SingleLine(profile.serverPublicKey) && AllSingleLine(client.allowedIPs) && SingleLine(profile.endpoint)
  }

  lemma JoinSingleLine(items: seq<string>)
    requires AllSingleLine(items)
    ensures SingleLine(Join(items, ", "))
  {
    assert '\n' !in ", ";
    JoinLacks(items, ", ", '\n');
  }

  lemma ClientLinesSingle(profile: ServerProfile, client: ClientProfile)
    ensures ClientSingleLine(profile, client) ==> SplitLines(Unlines(ClientConfigLines(profile, client))) == ClientConfigLines(profile, client)
  {
    if ClientSingleLine(profile, client) {
      JoinSingleLine(profile.dns);
      JoinSingleLine(client.allowedIPs);
      SplitUnlines(ClientConfigLines(profile, client));
    }
  }

  /** The entries of the client's `[Interface]` section, with `DNS` only when resolvers are set. */
  function DnsEntries(dns: seq<string>): seq<Entry> {
    if |dns| > 0 then [Entry("DNS", Join(dns, ", "))] else []
  }

  /** What a client configuration says: the client's own interface, and the server as its one peer. */
  function ClientSections(profile: ServerProfile, client: ClientProfile): seq<Section> {
    [Section("Interface", [Entry("PrivateKey", client.privateKey), Entry("Address", client.address)] + DnsEntries(profile.dns)),
     Section("Peer", [Entry("PublicKey", profile.serverPublicKey), Entry("AllowedIPs", Join(client.allowedIPs, ", ")),
                      Entry("Endpoint", profile.endpoint), Entry("PersistentKeepalive", "25")])]
  }

  /** Reading a rendered client configuration gives back the client's interface and the server peer. */
  lemma ClientConfigReadsBack(profile: ServerProfile, client: ClientProfile)
    requires client.name != "" && ClientSingleLine(profile, client)
    ensures ReadConfig(BuildClientConfig(Some(profile), client).value) == Ok(ClientSections(profile, client))
  {
    var sections := ClientSections(profile, client);
    var iface, peer := sections[0], sections[1];
    var text := BuildClientConfig(Some(profile), client).value;
    assert SplitLines(text) == SectionLines(iface) + [""] + SectionLines(peer) by {
      ClientLinesAreSections(profile, client);
    }
    ClientSectionsValid(profile, client);
    ReadTwoSections(iface, peer);
  }

  lemma ClientLinesAreSections(profile: ServerProfile, client: ClientProfile)
    ensures ClientConfigLines(profile, client) ==
      SectionLines(ClientSections(profile, client)[0]) + [""] + SectionLines(ClientSections(profile, client)[1])
  {
    Spellings();
    var iface := ClientSections(profile, client)[0];
    var ifaceLines := ["[Interface]", "PrivateKey = " + client.privateKey, "Address = " + client.address] + DnsLines(profile.dns);
    assert SectionLines(iface) == ifaceLines by {
      if |profile.dns| > 0 {
        assert |ifaceLines| == 4;
        assert EntryLine(iface.entries[2]) == "DNS = " + Join(profile.dns, ", ");
      }
    }
  }

  lemma ClientSectionsValid(profile: ServerProfile, client: ClientProfile)
    ensures ValidEntries(ClientSections(profile, client)[0].entries)
    ensures ValidEntries(ClientSections(profile, client)[1].entries)
  {
    LiteralKeysValid();
  }

  /** The `DNS` entry is there exactly when the profile names resolvers, and then lists them all. */
  lemma DnsEntryIffResolvers(profile: ServerProfile, client: ClientProfile)
    ensures (exists i :: 0 <= i < |ClientSections(profile, client)[0].entries| &&
               ClientSections(profile, client)[0].entries[i].key == "DNS") <==> |profile.dns| > 0
    ensures |profile.dns| > 0 ==> ClientSections(profile, client)[0].entries[2] == Entry("DNS", Join(profile.dns, ", "))
  {
    var entries := ClientSections(profile, client)[0].entries;
    if |profile.dns| > 0 {
      assert entries[2].key == "DNS";
    } else {
      assert |entries| == 2;
      assert entries[0].key != "DNS" && entries[1].key != "DNS";
    }
  }

  /** A client made by add-client routes all IPv4 and all IPv6 traffic through the server. */
  lemma NewClientRoutesAll(profile: ServerProfile, name: string, privateKey: string, publicKey: string, address: string)
    ensures ClientSections(profile, NewClient(name, privateKey, publicKey, address))[1].entries[1] ==
      Entry("AllowedIPs", "0.0.0.0/0, ::/0")
  {
    assert Join(ClientAllowedIPs(), ", ") == ClientAllowedIPs()[0] + ", " + Join(ClientAllowedIPs()[1..], ", ");
    assert ClientAllowedIPs()[1..] == ["::/0"];
  }

  // ---------------------------------------------------------------- server configuration

  function InterfaceLines(profile: ServerProfile, port: string): seq<string> {
    ["[Interface]", "Address = " + profile.address, "PrivateKey = " + profile.serverPrivateKey,
     "ListenPort = " + port, "SaveConfig = false", ""]
  }

  /** A peer's allowed ranges, falling back to its own address when it has none. */
  function PeerAllowedIPs(client: ClientProfile): seq<string> {
    if |client.allowedIPs| == 0 then [client.address] else client.allowedIPs
  }

  function PeerLines(client: ClientProfile): seq<string> {
    ["[Peer]", "PublicKey = " + client.publicKey, "AllowedIPs = " + Join(PeerAllowedIPs(client), ", "), ""]
  }

  /** The peer blocks of the clients, in stored order. */
  function PeersLines(clients: seq<ClientProfile>): seq<string> {
    if clients == [] then [] else PeersLines(clients[..|clients| - 1]) + PeerLines(clients[|clients| - 1])
  }

  function ServerConfigLines(profile: ServerProfile, port: string): seq<string> {
    InterfaceLines(profile, port) + PeersLines(profile.clients)
  }

  /** The server configuration of a profile, or the reason its endpoint gives no listen port. */
  function ServerConfig(profile: ServerProfile): Result<string> {
    match EndpointPort(profile.endpoint)
    case Err(e) => Err(e)
    case Ok(port) => Ok(Unlines(ServerConfigLines(profile, port)))
  }

  /**
    `BuildServerConfig`: refuses a missing profile or an endpoint without host and port, then
    writes the interface stanza and one peer block per client.
   */
  method BuildServerConfig(profile: Option<ServerProfile>) returns (r: Result<string>)
    ensures profile.None? ==> r == Err(InvalidInput)
    ensures profile.Some? ==> r == ServerConfig(profile.value)
  {
    if profile.None? {
      return Err(InvalidInput);
    }
    var p := profile.value;
    var split := SplitHostPort(p.endpoint);
    if split.Err? {
      return Err(split.error);
    }
    var (host, port) := split.value;
    if host == "" || port == "" {
      return Err(InvalidInput);
    }
    var text := RenderServer(p, port);
    assert EndpointPort(p.endpoint) == Ok(port);
    return Ok(text);
  }

  /** The builder part of `BuildServerConfig`: the interface stanza, then one peer block per client. */
  method RenderServer(p: ServerProfile, port: string) returns (text: string)
    ensures text == Unlines(ServerConfigLines(p, port))
  {
    var builder, lines := WriteInterface(p, port);
    assert lines == InterfaceLines(p, port) + PeersLines(p.clients[..0]);
    var i := 0;
    while i < |p.clients|
      invariant 0 <= i <= |p.clients|
      invariant builder == Unlines(lines)
      invariant lines == InterfaceLines(p, port) + PeersLines(p.clients[..i])
    {
      builder, lines := WritePeer(builder, lines, p.clients[i]);
      PeersLinesStep(p.clients, i);
      i := i + 1;
    }
    assert p.clients[..i] == p.clients;
    return builder;
  }

  /** The `[Interface]` stanza of the server configuration and the blank line after it. */
  method WriteInterface(p: ServerProfile, port: string) returns (builder: string, ghost lines: seq<string>)
    ensures lines == InterfaceLines(p, port) && builder == Unlines(lines)
    ensures builder == Unlines(InterfaceLines(p, port))
  {
    builder, lines := WriteLine("", [], "[Interface]");
    builder, lines := WriteLine(builder, lines, "Address = " + p.address);
    builder, lines := WriteLine(builder, lines, "PrivateKey = " + p.serverPrivateKey);
    builder, lines := WriteLine(builder, lines, "ListenPort = " + port);
    builder, lines := WriteLine(builder, lines, "SaveConfig = false");
    builder, lines := WriteLine(builder, lines, "");
  }

  /** One turn of the peer loop: a `[Peer]` block, its allowed ranges falling back to the client's address. */
  method WritePeer(builder: string, ghost lines: seq<string>, client: ClientProfile) returns (next: string, ghost nextLines: seq<string>)
    requires builder == Unlines(lines)
    ensures nextLines == lines + PeerLines(client) && next == Unlines(nextLines)
    ensures next == builder + Unlines(PeerLines(client))
  {
    next, nextLines := WriteLine(builder, lines, "[Peer]");
    next, nextLines := WriteLine(next, nextLines, "PublicKey = " + client.publicKey);
    var allowed := client.allowedIPs;
    if |allowed| == 0 {
      allowed := [client.address];
    }
    assert allowed == PeerAllowedIPs(client);
    next, nextLines := WriteLine(next, nextLines, "AllowedIPs = " + Join(allowed, ", "));
    next, nextLines := WriteLine(next, nextLines, "");
    SnocFour(lines, "[Peer]", "PublicKey = " + client.publicKey, "AllowedIPs = " + Join(allowed, ", "), "");
    UnlinesAppend(lines, PeerLines(client));
  }

  lemma PeersLinesStep(clients: seq<ClientProfile>, i: nat)
    requires i < |clients|
    ensures PeersLines(clients[..i + 1]) == PeersLines(clients[..i]) + PeerLines(clients[i])
  {
    assert clients[..i + 1][..i] == clients[..i];
  }

  lemma SnocFour<T>(s: seq<T>, a: T, b: T, c: T, d: T)
    ensures s + [a] + [b] + [c] + [d] == s + [a, b, c, d]
  {
  }

  /** One `Fprintf` of a newline-terminated line to the builder; `lines` are the lines written so far. */
  method WriteLine(builder: string, ghost lines: seq<string>, line: string) returns (next: string, ghost nextLines: seq<string>)
    requires builder == Unlines(lines)
    ensures next == builder + line + "\n"
    ensures nextLines == lines + [line] && next == Unlines(nextLines)
  {
    UnlinesSnoc(lines, line);
    next, nextLines := builder + (line + "\n"), lines + [line];
  }

  // ---------------------------------------------------------------- what a server configuration says

  function PeerSection(client: ClientProfile): Section {
    Section("Peer", [Entry("PublicKey", client.publicKey), Entry("AllowedIPs", Join(PeerAllowedIPs(client), ", "))])
  }

  function PeerSections(clients: seq<ClientProfile>): (r: seq<Section>)
    ensures |r| == |clients| && forall i :: 0 <= i < |clients| ==> r[i] == PeerSection(clients[i])
  {
    if clients == [] then [] else PeerSections(clients[..|clients| - 1]) + [PeerSection(clients[|clients| - 1])]
  }

  /**
    What a server configuration says: the interface with its address, key and listen port, and
    one peer per client, in stored order.
   */
  function ServerSections(profile: ServerProfile, port: string): seq<Section> {
    [Section("Interface", [Entry("Address", profile.address), Entry("PrivateKey", profile.serverPrivateKey),
                           Entry("ListenPort", port), Entry("SaveConfig", "false")])] +
    PeerSections(profile.clients)
  }

  /** No field the server configuration shows holds a line break. */
  predicate ServerSingleLine(profile: ServerProfile, port: string) {
    SingleLine(profile.address) && SingleLine(profile.serverPrivateKey) && SingleLine(port) &&
    forall i :: 0 <= i < |profile.clients| ==>
      SingleLine(profile.clients[i].publicKey) && SingleLine(profile.clients[i].address) &&
      AllSingleLine(profile.clients[i].allowedIPs)
  }

  /** Reading a rendered server configuration gives back the interface and exactly one peer per client, in order. */
  lemma ServerConfigReadsBack(profile: ServerProfile)
    requires EndpointPort(profile.endpoint).Ok?
    requires ServerSingleLine(profile, EndpointPort(profile.endpoint).value)
    ensures ReadConfig(ServerConfig(profile).value) == Ok(ServerSections(profile, EndpointPort(profile.endpoint).value))
  {
    var port := EndpointPort(profile.endpoint).value;
    var sections := ServerSections(profile, port);
    ServerLinesAreDocument(profile, port);
    ServerSectionsValid(profile, port);
    ServerSectionsSingleLine(profile, port);
    DocumentWithoutNewlines(sections);
    SplitUnlines(Document(sections));
    ReadDocument(sections);
  }

  lemma ServerSectionsValid(profile: ServerProfile, port: string)
    ensures ValidSections(ServerSections(profile, port))
  {
    LiteralKeysValid();
    var sections := ServerSections(profile, port);
    forall i | 0 <= i < |sections|
      ensures ValidEntries(sections[i].entries)
    {
      if i > 0 {
        assert sections[i] == PeerSection(profile.clients[i - 1]);
      }
    }
  }

  lemma ServerSectionsSingleLine(profile: ServerProfile, port: string)
    requires ServerSingleLine(profile, port)
    ensures SectionsWithoutNewlines(ServerSections(profile, port))
  {
    var sections := ServerSections(profile, port);
    SpellingsSingleLine();
    forall i | 0 <= i < |sections|
      ensures '\n' !in sections[i].name && EntriesWithoutNewlines(sections[i].entries)
    {
      if i > 0 {
        var c := profile.clients[i - 1];
        assert sections[i] == PeerSection(c);
        PeerSectionSingleLine(c);
      }
    }
  }

  lemma PeerSectionSingleLine(c: ClientProfile)
    requires SingleLine(c.publicKey) && SingleLine(c.address) && AllSingleLine(c.allowedIPs)
    ensures '\n' !in PeerSection(c).name && EntriesWithoutNewlines(PeerSection(c).entries)
  {
    SpellingsSingleLine();
    assert AllSingleLine(PeerAllowedIPs(c));
    JoinSingleLine(PeerAllowedIPs(c));
  }

  lemma ServerLinesAreDocument(profile: ServerProfile, port: string)
    ensures ServerConfigLines(profile, port) == Document(ServerSections(profile, port))
  {
    var iface := ServerSections(profile, port)[0];
    PeersAreDocument(profile.clients);
    assert ServerSections(profile, port) == [iface] + PeerSections(profile.clients);
    InterfaceIsDocument(profile, port);
    DocumentAppend([iface], PeerSections(profile.clients));
  }

  lemma InterfaceIsDocument(profile: ServerProfile, port: string)
    ensures Document([ServerSections(profile, port)[0]]) == InterfaceLines(profile, port)
  {
    var iface := ServerSections(profile, port)[0];
    assert [iface][1..] == [];
    assert Document([iface]) == SectionLines(iface) + [""];
    Spellings();
    assert SectionLines(iface) + [""] == InterfaceLines(profile, port);
  }

  lemma PeerIsDocument(client: ClientProfile)
    ensures Document([PeerSection(client)]) == PeerLines(client)
  {
    assert [PeerSection(client)][1..] == [];
    assert Document([PeerSection(client)]) == SectionLines(PeerSection(client)) + [""];
    Spellings();
    assert SectionLines(PeerSection(client)) + [""] == PeerLines(client);
  }

  lemma {:induction false} PeersAreDocument(clients: seq<ClientProfile>)
    ensures PeersLines(clients) == Document(PeerSections(clients))
  {
    if clients != [] {
      var init, last := clients[..|clients| - 1], clients[|clients| - 1];
      PeersAreDocument(init);
      assert PeerSections(clients) == PeerSections(init) + [PeerSection(last)];
      PeerIsDocument(last);
      DocumentAppend(PeerSections(init), [PeerSection(last)]);
    }
  }

  /** A peer with no allowed ranges of its own routes only its own address. */
  lemma PeerFallback(client: ClientProfile)
    requires |client.allowedIPs| == 0
    ensures PeerSection(client).entries[1] == Entry("AllowedIPs", client.address)
  {
  }

  /** The header and key spellings of the renderers, as the reader sees them. */
  lemma Spellings()
    ensures HeaderLine("Interface") == "[Interface]" && HeaderLine("Peer") == "[Peer]"
    ensures "PrivateKey" + " = " == "PrivateKey = " && "Address" + " = " == "Address = "
    ensures "DNS" + " = " == "DNS = " && "PublicKey" + " = " == "PublicKey = "
    ensures "AllowedIPs" + " = " == "AllowedIPs = " && "Endpoint" + " = " == "Endpoint = "
    ensures "PersistentKeepalive" + " = " + "25" == "PersistentKeepalive = 25"
    ensures "ListenPort" + " = " == "ListenPort = " && "SaveConfig" + " = " + "false" == "SaveConfig = false"
  {
  }

  /** No header or key the renderers write holds a line break. */
  lemma SpellingsSingleLine()
    ensures '\n' !in "Interface" && '\n' !in "Peer"
    ensures '\n' !in "PublicKey" && '\n' !in "AllowedIPs" && '\n' !in "Address" && '\n' !in "PrivateKey"
    ensures '\n' !in "ListenPort" && '\n' !in "SaveConfig" && '\n' !in "false"
  {
    forall k | k in ["Interface", "Peer", "PublicKey", "AllowedIPs", "Address", "PrivateKey", "ListenPort", "SaveConfig", "false"]
      ensures '\n' !in k
    {
      assert forall j :: 0 <= j < |k| ==> k[j] != '\n';
    }
  }

  /** The keys WireStack writes are valid keys. */
  lemma LiteralKeysValid()
    ensures ValidKey("PrivateKey") && ValidKey("Address") && ValidKey("DNS") && ValidKey("PublicKey")
    ensures ValidKey("AllowedIPs") && ValidKey("Endpoint") && ValidKey("PersistentKeepalive")
    ensures ValidKey("ListenPort") && ValidKey("SaveConfig")
  {
    WordIsKey("PrivateKey");
    WordIsKey("Address");
    WordIsKey("DNS");
    WordIsKey("PublicKey");
    WordIsKey("AllowedIPs");
    WordIsKey("Endpoint");
    WordIsKey("PersistentKeepalive");
    WordIsKey("ListenPort");
    WordIsKey("SaveConfig");
  }

  predicate IsLetter(c: char) {
    ('A' <= c <= 'Z') || ('a' <= c <= 'z')
  }

  /** A word of letters is a key. */
  lemma WordIsKey(k: string)
    requires k != "" && forall j :: 0 <= j < |k| ==> IsLetter(k[j])
    ensures ValidKey(k)
  {
  }

  // ---------------------------------------------------------------- storing rendered configurations

  /**
    `WriteServerConfig`: renders first, so nothing is written or created when rendering fails;
    then overwrites `<runtimeRoot>/<name>.conf` with the text and returns that path.
   */
  method WriteServerConfig(fs: FileSystem<ServerProfile>, home: string, profile: Option<ServerProfile>)
    returns (r: Result<string>)
    requires fs.Valid()
    modifies fs
    ensures fs.Valid()
    ensures r.Err? ==> fs.files == old(fs.files)
    ensures (profile.None? || ServerConfig(profile.value).Err?) ==> r.Err? && fs.dirs == old(fs.dirs)
    ensures r.Ok? <==> (profile.Some? && ServerConfig(profile.value).Ok? && profile.value.name != "" &&
      RootReady(old(fs.files), home, RuntimeDir) &&
      Writable(old(fs.files), old(fs.dirs) + MadeDirs(old(fs.files), home, RuntimeDir),
        ServerRuntimeLocation(home, profile.value.name).value))
    ensures profile.Some? && ServerConfig(profile.value).Ok? && profile.value.name != "" ==>
      (fs.dirs == old(fs.dirs) + MadeDirs(old(fs.files), home, RuntimeDir) +
        if RootReady(old(fs.files), home, RuntimeDir)
        then ParentMade(old(fs.files), ServerRuntimeLocation(home, profile.value.name).value) else {})
    ensures profile.Some? && profile.value.name == "" ==> r.Err? && fs.dirs == old(fs.dirs)
    ensures r.Ok? ==> r == ServerRuntimeLocation(home, profile.value.name)
    ensures r.Ok? ==> fs.files == Overwrite(old(fs.files), r.value, Text(ServerConfig(profile.value).value), OwnerReadWrite)
    ensures StoreWellFormed(old(fs.files), home) ==> StoreWellFormed(fs.files, home)
  {
    var config := BuildServerConfig(profile);
    if config.Err? {
      return Err(config.error);
    }
    var path := ServerRuntimeConfigPath(fs, home, profile.value.name);
    if path.Err? {
      return Err(path.error);
    }
    var written := fs.WriteFile(path.value, Text(config.value), OwnerReadWrite);
    if written.Fail? {
      return Err(written.error);
    }
    if StoreWellFormed(old(fs.files), home) {
      TextWriteKeepsStore(old(fs.files), home, path.value, config.value, OwnerReadWrite);
    }
    return Ok(path.value);
  }

  /**
    `WriteClientConfig`: renders first, then overwrites
    `<runtimeRoot>/client-<server>-<client>.conf` with the text and returns that path.
   */
  method WriteClientConfig(fs: FileSystem<ServerProfile>, home: string, profile: Option<ServerProfile>, client: ClientProfile)
    returns (r: Result<string>)
    requires fs.Valid()
    modifies fs
    ensures fs.Valid()
    ensures r.Err? ==> fs.files == old(fs.files)
    ensures BuildClientConfig(profile, client).Err? ==> r.Err? && fs.dirs == old(fs.dirs)
    ensures r.Ok? <==> (BuildClientConfig(profile, client).Ok? && profile.value.name != "" &&
      RootReady(old(fs.files), home, RuntimeDir) &&
      Writable(old(fs.files), old(fs.dirs) + MadeDirs(old(fs.files), home, RuntimeDir),
        ClientRuntimeLocation(home, profile.value.name, client.name).value))
    ensures BuildClientConfig(profile, client).Ok? && profile.value.name != "" ==>
      (fs.dirs == old(fs.dirs) + MadeDirs(old(fs.files), home, RuntimeDir) +
        if RootReady(old(fs.files), home, RuntimeDir)
        then ParentMade(old(fs.files), ClientRuntimeLocation(home, profile.value.name, client.name).value) else {})
    ensures BuildClientConfig(profile, client).Ok? && profile.value.name == "" ==> r.Err? && fs.dirs == old(fs.dirs)
    ensures r.Ok? ==> r == ClientRuntimeLocation(home, profile.value.name, client.name)
    ensures r.Ok? ==> fs.files == Overwrite(old(fs.files), r.value, Text(BuildClientConfig(profile, client).value), OwnerReadWrite)
    ensures StoreWellFormed(old(fs.files), home) ==> StoreWellFormed(fs.files, home)
  {
    var config := BuildClientConfig(profile, client);
    if config.Err? {
      return Err(config.error);
    }
    var path := ClientRuntimeConfigPath(fs, home, profile.value.name, client.name);
    if path.Err? {
      return Err(path.error);
    }
    var written := fs.WriteFile(path.value, Text(config.value), OwnerReadWrite);
    if written.Fail? {
      return Err(written.error);
    }
    if StoreWellFormed(old(fs.files), home) {
      TextWriteKeepsStore(old(fs.files), home, path.value, config.value, OwnerReadWrite);
    }
    return Ok(path.value);
  }
}
