/**
  The bodies of the `wirestack` subcommands that change the profile store or the runtime
  directory (cmd/wirestack/main.go).

  The outside world comes in as parameters: `keys` is what `GenerateKeyPair` returned (a key
  pair, or the failure of `wg genkey` / `wg pubkey`), and `wgQuick` is how `wg-quick` ended.
  Printing to the terminal is not modelled.

  Every command keeps the store well formed: each profile that loads is well formed and lives
  under its own name.
 */
module Commands {
  import opened Results
  import opened Files
  import opened Paths
  import opened Profiles
  import opened WireGuard

  /**
    `add-server --name --endpoint`: creates the default profile with a fresh key pair, refusing
    to replace a profile that already exists.
   */
  method AddServer(fs: FileSystem<ServerProfile>, home: string, name: string, endpoint: string,
                   keys: Result<(string, string)>) returns (r: Outcome)
    requires fs.Valid()
    modifies fs
    ensures fs.Valid()
    ensures (name == "" || endpoint == "") ==> r == Fail(InvalidInput) && fs.files == old(fs.files) && fs.dirs == old(fs.dirs)
    ensures r.Fail? ==> fs.files == old(fs.files)
    ensures (name != "" && endpoint != "" && RootReady(old(fs.files), home, ServersDir) &&
             ProfileLocation(home, name).value in old(fs.files).Keys + old(fs.dirs)) ==> r == Fail(AlreadyExists)
    ensures name != "" && endpoint != "" && keys.Err? ==> r.Fail?
    ensures r.Pass? <==> (AddServerSaves(old(fs.files), old(fs.dirs), home, name, endpoint, keys) &&
             Writable(old(fs.files), old(fs.dirs) + MadeDirs(old(fs.files), home, ServersDir), ProfileLocation(home, name).value))
    ensures name != "" && endpoint != "" ==>
            (fs.dirs == old(fs.dirs) + MadeDirs(old(fs.files), home, ServersDir) +
              if AddServerSaves(old(fs.files), old(fs.dirs), home, name, endpoint, keys)
              then ParentMade(old(fs.files), ProfileLocation(home, name).value) else {})
    ensures r.Pass? ==> fs.files == Overwrite(old(fs.files), ProfileLocation(home, name).value,
                                              Json(DefaultServerProfile(name, endpoint, keys.value.0, keys.value.1)), OwnerReadWrite)
    ensures r.Pass? ==> StoredProfile(fs.files, home, name) == Ok(DefaultServerProfile(name, endpoint, keys.value.0, keys.value.1))
    ensures StoreWellFormed(old(fs.files), home) ==> StoreWellFormed(fs.files, home)
  {
    if name == "" || endpoint == "" {
      return Fail(InvalidInput);
    }
    var present := ProfileExists(fs, home, name);
    if present.Err? {
      return Fail(present.error);
    }
    if present.value {
      return Fail(AlreadyExists);
    }
    if keys.Err? {
      return Fail(keys.error);
    }
    var (privateKey, publicKey) := keys.value;
    var profile := DefaultServerProfile(name, endpoint, privateKey, publicKey);
    ghost var before := fs.files;
    r := SaveServerProfile(fs, home, Some(profile));
    if r.Pass? && StoreWellFormed(before, home) {
      DefaultProfileWellFormed(name, endpoint, privateKey, publicKey);
      SaveKeepsStore(before, home, profile, OwnerReadWrite);
    }
  }

  /**
    `add-server` gets as far as saving: both flags are set, the servers directory is ready,
    nothing is stored at the profile path and the key pair was generated.
   */
  predicate AddServerSaves(files: Store, dirs: set<string>, home: string, name: string, endpoint: string,
                           keys: Result<(string, string)>)
  {
    name != "" && endpoint != "" && RootReady(files, home, ServersDir) &&
    ProfileLocation(home, name).value !in files.Keys + dirs && keys.Ok?
  }

  /** `delete-server <name>`: removes the profile and, when present, its rendered server configuration. */
  method DeleteServer(fs: FileSystem<ServerProfile>, home: string, name: string) returns (r: Outcome)
    requires fs.Valid()
    modifies fs
    ensures fs.Valid()
    ensures name == "" ==> r == Fail(InvalidInput) && fs.files == old(fs.files) && fs.dirs == old(fs.dirs)
    ensures r.Fail? ==> fs.files == old(fs.files)
    ensures r.Fail? && name != "" ==> fs.dirs == old(fs.dirs) + MadeDirs(old(fs.files), home, ServersDir)
    ensures (name != "" && RootReady(old(fs.files), home, ServersDir) &&
             ProfileLocation(home, name).value !in old(fs.files).Keys + old(fs.dirs)) ==> r == Fail(NotFound)
    ensures r.Pass? ==> ProfileLocation(home, name).Ok? && ProfileLocation(home, name).value in old(fs.files).Keys + old(fs.dirs)
    ensures r.Pass? ==> fs.files == DeletedFiles(old(fs.files), home, name)
    ensures r.Pass? ==> fs.dirs == DeletedDirs(old(fs.files), old(fs.dirs), home, name)
    ensures r.Pass? ==> StoredProfile(fs.files, home, name) == Err(NotFound)
    ensures StoreWellFormed(old(fs.files), home) ==> StoreWellFormed(fs.files, home)
  {
    if name == "" {
      return Fail(InvalidInput);
    }
    r := DeleteServerProfile(fs, home, name);
    if r.Pass? {
      DeleteForgetsProfile(old(fs.files), home, name);
    }
    if r.Pass? && StoreWellFormed(old(fs.files), home) {
      DeletedKeepsStore(old(fs.files), home, name);
    }
  }

  /** Deleting a profile never makes another one readable. */
  lemma DeletedKeepsStore(files: Store, home: string, name: string)
    requires ProfileLocation(home, name).Ok? && StoreWellFormed(files, home)
    ensures StoreWellFormed(DeletedFiles(files, home, name), home)
  {
    var gone := files - {ProfileLocation(home, name).value};
    RemoveKeepsStore(files, home, {ProfileLocation(home, name).value});
    if RootReady(gone, home, RuntimeDir) {
      RemoveKeepsStore(gone, home, {ServerRuntimeLocation(home, name).value});
    }
  }

  /** The client `add-client` appends: the next free address and the default allowed ranges. */
  function AddedClient(profile: ServerProfile, clientName: string, keys: (string, string)): ClientProfile
    requires NextClientAddress(profile).Ok?
  {
    NewClient(clientName, keys.0, keys.1, NextClientAddress(profile).value)
  }

  /**
    `add-client` gets as far as saving: both flags are set, the profile loads, it has no client
    of that name, the key pair was generated, an address is free, and the stored profile has a
    name to be saved under.
   */
  predicate AddClientSaves(files: Store, home: string, serverName: string, clientName: string,
                           keys: Result<(string, string)>)
  {
    serverName != "" && clientName != "" && RootReady(files, home, ServersDir) &&
    StoredProfile(files, home, serverName).Ok? &&
    ClientNamed(StoredProfile(files, home, serverName).value.clients, clientName).Err? &&
    keys.Ok? && NextClientAddress(StoredProfile(files, home, serverName).value).Ok? &&
    StoredProfile(files, home, serverName).value.name != ""
  }

  /**
    `add-client --server --client`: appends a new client with a fresh key pair and the next free
    address, refusing a name the server already has and a full address range.
   */
  method AddClient(fs: FileSystem<ServerProfile>, home: string, serverName: string, clientName: string,
                   keys: Result<(string, string)>) returns (r: Outcome)
    requires fs.Valid()
    modifies fs
    ensures fs.Valid()
    ensures (serverName == "" || clientName == "") ==> r == Fail(InvalidInput) && fs.files == old(fs.files) && fs.dirs == old(fs.dirs)
    ensures r.Pass? <==> (AddClientSaves(old(fs.files), home, serverName, clientName, keys) &&
             Writable(old(fs.files), old(fs.dirs) + MadeDirs(old(fs.files), home, ServersDir),
               ProfileLocation(home, StoredProfile(old(fs.files), home, serverName).value.name).value))
    ensures serverName != "" && clientName != "" ==>
            (fs.dirs == old(fs.dirs) + MadeDirs(old(fs.files), home, ServersDir) +
              if AddClientSaves(old(fs.files), home, serverName, clientName, keys)
              then ParentMade(old(fs.files), ProfileLocation(home, StoredProfile(old(fs.files), home, serverName).value.name).value)
              else {})
    ensures r.Fail? ==> fs.files == old(fs.files)
    ensures !RootReady(old(fs.files), home, ServersDir) || StoredProfile(old(fs.files), home, serverName).Err? ==> r.Fail?
    ensures (serverName != "" && clientName != "" && RootReady(old(fs.files), home, ServersDir) &&
             StoredProfile(old(fs.files), home, serverName).Ok? &&
             ClientNamed(StoredProfile(old(fs.files), home, serverName).value.clients, clientName).Ok?) ==> r == Fail(AlreadyExists)
    ensures (serverName != "" && clientName != "" && RootReady(old(fs.files), home, ServersDir) &&
             StoredProfile(old(fs.files), home, serverName).Ok? && keys.Ok? &&
             ClientNamed(StoredProfile(old(fs.files), home, serverName).value.clients, clientName).Err? &&
             |StoredProfile(old(fs.files), home, serverName).value.clients| >= MaxClients) ==> r == Fail(CapacityExceeded)
    ensures r.Pass? ==> (keys.Ok? && StoredProfile(old(fs.files), home, serverName).Ok? &&
                         NextClientAddress(StoredProfile(old(fs.files), home, serverName).value).Ok?)
    ensures r.Pass? ==> (var p := StoredProfile(old(fs.files), home, serverName).value;
                         ProfileLocation(home, p.name).Ok? &&
                         fs.files == Overwrite(old(fs.files), ProfileLocation(home, p.name).value,
                                               Json(WithClient(p, AddedClient(p, clientName, keys.value))), OwnerReadWrite))
    ensures r.Pass? && StoreWellFormed(old(fs.files), home) ==>
            (var p := StoredProfile(old(fs.files), home, serverName).value;
             StoredProfile(fs.files, home, serverName) == Ok(WithClient(p, AddedClient(p, clientName, keys.value))))
    ensures StoreWellFormed(old(fs.files), home) ==> StoreWellFormed(fs.files, home)
  {
    if serverName == "" || clientName == "" {
      return Fail(InvalidInput);
    }
    var loaded := LoadServerProfile(fs, home, serverName);
    if loaded.Err? {
      return Fail(loaded.error);
    }
    var profile := loaded.value;
    var found := FindClient(profile, clientName);
    if found.Ok? {
      return Fail(AlreadyExists);
    }
    if keys.Err? {
      return Fail(keys.error);
    }
    var address := NextClientAddress(profile);
    if address.Err? {
      return Fail(address.error);
    }
    var (privateKey, publicKey) := keys.value;
    var client := NewClient(clientName, privateKey, publicKey, address.value);
    var updated := WithClient(profile, client);
    ghost var before := fs.files;
    r := SaveServerProfile(fs, home, Some(updated));
    if r.Pass? && StoreWellFormed(before, home) {
      AppendKeepsWellFormed(profile, clientName, privateKey, publicKey);
      SaveKeepsStore(before, home, updated, OwnerReadWrite);
    }
  }

  /**
    `export-client` gets as far as writing: the flags are set, the profile loads and has a
    client of that name.
   */
  predicate ExportWrites(files: Store, home: string, serverName: string, clientName: string, output: string) {
    serverName != "" && clientName != "" && output != "" && RootReady(files, home, ServersDir) &&
    StoredProfile(files, home, serverName).Ok? &&
    ClientNamed(StoredProfile(files, home, serverName).value.clients, clientName).Ok?
  }

  /**
    `export-client --server --client --output`: writes the client's configuration to the
    output path, a leading `~` standing for the home directory.
   */
  method ExportClient(fs: FileSystem<ServerProfile>, home: string, serverName: string, clientName: string,
                      output: string) returns (r: Outcome)
    requires fs.Valid()
    modifies fs
    ensures fs.Valid()
    ensures (serverName == "" || clientName == "" || output == "") ==>
            r == Fail(InvalidInput) && fs.files == old(fs.files) && fs.dirs == old(fs.dirs)
    ensures r.Pass? <==> (ExportWrites(old(fs.files), home, serverName, clientName, output) &&
             Writable(old(fs.files), old(fs.dirs) + MadeDirs(old(fs.files), home, ServersDir), ExpandPath(output, home).value))
    ensures serverName != "" && clientName != "" && output != "" ==>
            (fs.dirs == old(fs.dirs) + MadeDirs(old(fs.files), home, ServersDir) +
              if ExportWrites(old(fs.files), home, serverName, clientName, output)
              then ParentMade(old(fs.files), ExpandPath(output, home).value) else {})
    ensures r.Fail? ==> fs.files == old(fs.files)
    ensures (serverName != "" && clientName != "" && output != "" && RootReady(old(fs.files), home, ServersDir) &&
             StoredProfile(old(fs.files), home, serverName).Ok? &&
             ClientNamed(StoredProfile(old(fs.files), home, serverName).value.clients, clientName).Err?) ==> r == Fail(NotFound)
    ensures r.Pass? ==> (StoredProfile(old(fs.files), home, serverName).Ok? &&
                         ClientNamed(StoredProfile(old(fs.files), home, serverName).value.clients, clientName).Ok? &&
                         ExpandPath(output, home).Ok?)
    ensures r.Pass? ==> (var p := StoredProfile(old(fs.files), home, serverName).value;
                         var config := BuildClientConfig(Some(p), ClientNamed(p.clients, clientName).value);
                         config.Ok? &&
                         fs.files == Overwrite(old(fs.files), ExpandPath(output, home).value, Text(config.value), OwnerReadWrite))
    ensures StoreWellFormed(old(fs.files), home) ==> StoreWellFormed(fs.files, home)
  {
    if serverName == "" || clientName == "" || output == "" {
      return Fail(InvalidInput);
    }
    var loaded := LoadServerProfile(fs, home, serverName);
    if loaded.Err? {
      return Fail(loaded.error);
    }
    var profile := loaded.value;
    var client := FindClient(profile, clientName);
    if client.Err? {
      return Fail(client.error);
    }
    var config := BuildClientConfig(Some(profile), client.value);
    if config.Err? {
      // the client found carries the requested, non-empty name, so rendering cannot fail here
      return Fail(InvalidInput);
    }
    var resolved := ExpandPath(output, home);
    if resolved.Err? {
      // the home directory was already resolved while loading the profile
      return Fail(IOFailure);
    }
    ghost var before := fs.files;
    r := fs.WriteFile(resolved.value, Text(config.value), OwnerReadWrite);
    if StoreWellFormed(before, home) {
      TextWriteKeepsStore(before, home, resolved.value, config.value, OwnerReadWrite);
    }
  }

  /**
    `down <server>`: takes the interface down with `wg-quick down` on the rendered
    configuration, then removes that file, ignoring whether the removal succeeds.
   */
  method Down(fs: FileSystem<ServerProfile>, home: string, serverName: string, wgQuick: Outcome) returns (r: Outcome)
    requires fs.Valid()
    modifies fs
    ensures fs.Valid()
    ensures serverName == "" ==> r == Fail(InvalidInput) && fs.files == old(fs.files) && fs.dirs == old(fs.dirs)
    ensures r.Pass? <==> serverName != "" && RootReady(old(fs.files), home, RuntimeDir) && wgQuick.Pass?
    ensures r.Fail? ==> fs.files == old(fs.files)
    ensures r.Pass? ==> fs.files == old(fs.files) - {ServerRuntimeLocation(home, serverName).value}
    ensures serverName != "" && r.Fail? ==> fs.dirs == old(fs.dirs) + MadeDirs(old(fs.files), home, RuntimeDir)
    ensures r.Pass? ==> fs.dirs == DirsAfterRemove(old(fs.files), old(fs.dirs) + MadeDirs(old(fs.files), home, RuntimeDir),
                                                   ServerRuntimeLocation(home, serverName).value)
    ensures StoreWellFormed(old(fs.files), home) ==> StoreWellFormed(fs.files, home)
  {
    var path := ServerRuntimeConfigPath(fs, home, serverName);
    if path.Err? {
      return Fail(path.error);
    }
    if wgQuick.Fail? {
      return Fail(wgQuick.error);
    }
    ghost var before := fs.files;
    var _ := fs.Remove(path.value);
    if StoreWellFormed(before, home) {
      RemoveKeepsStore(before, home, {path.value});
    }
    return Pass;
  }
}
