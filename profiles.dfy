/**
  The profile model of internal/core/profiles.go: server and client records, the allocation of
  client addresses in 10.0.0.0/24, the lookup of a client by name, and the profile store, in
  which each server profile is the JSON file `<serversRoot>/<name>.json`.
 */
module Profiles {
  import opened Results
  import opened Text
  import opened Files
  import opened Paths

  datatype ClientProfile = ClientProfile(
    name: string,
    privateKey: string,
    publicKey: string,
    address: string,
    allowedIPs: seq<string>,
    description: string)

  datatype ServerProfile = ServerProfile(
    name: string,
    endpoint: string,
    address: string,
    dns: seq<string>,
    serverPrivateKey: string,
    serverPublicKey: string,
    clients: seq<ClientProfile>)

  /** The server's own address: host 1 of the client network. */
  const ServerAddress := "10.0.0.1/24"
  const DefaultDNS: seq<string> := ["1.1.1.1", "9.9.9.9"]

  /** Client hosts are numbered from 2 (1 is the server) up to 254. */
  const FirstClientHost: nat := 2
  const HostLimit: nat := 255
  const MaxClients: nat := HostLimit - FirstClientHost

  /** A new server profile: the given name, endpoint and keys, the default network and resolvers, no clients. */
  function DefaultServerProfile(name: string, endpoint: string, privateKey: string, publicKey: string): ServerProfile {
    ServerProfile(name, endpoint, ServerAddress, DefaultDNS, privateKey, publicKey, [])
  }

  /** The ranges a client routes through the tunnel: all IPv4 and all IPv6 traffic. */
  function ClientAllowedIPs(): seq<string> {
    ["0.0.0.0/0", "::/0"]
  }

  // ---------------------------------------------------------------- client addresses

  /** The single-host address of client host `host` in 10.0.0.0/24; reading it gives the host back. */
  function ClientAddress(host: nat): (r: string)
    ensures ParseClientAddress(r) == Some(host)
  {
    var d := NatToDecimal(host);
    var s := "10.0.0." + d + "/32";
    assert s[..7] == "10.0.0.";
    assert s[|s| - 3..] == "/32";
    assert s[7..|s| - 3] == d;
    DecimalRoundTrip(host);
    s
  }

  /** The host number of a client address, or None for text that is not one. */
  function ParseClientAddress(s: string): Option<nat> {
    if |s| >= 10 && s[..7] == "10.0.0." && s[|s| - 3..] == "/32" then ParseDecimal(s[7..|s| - 3])
    else None
  }

  /** Different hosts get different addresses. */
  lemma ClientAddressInjective(a: nat, b: nat)
    requires ClientAddress(a) == ClientAddress(b)
    ensures a == b
  {
  }

  /**
    `NextClientAddress`: the address after the ones handed out so far, host 2 plus the number
    of clients; refused once the hosts up to 254 are all taken.
   */
  function NextClientAddress(profile: ServerProfile): (r: Result<string>)
    ensures r.Err? <==> |profile.clients| >= MaxClients
    ensures r.Err? ==> r.error == CapacityExceeded
    ensures r.Ok? ==> r.value == ClientAddress(FirstClientHost + |profile.clients|)
    ensures r.Ok? ==> ParseClientAddress(r.value) == Some(FirstClientHost + |profile.clients|)
  {
    var nextHost := FirstClientHost + |profile.clients|;
    if nextHost >= HostLimit then Err(CapacityExceeded)
    else Ok(ClientAddress(nextHost))
  }

  // ---------------------------------------------------------------- lookup by name

  /** The first client in list order with the given name. */
  function ClientNamed(clients: seq<ClientProfile>, name: string): (r: Result<ClientProfile>)
    ensures r.Err? <==> forall i :: 0 <= i < |clients| ==> clients[i].name != name
    ensures r.Err? ==> r.error == NotFound
    ensures r.Ok? ==> r.value.name == name
    ensures r.Ok? ==> exists i :: 0 <= i < |clients| && clients[i] == r.value && NoneNamedBefore(clients, name, i)
  {
    if clients == [] then Err(NotFound)
    else if clients[0].name == name then Ok(clients[0])
    else
      var r := ClientNamed(clients[1..], name);
      assert forall i :: 1 <= i < |clients| ==> clients[i] == clients[1..][i - 1];
      r
  }

  predicate NoneNamedBefore(clients: seq<ClientProfile>, name: string, i: int)
    requires 0 <= i <= |clients|
  {
    forall j :: 0 <= j < i ==> clients[j].name != name
  }

  /** `FindClient`: scans the clients in order and stops at the first with that name. */
  method FindClient(profile: ServerProfile, clientName: string) returns (r: Result<ClientProfile>)
    ensures r == ClientNamed(profile.clients, clientName)
  {
    var idx := 0;
    while idx < |profile.clients|
      invariant 0 <= idx <= |profile.clients|
      invariant ClientNamed(profile.clients[idx..], clientName) == ClientNamed(profile.clients, clientName)
    {
      if profile.clients[idx].name == clientName {
        return Ok(profile.clients[idx]);
      }
      assert profile.clients[idx..][1..] == profile.clients[idx + 1..];
      idx := idx + 1;
    }
    return Err(NotFound);
  }

  // ---------------------------------------------------------------- well-formed profiles

  predicate DistinctNames(clients: seq<ClientProfile>) {
    forall i, j :: 0 <= i < j < |clients| ==> clients[i].name != clients[j].name
  }

  /** Client `i` holds host `i + 2`: the addresses were handed out by `NextClientAddress`, in order. */
  predicate AddressesByPosition(clients: seq<ClientProfile>) {
    forall i :: 0 <= i < |clients| ==> clients[i].address == ClientAddress(FirstClientHost + i)
  }

  /** What the add-server and add-client workflows keep true of every stored profile. */
  predicate WellFormed(profile: ServerProfile) {
    DistinctNames(profile.clients) && AddressesByPosition(profile.clients) && |profile.clients| <= MaxClients
  }

  /** Addresses handed out by position are pairwise different. */
  lemma AddressesDistinct(clients: seq<ClientProfile>)
    requires AddressesByPosition(clients)
    ensures forall i, j :: 0 <= i < j < |clients| ==> clients[i].address != clients[j].address
  {
    forall i, j | 0 <= i < j < |clients|
      ensures clients[i].address != clients[j].address
    {
      assert ParseClientAddress(clients[i].address) != ParseClientAddress(clients[j].address);
    }
  }

  /** The next address is held by no client yet. */
  lemma NextAddressFresh(profile: ServerProfile)
    requires AddressesByPosition(profile.clients) && NextClientAddress(profile).Ok?
    ensures forall i :: 0 <= i < |profile.clients| ==> profile.clients[i].address != NextClientAddress(profile).value
  {
    forall i | 0 <= i < |profile.clients|
      ensures profile.clients[i].address != NextClientAddress(profile).value
    {
      assert ParseClientAddress(profile.clients[i].address) != ParseClientAddress(NextClientAddress(profile).value);
    }
  }

  /** A new profile is well formed and hands out host 2 first. */
  lemma DefaultProfileWellFormed(name: string, endpoint: string, privateKey: string, publicKey: string)
    ensures WellFormed(DefaultServerProfile(name, endpoint, privateKey, publicKey))
    ensures NextClientAddress(DefaultServerProfile(name, endpoint, privateKey, publicKey)) == Ok(ClientAddress(FirstClientHost))
    ensures ParseClientAddress(ServerAddress) == None
  {
    assert ServerAddress[|ServerAddress| - 3..] == "/24";
  }

  /** The client add-client appends: the given name and keys, the next address, the default ranges. */
  function NewClient(name: string, privateKey: string, publicKey: string, address: string): ClientProfile {
    ClientProfile(name, privateKey, publicKey, address, ClientAllowedIPs(), "")
  }

  /** `profile` with `client` appended to its clients. */
  function WithClient(profile: ServerProfile, client: ClientProfile): ServerProfile {
    profile.(clients := profile.clients + [client])
  }

  /**
    Appending a client under a fresh name at the next address keeps a profile well formed; the
    earlier clients are kept as they were.
   */
  lemma AppendKeepsWellFormed(profile: ServerProfile, name: string, privateKey: string, publicKey: string)
    requires WellFormed(profile)
    requires ClientNamed(profile.clients, name).Err?
    requires NextClientAddress(profile).Ok?
    ensures WellFormed(WithClient(profile, NewClient(name, privateKey, publicKey, NextClientAddress(profile).value)))
  {
    var c := NewClient(name, privateKey, publicKey, NextClientAddress(profile).value);
    var clients := profile.clients + [c];
    forall i, j | 0 <= i < j < |clients|
      ensures clients[i].name != clients[j].name
    {
      if j == |profile.clients| {
        assert clients[i] == profile.clients[i];
      }
    }
  }

  // ---------------------------------------------------------------- the profile store

  /** The regular files of the filesystem that holds the profile store. */
  type Store = map<string, File<ServerProfile>>

  /** What `LoadServerProfile(name)` finds in `files`, once the directories are in place. */
  function StoredProfile(files: Store, home: string, name: string): Result<ServerProfile> {
    match ProfileLocation(home, name)
    case Err(e) => Err(e)
    case Ok(path) =>
      if path !in files then Err(NotFound)
      else match files[path].content
        case Text(_) => Err(CorruptData)
        case Json(p) => Ok(p)
  }

  /**
    Every profile that loads is well formed and is stored where its own name leads, so saving it
    again overwrites the same file.
   */
  ghost predicate StoreWellFormed(files: Store, home: string) {
    forall name :: StoredProfile(files, home, name).Ok? ==>
      WellFormed(StoredProfile(files, home, name).value) &&
      ProfileLocation(home, StoredProfile(files, home, name).value.name) == ProfileLocation(home, name)
  }

  /** Overwriting a file with text can make a profile unreadable, but never makes one readable. */
  lemma TextWriteKeepsStore(files: Store, home: string, path: string, text: string, perm: nat)
    requires StoreWellFormed(files, home)
    ensures StoreWellFormed(Overwrite(files, path, Text(text), perm), home)
  {
    var after := Overwrite(files, path, Text(text), perm);
    forall name | StoredProfile(after, home, name).Ok?
      ensures StoredProfile(after, home, name) == StoredProfile(files, home, name)
    {
    }
  }

  /** Removing files never makes a profile readable. */
  lemma RemoveKeepsStore(files: Store, home: string, gone: set<string>)
    requires StoreWellFormed(files, home)
    ensures StoreWellFormed(files - gone, home)
  {
    forall name | StoredProfile(files - gone, home, name).Ok?
      ensures StoredProfile(files - gone, home, name) == StoredProfile(files, home, name)
    {
    }
  }

  /** Storing a well-formed profile under its own name keeps the store well formed. */
  lemma SaveKeepsStore(files: Store, home: string, profile: ServerProfile, perm: nat)
    requires StoreWellFormed(files, home) && WellFormed(profile)
    requires ProfileLocation(home, profile.name).Ok?
    ensures StoreWellFormed(Overwrite(files, ProfileLocation(home, profile.name).value, Json(profile), perm), home)
  {
    var path := ProfileLocation(home, profile.name).value;
    var after := Overwrite(files, path, Json(profile), perm);
    forall name | StoredProfile(after, home, name).Ok?
      ensures WellFormed(StoredProfile(after, home, name).value)
      ensures ProfileLocation(home, StoredProfile(after, home, name).value.name) == ProfileLocation(home, name)
    {
      if ProfileLocation(home, name) != Ok(path) {
        assert StoredProfile(after, home, name) == StoredProfile(files, home, name);
      }
    }
  }

  // ---------------------------------------------------------------- store operations

  /** `SaveServerProfile`: refuses a missing profile, then writes it as JSON under its own name. */
  method SaveServerProfile(fs: FileSystem<ServerProfile>, home: string, profile: Option<ServerProfile>)
    returns (r: Outcome)
    requires fs.Valid()
    modifies fs
    ensures fs.Valid()
    ensures profile.None? ==> r == Fail(InvalidInput) && unchanged(fs)
    ensures profile.Some? && profile.value.name == "" ==>
      r == Fail(InvalidInput) && fs.files == old(fs.files) && fs.dirs == old(fs.dirs)
    ensures profile.Some? && profile.value.name != "" ==>
      (fs.dirs == old(fs.dirs) + MadeDirs(old(fs.files), home, ServersDir) +
        if RootReady(old(fs.files), home, ServersDir)
        then ParentMade(old(fs.files), ProfileLocation(home, profile.value.name).value) else {})
    ensures r.Fail? ==> fs.files == old(fs.files)
    ensures r.Pass? <==> (profile.Some? && profile.value.name != "" && RootReady(old(fs.files), home, ServersDir) &&
      Writable(old(fs.files), old(fs.dirs) + MadeDirs(old(fs.files), home, ServersDir),
        ProfileLocation(home, profile.value.name).value))
    ensures r.Pass? ==> (fs.files ==
      Overwrite(old(fs.files), ProfileLocation(home, profile.value.name).value, Json(profile.value), OwnerReadWrite))
    ensures r.Pass? ==> StoredProfile(fs.files, home, profile.value.name) == Ok(profile.value)
  {
    if profile.None? {
      return Fail(InvalidInput);
    }
    var path := ServerProfilePath(fs, home, profile.value.name);
    if path.Err? {
      return Fail(path.error);
    }
    r := fs.WriteJSON(path.value, profile.value, OwnerReadWrite);
  }

  /** `LoadServerProfile`: the profile stored under `name`. */
  method LoadServerProfile(fs: FileSystem<ServerProfile>, home: string, name: string) returns (r: Result<ServerProfile>)
    requires fs.Valid()
    modifies fs
    ensures fs.Valid() && fs.files == old(fs.files)
    ensures name == "" ==> r == Err(InvalidInput) && fs.dirs == old(fs.dirs)
    ensures name != "" ==> fs.dirs == old(fs.dirs) + MadeDirs(old(fs.files), home, ServersDir)
    ensures r.Ok? ==> RootReady(old(fs.files), home, ServersDir)
    ensures RootReady(old(fs.files), home, ServersDir) ==> r == StoredProfile(fs.files, home, name)
  {
    var path := ServerProfilePath(fs, home, name);
    if path.Err? {
      return Err(path.error);
    }
    r := fs.ReadJSON(path.value);
  }

  /** `ProfileExists`: whether anything is stored where the profile `name` goes. */
  method ProfileExists(fs: FileSystem<ServerProfile>, home: string, name: string) returns (r: Result<bool>)
    requires fs.Valid()
    modifies fs
    ensures fs.Valid() && fs.files == old(fs.files)
    ensures name == "" ==> r == Err(InvalidInput) && fs.dirs == old(fs.dirs)
    ensures name != "" ==> fs.dirs == old(fs.dirs) + MadeDirs(old(fs.files), home, ServersDir)
    ensures r.Ok? <==> name != "" && RootReady(old(fs.files), home, ServersDir)
    ensures r.Ok? ==> (r.value <==>
      ProfileLocation(home, name).value in old(fs.files) || ProfileLocation(home, name).value in old(fs.dirs))
  {
    var path := ServerProfilePath(fs, home, name);
    if path.Err? {
      return Err(path.error);
    }
    ProfileNotMade(old(fs.files), home, name, ServersDir);
    var found := fs.Stat(path.value);
    return Ok(found);
  }

  /**
    The files after a successful `DeleteServerProfile(name)`: the profile file is gone, and so is
    the rendered configuration when the runtime directory can be resolved.
   */
  function DeletedFiles(files: Store, home: string, name: string): Store
    requires ProfileLocation(home, name).Ok?
  {
    var gone := files - {ProfileLocation(home, name).value};
    if RootReady(gone, home, RuntimeDir) then gone - {ServerRuntimeLocation(home, name).value} else gone
  }

  /**
    The directories after a successful `DeleteServerProfile(name)`: the servers root is resolved
    and the profile path removed should it be an empty directory, then the runtime root is
    resolved and the rendered configuration's path removed likewise.
   */
  function DeletedDirs(files: Store, dirs: set<string>, home: string, name: string): set<string>
    requires ProfileLocation(home, name).Ok?
  {
    var path := ProfileLocation(home, name).value;
    var gone := files - {path};
    var resolved := DirsAfterRemove(files, dirs + MadeDirs(files, home, ServersDir), path) + MadeDirs(gone, home, RuntimeDir);
    if RootReady(gone, home, RuntimeDir) then DirsAfterRemove(gone, resolved, ServerRuntimeLocation(home, name).value)
    else resolved
  }

  /**
    `DeleteServerProfile`: removes the profile file, failing with nothing removed when that is
    impossible, then removes the rendered configuration, ignoring any failure there.
   */
  method DeleteServerProfile(fs: FileSystem<ServerProfile>, home: string, name: string) returns (r: Outcome)
    requires fs.Valid()
    modifies fs
    ensures fs.Valid()
    ensures name == "" ==> r == Fail(InvalidInput) && fs.files == old(fs.files) && fs.dirs == old(fs.dirs)
    ensures r.Fail? ==> fs.files == old(fs.files)
    ensures r.Fail? && name != "" ==> fs.dirs == old(fs.dirs) + MadeDirs(old(fs.files), home, ServersDir)
    ensures (name != "" && RootReady(old(fs.files), home, ServersDir) &&
      ProfileLocation(home, name).value in old(fs.files)) ==> r.Pass?
    ensures (name != "" && RootReady(old(fs.files), home, ServersDir) &&
      ProfileLocation(home, name).value !in old(fs.files).Keys + old(fs.dirs)) ==> r == Fail(NotFound)
    ensures r.Pass? ==> ProfileLocation(home, name).Ok? && ProfileLocation(home, name).value in old(fs.files).Keys + old(fs.dirs)
    ensures r.Pass? ==> fs.files == DeletedFiles(old(fs.files), home, name)
    ensures r.Pass? ==> fs.dirs == DeletedDirs(old(fs.files), old(fs.dirs), home, name)
    ensures r.Pass? ==> ProfileLocation(home, name).value !in fs.files.Keys + fs.dirs
  {
    var path := ServerProfilePath(fs, home, name);
    if path.Err? {
      return Fail(path.error);
    }
    ProfileNotMade(old(fs.files), home, name, ServersDir);
    var removed := fs.Remove(path.value);
    if removed.Fail? {
      return Fail(removed.error);
    }
    ghost var gone := fs.files;
    assert path.value !in fs.files.Keys + fs.dirs;
    ProfileNotMade(gone, home, name, RuntimeDir);
    var runtimePath := ServerRuntimeConfigPath(fs, home, name);
    assert path.value !in fs.files.Keys + fs.dirs;
    if runtimePath.Ok? {
      var _ := fs.Remove(runtimePath.value);
      assert fs.files == gone - {ServerRuntimeLocation(home, name).value};
    }
    return Pass;
  }

  /** After a deletion the profile no longer loads. */
  lemma DeleteForgetsProfile(files: Store, home: string, name: string)
    requires ProfileLocation(home, name).Ok?
    ensures StoredProfile(DeletedFiles(files, home, name), home, name) == Err(NotFound)
  {
  }

  /** After a deletion the profile no longer loads, and every profile stored elsewhere still does. */
  lemma DeleteForgetsOnlyThatProfile(files: Store, home: string, name: string, other: string)
    requires ProfileLocation(home, name).Ok?
    requires ProfileLocation(home, other) != ProfileLocation(home, name)
    ensures StoredProfile(DeletedFiles(files, home, name), home, name) == Err(NotFound)
    ensures StoredProfile(DeletedFiles(files, home, name), home, other) == StoredProfile(files, home, other)
  {
    var after := DeletedFiles(files, home, name);
    if ProfileLocation(home, other).Ok? {
      var q := ProfileLocation(home, other).value;
      var gone := files - {ProfileLocation(home, name).value};
      assert q in gone <==> q in files;
      if RootReady(gone, home, RuntimeDir) {
        ProfileAndRuntimeApart(home, other, name);
        assert q != ServerRuntimeLocation(home, name).value;
      }
      assert q in after <==> q in files;
      assert q in after ==> after[q] == files[q];
    }
  }

  /** The names `ListServerProfiles` reports for a directory listing, in listing order. */
  function ProfileNames(entries: seq<DirEntry>): seq<string> {
    if entries == [] then []
    else ProfileNames(entries[..|entries| - 1]) + ProfileNameOf(entries[|entries| - 1])
  }

  /** The profile name one directory entry contributes: its name without ".json", for a regular JSON file. */
  function ProfileNameOf(e: DirEntry): seq<string> {
    if !e.isDir && Ext(e.name) == ".json" then
      ExtIsSuffix(e.name);
      [e.name[..|e.name| - 5]]
    else []
  }

  lemma ProfileNameOfMeaning(e: DirEntry, n: string)
    ensures n in ProfileNameOf(e) <==> e == DirEntry(n + ".json", false)
  {
    ExtJson(e.name);
    if e == DirEntry(n + ".json", false) {
      assert e.name[..|e.name| - 5] == n;
    }
    if n in ProfileNameOf(e) {
      assert e.name == e.name[..|e.name| - 5] + ".json";
    }
  }

  /** A name is reported exactly when the listing holds a regular file with that name and ".json" after it. */
  lemma {:induction false} ProfileNamesMeaning(entries: seq<DirEntry>, n: string)
    ensures n in ProfileNames(entries) <==>
      exists i :: 0 <= i < |entries| && entries[i] == DirEntry(n + ".json", false)
  {
    if entries != [] {
      var init := entries[..|entries| - 1];
      var e := entries[|entries| - 1];
      ProfileNamesMeaning(init, n);
      ProfileNameOfMeaning(e, n);
      if exists i :: 0 <= i < |init| && init[i] == DirEntry(n + ".json", false) {
        var i :| 0 <= i < |init| && init[i] == DirEntry(n + ".json", false);
        assert entries[i] == init[i];
      }
      if exists i :: 0 <= i < |entries| && entries[i] == DirEntry(n + ".json", false) {
        var i :| 0 <= i < |entries| && entries[i] == DirEntry(n + ".json", false);
        if i < |init| {
          assert init[i] == entries[i];
        }
      }
    }
  }

  /**
    `ListServerProfiles`: the names `n`, without separators, such that `<serversRoot>/<n>.json`
    is a regular file. Directories and files with another extension are skipped.
   */
  method ListServerProfiles(fs: FileSystem<ServerProfile>, home: string) returns (r: Result<seq<string>>)
    requires fs.Valid()
    modifies fs
    ensures fs.Valid() && fs.files == old(fs.files) && fs.dirs == old(fs.dirs) + MadeDirs(old(fs.files), home, ServersDir)
    ensures r.Ok? <==> RootReady(old(fs.files), home, ServersDir)
    ensures r.Ok? ==> forall n :: n in r.value <==>
      '/' !in n && PathJoin(ServersRootPath(home).value, n + ".json") in fs.files
    ensures r.Ok? ==> forall i, j :: 0 <= i < j < |r.value| ==> r.value[i] != r.value[j]
  {
    var root := ServersRoot(fs, home);
    if root.Err? {
      return Err(root.error);
    }
    var entries := fs.ReadDir(root.value);
    if entries.Err? {
      return Err(IOFailure);
    }
    var names := CollectProfileNames(entries.value);
    ListingMeansStored(fs, root.value, entries.value);
    NamesDistinct(entries.value);
    return Ok(names);
  }

  /** A listing that holds each entry once reports each name once. */
  lemma {:induction false} NamesDistinct(entries: seq<DirEntry>)
    requires forall i, j :: 0 <= i < j < |entries| ==> entries[i] != entries[j]
    ensures forall i, j :: 0 <= i < j < |ProfileNames(entries)| ==> ProfileNames(entries)[i] != ProfileNames(entries)[j]
  {
    if entries != [] {
      var init := entries[..|entries| - 1];
      var e := entries[|entries| - 1];
      NamesDistinct(init);
      var names := ProfileNames(init);
      if ProfileNameOf(e) != [] {
        var n := ProfileNameOf(e)[0];
        ProfileNameOfMeaning(e, n);
        ProfileNamesMeaning(init, n);
        assert forall k :: 0 <= k < |init| ==> init[k] == entries[k];
      }
    }
  }

  /** The loop of `ListServerProfiles`: the entries that are regular files named `<n>.json` give `n`. */
  method CollectProfileNames(entries: seq<DirEntry>) returns (names: seq<string>)
    ensures names == ProfileNames(entries)
  {
    names := [];
    var i := 0;
    while i < |entries|
      invariant 0 <= i <= |entries|
      invariant names == ProfileNames(entries[..i])
    {
      var entry := entries[i];
      assert entries[..i + 1][..i] == entries[..i];
      if !entry.isDir && Ext(entry.name) == ".json" {
        ExtIsSuffix(entry.name);
        names := names + [entry.name[..|entry.name| - 5]];
      }
      i := i + 1;
    }
    assert entries[..i] == entries;
  }

  /** The names reported for a listing of the servers directory are exactly its stored profile files. */
  lemma ListingMeansStored(fs: FileSystem<ServerProfile>, root: string, entries: seq<DirEntry>)
    requires fs.Valid() && IsDirPath(root) && fs.Lists(root, entries)
    ensures forall n :: n in ProfileNames(entries) <==> '/' !in n && PathJoin(root, n + ".json") in fs.files
  {
    forall n
      ensures n in ProfileNames(entries) <==> '/' !in n && PathJoin(root, n + ".json") in fs.files
    {
      ProfileFileName(n);
      if '/' !in n {
        JoinVerbatim(root, n + ".json");
      }
      if n in ProfileNames(entries) {
        ListedIsStored(fs, root, entries, n);
      }
      if '/' !in n && PathJoin(root, n + ".json") in fs.files {
        StoredIsListed(fs, root, entries, n);
      }
    }
  }

  /** The file name of a profile holds a separator exactly when the profile name does. */
  lemma ProfileFileName(n: string)
    ensures '/' in n + ".json" <==> '/' in n
  {
    var file := n + ".json";
    assert forall j :: 0 <= j < |n| ==> file[j] == n[j];
    assert forall j :: |n| <= j < |file| ==> file[j] != '/';
  }

  /** Every name reported for a listing of the servers directory is a stored profile file there. */
  lemma ListedIsStored(fs: FileSystem<ServerProfile>, root: string, entries: seq<DirEntry>, n: string)
    requires IsDirPath(root)
    requires forall i :: 0 <= i < |entries| ==> exists p :: p in fs.Children(root) && entries[i] == fs.EntryOf(p)
    requires n in ProfileNames(entries)
    ensures '/' !in n && root + "/" + (n + ".json") in fs.files
  {
    ProfileNamesMeaning(entries, n);
    var i :| 0 <= i < |entries| && entries[i] == DirEntry(n + ".json", false);
    var p :| p in fs.Children(root) && entries[i] == fs.EntryOf(p);
    BaseNoSeparator(p);
    ProfileFileName(n);
    JoinUnique(root, n + ".json");
    assert p in fs.files.Keys + fs.dirs && p !in fs.dirs;
  }

  /** Every profile file stored in the servers directory is reported for its listing. */
  lemma StoredIsListed(fs: FileSystem<ServerProfile>, root: string, entries: seq<DirEntry>, n: string)
    requires fs.Valid() && IsDirPath(root)
    requires forall p :: p in fs.Children(root) ==> fs.EntryOf(p) in entries
    requires '/' !in n && root + "/" + (n + ".json") in fs.files
    ensures n in ProfileNames(entries)
  {
    var q := root + "/" + (n + ".json");
    ProfileFileName(n);
    SplitAtSeparator(root, n + ".json");
    assert |q| > |root|;
    assert q in fs.files.Keys + fs.dirs && q != root && Parent(q) == root;
    assert q in fs.Children(root);
    assert fs.EntryOf(q) == DirEntry(n + ".json", false);
    ProfileNamesMeaning(entries, n);
  }
}
