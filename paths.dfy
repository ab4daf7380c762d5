/**
  The on-disk layout of internal/core/config.go: a configuration root `~/.wirestack` with a
  `servers` directory for profiles and a `runtime` directory for rendered configurations.

  Each `*Path` operation is a name check followed by a file name built under a root; the pure
  functions here take the root (or `home`) as a parameter, and the methods add the directory
  creation the Go functions perform on every call.
 */
module Paths {
  import opened Results
  import opened Text
  import opened Files

  const DefaultConfigDir := ".wirestack"
  const ServersDir := "servers"
  const RuntimeDir := "runtime"

  /** A directory path `PathJoin` appends to verbatim and `Dir` gives back. */
  predicate IsDirPath(root: string) {
    root != "" && root != "." && root[|root| - 1] != '/'
  }

  /** `~/.wirestack` expanded against `home`. */
  function ConfigRootPath(home: string): (r: Result<string>)
    ensures r.Ok? <==> home != ""
    ensures r.Ok? ==> IsDirPath(r.value)
  {
    var r := ExpandPath("~/" + DefaultConfigDir, home);
    if r.Ok? then
      ConfigDirLiteral();
      JoinLast(home, "/" + DefaultConfigDir);
      r
    else r
  }

  /** What expanding `~/.wirestack` works with: the part after `~`, and the directory name. */
  lemma ConfigDirLiteral()
    ensures ("~/" + DefaultConfigDir)[1..] == "/" + DefaultConfigDir
    ensures TrimLeadingSlashes("/" + DefaultConfigDir) == DefaultConfigDir
    ensures '/' !in DefaultConfigDir
  {
    TildeTail(DefaultConfigDir);
    ConfigDirPlain();
    OneLeadingSeparator(DefaultConfigDir);
  }

  /** The configuration directory name is a single path element. */
  lemma ConfigDirPlain()
    ensures DefaultConfigDir != "" && DefaultConfigDir[0] != '/' && '/' !in DefaultConfigDir
  {
    assert forall j :: 0 <= j < |DefaultConfigDir| ==> DefaultConfigDir[j] != '/';
  }

  lemma TildeTail(s: string)
    ensures ("~/" + s)[1..] == "/" + s
  {
  }

  /** The configuration root is the directory `.wirestack` directly inside the home directory. */
  lemma ConfigRootInHome(home: string)
    requires TrimTrailingSlashes(home) != ""
    ensures Dir(ConfigRootPath(home).value) == TrimTrailingSlashes(home)
    ensures Base(ConfigRootPath(home).value) == DefaultConfigDir
  {
    ConfigDirPlain();
    HomeEntry(home, DefaultConfigDir);
  }

  /** `~/name` names the entry `name` directly inside the home directory. */
  lemma HomeEntry(home: string, name: string)
    requires TrimTrailingSlashes(home) != ""
    requires name != "" && name[0] != '/' && '/' !in name
    ensures ExpandPath("~/" + name, home) == Ok(TrimTrailingSlashes(home) + "/" + name)
    ensures Dir(TrimTrailingSlashes(home) + "/" + name) == TrimTrailingSlashes(home)
    ensures Base(TrimTrailingSlashes(home) + "/" + name) == name
  {
    TildeTail(name);
    OneLeadingSeparator(name);
    assert ("/" + name)[|name|] == name[|name| - 1];
    JoinTrimmed(home, "/" + name);
    SplitAtSeparator(TrimTrailingSlashes(home), name);
  }

  /** A subdirectory (`servers` or `runtime`) of the configuration root. */
  function SubRootPath(home: string, sub: string): (r: Result<string>)
    requires sub == ServersDir || sub == RuntimeDir
    ensures r.Ok? <==> home != ""
    ensures r.Ok? ==> IsDirPath(r.value) && r.value == ConfigRootPath(home).value + "/" + sub
  {
    match ConfigRootPath(home)
    case Err(e) => Err(e)
    case Ok(root) =>
      SubdirNamesPlain();
      JoinVerbatim(root, sub);
      Ok(PathJoin(root, sub))
  }

  /** A subdirectory lies directly inside the configuration root. */
  lemma SubRootSplits(home: string, sub: string)
    requires sub == ServersDir || sub == RuntimeDir
    requires home != ""
    ensures Dir(SubRootPath(home, sub).value) == ConfigRootPath(home).value
    ensures Base(SubRootPath(home, sub).value) == sub
  {
    SubdirNamesPlain();
    SplitAtSeparator(ConfigRootPath(home).value, sub);
  }

  /** The subdirectory names are single path elements. */
  lemma SubdirNamesPlain()
    ensures ServersDir != "" && '/' !in ServersDir && ServersDir[|ServersDir| - 1] != '/'
    ensures RuntimeDir != "" && '/' !in RuntimeDir && RuntimeDir[|RuntimeDir| - 1] != '/'
  {
    assert forall j :: 0 <= j < |ServersDir| ==> ServersDir[j] != '/';
    assert forall j :: 0 <= j < |RuntimeDir| ==> RuntimeDir[j] != '/';
  }

  function ServersRootPath(home: string): Result<string> {
    SubRootPath(home, ServersDir)
  }

  function RuntimeRootPath(home: string): Result<string> {
    SubRootPath(home, RuntimeDir)
  }

  /** The servers and runtime directories are two different directories. */
  lemma RootsDistinct(home: string)
    requires home != ""
    ensures ServersRootPath(home).value != RuntimeRootPath(home).value
  {
    SubRootSplits(home, ServersDir);
    SubRootSplits(home, RuntimeDir);
    assert Base(ServersRootPath(home).value) != Base(RuntimeRootPath(home).value);
  }

  /** `<serversRoot>/<name>.json`; an empty name is refused. */
  function ServerProfilePathIn(serversRoot: string, name: string): (r: Result<string>)
    ensures r.Err? <==> name == ""
    ensures r.Err? ==> r.error == InvalidInput
    ensures r.Ok? && IsDirPath(serversRoot) && '/' !in name ==>
      Dir(r.value) == serversRoot && Base(r.value) == name + ".json" && Ext(r.value) == ".json"
  {
    if name == "" then Err(InvalidInput)
    else
      if IsDirPath(serversRoot) && '/' !in name then
        ProfileFileSplits(serversRoot, name);
        Ok(PathJoin(serversRoot, name + ".json"))
      else Ok(PathJoin(serversRoot, name + ".json"))
  }

  lemma ProfileFileSplits(serversRoot: string, name: string)
    requires IsDirPath(serversRoot) && name != "" && '/' !in name
    ensures var p := PathJoin(serversRoot, name + ".json");
      Dir(p) == serversRoot && Base(p) == name + ".json" && Ext(p) == ".json"
  {
    var file := name + ".json";
    assert '/' !in file;
    JoinSplits(serversRoot, file);
    JsonFileExt(serversRoot + "/", name);
  }

  /** A file named `<name>.json`, wherever it lies, has the extension `.json`. */
  lemma JsonFileExt(dir: string, name: string)
    ensures Ext(dir + (name + ".json")) == ".json"
  {
    var file := name + ".json";
    assert HasSuffix(file, ".json") by {
      assert file[|file| - 5..] == ".json";
    }
    SuffixKept(dir, file, ".json");
    ExtJson(dir + file);
  }

  lemma SuffixKept(prefix: string, s: string, suffix: string)
    requires HasSuffix(s, suffix)
    ensures HasSuffix(prefix + s, suffix)
  {
    var t := prefix + s;
    assert t[|t| - |suffix|..] == s[|s| - |suffix|..];
  }

  /** Different separator-free names are stored in different profile files. */
  lemma ProfilePathInjective(serversRoot: string, a: string, b: string)
    requires IsDirPath(serversRoot) && a != "" && b != "" && '/' !in a && '/' !in b
    requires ServerProfilePathIn(serversRoot, a) == ServerProfilePathIn(serversRoot, b)
    ensures a == b
  {
    var base := Base(ServerProfilePathIn(serversRoot, a).value);
    assert base[..|base| - 5] == a;
    assert base[..|base| - 5] == b;
  }

  /** `<runtimeRoot>/<name>.conf`; an empty name is refused. */
  function ServerRuntimeConfigPathIn(runtimeRoot: string, name: string): (r: Result<string>)
    ensures r.Err? <==> name == ""
    ensures r.Err? ==> r.error == InvalidInput
    ensures r.Ok? && IsDirPath(runtimeRoot) && '/' !in name ==>
      Dir(r.value) == runtimeRoot && Base(r.value) == name + ".conf"
  {
    if name == "" then Err(InvalidInput)
    else
      if IsDirPath(runtimeRoot) && '/' !in name then
        assert '/' !in name + ".conf";
        JoinSplits(runtimeRoot, name + ".conf");
        Ok(PathJoin(runtimeRoot, name + ".conf"))
      else Ok(PathJoin(runtimeRoot, name + ".conf"))
  }

  /** The file name a client configuration is rendered to. */
  function ClientFileName(serverName: string, clientName: string): string {
    "client-" + serverName + "-" + clientName + ".conf"
  }

  /**
    `<runtimeRoot>/client-<server>-<client>.conf`; an empty server name is refused first,
    then an empty client name.
   */
  function ClientRuntimeConfigPathIn(runtimeRoot: string, serverName: string, clientName: string): (r: Result<string>)
    ensures r.Err? <==> serverName == "" || clientName == ""
    ensures r.Err? ==> r.error == InvalidInput
    ensures r.Ok? && IsDirPath(runtimeRoot) && '/' !in serverName && '/' !in clientName ==>
      Dir(r.value) == runtimeRoot && Base(r.value) == ClientFileName(serverName, clientName)
  {
    if serverName == "" then Err(InvalidInput)
    else if clientName == "" then Err(InvalidInput)
    else
      var file := ClientFileName(serverName, clientName);
      if IsDirPath(runtimeRoot) && '/' !in serverName && '/' !in clientName then
        assert '/' !in file;
        JoinSplits(runtimeRoot, file);
        Ok(PathJoin(runtimeRoot, file))
      else Ok(PathJoin(runtimeRoot, file))
  }

  /**
    The client file name does not tell the two names apart: server "a-b" with client "c"
    and server "a" with client "b-c" share one runtime file.
   */
  lemma ClientPathsCollide(runtimeRoot: string)
    ensures ClientRuntimeConfigPathIn(runtimeRoot, "a-b", "c") == ClientRuntimeConfigPathIn(runtimeRoot, "a", "b-c")
  {
    assert ClientFileName("a-b", "c") == ClientFileName("a", "b-c");
  }

  // ---------------------------------------------------------------- paths resolved from home

  function ProfileLocation(home: string, name: string): Result<string> {
    if name == "" then Err(InvalidInput)
    else match ServersRootPath(home)
      case Err(e) => Err(e)
      case Ok(root) => ServerProfilePathIn(root, name)
  }

  function ServerRuntimeLocation(home: string, name: string): Result<string> {
    if name == "" then Err(InvalidInput)
    else match RuntimeRootPath(home)
      case Err(e) => Err(e)
      case Ok(root) => ServerRuntimeConfigPathIn(root, name)
  }

  function ClientRuntimeLocation(home: string, serverName: string, clientName: string): Result<string> {
    if serverName == "" || clientName == "" then Err(InvalidInput)
    else match RuntimeRootPath(home)
      case Err(e) => Err(e)
      case Ok(root) => ClientRuntimeConfigPathIn(root, serverName, clientName)
  }

  /** A profile file and a rendered server configuration never share a path. */
  lemma ProfileAndRuntimeApart(home: string, a: string, b: string)
    requires ProfileLocation(home, a).Ok? && ServerRuntimeLocation(home, b).Ok?
    ensures ProfileLocation(home, a).value != ServerRuntimeLocation(home, b).value
  {
    ProfileEndsInN(home, a);
    RuntimeEndsInF(home, b);
  }

  /** A profile file is never one of the directories the roots resolve to. */
  lemma ProfileIsNoRoot(home: string, name: string, sub: string)
    requires sub == ServersDir || sub == RuntimeDir
    requires ProfileLocation(home, name).Ok?
    ensures ProfileLocation(home, name).value != ConfigRootPath(home).value
    ensures ProfileLocation(home, name).value != SubRootPath(home, sub).value
  {
    ProfileEndsInN(home, name);
    ConfigRootEndsInK(home);
    SubRootEndsInSub(home, sub);
  }

  /** A subdirectory path ends in the last letter of the subdirectory's name. */
  lemma SubRootEndsInSub(home: string, sub: string)
    requires sub == ServersDir || sub == RuntimeDir
    requires home != ""
    ensures SubRootPath(home, sub).value[|SubRootPath(home, sub).value| - 1] == sub[|sub| - 1]
  {
    SubdirNamesPlain();
    JoinLast(ConfigRootPath(home).value, sub);
  }

  /** A profile path ends in the `n` of `.json`, which tells it apart from paths ending otherwise. */
  lemma ProfileEndsInN(home: string, name: string)
    requires ProfileLocation(home, name).Ok?
    ensures ProfileLocation(home, name).value[|ProfileLocation(home, name).value| - 1] == 'n'
  {
    var file := name + ".json";
    assert file[|file| - 1] == 'n';
    JoinLast(ServersRootPath(home).value, file);
  }

  /** A rendered server configuration path ends in the `f` of `.conf`. */
  lemma RuntimeEndsInF(home: string, name: string)
    requires ServerRuntimeLocation(home, name).Ok?
    ensures ServerRuntimeLocation(home, name).value[|ServerRuntimeLocation(home, name).value| - 1] == 'f'
  {
    var file := name + ".conf";
    assert file[|file| - 1] == 'f';
    JoinLast(RuntimeRootPath(home).value, file);
  }

  /** The configuration root ends in the `k` of `.wirestack`, so it is neither a profile nor a runtime file. */
  lemma ConfigRootEndsInK(home: string)
    requires home != ""
    ensures ConfigRootPath(home).value[|ConfigRootPath(home).value| - 1] == 'k'
  {
    ConfigDirLiteral();
    JoinLast(home, "/" + DefaultConfigDir);
  }

  // ---------------------------------------------------------------- directory creation

  /**
    The directories `ServersRoot`/`RuntimeRoot` create: the configuration root unless a file is
    in its way, then the subdirectory unless a file is in its way.
   */
  function MadeDirs<V>(files: map<string, File<V>>, home: string, sub: string): set<string>
    requires sub == ServersDir || sub == RuntimeDir
  {
    if home == "" then {}
    else
      var root := ConfigRootPath(home).value;
      var dir := SubRootPath(home, sub).value;
      if root in files then {} else if dir in files then {root} else {root, dir}
  }

  /** The configuration root and the subdirectory `sub` can both be created or already exist. */
  predicate RootReady<V>(files: map<string, File<V>>, home: string, sub: string)
    requires sub == ServersDir || sub == RuntimeDir
  {
    home != "" && ConfigRootPath(home).value !in files && SubRootPath(home, sub).value !in files
  }

  /** Resolving the roots never creates a directory where a profile file goes. */
  lemma ProfileNotMade<V>(files: map<string, File<V>>, home: string, name: string, sub: string)
    requires sub == ServersDir || sub == RuntimeDir
    requires ProfileLocation(home, name).Ok?
    ensures ProfileLocation(home, name).value !in MadeDirs(files, home, sub)
  {
    ProfileIsNoRoot(home, name, sub);
    MadeWithin(files, home, sub);
  }

  /**
    Resolving a root again once it has been made creates nothing: the directories a resolution
    makes are the configuration root and the subdirectory, both already there.
   */
  lemma RootsSettled<V>(files: map<string, File<V>>, dirs: set<string>, home: string, sub: string)
    requires sub == ServersDir || sub == RuntimeDir
    requires home != "" && ConfigRootPath(home).value in dirs && SubRootPath(home, sub).value in dirs
    ensures dirs + MadeDirs(files, home, sub) == dirs
  {
    MadeWithin(files, home, sub);
    Absorbs(dirs, MadeDirs(files, home, sub), ConfigRootPath(home).value, SubRootPath(home, sub).value);
  }

  lemma MadeWithin<V>(files: map<string, File<V>>, home: string, sub: string)
    requires sub == ServersDir || sub == RuntimeDir
    requires home != ""
    ensures MadeDirs(files, home, sub) <= {ConfigRootPath(home).value, SubRootPath(home, sub).value}
  {
  }

  lemma Absorbs(dirs: set<string>, made: set<string>, root: string, dir: string)
    requires made <= {root, dir} && root in dirs && dir in dirs
    ensures dirs + made == dirs
  {
  }

  /** `ConfigRoot`: resolves `~/.wirestack` and makes sure the directory exists. */
  method ConfigRoot<V>(fs: FileSystem<V>, home: string) returns (r: Result<string>)
    requires fs.Valid()
    modifies fs
    ensures fs.Valid() && fs.files == old(fs.files)
    ensures r.Ok? <==> home != "" && ConfigRootPath(home).value !in fs.files
    ensures r.Ok? ==> r == ConfigRootPath(home) && fs.dirs == old(fs.dirs) + {r.value}
    ensures r.Err? ==> fs.dirs == old(fs.dirs)
  {
    var homePath := ExpandPath("~/" + DefaultConfigDir, home);
    if homePath.Err? {
      return homePath;
    }
    var made := fs.EnsureDir(homePath.value);
    if made.Fail? {
      return Err(made.error);
    }
    return homePath;
  }

  /**
    Shared body of `ServersRoot` and `RuntimeRoot`: the subdirectory `sub` of the configuration
    root, created if absent. A second call after a successful one changes nothing.
   */
  method SubRoot<V>(fs: FileSystem<V>, home: string, sub: string) returns (r: Result<string>)
    requires sub == ServersDir || sub == RuntimeDir
    requires fs.Valid()
    modifies fs
    ensures fs.Valid() && fs.files == old(fs.files)
    ensures r.Ok? <==> RootReady(old(fs.files), home, sub)
    ensures r.Ok? ==> r == SubRootPath(home, sub) && r.value in fs.dirs
    ensures fs.dirs == old(fs.dirs) + MadeDirs(old(fs.files), home, sub)
  {
    ghost var files0, dirs0 := fs.files, fs.dirs;
    var root := ConfigRoot(fs, home);
    if root.Err? {
      MadeNothing(files0, home, sub);
      return root;
    }
    var dir := PathJoin(root.value, sub);
    MadeUnderRoot(files0, home, sub);
    var made := fs.EnsureDir(dir);
    if made.Fail? {
      return Err(made.error);
    }
    return Ok(dir);
  }

  /** No directory is made when the configuration root cannot be. */
  lemma MadeNothing<V>(files: map<string, File<V>>, home: string, sub: string)
    requires sub == ServersDir || sub == RuntimeDir
    requires home == "" || ConfigRootPath(home).value in files
    ensures MadeDirs(files, home, sub) == {} && !RootReady(files, home, sub)
  {
  }

  /** Once the configuration root is made, the subdirectory is made unless a file is in its way. */
  lemma MadeUnderRoot<V>(files: map<string, File<V>>, home: string, sub: string)
    requires sub == ServersDir || sub == RuntimeDir
    requires home != "" && ConfigRootPath(home).value !in files
    ensures SubRootPath(home, sub) == Ok(PathJoin(ConfigRootPath(home).value, sub))
    ensures PathJoin(ConfigRootPath(home).value, sub) != ""
    ensures MadeDirs(files, home, sub) ==
      {ConfigRootPath(home).value} + if SubRootPath(home, sub).value in files then {} else {SubRootPath(home, sub).value}
    ensures RootReady(files, home, sub) <==> SubRootPath(home, sub).value !in files
  {
    SubRootJoined(home, sub);
  }

  lemma SubRootJoined(home: string, sub: string)
    requires sub == ServersDir || sub == RuntimeDir
    requires home != ""
    ensures SubRootPath(home, sub) == Ok(PathJoin(ConfigRootPath(home).value, sub))
    ensures PathJoin(ConfigRootPath(home).value, sub) != ""
  {
    SubdirNamesPlain();
    JoinVerbatim(ConfigRootPath(home).value, sub);
  }

  /** `ServersRoot`: the directory holding the profile files. */
  method ServersRoot<V>(fs: FileSystem<V>, home: string) returns (r: Result<string>)
    requires fs.Valid()
    modifies fs
    ensures fs.Valid() && fs.files == old(fs.files)
    ensures r.Ok? <==> RootReady(old(fs.files), home, ServersDir)
    ensures r.Ok? ==> r == ServersRootPath(home) && r.value in fs.dirs
    ensures fs.dirs == old(fs.dirs) + MadeDirs(old(fs.files), home, ServersDir)
  {
    r := SubRoot(fs, home, ServersDir);
  }

  /** `RuntimeRoot`: the directory holding the rendered configuration files. */
  method RuntimeRoot<V>(fs: FileSystem<V>, home: string) returns (r: Result<string>)
    requires fs.Valid()
    modifies fs
    ensures fs.Valid() && fs.files == old(fs.files)
    ensures r.Ok? <==> RootReady(old(fs.files), home, RuntimeDir)
    ensures r.Ok? ==> r == RuntimeRootPath(home) && r.value in fs.dirs
    ensures fs.dirs == old(fs.dirs) + MadeDirs(old(fs.files), home, RuntimeDir)
  {
    r := SubRoot(fs, home, RuntimeDir);
  }

  /** `ServerProfilePath`: refuses an empty name before touching any directory. */
  method ServerProfilePath<V>(fs: FileSystem<V>, home: string, name: string) returns (r: Result<string>)
    requires fs.Valid()
    modifies fs
    ensures fs.Valid() && fs.files == old(fs.files)
    ensures name == "" ==> r == Err(InvalidInput) && fs.dirs == old(fs.dirs)
    ensures name != "" ==> fs.dirs == old(fs.dirs) + MadeDirs(old(fs.files), home, ServersDir)
    ensures r.Ok? <==> name != "" && RootReady(old(fs.files), home, ServersDir)
    ensures r.Ok? ==> r == ProfileLocation(home, name)
  {
    if name == "" {
      return Err(InvalidInput);
    }
    var root := ServersRoot(fs, home);
    if root.Err? {
      return root;
    }
    r := ServerProfilePathIn(root.value, name);
  }

  /** `ServerRuntimeConfigPath`: refuses an empty name before touching any directory. */
  method ServerRuntimeConfigPath<V>(fs: FileSystem<V>, home: string, name: string) returns (r: Result<string>)
    requires fs.Valid()
    modifies fs
    ensures fs.Valid() && fs.files == old(fs.files)
    ensures name == "" ==> r == Err(InvalidInput) && fs.dirs == old(fs.dirs)
    ensures name != "" ==> fs.dirs == old(fs.dirs) + MadeDirs(old(fs.files), home, RuntimeDir)
    ensures r.Ok? <==> name != "" && RootReady(old(fs.files), home, RuntimeDir)
    ensures r.Ok? ==> r == ServerRuntimeLocation(home, name)
  {
    if name == "" {
      return Err(InvalidInput);
    }
    var root := RuntimeRoot(fs, home);
    if root.Err? {
      return root;
    }
    r := ServerRuntimeConfigPathIn(root.value, name);
  }

  /** `ClientRuntimeConfigPath`: refuses an empty server name, then an empty client name, before touching any directory. */
  method ClientRuntimeConfigPath<V>(fs: FileSystem<V>, home: string, serverName: string, clientName: string)
    returns (r: Result<string>)
    requires fs.Valid()
    modifies fs
    ensures fs.Valid() && fs.files == old(fs.files)
    ensures serverName == "" || clientName == "" ==> r == Err(InvalidInput) && fs.dirs == old(fs.dirs)
    ensures serverName != "" && clientName != "" ==> fs.dirs == old(fs.dirs) + MadeDirs(old(fs.files), home, RuntimeDir)
    ensures r.Ok? <==> serverName != "" && clientName != "" && RootReady(old(fs.files), home, RuntimeDir)
    ensures r.Ok? ==> r == ClientRuntimeLocation(home, serverName, clientName)
  {
    if serverName == "" {
      return Err(InvalidInput);
    }
    if clientName == "" {
      return Err(InvalidInput);
    }
    var root := RuntimeRoot(fs, home);
    if root.Err? {
      return root;
    }
    r := ClientRuntimeConfigPathIn(root.value, serverName, clientName);
  }
}
