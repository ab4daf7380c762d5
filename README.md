# WireStack profile store and WireGuard rendering, in Dafny

WireStack is a command-line tool that keeps WireGuard server profiles as JSON files under
`~/.wirestack/servers`. It adds clients to a profile, handing each the next free address in
10.0.0.0/24. It renders `wg-quick` configuration files for the server and its clients into
`~/.wirestack/runtime`. This project models the core of that tool and proves what its code
promises:

- `results.dfy` (`Results`): the error kinds every operation reports, and `Option`, `Result` and `Outcome`.
- `text.dfy` (`Text`): text helpers the Go code takes from its standard library.
  - `strings.Join`.
  - Decimal formatting with `%d`, with a parser that undoes it.
  - Writing lines with `\n` terminators, and splitting text back into lines.
  - First and last index of a character.
- `files.dfy` (`Files`): `internal/utils/files.go` and the `os` and `path/filepath` primitives it rests on.
  - Pure functions: `filepath.Join`, `Dir`, `Base` and `Ext` on clean paths, and `ExpandPath` with the home directory as a parameter.
  - The class `FileSystem<V>` holds a map of regular files (content and mode) and a set of directories.
  - Its methods `EnsureDir`, `WriteFile`, `ReadFile`, `WriteJSON`, `ReadJSON`, `Remove`, `Stat` and `ReadDir` update or read that state in place.
- `paths.dfy` (`Paths`): `internal/core/config.go`.
  - The layout `~/.wirestack/{servers,runtime}` as pure functions of `home`.
  - The `*Path` functions as name checks plus a file name under a root.
  - Methods that also create the directories, as the Go functions do on every call.
- `hostport.dfy` (`HostPort`): Go's `net.SplitHostPort`, including bracketed IPv6 hosts, and `net.JoinHostPort` as its inverse.
- `wgsyntax.dfy` (`WgSyntax`): a reader for the part of the wg(8) configuration format that WireStack writes.
  - It covers `[Section]` headers, `Key = Value` entries and blank lines.
  - It serves as the independent reference the renderers are checked against.
- `profiles.dfy` (`Profiles`): `internal/core/profiles.go`.
  - The profile records, address allocation and client lookup.
  - The profile store, which is the JSON files of the servers directory.
  - The invariant every command keeps: client names are distinct, and client `i` holds host `i + 2`.
- `wireguard.dfy` (`WireGuard`): `internal/core/wireguard.go`.
  - The client configuration as a function.
  - The server configuration as a `strings.Builder` loop over the clients.
  - The two write operations over the file system.
- `commands.dfy` (`Commands`): the `RunE` bodies of `add-server`, `delete-server`, `add-client`, `export-client` and `down` in `cmd/wirestack/main.go`.
  - Each is a method over the file system.
  - The key pair from `wg genkey`/`wg pubkey` and the outcome of `wg-quick` are parameters.

The home directory is a parameter `home`; `""` stands for `os.UserHomeDir` failing. A profile
file holds a `Json(profile)` value, so encoding it and decoding it again gives the same record by
construction. A rendered configuration is a `Text(string)` value.

## Model

| member | source | states |
|---|---|---|
| Files.ExpandPath | WireStack/internal/utils/files.go:11-23 | The empty path is refused with InvalidInput. A path not starting with `~` comes back unchanged. A `~` path fails when there is no home directory, and otherwise becomes `filepath.Join(home, rest after ~)`. |
| Files.ExpandCleansTrailingSeparator | WireStack/internal/utils/files.go:22 | `~/name/` expands to `<home>/name`: `filepath.Join` drops the trailing separator. |
| Files.ExpandIdempotent | WireStack/internal/utils/files.go:15-22 | Expanding an expanded path again changes nothing (for a home directory that does not itself start with `~`). |
| Files.PathJoin | WireStack/internal/utils/files.go:22 | `filepath.Join` of two elements is empty exactly when both are empty. Otherwise it never ends in a separator, unless it is the root `/`. |
| Files.Dir | WireStack/internal/utils/files.go:41 | The model's `Dir` is never empty, and a path without a separator gives `.`. A path with one gives `/` or a prefix of itself that does not end in a separator. The separators before the last element are dropped, so `a//b` gives `a`, as `filepath.Dir` does. |
| Files.Ext | WireStack/internal/core/profiles.go:76 | `filepath.Ext` is empty or starts with `.`, and never holds a separator. |
| Files.JoinSplits | WireStack/internal/core/config.go:63 | Joining a directory path and a separator-free name gives `root/name`, and `Dir`/`Base` split it back into exactly those two. The filesystem files it under `root`. |
| Files.JoinUnique | WireStack/internal/core/config.go:63 | Among the paths the filesystem files under `root`, `root/name` is the only one whose last element is `name`. |
| Files.ExtJson | WireStack/internal/core/profiles.go:76 | `filepath.Ext(name) == ".json"` holds exactly when the name ends in `.json`. |
| Files.FileSystem.EnsureDir | WireStack/internal/utils/files.go:26-34 | Fails on the empty path (InvalidInput) and on a path held by a regular file. Otherwise the directory exists afterwards and nothing else changes; an existing directory is left as it is. |
| Files.FileSystem.WriteFile | WireStack/internal/utils/files.go:37-48 | Fails on the empty path, on a path ending in a separator, and when the parent or the path itself cannot hold the file (a directory is there). On success only that path changes: it gets the new content and a new file gets `perm`. On failure no file changes. The directories afterwards are the old ones plus exactly the parent, unless a file is in the parent's way. |
| Files.FileSystem.ReadFile | WireStack/internal/utils/files.go:51-60 | Fails on the empty path (InvalidInput) and a missing file (NotFound), and otherwise returns the stored content. Nothing changes. |
| Files.FileSystem.WriteJSON | WireStack/internal/utils/files.go:63-72 | As WriteFile, storing the value itself. |
| Files.FileSystem.ReadJSON | WireStack/internal/utils/files.go:75-84 | Returns the stored value. A missing file gives NotFound and a file that holds text gives CorruptData. |
| Files.FileSystem.Remove | WireStack/internal/core/profiles.go:90-92 | `os.Remove`: succeeds on a file or an empty directory and removes exactly that path, a directory only when it has no children. A missing path fails with NotFound, and a failure changes nothing. |
| Files.FileSystem.Stat | WireStack/internal/core/profiles.go:106-113 | Finds a path exactly when a file or a directory is there. |
| Files.FileSystem.ReadDir | WireStack/internal/core/profiles.go:67-70 | Fails unless the directory exists, and otherwise lists every child of the directory exactly once and nothing else. |
| Text.DecimalRoundTrip | WireStack/internal/core/profiles.go:131-132 | Parsing the decimal text of a number gives the number back. |
| Text.SplitUnlines | WireStack/internal/core/wireguard.go:35-47 | Text written as newline-terminated lines, none of which holds a line break, splits back into exactly those lines. |
| Text.JoinEnds | WireStack/internal/core/wireguard.go:39 | `strings.Join` of no parts is empty. Otherwise the result starts with the first part and ends with the last. |
| Text.JoinLacks | WireStack/internal/core/wireguard.go:39 | A `strings.Join` result holds a character only if a part or the separator holds it. |
| HostPort.SplitHostPort | WireStack/internal/core/wireguard.go:55-58 | Fails with InvalidInput on text without a colon. A result reassembles the input as `host:port` or `[host]:port`. The port holds no colon or bracket, and a host with a colon came from brackets. |
| HostPort.SplitJoin | WireStack/internal/core/wireguard.go:55-58 | `SplitHostPort(JoinHostPort(host, port)) == (host, port)` for every bracket-free host and port, with or without a colon in the host. |
| HostPort.MissingPortRefused | WireStack/internal/core/wireguard.go:55-58 | `203.0.113.1` does not split. |
| HostPort.PortOfEndpoint | WireStack/internal/core/wireguard.go:55-58 | `203.0.113.1:51820` splits into `203.0.113.1` and `51820`. |
| HostPort.BracketedIPv6 | WireStack/internal/core/wireguard.go:55-58 | `[fd00::1]:51820` splits into `fd00::1` and `51820`. |
| HostPort.UnbracketedIPv6Refused | WireStack/internal/core/wireguard.go:55-58 | `fd00::1:51820` does not split. |
| WgSyntax.ClassifyEntry | WireStack/internal/core/wireguard.go:36 | A written `Key = Value` line is read back as that entry when the key is non-empty, holds no space and does not start with `[`. |
| WgSyntax.ReadWrittenSection | WireStack/internal/core/wireguard.go:64-69 | A written section, followed by blank lines and then another section or the end, is read back and reading goes on after it. |
| WgSyntax.ReadTwoSections | WireStack/internal/core/wireguard.go:35-47 | Two sections separated by one blank line read back as those two sections. |
| WgSyntax.ReadDocument | WireStack/internal/core/wireguard.go:64-79 | Sections written one after the other, each followed by a blank line, read back as the same sections. |
| WgSyntax.DocumentWithoutNewlines | WireStack/internal/core/wireguard.go:64-79 | Sections whose names, keys and values hold no line break are written as lines that hold none either. |
| Paths.ConfigRootPath | WireStack/internal/core/config.go:17-21 | `~/.wirestack` resolves exactly when there is a home directory, to a directory path. |
| Paths.ConfigRootInHome | WireStack/internal/core/config.go:11 | The configuration root is the entry `.wirestack` directly inside the home directory. |
| Paths.SubRootPath | WireStack/internal/core/config.go:34 | The servers and runtime directories resolve exactly when the configuration root does, to `root/servers` and `root/runtime`. |
| Paths.SubRootSplits | WireStack/internal/core/config.go:12-13 | `servers` and `runtime` lie directly inside the configuration root. |
| Paths.RootsDistinct | WireStack/internal/core/config.go:12-13 | The servers directory and the runtime directory are different paths. |
| Paths.ServerProfilePathIn | WireStack/internal/core/config.go:55-64 | The empty name is refused with InvalidInput. Otherwise the path is `<serversRoot>/<name>.json`, with Dir, Base and Ext as expected. |
| Paths.ProfilePathInjective | WireStack/internal/core/config.go:63 | Different separator-free names are stored in different files. |
| Paths.ServerRuntimeConfigPathIn | WireStack/internal/core/config.go:67-76 | The empty name is refused with InvalidInput; otherwise `<runtimeRoot>/<name>.conf`. |
| Paths.ClientRuntimeConfigPathIn | WireStack/internal/core/config.go:79-92 | Refused exactly when the server name or the client name is empty (server name checked first). Otherwise the path is `<runtimeRoot>/client-<server>-<client>.conf`. |
| Paths.ClientPathsCollide | WireStack/internal/core/config.go:90 | Server `a-b` with client `c` and server `a` with client `b-c` share one runtime file. |
| Paths.ProfileAndRuntimeApart | WireStack/internal/core/config.go:63-75 | A profile file and a rendered server configuration never share a path. |
| Paths.ProfileIsNoRoot | WireStack/internal/core/config.go:18-63 | A profile file is never the configuration root or one of its subdirectories. |
| Paths.ProfileNotMade | WireStack/internal/core/config.go:29-52 | Resolving a root never creates a directory where a profile file goes. |
| Paths.RootsSettled | WireStack/internal/core/config.go:29-52 | Once both directories exist, resolving the root again creates nothing. |
| Paths.ConfigRoot | WireStack/internal/core/config.go:17-26 | Succeeds exactly when there is a home directory and no file in the root's place. Then it returns `ConfigRootPath(home)`, which is a directory afterwards. Files never change. |
| Paths.SubRoot | WireStack/internal/core/config.go:29-52 | Succeeds exactly when both directories can be made or already exist, and then returns `SubRootPath`. The directories afterwards are the old ones plus exactly `MadeDirs`: the root unless a file is in its way, then the subdirectory unless a file is in its way. |
| Paths.ServersRoot | WireStack/internal/core/config.go:29-39 | SubRoot for `servers`. |
| Paths.RuntimeRoot | WireStack/internal/core/config.go:42-52 | SubRoot for `runtime`. |
| Paths.ServerProfilePath | WireStack/internal/core/config.go:55-64 | The empty name is refused before any directory is touched. Otherwise it is ServersRoot followed by ServerProfilePathIn. |
| Paths.ServerRuntimeConfigPath | WireStack/internal/core/config.go:67-76 | The empty name is refused before any directory is touched. Otherwise it is RuntimeRoot followed by ServerRuntimeConfigPathIn. |
| Paths.ClientRuntimeConfigPath | WireStack/internal/core/config.go:79-92 | Either empty name is refused before any directory is touched. Otherwise it is RuntimeRoot followed by ClientRuntimeConfigPathIn. |
| Profiles.NextClientAddress | WireStack/internal/core/profiles.go:117-133 | Fails with CapacityExceeded exactly when 2 + n >= 255 for n clients. Otherwise returns `10.0.0.<2+n>/32`, which parses back to host 2 + n. |
| Profiles.ClientAddress | WireStack/internal/core/profiles.go:131-132 | `10.0.0.<host>/32` parses back to its host number. |
| Profiles.ClientAddressInjective | WireStack/internal/core/profiles.go:131-132 | Different hosts get different addresses. |
| Profiles.AddressesDistinct | WireStack/internal/core/profiles.go:123-132 | Addresses handed out by position are pairwise different. |
| Profiles.NextAddressFresh | WireStack/internal/core/profiles.go:123-132 | The next address differs from the address of every existing client. |
| Profiles.ClientNamed | WireStack/internal/core/profiles.go:136-143 | Fails with NotFound exactly when no client has the name. Otherwise returns a client with that name that no earlier client shares, so the first in list order wins. |
| Profiles.FindClient | WireStack/internal/core/profiles.go:136-143 | The search loop returns `ClientNamed(clients, name)`. |
| Profiles.DefaultProfileWellFormed | WireStack/internal/core/profiles.go:146-156 | A new profile has no clients, so it is well formed. Its first client gets host 2, and the server address `10.0.0.1/24` is not a client address. |
| Profiles.AppendKeepsWellFormed | WireStack/cmd/wirestack/main.go:176-198 | Appending a client under a new name at the next address keeps names distinct, addresses by position and the count within range. |
| Profiles.TextWriteKeepsStore | WireStack/internal/core/wireguard.go:92-94 | Overwriting any file with text never breaks the store invariant. |
| Profiles.SaveKeepsStore | WireStack/internal/core/profiles.go:42-44 | Saving a well-formed profile under its own name keeps the store invariant. |
| Profiles.RemoveKeepsStore | WireStack/internal/core/profiles.go:90-96 | Removing files keeps the store invariant. |
| Profiles.SaveServerProfile | WireStack/internal/core/profiles.go:34-46 | A nil profile is refused with nothing changed. Success holds exactly when the name is set, the servers directory is ready and the profile path is writable. Then only the profile file changes (mode 0o600 when new), and loading that name gives back the same record. Failure changes no file. The directories afterwards are exactly the old ones plus the servers roots made and the profile's parent. |
| Profiles.LoadServerProfile | WireStack/internal/core/profiles.go:49-59 | The empty name is refused with InvalidInput. Once the servers directory is ready, the result is the stored profile, or NotFound or CorruptData. No file changes, and the directories gain exactly the servers roots made. |
| Profiles.ProfileExists | WireStack/internal/core/profiles.go:101-114 | The empty name is refused. Otherwise it answers exactly when the servers directory is ready, and reports whether a file or a directory was at the profile path beforehand. The directories gain exactly the servers roots made. |
| Profiles.DeleteServerProfile | WireStack/internal/core/profiles.go:85-98 | The empty name is refused, and a failure changes no file. A missing profile fails with NotFound, and an existing one is always deleted. Success removes the profile file and, when the runtime directory resolves, the rendered server configuration; failure of that second removal is ignored. The directories afterwards are exactly `DeletedDirs`: roots made, an empty directory at either path removed. |
| Profiles.DeleteForgetsProfile | WireStack/internal/core/profiles.go:90-92 | After a deletion the profile no longer loads. |
| Profiles.DeleteForgetsOnlyThatProfile | WireStack/internal/core/profiles.go:90-96 | Every profile stored at another path loads as before. |
| Profiles.CollectProfileNames | WireStack/internal/core/profiles.go:71-81 | The loop returns `ProfileNames(entries)`, in directory order. |
| Profiles.ProfileNameOfMeaning | WireStack/internal/core/profiles.go:73-79 | An entry contributes the name `n` exactly when it is the regular file `n.json`. |
| Profiles.ProfileNamesMeaning | WireStack/internal/core/profiles.go:72-80 | `n` is listed exactly when some entry is the regular file `n.json`. |
| Profiles.NamesDistinct | WireStack/internal/core/profiles.go:71-81 | Distinct directory entries give distinct profile names. |
| Profiles.ListingMeansStored | WireStack/internal/core/profiles.go:62-82 | For a listing of the servers directory, `n` is listed exactly when `<root>/n.json` is a stored file and `n` holds no separator. |
| Profiles.ListServerProfiles | WireStack/internal/core/profiles.go:62-82 | Succeeds exactly when the servers directory is ready. Its names are exactly those of the `.json` files in that directory, with the suffix removed, each listed once. Only the root directories may be created. |
| WireGuard.EndpointPort | WireStack/internal/core/wireguard.go:55-61 | The listen port exists exactly when the endpoint splits into a non-empty host and a non-empty port, and it is that port. Otherwise the result is InvalidInput. |
| WireGuard.EndpointWithoutPort | WireStack/internal/core/wireguard.go:55-58 | `203.0.113.1` gives no listen port. |
| WireGuard.EndpointListenPort | WireStack/internal/core/wireguard.go:55-67 | `203.0.113.1:51820` gives listen port `51820`. |
| WireGuard.EndpointWithoutHost | WireStack/internal/core/wireguard.go:59-61 | `:51820` is refused for its empty host. |
| WireGuard.EndpointIPv6 | WireStack/internal/core/wireguard.go:55-61 | `[fd00::1]:51820` gives listen port `51820`. |
| WireGuard.BuildClientConfig | WireStack/internal/core/wireguard.go:26-48 | Fails with InvalidInput exactly when the profile is nil or the client name is empty. Otherwise, when no field holds a line break, the text splits into exactly the client configuration lines in order. |
| WireGuard.ClientLinesSingle | WireStack/internal/core/wireguard.go:35-47 | The client configuration lines come back out of the rendered text when no field holds a line break. |
| WireGuard.ClientConfigReadsBack | WireStack/internal/core/wireguard.go:35-47 | When no field holds a line break, reading a rendered client configuration gives back two sections. `[Interface]` holds the client's key and address, plus DNS when there are resolvers. `[Peer]` holds the server key, the client's AllowedIPs, the endpoint and keepalive 25. |
| WireGuard.DnsEntryIffResolvers | WireStack/internal/core/wireguard.go:38-40 | The interface has a `DNS` entry exactly when the profile has resolvers, and then it lists them all joined by `, `. |
| WireGuard.NewClientRoutesAll | WireStack/internal/core/profiles.go:159-161 | A client made by add-client has `AllowedIPs = 0.0.0.0/0, ::/0` in its configuration. |
| WireGuard.BuildServerConfig | WireStack/internal/core/wireguard.go:51-81 | A nil profile is refused with InvalidInput, and so is an endpoint without host and port. Otherwise the result is the interface stanza followed by one peer block per client. |
| WireGuard.RenderServer | WireStack/internal/core/wireguard.go:63-80 | The builder loop produces exactly the interface lines followed by the peer blocks of the clients, in stored order. |
| WireGuard.WriteInterface | WireStack/internal/core/wireguard.go:64-69 | The interface stanza: Address, PrivateKey, ListenPort, `SaveConfig = false`, then a blank line. |
| WireGuard.WritePeer | WireStack/internal/core/wireguard.go:71-78 | One peer block is appended: header, PublicKey, AllowedIPs (with the address as fallback), then a blank line. |
| WireGuard.WriteLine | WireStack/internal/core/wireguard.go:64 | `Fprintf(builder, "...\n")` appends exactly the line and its terminator. |
| WireGuard.PeersAreDocument | WireStack/internal/core/wireguard.go:70-79 | The peer blocks are the written peer sections of the clients, one per client, in order. |
| WireGuard.ServerConfigReadsBack | WireStack/internal/core/wireguard.go:64-79 | When no field holds a line break, reading a rendered server configuration gives back the interface with the endpoint's port, then exactly one peer per client, in order. |
| WireGuard.PeerFallback | WireStack/internal/core/wireguard.go:73-76 | A client without AllowedIPs is routed by its own address. |
| WireGuard.WriteServerConfig | WireStack/internal/core/wireguard.go:84-97 | Succeeds exactly when the profile renders, its name is set, the runtime directory is ready and the runtime path is writable. Nothing is written when rendering fails. On success it returns the runtime path and only that file changes: it holds exactly the rendered text, mode 0o600 when new. The directories gain exactly the runtime roots made and the file's parent. The store invariant holds throughout. |
| WireGuard.WriteClientConfig | WireStack/internal/core/wireguard.go:100-113 | As WriteServerConfig, for the client configuration and `client-<server>-<client>.conf`, including the condition for success and the directories afterwards. |
| Commands.AddServer | WireStack/cmd/wirestack/main.go:87-112 | Refuses an empty name or endpoint with nothing changed. Refuses an existing profile with AlreadyExists, never overwriting it, and fails when key generation fails. Succeeds exactly when the names are set, the servers directory is ready, nothing is at the profile path, the keys were made and the path is writable. On success exactly the new profile file is written, holding `DefaultServerProfile(name, endpoint, keys)`. Failure changes no file, and the store stays well formed. The directories afterwards are stated exactly. |
| Commands.DeleteServer | WireStack/cmd/wirestack/main.go:148-154 | Refuses an empty name with nothing changed, and a missing profile with NotFound. Success leaves exactly DeletedFiles and DeletedDirs, and the profile no longer loads. The store stays well formed. |
| Commands.DeletedKeepsStore | WireStack/internal/core/profiles.go:85-98 | A deletion keeps the store well formed. |
| Commands.AddClient | WireStack/cmd/wirestack/main.go:166-206 | Refuses empty names, a profile that does not load, a duplicate client name (AlreadyExists) and a full range (CapacityExceeded), each with no file changed. On success only the profile file changes: it holds the profile with exactly one client appended, with the new keys, the next address and ClientAllowedIPs. Success holds exactly when none of these refusals applies, the keys were made and the profile path is writable. The store stays well formed and the directories afterwards are stated exactly. |
| Commands.ExportClient | WireStack/cmd/wirestack/main.go:253-284 | Refuses empty flags with nothing changed, and a client the profile does not have with NotFound. On success only the expanded output path changes: it holds `BuildClientConfig(profile, first client with that name)`. Success holds exactly when the flags are set, the profile loads, the client exists and the expanded path is writable. The directories afterwards are stated exactly. |
| Commands.Down | WireStack/cmd/wirestack/main.go:377-392 | Succeeds exactly when the name is set, the runtime directory is ready and `wg-quick down` succeeds. Then exactly the rendered server configuration is removed (or an empty directory in its place), and a failed removal is ignored. Failure changes no file. The directories afterwards are stated exactly. |

## Left out

- JSON encoding: profile files hold the record itself, so the `encoding/json` byte format, `MarshalIndent` failures and `omitempty` are not modelled.
- `filepath.Clean`: `PathJoin` drops empty elements, joins with one separator and removes trailing separators. `Dir` drops the separators before the last element. Neither resolves `.`, `..` or doubled separators earlier in the path, so `Dir("a/../b")` is `a/..` where Go gives `.`. The `filepath.Clean` applied to the returned paths at WireStack/internal/core/wireguard.go:96 and 112 is left out.
- Path identity: the filesystem keys files and directories by their path as written, so `a//b`, `a/./b` and `a/b` are three different entries, and `a//b` is filed under `a/` when listing. A real filesystem treats them as one file. `WriteFile` can therefore create a parent directory whose text differs from Go's for a `--output` path or a home directory that holds `.`, `..` or a doubled separator before its last element.
- `os.MkdirAll`: it is modelled as creating the one directory asked for. Missing ancestors and the mode 0o755 are not modelled.
- Permission bits: file modes are recorded only as a number, and directory modes not at all. The tests at WireStack/internal/core/core_test.go:90-106 expect 0o700 directories, while the code passes 0o755.
- `os.ReadDir` order: the listing holds each child once, in any order. Go sorts by name.
- Nil versus empty slices: both are the empty sequence.
- The home directory is a parameter.
- `GenerateKeyPair`: it runs `wg genkey` and `wg pubkey` (WireStack/internal/utils/system.go is not part of this model), so the key pair, or its failure, is a parameter of the commands.
- `wg-quick`: its outcome is a parameter of `Down`. Its output and printing are not modelled, and neither is `mustPath`.
- The `up`, `connect`, `disconnect`, `list-*`, `show-*`, `genkey` and `version` commands are not modelled, and neither is Cobra flag parsing.
- Error messages: they are collapsed into error kinds. Any other `os` failure (permissions, disk full) is not modelled.
- Commands.ExportClient: the branches where rendering or path expansion fail after a successful load cannot be taken, and they return a fixed error.
- Name sanitisation: names containing `/` or `..` are not rejected, as in the source. The location properties in `Paths` are stated for separator-free names only.
- HostPort.SplitHostPort: Go's error messages are not distinguished, so every failure is InvalidInput.
- WireGuard.BuildClientConfig: the line structure is stated only for fields without line breaks. A field holding `\n` produces text whose lines differ from the intended ones.
- WireGuard.ClientConfigReadsBack: the read-back is stated only when no field of the profile or the client holds a line break.
- WireGuard.ServerConfigReadsBack: the read-back is stated only when no field of the profile or its clients holds a line break. A client public key or address holding `\n` splits into other lines.
- `ClientAllowedIPs` and `DefaultServerProfile` are plain constructors. Their values are used through NewClientRoutesAll and DefaultProfileWellFormed and have no contract of their own.
