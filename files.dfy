/**
  The file helpers of internal/utils/files.go over an abstract filesystem, together with the
  pieces of Go's `path/filepath` and `os` packages they rest on.

  A path is a string. The filesystem is a class whose state is a map from the path of each
  regular file to its content and mode, and the set of directory paths; the two never overlap.
  A file holds either text or the JSON encoding of a value of type `V`; the encoding itself is
  abstracted, so reading back a value written as JSON gives that value.
 */
module Files {
  import opened Results
  import opened Text

  // ---------------------------------------------------------------- path/filepath

  function TrimTrailingSlashes(s: string): (r: string)
    ensures |r| <= |s| && r == s[..|r|]
    ensures r == "" || r[|r| - 1] != '/'
    ensures s == "" || s[|s| - 1] != '/' ==> r == s
  {
    if s != "" && s[|s| - 1] == '/' then TrimTrailingSlashes(s[..|s| - 1]) else s
  }

  function TrimLeadingSlashes(s: string): (r: string)
    ensures |r| <= |s| && r == s[|s| - |r|..]
    ensures r == "" || r[0] != '/'
    ensures s == "" || s[0] != '/' ==> r == s
    ensures s != "" && s[|s| - 1] != '/' ==> r != ""
  {
    if s != "" && s[0] == '/' then TrimLeadingSlashes(s[1..]) else s
  }

  /**
    A path without its trailing separators, as `filepath.Clean` leaves it; a path made of
    separators only is the root `/`.
   */
  function DropTrailingSeparators(s: string): (r: string)
    ensures s == "" || s[|s| - 1] != '/' ==> r == s
    ensures r == "" || r == "/" || r[|r| - 1] != '/'
    ensures s != "" ==> r != "" && (r == "/" || r[0] == s[0])
  {
    var t := TrimTrailingSlashes(s);
    if t == "" && s != "" then "/" else t
  }

  /**
    `filepath.Join(dir, elem)`: empty elements are dropped, the two parts are joined by exactly
    one separator, and trailing separators are removed.
   */
  function PathJoin(dir: string, elem: string): (r: string)
    ensures r == "" <==> dir == "" && elem == ""
    ensures r == "" || r == "/" || r[|r| - 1] != '/'
  {
    if dir == "" then DropTrailingSeparators(elem)
    else if elem == "" then DropTrailingSeparators(dir)
    else DropTrailingSeparators(TrimTrailingSlashes(dir) + "/" + TrimLeadingSlashes(elem))
  }

  /** Joining an element that does not end in a separator needs no trailing clean-up. */
  lemma JoinTrimmed(dir: string, elem: string)
    requires dir != "" && elem != "" && elem[|elem| - 1] != '/'
    ensures TrimLeadingSlashes(elem) != ""
    ensures TrimLeadingSlashes(elem)[|TrimLeadingSlashes(elem)| - 1] == elem[|elem| - 1]
    ensures PathJoin(dir, elem) == TrimTrailingSlashes(dir) + "/" + TrimLeadingSlashes(elem)
  {
    var e := TrimLeadingSlashes(elem);
    assert e[|e| - 1] == elem[|elem| - 1];
    var s := TrimTrailingSlashes(dir) + "/" + e;
    assert s[|s| - 1] == e[|e| - 1];
  }

  /**
    `filepath.Dir`: everything up to the last separator, with the separators it ends in removed
    ("/" when nothing else is left); "." when there is no separator.
   */
  function Dir(path: string): (r: string)
    ensures r != ""
    ensures '/' !in path ==> r == "."
    ensures '/' in path ==> r == "/" || (|r| < |path| && r == path[..|r|] && r[|r| - 1] != '/')
  {
    var i := LastIndexOf(path, '/');
    if i < 0 then "." else DropTrailingSeparators(path[..i + 1])
  }

  /**
    The entry under which the filesystem files a path: the text before its last separator, as
    written ("/" directly under the root, "." without a separator). Paths are map keys, so
    `a//b` is filed under `a/`, not under `a`.
   */
  function Parent(path: string): (r: string)
    ensures r != ""
    ensures '/' !in path ==> r == "."
    ensures '/' in path ==> |r| <= |path| && r == path[..|r|]
  {
    var i := LastIndexOf(path, '/');
    if i < 0 then "." else if i == 0 then "/" else path[..i]
  }

  /** The last element of a path: everything after the last separator. */
  function Base(path: string): string
  {
    path[LastIndexOf(path, '/') + 1..]
  }

  /**
    `filepath.Ext`: the suffix starting at the last dot of the final element, or "" when that
    element has no dot.
   */
  function Ext(path: string): (r: string)
    ensures r == "" || r[0] == '.'
    ensures '/' !in r
  {
    if path == "" || path[|path| - 1] == '/' then ""
    else if path[|path| - 1] == '.' then "."
    else
      var e := Ext(path[..|path| - 1]);
      if e == "" then "" else e + [path[|path| - 1]]
  }

  lemma ExtStep(p: string, c: char)
    ensures c == '.' ==> Ext(p + [c]) == "."
    ensures c != '.' && c != '/' && Ext(p) != "" ==> Ext(p + [c]) == Ext(p) + [c]
  {
    assert (p + [c])[..|p|] == p;
  }

  /** A name has the extension ".json" exactly when it ends in ".json". */
  lemma ExtJson(name: string)
    ensures Ext(name) == ".json" <==> HasSuffix(name, ".json")
  {
    ExtIsSuffix(name);
    if HasSuffix(name, ".json") {
      var b := name[..|name| - 5];
      assert name == b + ".json";
      ExtStep(b, '.');
      assert b + ".j" == (b + ".") + ['j'];
      ExtStep(b + ".", 'j');
      assert b + ".js" == (b + ".j") + ['s'];
      ExtStep(b + ".j", 's');
      assert b + ".jso" == (b + ".js") + ['o'];
      ExtStep(b + ".js", 'o');
      assert b + ".json" == (b + ".jso") + ['n'];
      ExtStep(b + ".jso", 'n');
    }
  }

  lemma {:induction false} ExtIsSuffix(path: string)
    ensures |Ext(path)| <= |path| && Ext(path) == path[|path| - |Ext(path)|..]
  {
    if path != "" && path[|path| - 1] != '/' && path[|path| - 1] != '.' {
      var init := path[..|path| - 1];
      ExtIsSuffix(init);
      var e := Ext(init);
      if e != "" {
        assert e + [path[|path| - 1]] == path[|path| - |e| - 1..];
      }
    }
  }

  /** A path with a separator past its first character is its directory, a separator and its base. */
  lemma DirBase(q: string)
    requires LastIndexOf(q, '/') > 0
    ensures q == Parent(q) + "/" + Base(q)
  {
    var i := LastIndexOf(q, '/');
    assert q == q[..i] + [q[i]] + q[i + 1..];
  }

  /** Joining a directory path and a separator-free name is undone by `Dir` and `Base`. */
  lemma JoinSplits(root: string, name: string)
    requires root != "" && root != "." && root[|root| - 1] != '/'
    requires name != "" && '/' !in name
    ensures PathJoin(root, name) == root + "/" + name
    ensures Dir(PathJoin(root, name)) == root && Base(PathJoin(root, name)) == name
    ensures Parent(PathJoin(root, name)) == root
  {
    JoinVerbatim(root, name);
    SplitAtSeparator(root, name);
  }

  lemma JoinVerbatim(root: string, name: string)
    requires root != "" && root[|root| - 1] != '/'
    requires name != "" && '/' !in name
    ensures PathJoin(root, name) == root + "/" + name
  {
    assert name[0] != '/' && name[|name| - 1] != '/';
    JoinTrimmed(root, name);
  }

  lemma SplitAtSeparator(root: string, name: string)
    requires root != "" && root[|root| - 1] != '/'
    requires '/' !in name
    ensures Dir(root + "/" + name) == root && Base(root + "/" + name) == name
    ensures Parent(root + "/" + name) == root
  {
    var p := root + "/" + name;
    assert p == root + ['/'] + name;
    LastIndexOfBefore(root, '/', name);
    assert p[..|root|] == root;
    assert p[..|root| + 1] == root + "/";
    OneTrailingSeparator(root);
    assert p[|root| + 1..] == name;
  }

  /** A stored path is determined by the entry it is filed under and its last element. */
  lemma JoinUnique(root: string, name: string)
    requires root != "" && root != "." && root[|root| - 1] != '/'
    ensures forall q :: Parent(q) == root && Base(q) == name ==> q == root + "/" + name
  {
    forall q | Parent(q) == root && Base(q) == name
      ensures q == root + "/" + name
    {
      DirBaseUnique(q, root);
    }
  }

  lemma DirBaseUnique(q: string, root: string)
    requires root != "" && root != "." && root[|root| - 1] != '/'
    requires Parent(q) == root
    ensures q == root + "/" + Base(q)
  {
    var i := LastIndexOf(q, '/');
    assert i > 0;
    DirBase(q);
  }

  /** The last element of a path holds no separator. */
  lemma BaseNoSeparator(path: string)
    ensures '/' !in Base(path)
  {
    var i := LastIndexOf(path, '/');
    assert forall j :: 0 <= j < |Base(path)| ==> Base(path)[j] == path[i + 1 + j];
  }

  /** The last character of a joined path is that of its second element. */
  lemma JoinLast(dir: string, elem: string)
    requires elem != "" && elem[|elem| - 1] != '/'
    ensures PathJoin(dir, elem) != "" && PathJoin(dir, elem)[|PathJoin(dir, elem)| - 1] == elem[|elem| - 1]
  {
    if dir != "" {
      JoinTrimmed(dir, elem);
    }
  }

  // ---------------------------------------------------------------- utils.ExpandPath

  /**
    `ExpandPath`: a path starting with `~` has that character replaced by the home
    directory (`$HOME`; an empty `home` is the failure of `os.UserHomeDir`).
   */
  function ExpandPath(path: string, home: string): (r: Result<string>)
    ensures r.Err? <==> path == "" || (path[0] == '~' && home == "")
    ensures path == "" ==> r == Err(InvalidInput)
    ensures path != "" && path[0] != '~' ==> r == Ok(path)
    ensures path != "" && path[0] == '~' && home != "" ==> r == Ok(PathJoin(home, path[1..]))
  {
    if |path| == 0 then Err(InvalidInput)
    else if path[0] != '~' then Ok(path)
    else if home == "" then Err(IOFailure)
    else Ok(PathJoin(home, path[1..]))
  }

  /** Expanding an already expanded path changes nothing, unless the home directory itself starts with `~`. */
  lemma ExpandIdempotent(path: string, home: string)
    requires home != "" && home[0] != '~'
    requires ExpandPath(path, home).Ok?
    ensures ExpandPath(ExpandPath(path, home).value, home) == ExpandPath(path, home)
  {
    if path[0] == '~' {
      var rest := path[1..];
      if rest != "" {
        var t := TrimTrailingSlashes(home);
        if t != "" {
          assert t[0] == home[0];
        }
        assert (t + "/" + TrimLeadingSlashes(rest))[0] != '~';
      }
      assert PathJoin(home, rest)[0] != '~';
    }
  }

  lemma OneLeadingSeparator(s: string)
    requires s != "" && s[0] != '/'
    ensures TrimLeadingSlashes("/" + s) == s
  {
    assert ("/" + s)[1..] == s;
  }

  lemma OneTrailingSeparator(s: string)
    requires s != "" && s[|s| - 1] != '/'
    ensures TrimTrailingSlashes(s + "/") == s
  {
    assert (s + "/")[..|s|] == s;
  }

  /** `~/name/` expands to `<home>/name`: the trailing separator is cleaned away, as `filepath.Join` does. */
  lemma ExpandCleansTrailingSeparator(home: string, name: string)
    requires home != "" && home[|home| - 1] != '/'
    requires name != "" && name[0] != '/' && name[|name| - 1] != '/'
    ensures ExpandPath("~/" + name + "/", home) == Ok(home + "/" + name)
  {
    var path := "~/" + name + "/";
    assert path[0] == '~' && path[1..] == "/" + (name + "/");
    OneLeadingSeparator(name + "/");
    var joined := home + "/" + name;
    OneTrailingSeparator(joined);
    assert home + "/" + (name + "/") == joined + "/";
  }

  // ---------------------------------------------------------------- the filesystem

  datatype Content<V> = Text(text: string) | Json(value: V)

  /** A regular file: its content and its permission bits. */
  datatype File<V> = File(content: Content<V>, mode: nat)

  /** One entry of a directory listing (`os.DirEntry`): its name and whether it is a directory. */
  datatype DirEntry = DirEntry(name: string, isDir: bool)

  /** Permission bits 0o600: read and write for the owner only. */
  const OwnerReadWrite: nat := 384

  /**
    `WriteFile` succeeds on `path`: the path is not empty and does not end in a separator (which
    `os.WriteFile` refuses as naming a directory), no regular file stands where its parent
    directory goes, and no directory stands where the file goes.
   */
  predicate Writable<V>(files: map<string, File<V>>, dirs: set<string>, path: string) {
    path != "" && path[|path| - 1] != '/' && Dir(path) !in files && path !in dirs + {Dir(path)}
  }

  /** The directory `WriteFile(path, …)` creates before writing: the parent of `path`, unless a regular file is there. */
  function ParentMade<V>(files: map<string, File<V>>, path: string): set<string> {
    if path != "" && Dir(path) !in files then {Dir(path)} else {}
  }

  /** The paths filed directly under `dir`. */
  function ChildrenOf<V>(files: map<string, File<V>>, dirs: set<string>, dir: string): set<string> {
    set p | p in files.Keys + dirs && p != dir && Parent(p) == dir
  }

  /** The directories after `os.Remove(path)`: `path` goes exactly when it is an empty directory. */
  function DirsAfterRemove<V>(files: map<string, File<V>>, dirs: set<string>, path: string): set<string> {
    if path !in files && path in dirs && ChildrenOf(files, dirs, path) == {} then dirs - {path} else dirs
  }

  /**
    The files after `os.WriteFile(path, content, perm)` succeeds: a new file gets mode `perm`,
    an existing one is truncated and keeps its mode.
   */
  function Overwrite<V>(files: map<string, File<V>>, path: string, content: Content<V>, perm: nat): map<string, File<V>>
  {
    files[path := File(content, if path in files then files[path].mode else perm)]
  }

  /** The directory entry of the path `p`, given the set of directories. */
  function EntryFor(dirs: set<string>, p: string): DirEntry {
    DirEntry(Base(p), p in dirs)
  }

  /** `entries` lists the paths `children`: the entry of each, nothing else, and each entry once. */
  ghost predicate Describes(children: set<string>, dirs: set<string>, entries: seq<DirEntry>) {
    (forall p :: p in children ==> EntryFor(dirs, p) in entries) &&
    (forall i :: 0 <= i < |entries| ==> exists p :: p in children && entries[i] == EntryFor(dirs, p)) &&
    (forall i, j :: 0 <= i < j < |entries| ==> entries[i] != entries[j])
  }

  /**
    The state of a listing loop: `entries` holds, once each, the entries of the paths `listed`,
    drawn from `children`, and every child not still to do has its entry listed.
   */
  ghost predicate ListingSoFar(children: set<string>, dirs: set<string>, todo: set<string>,
                               entries: seq<DirEntry>, listed: seq<string>)
  {
    todo <= children && |listed| == |entries| &&
    (forall i :: 0 <= i < |entries| ==> listed[i] in children && entries[i] == EntryFor(dirs, listed[i])) &&
    (forall p :: p in children ==> p in todo || EntryFor(dirs, p) in entries) &&
    (forall i, j :: 0 <= i < j < |entries| ==> entries[i] != entries[j])
  }

  /** Taking one path off the to-do set and listing its entry, unless already listed, keeps the loop state. */
  lemma ListingStep(children: set<string>, dirs: set<string>, todo: set<string>,
                    entries: seq<DirEntry>, listed: seq<string>, p: string)
    requires ListingSoFar(children, dirs, todo, entries, listed) && p in todo
    ensures var e := EntryFor(dirs, p);
      if e in entries then ListingSoFar(children, dirs, todo - {p}, entries, listed)
      else ListingSoFar(children, dirs, todo - {p}, entries + [e], listed + [p])
  {
    var e := EntryFor(dirs, p);
    if e in entries {
      forall q | q in children
        ensures q in todo - {p} || EntryFor(dirs, q) in entries
      {
      }
    } else {
      var entries', listed' := entries + [e], listed + [p];
      forall i | 0 <= i < |entries'|
        ensures listed'[i] in children && entries'[i] == EntryFor(dirs, listed'[i])
      {
        if i < |entries| {
          assert entries'[i] == entries[i] && listed'[i] == listed[i];
        }
      }
      forall q | q in children
        ensures q in todo - {p} || EntryFor(dirs, q) in entries'
      {
        if q != p && q !in todo {
          var k :| 0 <= k < |entries| && entries[k] == EntryFor(dirs, q);
          assert entries'[k] == entries[k];
        }
      }
      forall i, j | 0 <= i < j < |entries'|
        ensures entries'[i] != entries'[j]
      {
        assert entries'[i] == entries[i];
        if j < |entries| {
          assert entries'[j] == entries[j];
        }
      }
    }
  }

  /** Once nothing is left to do, the entries describe the children. */
  lemma ListingDone(children: set<string>, dirs: set<string>, entries: seq<DirEntry>, listed: seq<string>)
    requires ListingSoFar(children, dirs, {}, entries, listed)
    ensures Describes(children, dirs, entries)
  {
    forall i | 0 <= i < |entries|
      ensures exists p :: p in children && entries[i] == EntryFor(dirs, p)
    {
      var p := listed[i];
      assert p in children && entries[i] == EntryFor(dirs, p);
    }
    forall p | p in children
      ensures EntryFor(dirs, p) in entries
    {
      assert p !in {};
    }
  }

  class FileSystem<V> {
    var files: map<string, File<V>>
    var dirs: set<string>

    /** No path is both a regular file and a directory. */
    ghost predicate Valid()
      reads this
    {
      files.Keys !! dirs
    }

    constructor ()
      ensures Valid() && files == map[] && dirs == {}
    {
      files := map[];
      dirs := {};
    }

    /** The paths directly inside `dir`. */
    function Children(dir: string): set<string>
      reads this
    {
      ChildrenOf(files, dirs, dir)
    }

    function EntryOf(p: string): DirEntry
      reads this
    {
      EntryFor(dirs, p)
    }

    /** `os.Stat(path)` succeeds: something exists at `path`. */
    method Stat(path: string) returns (found: bool)
      ensures found <==> path in files || path in dirs
    {
      found := path in files || path in dirs;
    }

    /**
      `utils.EnsureDir` (`os.MkdirAll`): fails on an empty path or when a regular file is in the
      way; an existing directory is left as it is.
     */
    method EnsureDir(path: string) returns (r: Outcome)
      requires Valid()
      modifies this
      ensures Valid()
      ensures r.Pass? <==> path != "" && path !in old(files)
      ensures path == "" ==> r == Fail(InvalidInput)
      ensures files == old(files)
      ensures dirs == if r.Pass? then old(dirs) + {path} else old(dirs)
    {
      if path == "" {
        return Fail(InvalidInput);
      }
      if path in files {
        return Fail(IOFailure);
      }
      dirs := dirs + {path};
      return Pass;
    }

    /**
      `utils.WriteFile`: fails on an empty path; otherwise ensures the parent directory and
      replaces the whole content of `path`, leaving every other file as it was.
     */
    method WriteFile(path: string, data: Content<V>, perm: nat) returns (r: Outcome)
      requires Valid()
      modifies this
      ensures Valid()
      ensures r.Pass? <==> Writable(old(files), old(dirs), path)
      ensures path == "" ==> r == Fail(InvalidInput) && unchanged(this)
      ensures r.Pass? ==> files == Overwrite(old(files), path, data, perm)
      ensures r.Fail? ==> files == old(files)
      ensures dirs == old(dirs) + ParentMade(old(files), path)
    {
      if path == "" {
        return Fail(InvalidInput);
      }
      var made := EnsureDir(Dir(path));
      if made.Fail? {
        return made;
      }
      if path in dirs || path[|path| - 1] == '/' {
        return Fail(IOFailure);
      }
      var mode := if path in files then files[path].mode else perm;
      files := files[path := File(data, mode)];
      return Pass;
    }

    /** `utils.ReadFile`: fails on an empty path or a missing file, otherwise gives its content. */
    method ReadFile(path: string) returns (r: Result<Content<V>>)
      ensures r.Ok? <==> path != "" && path in files
      ensures r.Ok? ==> r.value == files[path].content
      ensures path == "" ==> r == Err(InvalidInput)
      ensures path != "" && path !in files ==> r == Err(NotFound)
    {
      if path == "" {
        return Err(InvalidInput);
      }
      if path !in files {
        return Err(NotFound);
      }
      return Ok(files[path].content);
    }

    /** `utils.WriteJSON`: the encoding of `v` written with `WriteFile`. */
    method WriteJSON(path: string, v: V, perm: nat) returns (r: Outcome)
      requires Valid()
      modifies this
      ensures Valid()
      ensures r.Pass? <==> Writable(old(files), old(dirs), path)
      ensures r.Pass? ==> files == Overwrite(old(files), path, Json(v), perm)
      ensures r.Fail? ==> files == old(files)
      ensures dirs == old(dirs) + ParentMade(old(files), path)
    {
      r := WriteFile(path, Json(v), perm);
    }

    /** `utils.ReadJSON`: the value whose encoding `path` holds; text that is no encoding is corrupt. */
    method ReadJSON(path: string) returns (r: Result<V>)
      ensures r.Ok? <==> path != "" && path in files && files[path].content.Json?
      ensures r.Ok? ==> r.value == files[path].content.value
      ensures path != "" && path in files && files[path].content.Text? ==> r == Err(CorruptData)
      ensures path != "" && path !in files ==> r == Err(NotFound)
    {
      var data := ReadFile(path);
      if data.Err? {
        return Err(data.error);
      }
      match data.value
      case Json(v) => return Ok(v);
      case Text(_) => return Err(CorruptData);
    }

    /** `os.Remove`: deletes a regular file or an empty directory; anything else fails. */
    method Remove(path: string) returns (r: Outcome)
      requires Valid()
      modifies this
      ensures Valid()
      ensures r.Pass? <==> path in old(files) || (path in old(dirs) && old(Children(path)) == {})
      ensures path !in old(files) && path !in old(dirs) ==> r == Fail(NotFound)
      ensures files == old(files) - {path}
      ensures path !in old(files) ==> files == old(files)
      ensures dirs == DirsAfterRemove(old(files), old(dirs), path)
    {
      if path in files {
        files := files - {path};
        return Pass;
      }
      if path !in dirs {
        return Fail(NotFound);
      }
      if Children(path) != {} {
        return Fail(IOFailure);
      }
      dirs := dirs - {path};
      return Pass;
    }

    /**
      `entries` describes the contents of `dir`: each path inside it, and nothing else, each
      entry once. (Two spellings of one path, such as `x` and `./x`, name one entry.)
     */
    ghost predicate Lists(dir: string, entries: seq<DirEntry>)
      reads this
    {
      Describes(Children(dir), dirs, entries)
    }

    /** `os.ReadDir`: one entry for every path directly inside the directory `dir`. */
    method ReadDir(dir: string) returns (r: Result<seq<DirEntry>>)
      ensures r.Ok? <==> dir in dirs
      ensures r.Ok? ==> Lists(dir, r.value)
    {
      if dir !in dirs {
        return Err(NotFound);
      }
      var todo := Children(dir);
      ghost var children := todo;
      var entries: seq<DirEntry> := [];
      ghost var listed: seq<string> := [];
      while todo != {}
        invariant ListingSoFar(children, dirs, todo, entries, listed)
        decreases todo
      {
        var p :| p in todo;
        ghost var todo0, entries0, listed0 := todo, entries, listed;
        if EntryOf(p) !in entries {
          entries := entries + [EntryOf(p)];
          listed := listed + [p];
        }
        todo := todo - {p};
        ListingStep(children, dirs, todo0, entries0, listed0, p);
      }
      ListingDone(children, dirs, entries, listed);
      return Ok(entries);
    }
  }
}
