/** The host environment the extension runs against, reduced to values:
    paths, the file system as seen through `vscode.workspace.fs`
    (directory listings and file texts), and the errors the core can throw. */
module Workspace {
  import opened Wrappers

  type Path = string

  /** `vscode.FileType` of an entry. `Other` stands for every other value
      (Unknown, SymbolicLink and the File/Directory-plus-SymbolicLink
      combinations), none of which compares equal to File or Directory. */
  datatype Kind = File | Directory | Other

  /** One `[name, type]` pair of a `readDirectory` result. */
  datatype Entry = Entry(name: string, kind: Kind)

  /** An error thrown by the chat client, carried as thrown. Its HTTP status
      is absent for errors that did not come from an HTTP response. */
  datatype ApiFailure = ApiFailure(status: Option<int>, message: string)

  /** The errors the core can raise. */
  datatype Error =
    | NotFound(path: Path)           // the file system has nothing at `path`
    | UnknownFileType                // stat reported neither File nor Directory
    | ApiError(failure: ApiFailure)  // the chat client threw `failure`

  /** A snapshot of the file system: each directory's listing in the order
      the host reports it, and each file's decoded text. */
  datatype Env = Env(listings: map<Path, seq<Entry>>, texts: map<Path, string>)

  /** `Uri.joinPath(dir, name)`, as a path string. */
  function Join(dir: Path, name: string): Path {
    dir + "/" + name
  }

  /** Within one directory, distinct names give distinct paths. */
  lemma JoinInjective(dir: Path, a: string, b: string)
    ensures Join(dir, a) == Join(dir, b) ==> a == b
  {
    if Join(dir, a) == Join(dir, b) {
      assert a == Join(dir, a)[|dir| + 1..];
      assert b == Join(dir, b)[|dir| + 1..];
    }
  }

  function StripTrailingSlashes(p: Path): Path {
    if p != [] && p[|p| - 1] == '/' then StripTrailingSlashes(p[..|p| - 1]) else p
  }

  /** The characters after the last '/'. */
  function LastSegment(p: Path): string {
    if p == [] || p[|p| - 1] == '/' then [] else LastSegment(p[..|p| - 1]) + [p[|p| - 1]]
  }

  /** `path.basename` on a POSIX path: the last segment once trailing
      slashes are removed. */
  function Basename(p: Path): string {
    LastSegment(StripTrailingSlashes(p))
  }

  lemma {:induction false} LastSegmentAfterSlash(q: Path, name: string)
    requires forall i :: 0 <= i < |name| ==> name[i] != '/'
    ensures LastSegment(q + "/" + name) == name
    decreases |name|
  {
    var p := q + "/" + name;
    if name != [] {
      var init := name[..|name| - 1];
      assert p[..|p| - 1] == q + "/" + init;
      LastSegmentAfterSlash(q, init);
      assert name == init + [name[|name| - 1]];
    }
  }

  /** The base name of a joined path is the name that was joined. */
  lemma BasenameOfJoin(dir: Path, name: string)
    requires name != []
    requires forall i :: 0 <= i < |name| ==> name[i] != '/'
    ensures Basename(Join(dir, name)) == name
  {
    assert Join(dir, name)[|Join(dir, name)| - 1] == name[|name| - 1];
    LastSegmentAfterSlash(dir, name);
  }

  /** `vscode.workspace.fs.readDirectory`. */
  function ReadDirectory(env: Env, dir: Path): (r: Result<seq<Entry>, Error>)
    ensures r.Success? <==> dir in env.listings
    ensures r.Success? ==> r.value == env.listings[dir]
    ensures r.Failure? ==> r.error == NotFound(dir)
  {
    if dir in env.listings then Success(env.listings[dir]) else Failure(NotFound(dir))
  }

  /** The names of a listing, in listing order. */
  function Names(entries: seq<Entry>): (names: seq<string>)
    ensures |names| == |entries|
    ensures forall i :: 0 <= i < |entries| ==> names[i] == entries[i].name
  {
    if entries == [] then [] else [entries[0].name] + Names(entries[1..])
  }

  /** The kind of the first entry called `name`, if any. */
  function KindOf(entries: seq<Entry>, name: string): (r: Option<Kind>)
    ensures r.None? <==> forall i :: 0 <= i < |entries| ==> entries[i].name != name
    ensures r.Some? ==> exists i :: 0 <= i < |entries| && entries[i] == Entry(name, r.value)
  {
    if entries == [] then None
    else if entries[0].name == name then Some(entries[0].kind)
    else
      var r := KindOf(entries[1..], name);
      assert forall i :: 1 <= i < |entries| ==> entries[i] == entries[1..][i - 1];
      r
  }

  /** `vscode.workspace.fs.stat(Uri.joinPath(parent, name)).type`: the kind the
      parent's listing reports for `name`. */
  function Stat(env: Env, parent: Path, name: string): (r: Result<Kind, Error>)
    ensures r.Success? <==> parent in env.listings && KindOf(env.listings[parent], name).Some?
    ensures r.Failure? ==> r.error == NotFound(Join(parent, name))
  {
    if parent in env.listings && KindOf(env.listings[parent], name).Some? then
      Success(KindOf(env.listings[parent], name).value)
    else
      Failure(NotFound(Join(parent, name)))
  }

  /** `vscode.workspace.fs.readFile` followed by decoding to text. */
  function ReadFile(env: Env, path: Path): (r: Result<string, Error>)
    ensures r.Success? <==> path in env.texts
    ensures r.Success? ==> r.value == env.texts[path]
    ensures r.Failure? ==> r.error == NotFound(path)
  {
    if path in env.texts then Success(env.texts[path]) else Failure(NotFound(path))
  }
}
