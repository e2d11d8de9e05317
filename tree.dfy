/** The tree data provider of `src/tree.ts`: display items built once from a
    directory listing and the summary of each entry, and the dispatch of
    `getChildren` on the element being expanded.

    The summarisation service enters as a function from (parent directory,
    entry name) to the outcome of `summarizeFileOrDirectory`. The concurrent
    fan-out of `Promise.all` is modelled as a map in listing order. */
module Tree {
  import W = Wrappers
  import opened Workspace
  import L = LlmService

  /** `vscode.TreeItemCollapsibleState`, the two values the provider uses. */
  datatype CollapsibleState = None | Collapsed

  /** Light- and dark-theme icons. */
  datatype IconPath = IconPath(light: Path, dark: Path)

  // The icon files sit under the extension's resources; where the extension
  // is installed is left abstract.
  const ICONS_DIR_PATH: Path := "resources/icons"
  const DIR_ICON_PATH: Path := Join(ICONS_DIR_PATH, "default_folder.svg")
  const FILE_ICON_PATH: Path := Join(ICONS_DIR_PATH, "default_file.svg")

  const AWAITING_SUMMARY: string := "AWAITING SUMMARY"

  /** `WorkspaceTreeSummariesItem`: every field is fixed at construction
      (`labelText` is the item's `label`; `label` is a keyword here). */
  datatype Item = Item(
    labelText: string,
    collapsibleState: CollapsibleState,
    description: string,
    tooltip: string,
    uri: Path,
    isDir: bool,
    iconPath: IconPath)

  /** The item constructor: stores its arguments and picks the folder icon
      exactly for a directory, the file icon otherwise. */
  function NewItem(labelText: string, collapsibleState: CollapsibleState, description: string,
                   tooltip: string, uri: Path, isDir: bool): (item: Item)
    ensures item.labelText == labelText && item.collapsibleState == collapsibleState
    ensures item.description == description && item.tooltip == tooltip
    ensures item.uri == uri && item.isDir == isDir
    ensures item.iconPath.light == item.iconPath.dark
    ensures item.iconPath.light == DIR_ICON_PATH <==> isDir
    ensures !isDir ==> item.iconPath == IconPath(FILE_ICON_PATH, FILE_ICON_PATH)
  {
    var icon := if isDir then DIR_ICON_PATH else FILE_ICON_PATH;
    assert DIR_ICON_PATH != FILE_ICON_PATH by {
      assert DIR_ICON_PATH[|ICONS_DIR_PATH| + 10] != FILE_ICON_PATH[|ICONS_DIR_PATH| + 10];
    }
    Item(labelText, collapsibleState, description, tooltip, uri, isDir, IconPath(icon, icon))
  }

  /** `WorkspaceTreeSummariesProvider`: the workspace root path, if any, and
      whether a summarisation service is attached (`this.llmService?.` yields
      undefined when it is not). */
  datatype Provider = Provider(workspaceRootPath: W.Option<Path>, hasService: bool)

  /** The summarisation service: `summarizeFileOrDirectory(parent, name)`. */
  type Summarizer = (Path, string) -> W.Result<string, Error>

  /** The extension's own service against the snapshot `env`, with the
      default retry budget; each call is answered by `script`. */
  function Service(env: Env, script: seq<L.Outcome>): Summarizer {
    (parent: Path, name: string) => L.Summarize(env, parent, name, L.DEFAULT_RETRY_COUNT, script).result
  }

  /** One call to the summarisation service. */
  datatype Request = Request(parent: Path, name: string)

  /** The items (or the error that rejected them) and the summarisation
      requests issued on the way, in order. */
  datatype Children = Children(result: W.Result<seq<Item>, Error>, requests: seq<Request>)

  /** `getTreeItem`: the element itself. */
  function GetTreeItem(element: Item): (item: Item)
    ensures item == element
  {
    element
  }

  /** The awaited summary of one entry: undefined when no service is attached. */
  function SummaryOf(p: Provider, summarize: Summarizer, dir: Path, name: string): (r: W.Result<W.Option<string>, Error>)
    ensures !p.hasService ==> r == W.Success(W.None)
    ensures p.hasService ==> (r.Success? <==> summarize(dir, name).Success?)
    ensures p.hasService && r.Success? ==> r.value == W.Some(summarize(dir, name).value)
    ensures p.hasService && r.Failure? ==> r.error == summarize(dir, name).error
  {
    if !p.hasService then W.Success(W.None)
    else
      match summarize(dir, name)
      case Failure(e) => W.Failure(e)
      case Success(s) => W.Success(W.Some(s))
  }

  /** The text shown as description and tooltip. */
  function DisplayText(summary: W.Option<string>): (text: string)
    ensures summary.Some? ==> text == summary.value
    ensures summary.None? ==> text == AWAITING_SUMMARY
  {
    match summary
    case None => AWAITING_SUMMARY
    case Some(s) => s
  }

  /** The item built for one listed entry. */
  function ItemFor(dir: Path, entry: Entry, summary: W.Option<string>): (item: Item)
    ensures item.labelText == entry.name && item.uri == Join(dir, entry.name)
    ensures item.isDir <==> entry.kind == Directory
    ensures item.collapsibleState == Collapsed <==> item.isDir
    ensures item.iconPath == IconPath(DIR_ICON_PATH, DIR_ICON_PATH) <==> item.isDir
    ensures !item.isDir ==> item.iconPath == IconPath(FILE_ICON_PATH, FILE_ICON_PATH)
    ensures item.description == item.tooltip == DisplayText(summary)
  {
    var isDir := entry.kind == Directory;
    NewItem(entry.name, if isDir then Collapsed else None, DisplayText(summary),
            DisplayText(summary), Join(dir, entry.name), isDir)
  }

  /** `items.map(async ...)` under `Promise.all`: every entry's summary is
      requested; the result rejects with the first failure, else holds one
      item per entry. */
  function MapEntries(p: Provider, summarize: Summarizer, dir: Path, entries: seq<Entry>): (c: Children)
    ensures |c.requests| == (if p.hasService then |entries| else 0)
    ensures c.result.Success? ==> |c.result.value| == |entries|
    decreases |entries|
  {
    if entries == [] then Children(W.Success([]), [])
    else
      var entry := entries[0];
      var head := SummaryOf(p, summarize, dir, entry.name);
      var tail := MapEntries(p, summarize, dir, entries[1..]);
      var requests := (if p.hasService then [Request(dir, entry.name)] else []) + tail.requests;
      match head
      case Failure(e) => Children(W.Failure(e), requests)
      case Success(summary) =>
        match tail.result
        case Failure(e) => Children(W.Failure(e), requests)
        case Success(items) => Children(W.Success([ItemFor(dir, entry, summary)] + items), requests)
  }

  /** `getChildrenInDir`: list the directory, then map its entries. */
  function GetChildrenInDir(p: Provider, env: Env, summarize: Summarizer, dir: Path): (c: Children)
    ensures dir !in env.listings ==> c == Children(W.Failure(NotFound(dir)), [])
    ensures dir in env.listings ==> c == MapEntries(p, summarize, dir, env.listings[dir])
  {
    match ReadDirectory(env, dir)
    case Failure(e) => Children(W.Failure(e), [])
    case Success(entries) => MapEntries(p, summarize, dir, entries)
  }

  /** Whether `getChildren` lists the workspace root: no element and a truthy
      (set and non-empty) root path. */
  predicate ListsRoot(p: Provider, element: W.Option<Item>) {
    element.None? && p.workspaceRootPath.Some? && p.workspaceRootPath.value != []
  }

  /** `getChildren`: the root's children when called without an element, a
      directory element's children, and nothing otherwise. */
  function GetChildren(p: Provider, env: Env, summarize: Summarizer, element: W.Option<Item>): (c: Children)
    ensures ListsRoot(p, element) ==>
              c == GetChildrenInDir(p, env, summarize, p.workspaceRootPath.value)
    ensures element.Some? && element.value.isDir ==>
              c == GetChildrenInDir(p, env, summarize, element.value.uri)
    ensures !ListsRoot(p, element) && !(element.Some? && element.value.isDir) ==>
              c == Children(W.Success([]), [])
  {
    if ListsRoot(p, element) then GetChildrenInDir(p, env, summarize, p.workspaceRootPath.value)
    else if element.Some? && element.value.isDir then GetChildrenInDir(p, env, summarize, element.value.uri)
    else Children(W.Success([]), [])
  }

  /** The per-item invariants: the collapsible state, the directory flag and
      the icon agree (the folder icon for a directory, the file icon for
      anything else), and description and tooltip are the same text. */
  predicate WellFormed(item: Item) {
    && (item.collapsibleState == Collapsed <==> item.isDir)
    && (item.iconPath == IconPath(DIR_ICON_PATH, DIR_ICON_PATH) <==> item.isDir)
    && (!item.isDir ==> item.iconPath == IconPath(FILE_ICON_PATH, FILE_ICON_PATH))
    && item.description == item.tooltip
  }

  /** What the item for `entry` of `dir` shows, given the service's outcome. */
  predicate Shows(item: Item, p: Provider, summarize: Summarizer, dir: Path, entry: Entry) {
    && WellFormed(item)
    && item.labelText == entry.name
    && item.uri == Join(dir, entry.name)
    && (item.isDir <==> entry.kind == Directory)
    && (p.hasService ==> summarize(dir, entry.name).Success?
                         && item.description == summarize(dir, entry.name).value)
    && (!p.hasService ==> item.description == AWAITING_SUMMARY)
  }

  /** One summarisation request per entry, in listing order, with the listed
      directory as parent, whatever the outcomes; none without a service. */
  lemma {:induction false} RequestsPerEntry(p: Provider, summarize: Summarizer, dir: Path, entries: seq<Entry>)
    ensures var c := MapEntries(p, summarize, dir, entries);
      && |c.requests| == (if p.hasService then |entries| else 0)
      && forall i :: 0 <= i < |c.requests| ==> c.requests[i] == Request(dir, entries[i].name)
    decreases |entries|
  {
    if entries != [] {
      RequestsPerEntry(p, summarize, dir, entries[1..]);
    }
  }

  /** The mapping succeeds exactly when every entry's summary does, and then
      holds one item per entry, in listing order, showing that entry. */
  lemma {:induction false} ItemsPerEntry(p: Provider, summarize: Summarizer, dir: Path, entries: seq<Entry>)
    ensures var c := MapEntries(p, summarize, dir, entries);
      && (c.result.Success? <==>
            (p.hasService ==> forall i :: 0 <= i < |entries| ==> summarize(dir, entries[i].name).Success?))
      && (c.result.Success? ==>
            && |c.result.value| == |entries|
            && forall i :: 0 <= i < |entries| ==> Shows(c.result.value[i], p, summarize, dir, entries[i]))
    decreases |entries|
  {
    if entries != [] {
      ItemsPerEntry(p, summarize, dir, entries[1..]);
      var c := MapEntries(p, summarize, dir, entries);
      var entry := entries[0];
      var summary := SummaryOf(p, summarize, dir, entry.name);
      if summary.Success? {
        var item := ItemFor(dir, entry, summary.value);
        assert Shows(item, p, summarize, dir, entry);
      }
      forall i | 1 <= i < |entries| ensures entries[i] == entries[1..][i - 1] { }
    }
  }

  /** A rejected mapping carries the error of the first entry, in listing
      order, whose summary failed. */
  lemma {:induction false} FirstFailureRejects(p: Provider, summarize: Summarizer, dir: Path, entries: seq<Entry>)
    requires MapEntries(p, summarize, dir, entries).result.Failure?
    ensures p.hasService
    ensures exists i :: 0 <= i < |entries|
              && summarize(dir, entries[i].name) == W.Failure(MapEntries(p, summarize, dir, entries).result.error)
              && forall j :: 0 <= j < i ==> summarize(dir, entries[j].name).Success?
    decreases |entries|
  {
    var c := MapEntries(p, summarize, dir, entries);
    if summarize(dir, entries[0].name).Success? || !p.hasService {
      FirstFailureRejects(p, summarize, dir, entries[1..]);
      var i :| 0 <= i < |entries[1..]|
               && summarize(dir, entries[1..][i].name) == W.Failure(c.result.error)
               && forall j :: 0 <= j < i ==> summarize(dir, entries[1..][j].name).Success?;
      assert entries[i + 1] == entries[1..][i];
      forall j | 0 <= j < i + 1 ensures summarize(dir, entries[j].name).Success? {
        if j > 0 { assert entries[j] == entries[1..][j - 1]; }
      }
    } else {
      assert summarize(dir, entries[0].name) == W.Failure(c.result.error);
    }
  }

  /** Items of one listing have pairwise distinct paths when the names are
      distinct. */
  lemma DistinctPaths(p: Provider, summarize: Summarizer, dir: Path, entries: seq<Entry>)
    requires forall i, j :: 0 <= i < j < |entries| ==> entries[i].name != entries[j].name
    requires MapEntries(p, summarize, dir, entries).result.Success?
    ensures var items := MapEntries(p, summarize, dir, entries).result.value;
      forall i, j :: 0 <= i < j < |items| ==> items[i].uri != items[j].uri
  {
    ItemsPerEntry(p, summarize, dir, entries);
    var items := MapEntries(p, summarize, dir, entries).result.value;
    forall i, j | 0 <= i < j < |items| ensures items[i].uri != items[j].uri {
      JoinInjective(dir, entries[i].name, entries[j].name);
    }
  }

  /** With the extension's own service, no item is shown with an empty
      description or tooltip: a summary is never empty, and a missing service
      shows the placeholder. */
  lemma ServiceTextsNonEmpty(p: Provider, env: Env, script: seq<L.Outcome>, dir: Path)
    requires GetChildrenInDir(p, env, Service(env, script), dir).result.Success?
    ensures forall item <- GetChildrenInDir(p, env, Service(env, script), dir).result.value ::
              item.description != [] && item.tooltip != []
  {
    var entries := env.listings[dir];
    var items := GetChildrenInDir(p, env, Service(env, script), dir).result.value;
    ItemsPerEntry(p, Service(env, script), dir, entries);
    forall i | 0 <= i < |items| ensures items[i].description != [] && items[i].tooltip != [] {
      if p.hasService {
        var run := L.Summarize(env, dir, entries[i].name, L.DEFAULT_RETRY_COUNT, script);
        assert Service(env, script)(dir, entries[i].name) == run.result;
      } else {
        assert AWAITING_SUMMARY != [];
      }
    }
  }
}
