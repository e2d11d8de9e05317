/** The repository's test fixture, a workspace `test_workspace` holding
    `test_file_1.txt` (text "This is a test.") and `test_subdir` (holding
    `test_file_2.txt` and `test_file_3.txt`), and what the service and the
    tree provider do on it. */
module Scenarios {
  import opened Wrappers
  import opened JsString
  import opened Workspace
  import opened LlmService
  import T = Tree

  const ROOT: Path := Join("/workspaces", "test_workspace")
  const SUBDIR: Path := Join(ROOT, "test_subdir")
  const FILE_1_TEXT: string := "This is a test."

  /** The fixture. The texts of the two files in the subdirectory are not
      part of it: nothing here reads them. */
  const FIXTURE: Env := Env(
    map[ROOT := [Entry("test_file_1.txt", File), Entry("test_subdir", Directory)],
        SUBDIR := [Entry("test_file_2.txt", File), Entry("test_file_3.txt", File)]],
    map[Join(ROOT, "test_file_1.txt") := FILE_1_TEXT])

  const ROOT_SIBLINGS: string := "test_file_1.txt, test_subdir"

  lemma RootPrompt(name: string)
    requires name in {"test_file_1.txt", "test_subdir"}
    ensures BuildPrompt(FIXTURE, ROOT, name) ==
      Success(Prompt("test_workspace", ROOT_SIBLINGS,
                     if name == "test_file_1.txt" then FileWithContent(name, FILE_1_TEXT)
                     else Subdirectory(name)))
  {
    BasenameOfJoin("/workspaces", "test_workspace");
    assert Names(FIXTURE.listings[ROOT]) == ["test_file_1.txt", "test_subdir"];
    assert JoinNames(["test_file_1.txt", "test_subdir"]) == ROOT_SIBLINGS;
    if name == "test_file_1.txt" {
      assert !IsJsSpace(FILE_1_TEXT[0]);
      CountTokensAtMostLength(FILE_1_TEXT);
    }
  }

  /** A file under the token budget gets the with-content prompt, and a
      completion is returned as it is, after one client call. */
  lemma FileScenario()
    ensures Summarize(FIXTURE, ROOT, "test_file_1.txt", DEFAULT_RETRY_COUNT, [Ok("FAKE SUMMARY")])
         == Run(Success("FAKE SUMMARY"),
                [CallFor(Prompt("test_workspace", ROOT_SIBLINGS,
                               FileWithContent("test_file_1.txt", FILE_1_TEXT)))])
  {
    RootPrompt("test_file_1.txt");
  }

  /** A subdirectory gets the subdirectory prompt, which names it but does
      not list its own contents. */
  lemma SubdirectoryScenario()
    ensures Summarize(FIXTURE, ROOT, "test_subdir", DEFAULT_RETRY_COUNT, [Ok("FAKE SUMMARY")])
         == Run(Success("FAKE SUMMARY"),
                [CallFor(Prompt("test_workspace", ROOT_SIBLINGS, Subdirectory("test_subdir")))])
  {
    RootPrompt("test_subdir");
  }

  /** An empty completion gives "No summary available", not an error. */
  lemma EmptyCompletionScenario()
    ensures Summarize(FIXTURE, ROOT, "test_file_1.txt", DEFAULT_RETRY_COUNT, [Ok("")]).result
         == Success(NO_SUMMARY)
  {
  }

  /** A 429 followed by a completion: two client calls, the completion wins. */
  lemma RetryScenario()
    ensures var run := Summarize(FIXTURE, ROOT, "test_file_1.txt", DEFAULT_RETRY_COUNT,
                                 [Err(ApiFailure(Some(429), "Rate limit exceeded")), Ok("FAKE SUMMARY")]);
      run.result == Success("FAKE SUMMARY") && |run.sent| == 2
  {
  }

  /** An error without a 429 status: one client call, the error rethrown. */
  lemma NoRetryScenario()
    ensures var failure := ApiFailure(None, "Some error");
      Summarize(FIXTURE, ROOT, "test_file_1.txt", DEFAULT_RETRY_COUNT, [Err(failure)])
        == Run(Failure(ApiError(failure)),
               [CallFor(Prompt("test_workspace", ROOT_SIBLINGS,
                              FileWithContent("test_file_1.txt", FILE_1_TEXT)))])
  {
    RootPrompt("test_file_1.txt");
  }

  /** The stubbed service of the tree tests. */
  function StubSummary(parent: Path, name: string): Result<string, Error> {
    Success("SUMMARY GOES HERE")
  }

  function StubItem(dir: Path, name: string, isDir: bool): T.Item {
    T.NewItem(name, if isDir then T.Collapsed else T.None, "SUMMARY GOES HERE",
              "SUMMARY GOES HERE", Join(dir, name), isDir)
  }

  /** The stubbed mapping of a two-entry listing. */
  lemma StubMapping(dir: Path, a: Entry, b: Entry)
    ensures T.MapEntries(T.Provider(Some(ROOT), true), StubSummary, dir, [a, b]).result
         == Success([StubItem(dir, a.name, a.kind == Directory), StubItem(dir, b.name, b.kind == Directory)])
  {
    var p := T.Provider(Some(ROOT), true);
    var stub := Some("SUMMARY GOES HERE");
    assert [a, b][0] == a && [a, b][1..] == [b] && [b][0] == b && [b][1..] == [];
    assert T.MapEntries(p, StubSummary, dir, []).result == Success([]);
    assert T.SummaryOf(p, StubSummary, dir, b.name) == Success(stub);
    assert T.MapEntries(p, StubSummary, dir, [b]).result == Success([T.ItemFor(dir, b, stub)] + []);
    assert [T.ItemFor(dir, b, stub)] + [] == [T.ItemFor(dir, b, stub)];
    var tail := T.MapEntries(p, StubSummary, dir, [a, b][1..]);
    assert tail.result == Success([T.ItemFor(dir, b, stub)]);
    assert T.SummaryOf(p, StubSummary, dir, a.name) == Success(stub);
    assert T.MapEntries(p, StubSummary, dir, [a, b]).result
        == Success([T.ItemFor(dir, a, stub)] + [T.ItemFor(dir, b, stub)]);
    assert T.ItemFor(dir, a, stub) == StubItem(dir, a.name, a.kind == Directory);
    assert T.ItemFor(dir, b, stub) == StubItem(dir, b.name, b.kind == Directory);
    assert [T.ItemFor(dir, a, stub)] + [T.ItemFor(dir, b, stub)]
        == [StubItem(dir, a.name, a.kind == Directory), StubItem(dir, b.name, b.kind == Directory)];
  }

  /** Expanding the root lists its two entries in order. */
  lemma RootChildrenScenario()
    ensures T.GetChildren(T.Provider(Some(ROOT), true), FIXTURE, StubSummary, None).result
         == Success([StubItem(ROOT, "test_file_1.txt", false), StubItem(ROOT, "test_subdir", true)])
  {
    assert ROOT != [];
    StubMapping(ROOT, Entry("test_file_1.txt", File), Entry("test_subdir", Directory));
  }

  /** Expanding the subdirectory's item lists its two files in order. */
  lemma SubdirChildrenScenario()
    ensures T.GetChildren(T.Provider(Some(ROOT), true), FIXTURE, StubSummary,
                          Some(StubItem(ROOT, "test_subdir", true))).result
         == Success([StubItem(SUBDIR, "test_file_2.txt", false), StubItem(SUBDIR, "test_file_3.txt", false)])
  {
    StubMapping(SUBDIR, Entry("test_file_2.txt", File), Entry("test_file_3.txt", File));
  }
}
