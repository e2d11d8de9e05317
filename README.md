# TreeSum core in Dafny

TreeSum is a VS Code extension. It shows the workspace as a tree and puts a
one-sentence summary, written by a chat-completion model, next to every file
and directory. This project models the two parts of it that hold its logic:

- **The summarisation service** (`src/llmService.ts`). It lists the parent
  directory and stats the target. For a file it reads the text and applies
  the blank check and the token gate. It then builds one of three prompts
  (file with content, file by name, subdirectory) and calls the chat client.
  An empty answer becomes "No summary available". A rate-limit error
  (HTTP 429) is retried while the retry budget (3 by default) lasts.
- **The tree provider** (`src/tree.ts`). Given a directory listing, it builds
  one display item per entry, in listing order. Each item has a label, a
  path, a collapsible state, a folder or file icon, and the entry's summary
  as description and tooltip. `getChildren` decides what to list for the
  element being expanded.

Environment. The file system is a value, `Workspace.Env`: a map from
directory path to its ordered listing of (name, kind), and a map from file
path to its text. `stat` answers with the kind the parent's listing reports.
The chat client is a script of outcomes, `Ok(text)` or `Err(failure)`; the
k-th call gets the k-th outcome. A script that has run out answers `Ok("")`,
the way an unconfigured client stub resolves `undefined`.

Files:

- `wrappers.dfy`: Option and Result.
- `js_string.dfy`: JavaScript whitespace and `trim`.
- `workspace.dfy`: paths, the file-system snapshot and the error type.
- `llm_service.dfy`: token counting, the blank check, prompt building, the
  recursive specification `Attempts` of the retry, and the method
  `SummarizeFileOrDirectory`, a bounded attempt loop proved equal to it.
- `tree.dfy`: the items and the provider, as pure functions.
- `scenarios.dfy`: the repository's test workspace, and what the service and
  the provider do on it.

Facts about the code that the model keeps, including where the repository's
own tests expect something else:

- The token gate counts the tokens of the file's text, not of the whole
  prompt, against the constant `MAX_FILE_TOKENS = 1000`.
- Tokens are the non-empty pieces left after splitting on `/\s+|\\n+/`. The
  second alternative matches a literal backslash followed by `n` characters,
  not a newline. So `a\nb` written with a real backslash counts as two tokens.
- An empty completion yields "No summary available". The test at
  `src/test/llmService.test.ts:107` expects `null`; the model follows the code.
- The prompt wording in `src/test/llmService.test.ts:37-56` is not the wording
  the code builds. The model keeps the code's structure: the header, then
  the variant's fields.
- A subdirectory prompt carries the subdirectory's name only.
- `src/llmService.ts:1-11` holds unresolved merge markers. The model takes the
  side that imports `OpenAIClient`, which is what the class uses.

## Model

| member | source | states |
|---|---|---|
| `JsString.TrimEmptyIffAllSpace` | src/llmService.ts:174 | `content.trim().length > 0` holds exactly when the content has a non-whitespace character |
| `Workspace.BasenameOfJoin` | src/llmService.ts:48-49 | the base name of a path joined from a directory and a slash-free name is that name |
| `Workspace.JoinInjective` | src/tree.ts:62 | within one directory, distinct entry names give distinct item paths |
| `LlmService.CountTokens` | src/llmService.ts:182-189 | null or empty text has 0 tokens |
| `LlmService.CountTokensAtMostLength` | src/llmService.ts:186-188 | the token count never exceeds the text length |
| `LlmService.WhitespaceHasNoTokens` | src/llmService.ts:186-188 | whitespace-only text has 0 tokens |
| `LlmService.WordCharMakesToken` | src/llmService.ts:186-188 | text containing a character that is not whitespace, not a backslash and not `n` has at least one token |
| `LlmService.UnbrokenTextIsOneToken` | src/llmService.ts:186-188 | non-empty text with no whitespace and no backslash is exactly one token |
| `LlmService.ReadText` | src/llmService.ts:172-179 | content reads as null exactly when it is all whitespace; otherwise it is returned untrimmed |
| `LlmService.ReadTextFile` | src/llmService.ts:172-179 | a file with text reads as that text's blank check; a missing file rejects with its not-found error |
| `LlmService.IsFile` | src/llmService.ts:159-170 | File gives true, Directory gives false, any other kind gives "Unknown file type.", and a stat error propagates |
| `LlmService.Render` | src/llmService.ts:64-69 | every prompt starts with the header holding the parent's name and the sibling names |
| `LlmService.JoinNamesAppend` | src/llmService.ts:56 | `names.join(", ")` of two non-empty lists one after the other is the two joins with ", " between them |
| `LlmService.FileVariant` | src/llmService.ts:71-104 | a file is always named in its prompt; the prompt carries the text, as it is, exactly when the text is truthy and has fewer than 1000 tokens |
| `LlmService.TargetPrompt` | src/llmService.ts:71-118 | a built prompt keeps the given header fields and is the subdirectory prompt, naming the entry, exactly when `isFile` answers false; it fails only when `isFile` fails or a file's text cannot be read |
| `LlmService.BuildPrompt` | src/llmService.ts:48-56 | an unlisted parent rejects with its not-found error; a built prompt's header holds the parent's base name and its entry names joined by ", " |
| `LlmService.PromptErrors` | src/llmService.ts:48-118 | the steps before the client call fail only with the parent's or the target's not-found error, or with "Unknown file type."; the last happens exactly when stat reports another kind |
| `LlmService.PromptChoice` | src/llmService.ts:49-118 | a directory always gets the subdirectory prompt; a file gets the with-content prompt iff its text has a non-whitespace character and fewer than 1000 tokens, and the text goes in untrimmed; otherwise it gets the name-only prompt; the header holds the parent's base name and its entry names joined by ", " in listing order |
| `LlmService.Shape` | src/llmService.ts:126-130 | a truthy response is returned unchanged; an empty one becomes "No summary available", so the result is never empty |
| `LlmService.CallFor` | src/llmService.ts:121-124 | every client call carries the fixed system message and the rendered prompt, whose header comes first |
| `LlmService.Attempts` | src/llmService.ts:120-148 | at most `max(retries, 0) + 1` client calls; a success is never empty; a failure before the client call makes no call and is returned as it is |
| `LlmService.Summarize` | src/llmService.ts:43-149 | at most `max(retries, 0) + 1` client calls; a success is never empty; a failure before the client call (listing, stat, read) makes no call and is not retried |
| `LlmService.SummarizeFileOrDirectory` | src/llmService.ts:43-149 | the attempt loop returns exactly the result and the sequence of client calls of the recursive definition |
| `LlmService.AttemptCount` | src/llmService.ts:131-139 | the number of client calls is one plus the number of leading 429s, capped by the retry budget |
| `LlmService.CallCount` | src/llmService.ts:131-139 | the same count for a whole summarisation; with the default budget of 3 there are at most 4 calls |
| `LlmService.AttemptsOutcome` | src/llmService.ts:120-148 | every call gets the same system message and prompt; every call but the last got a 429; a final completion gives its shaped text; a final error is rethrown unchanged, because it is not a 429 or because the retries are used up |
| `LlmService.RunOutcome` | src/llmService.ts:120-148 | the same for a whole summarisation whose prompt can be built |
| `LlmService.UnknownKindNotRetried` | src/llmService.ts:159-169 | an entry of another kind fails with "Unknown file type." after no client call, whatever the retry budget |
| `Tree.NewItem` | src/tree.ts:71-96 | the item keeps its arguments and uses the folder icon, for light and dark themes, exactly when it is a directory, and the file icon for both themes otherwise |
| `Tree.GetTreeItem` | src/tree.ts:25-27 | the element is returned unchanged |
| `Tree.DisplayText` | src/tree.ts:60-61 | the summary is shown as it is, or "AWAITING SUMMARY" when it is undefined |
| `Tree.SummaryOf` | src/tree.ts:51-54 | with no service the summary is undefined; with one, the entry's summary resolves or rejects exactly as the service does |
| `Tree.ItemFor` | src/tree.ts:50-64 | the entry's item is labelled with its name, points at the joined path, is a directory iff the entry's kind is Directory, is collapsed and has the folder icon iff it is a directory, has the file icon otherwise, and shows the same display text as description and tooltip |
| `Tree.MapEntries` | src/tree.ts:48-66 | one summary request per entry when a service is attached, none otherwise; a success holds one item per entry |
| `Tree.GetChildrenInDir` | src/tree.ts:43-68 | a directory missing from the file system rejects with its not-found error and makes no summary request; a listed one gives exactly the mapping of its listing, so the per-entry laws apply |
| `Tree.GetChildren` | src/tree.ts:29-41 | with no element and a non-empty root, the root is listed; a directory element's path is listed; anything else gives no items |
| `Tree.RequestsPerEntry` | src/tree.ts:49-54 | one summary request per listed entry, in listing order, with the listed directory as parent, even when some fail |
| `Tree.ItemsPerEntry` | src/tree.ts:47-66 | the result succeeds iff every summary does; then there is one item per entry in listing order, with the entry's name as label and the joined path as uri; the item is collapsed iff it is a directory iff the entry's kind is Directory; it has the folder icon iff it is a directory and the file icon otherwise; description and tooltip are both the summary |
| `Tree.FirstFailureRejects` | src/tree.ts:48-66 | a rejected result carries the error of the first entry whose summary failed |
| `Tree.DistinctPaths` | src/tree.ts:62 | items of a listing with distinct names have distinct paths |
| `Tree.ServiceTextsNonEmpty` | src/tree.ts:51-61 | with the extension's own service, no item shows an empty description or tooltip |
| `Scenarios.FileScenario` | src/test/llmService.test.ts:27-35 | `test_file_1.txt` gets the with-content prompt with the test workspace's header, and one call returns "FAKE SUMMARY" |
| `Scenarios.SubdirectoryScenario` | src/test/llmService.test.ts:66-74 | `test_subdir` gets the subdirectory prompt, and one call returns "FAKE SUMMARY" |
| `Scenarios.EmptyCompletionScenario` | src/test/llmService.test.ts:99-108 | an empty completion gives "No summary available" (the code's behaviour; the test expects null) |
| `Scenarios.RetryScenario` | src/test/llmService.test.ts:110-125 | the script [429, "FAKE SUMMARY"] makes two calls and returns "FAKE SUMMARY" |
| `Scenarios.NoRetryScenario` | src/test/llmService.test.ts:127-143 | an error without a 429 status makes one call and is rethrown unchanged |
| `Scenarios.RootChildrenScenario` | src/test/tree.test.ts:41-64 | expanding the root yields the file item and then the collapsed subdirectory item |
| `Scenarios.SubdirChildrenScenario` | src/test/tree.test.ts:66-103 | expanding the subdirectory item yields its two file items in listing order |

## Left out

- Prompt prose: the fixed text of the system message and the templates is
  replaced by placeholder constants. Only the order of fixed text and
  inserted fields is modelled.
- `randomizedWait`: floating-point `Math.random` and a wall-clock timer. A
  retry starts at once.
- `console.error` logging.
- Concurrency of `Promise.all`: the fan-out is a map in listing order. All
  requests are issued. When several fail, the model reports the first in
  listing order; the real rejection is whichever fails first in time.
- Tree.Service: each entry's summary call is answered by its own copy of the
  client script. The real calls share one client, so their answers interleave.
- Retry re-reads: the source re-runs the listing, stat and read on every
  retry. The snapshot does not change between attempts, so `Attempts` reuses
  the first attempt's prompt. The loop method rebuilds it on every attempt.
- Paths: `Uri.joinPath` is `dir + "/" + name`, without normalisation (`..`,
  repeated slashes, Windows separators). `Uri.file` and `fsPath` are the
  identity.
- File bytes: `readFile` followed by `toString()` is taken to give the file's
  decoded text. Decoding is not modelled. Strings count Unicode scalar
  values, not UTF-16 units.
- stat: it answers from the parent's listing. A name the listing lacks is not
  found. The symbolic-link bit, and any stat answer other than File or
  Directory, is the single kind `Other`.
- `vscode.TreeItem` base class: the item is a value with the fields the
  extension sets. The field named `label` in the source is `labelText` here.
- `LLMService` constructor and its client field: the client is the script
  parameter.
- `src/openaiClient.ts` is modelled only as the script of outcomes. The
  model request and the trimming of the answer are not modelled.
- `src/extension.ts` (activation, commands, messages) and
  `src/workspace.ts` (root lookup) are not part of this model.
