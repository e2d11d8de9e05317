/** The summarisation service of `src/llmService.ts`: token counting, the
    blank-file check, the file/directory dispatch, the three prompt variants,
    response shaping and the bounded retry on HTTP 429.

    The chat client is a scripted oracle: the k-th call to
    `createChatCompletion` answers with the k-th outcome of a script. */
module LlmService {
  import opened Wrappers
  import opened JsString
  import opened Workspace

  const DEFAULT_RETRY_COUNT: int := 3
  const MAX_FILE_TOKENS: int := 1000
  const RATE_LIMIT_STATUS: int := 429
  const NO_SUMMARY: string := "No summary available"

  // ---------------------------------------------------------------------
  // countTokens: `text.split(/\s+|\\n+/gm).filter(t => t.length > 0).length`
  // ---------------------------------------------------------------------

  /** Length of the run of whitespace starting at `i`. */
  function SpaceRun(s: string, i: nat): (n: nat)
    requires i <= |s|
    ensures i + n <= |s|
    ensures forall j :: i <= j < i + n ==> IsJsSpace(s[j])
    ensures i + n < |s| ==> !IsJsSpace(s[i + n])
    decreases |s| - i
  {
    if i < |s| && IsJsSpace(s[i]) then 1 + SpaceRun(s, i + 1) else 0
  }

  /** Length of the run of 'n' characters starting at `i`. */
  function LetterNRun(s: string, i: nat): (n: nat)
    requires i <= |s|
    ensures i + n <= |s|
    ensures forall j :: i <= j < i + n ==> s[j] == 'n'
    decreases |s| - i
  {
    if i < |s| && s[i] == 'n' then 1 + LetterNRun(s, i + 1) else 0
  }

  /** A character that no match of the separator pattern can contain. */
  predicate NeverSeparator(c: char) {
    !IsJsSpace(c) && c != '\\' && c != 'n'
  }

  /** Length of the match of `/\s+|\\n+/` that starts at `i`, or 0 when none
      does: a run of whitespace, or a backslash followed by one or more 'n'
      characters (a literal backslash, not a newline). */
  function SeparatorAt(s: string, i: nat): (n: nat)
    requires i < |s|
    ensures i + n <= |s|
    ensures forall j :: i <= j < i + n ==> !NeverSeparator(s[j])
    ensures n == 0 <==> !IsJsSpace(s[i]) && !(s[i] == '\\' && i + 1 < |s| && s[i + 1] == 'n')
  {
    if IsJsSpace(s[i]) then SpaceRun(s, i)
    else if s[i] == '\\' && i + 1 < |s| && s[i + 1] == 'n' then 1 + LetterNRun(s, i + 1)
    else 0
  }

  /** `String.prototype.split` with the separator pattern, continued from a
      piece that began at `start` and has been scanned up to `i`. The pattern
      never matches the empty string, so every match ends a piece. */
  function Pieces(s: string, start: nat, i: nat): seq<string>
    requires start <= i <= |s|
    decreases |s| - i
  {
    if i == |s| then [s[start..]]
    else
      var n := SeparatorAt(s, i);
      if n > 0 then [s[start..i]] + Pieces(s, i + n, i + n)
      else Pieces(s, start, i + 1)
  }

  function Split(s: string): seq<string> {
    Pieces(s, 0, 0)
  }

  /** `filter(t => t.length > 0)`. */
  function NonEmpty(pieces: seq<string>): (r: seq<string>)
    ensures |r| <= |pieces|
  {
    if pieces == [] then []
    else (if pieces[0] != [] then [pieces[0]] else []) + NonEmpty(pieces[1..])
  }

  /** `countTokens`: 0 for null or empty text, otherwise the number of
      non-empty pieces of the split. */
  function CountTokens(text: Option<string>): (count: nat)
    ensures text.None? || text == Some([]) ==> count == 0
  {
    match text
    case None => 0
    case Some(t) => if t == [] then 0 else |NonEmpty(Split(t))|
  }

  lemma {:induction false} NonEmptyAppend(a: seq<string>, b: seq<string>)
    ensures NonEmpty(a + b) == NonEmpty(a) + NonEmpty(b)
    decreases |a|
  {
    if a == [] {
      assert a + b == b;
    } else {
      assert (a + b)[0] == a[0];
      assert (a + b)[1..] == a[1..] + b;
      NonEmptyAppend(a[1..], b);
    }
  }

  /** A single piece survives the filter exactly when it is non-empty. */
  lemma NonEmptyOne(piece: string)
    ensures |NonEmpty([piece])| <= |piece|
    ensures |NonEmpty([piece])| == (if piece != [] then 1 else 0)
  {
  }

  lemma {:induction false} PiecesBound(s: string, start: nat, i: nat)
    requires start <= i <= |s|
    ensures |NonEmpty(Pieces(s, start, i))| <= |s| - start
    decreases |s| - i
  {
    if i == |s| {
      NonEmptyOne(s[start..]);
    } else {
      var n := SeparatorAt(s, i);
      if n > 0 {
        PiecesBound(s, i + n, i + n);
        NonEmptyAppend([s[start..i]], Pieces(s, i + n, i + n));
        NonEmptyOne(s[start..i]);
      } else {
        PiecesBound(s, start, i + 1);
      }
    }
  }

  /** A text never has more tokens than characters. */
  lemma CountTokensAtMostLength(s: string)
    ensures CountTokens(Some(s)) <= |s|
  {
    if s != [] {
      PiecesBound(s, 0, 0);
    }
  }

  lemma SpaceRunToEnd(s: string, i: nat)
    requires i <= |s|
    requires AllSpace(s)
    ensures SpaceRun(s, i) == |s| - i
  {
  }

  /** Whitespace-only text has no tokens. */
  lemma WhitespaceHasNoTokens(s: string)
    requires AllSpace(s)
    ensures CountTokens(Some(s)) == 0
  {
    if s != [] {
      SpaceRunToEnd(s, 0);
      assert SeparatorAt(s, 0) == |s|;
      assert Split(s) == [s[0..0]] + Pieces(s, |s|, |s|);
      assert Pieces(s, |s|, |s|) == [s[|s|..]];
      assert s[0..0] == [] && s[|s|..] == [];
      assert Split(s) == [[], []];
      assert NonEmpty([[]]) == [] + NonEmpty([]);
      NonEmptyAppend([[]], [[]]);
    }
  }

  lemma {:induction false} PiecesKeepWord(s: string, start: nat, i: nat, k: nat)
    requires start <= i <= |s|
    requires start <= k < |s| && NeverSeparator(s[k])
    ensures |NonEmpty(Pieces(s, start, i))| >= 1
    decreases |s| - i
  {
    if i == |s| {
      assert s[start..][k - start] == s[k];
      assert NonEmpty([s[start..]]) == [s[start..]] + NonEmpty([]);
    } else {
      var n := SeparatorAt(s, i);
      if n > 0 {
        NonEmptyAppend([s[start..i]], Pieces(s, i + n, i + n));
        if start < i {
          assert NonEmpty([s[start..i]]) == [s[start..i]] + NonEmpty([]);
        } else {
          assert k >= i + n;
          PiecesKeepWord(s, i + n, i + n, k);
        }
      } else {
        PiecesKeepWord(s, start, i + 1, k);
      }
    }
  }

  /** A text holding a character that cannot belong to a separator (neither
      whitespace, nor a backslash, nor 'n') has at least one token. */
  lemma WordCharMakesToken(s: string, k: nat)
    requires k < |s| && NeverSeparator(s[k])
    ensures CountTokens(Some(s)) >= 1
  {
    PiecesKeepWord(s, 0, 0, k);
  }

  lemma {:induction false} PiecesWithoutSeparator(s: string, i: nat)
    requires i <= |s|
    requires forall j :: 0 <= j < |s| ==> !IsJsSpace(s[j]) && s[j] != '\\'
    ensures Pieces(s, 0, i) == [s]
    decreases |s| - i
  {
    if i < |s| {
      PiecesWithoutSeparator(s, i + 1);
    }
  }

  /** Text with no whitespace and no backslash is a single token. */
  lemma UnbrokenTextIsOneToken(s: string)
    requires s != []
    requires forall j :: 0 <= j < |s| ==> !IsJsSpace(s[j]) && s[j] != '\\'
    ensures CountTokens(Some(s)) == 1
  {
    PiecesWithoutSeparator(s, 0);
    assert NonEmpty([s]) == [s] + NonEmpty([]);
  }

  // ---------------------------------------------------------------------
  // readTextFile and isFile
  // ---------------------------------------------------------------------

  /** The blank check of `readTextFile`: content whose trimmed form is empty
      reads as null; any other content is returned as it is, untrimmed. */
  function ReadText(content: string): (r: Option<string>)
    ensures r.Some? <==> !AllSpace(content)
    ensures r.Some? ==> r.value == content
  {
    TrimEmptyIffAllSpace(content);
    if |Trim(content)| > 0 then Some(content) else None
  }

  function ReadTextFile(env: Env, path: Path): (r: Result<Option<string>, Error>)
    ensures r.Success? <==> path in env.texts
    ensures r.Success? ==> r.value == ReadText(env.texts[path])
    ensures r.Failure? ==> r.error == NotFound(path)
  {
    match ReadFile(env, path)
    case Failure(e) => Failure(e)
    case Success(content) => Success(ReadText(content))
  }

  /** `isFile`: true for a File, false for a Directory, the error
      "Unknown file type." for any other kind. */
  function IsFile(env: Env, parent: Path, name: string): (r: Result<bool, Error>)
    ensures r == Success(true) <==> Stat(env, parent, name) == Success(File)
    ensures r == Success(false) <==> Stat(env, parent, name) == Success(Directory)
    ensures r == Failure(UnknownFileType) <==> Stat(env, parent, name).Success? && Stat(env, parent, name).value.Other?
    ensures r.Failure? && r.error != UnknownFileType ==> r == Failure(Stat(env, parent, name).error)
  {
    match Stat(env, parent, name)
    case Failure(e) => Failure(e)
    case Success(kind) =>
      match kind
      case File => Success(true)
      case Directory => Success(false)
      case Other => Failure(UnknownFileType)
  }

  // ---------------------------------------------------------------------
  // Prompts
  // ---------------------------------------------------------------------

  /** The three prompt variants. */
  datatype Variant =
    | FileWithContent(fileName: string, text: string)
    | FileByName(fileName: string)
    | Subdirectory(dirName: string)

  /** A prompt: the parent directory's base name, its entry names joined by
      ", ", and the variant that follows them. */
  datatype Prompt = Prompt(parentName: string, siblings: string, variant: Variant)

  // Stand-ins for the fixed prose of the templates; only their position
  // relative to the inserted fields matters here.
  const SYSTEM_MESSAGE: string := "<system: summarise files from their names and siblings>"
  const HEADER_INTRO: string := "<directory named>"
  const HEADER_CONTENTS: string := "<its contents>"
  const WITH_CONTENT_INTRO: string := "<summarise this file from its name and content; file name>"
  const WITH_CONTENT_TEXT: string := "<file content>"
  const WITH_CONTENT_END: string := "<one-sentence summary for the file>"
  const BY_NAME_INTRO: string := "<summarise this file from its name; file>"
  const BY_NAME_END: string := "<end>"
  const SUBDIR_INTRO: string := "<summarise this subdirectory from its name; subdirectory>"
  const SUBDIR_END: string := "<end>"

  /** `names.join(", ")`. */
  function JoinNames(names: seq<string>): string {
    if names == [] then []
    else if |names| == 1 then names[0]
    else names[0] + ", " + JoinNames(names[1..])
  }

  /** Joining two non-empty lists of names one after the other is joining
      each and putting ", " between the two. */
  lemma {:induction false} JoinNamesAppend(a: seq<string>, b: seq<string>)
    requires a != [] && b != []
    ensures JoinNames(a + b) == JoinNames(a) + ", " + JoinNames(b)
    decreases |a|
  {
    if |a| == 1 {
      assert (a + b)[1..] == b;
    } else {
      assert (a + b)[1..] == a[1..] + b;
      JoinNamesAppend(a[1..], b);
    }
  }

  function Header(parentName: string, siblings: string): string {
    HEADER_INTRO + parentName + HEADER_CONTENTS + siblings
  }

  function Body(v: Variant): string {
    match v
    case FileWithContent(fileName, text) =>
      WITH_CONTENT_INTRO + fileName + WITH_CONTENT_TEXT + text + WITH_CONTENT_END
    case FileByName(fileName) => BY_NAME_INTRO + fileName + BY_NAME_END
    case Subdirectory(dirName) => SUBDIR_INTRO + dirName + SUBDIR_END
  }

  /** The user prompt as sent: header first, then the variant's text. */
  function Render(p: Prompt): (prompt: string)
    ensures Header(p.parentName, p.siblings) <= prompt
  {
    var h := Header(p.parentName, p.siblings);
    assert h <= h + Body(p.variant);
    h + Body(p.variant)
  }

  /** The variant for a file whose read text is `text`: with content only when
      the text is truthy and has fewer than MAX_FILE_TOKENS tokens. */
  function FileVariant(fileName: string, text: Option<string>): (v: Variant)
    ensures !v.Subdirectory? && v.fileName == fileName
    ensures v.FileWithContent? <==>
              text.Some? && text.value != [] && CountTokens(text) < MAX_FILE_TOKENS
    ensures v.FileWithContent? ==> v.text == text.value
  {
    if text.Some? && text.value != [] && CountTokens(text) < MAX_FILE_TOKENS then
      FileWithContent(fileName, text.value)
    else
      FileByName(fileName)
  }

  /** The steps after the parent's listing: stat the target, read a file's
      text, and pick the variant. */
  function TargetPrompt(env: Env, parent: Path, name: string, dirName: string, siblings: string)
    : (r: Result<Prompt, Error>)
    ensures r.Success? ==> r.value.parentName == dirName && r.value.siblings == siblings
    ensures r.Success? ==> (r.value.variant.Subdirectory? <==> IsFile(env, parent, name) == Success(false))
    ensures r.Success? && r.value.variant.Subdirectory? ==> r.value.variant.dirName == name
    ensures r.Failure? ==> IsFile(env, parent, name).Failure? ||
                           (IsFile(env, parent, name) == Success(true) && Join(parent, name) !in env.texts)
  {
    match IsFile(env, parent, name)
    case Failure(e) => Failure(e)
    case Success(isFile) =>
      if isFile then
        match ReadTextFile(env, Join(parent, name))
        case Failure(e) => Failure(e)
        case Success(text) => Success(Prompt(dirName, siblings, FileVariant(name, text)))
      else
        Success(Prompt(dirName, siblings, Subdirectory(name)))
  }

  /** Everything `summarizeFileOrDirectory` does before calling the client:
      list the parent, stat the target, read a file's text, and build the
      prompt. Each of these can throw; none of them is inside the `try`. */
  function BuildPrompt(env: Env, parent: Path, name: string): (r: Result<Prompt, Error>)
    ensures parent !in env.listings ==> r == Failure(NotFound(parent))
    ensures r.Success? ==> && parent in env.listings
                           && r.value.parentName == Basename(parent)
                           && r.value.siblings == JoinNames(Names(env.listings[parent]))
  {
    match ReadDirectory(env, parent)
    case Failure(e) => Failure(e)
    case Success(entries) =>
      TargetPrompt(env, parent, name, Basename(parent), JoinNames(Names(entries)))
  }

  /** The steps before the client call fail only with the parent's or the
      target's not-found error, or with "Unknown file type."; the last exactly
      when the parent is listed and stat reports neither File nor Directory. */
  lemma PromptErrors(env: Env, parent: Path, name: string)
    ensures var r := BuildPrompt(env, parent, name);
      && (r.Failure? ==>
            r.error == NotFound(parent) || r.error == NotFound(Join(parent, name)) || r.error == UnknownFileType)
      && (r == Failure(UnknownFileType) <==>
            parent in env.listings && Stat(env, parent, name).Success? && Stat(env, parent, name).value.Other?)
  {
  }

  /** Which prompt is built. A directory always gets the subdirectory prompt;
      a file gets the with-content prompt exactly when its text has a
      non-whitespace character and fewer than MAX_FILE_TOKENS tokens, and then
      the text is passed untrimmed; otherwise it gets the name-only prompt.
      Every prompt starts with the parent's base name and its entry names
      joined by ", " in listing order. */
  lemma PromptChoice(env: Env, parent: Path, name: string)
    requires BuildPrompt(env, parent, name).Success?
    ensures parent in env.listings
    ensures var p := BuildPrompt(env, parent, name).value;
      && Header(Basename(parent), JoinNames(Names(env.listings[parent]))) <= Render(p)
      && (p.variant.Subdirectory? <==> Stat(env, parent, name) == Success(Directory))
      && (p.variant.Subdirectory? ==> p.variant.dirName == name)
      && (!p.variant.Subdirectory? ==> p.variant.fileName == name && Join(parent, name) in env.texts)
      && (p.variant.FileWithContent? <==>
            && Stat(env, parent, name) == Success(File)
            && !AllSpace(env.texts[Join(parent, name)])
            && CountTokens(Some(env.texts[Join(parent, name)])) < MAX_FILE_TOKENS)
      && (p.variant.FileWithContent? ==> p.variant.text == env.texts[Join(parent, name)])
  {
  }

  // ---------------------------------------------------------------------
  // The chat client and the retry
  // ---------------------------------------------------------------------

  /** One answer of `createChatCompletion`: resolved text (possibly "") or a
      thrown error. */
  datatype Outcome = Ok(text: string) | Err(failure: ApiFailure)

  /** The answer to the k-th call. A script that has run out answers with an
      empty completion, as an unconfigured client stub resolves undefined. */
  function ResponseAt(script: seq<Outcome>, k: nat): Outcome {
    if k < |script| then script[k] else Ok([])
  }

  function Rest(script: seq<Outcome>): (r: seq<Outcome>)
    ensures forall k: nat :: ResponseAt(r, k) == ResponseAt(script, k + 1)
  {
    if script != [] then script[1..] else []
  }

  predicate IsRateLimit(f: ApiFailure) {
    f.status == Some(RATE_LIMIT_STATUS)
  }

  /** Response shaping: a truthy answer as it is, otherwise NO_SUMMARY. */
  function Shape(response: string): (summary: string)
    ensures summary != []
    ensures response != [] ==> summary == response
    ensures response == [] ==> summary == NO_SUMMARY
  {
    if response != [] then response else NO_SUMMARY
  }

  /** The two messages of one `createChatCompletion` call. */
  datatype ChatCall = ChatCall(systemMessage: string, prompt: string)

  /** The call made for a prompt: the fixed system message and the rendered
      user prompt. */
  function CallFor(p: Prompt): (call: ChatCall)
    ensures call.systemMessage == SYSTEM_MESSAGE
    ensures Header(p.parentName, p.siblings) <= call.prompt
  {
    ChatCall(SYSTEM_MESSAGE, Render(p))
  }

  /** The result of one top-level call and the client calls it made, in
      order. */
  datatype Run = Run(result: Result<string, Error>, sent: seq<ChatCall>)

  function Max0(n: int): nat {
    if n > 0 then n else 0
  }

  function Min(a: nat, b: nat): nat {
    if a < b then a else b
  }

  /** The attempts of `summarizeFileOrDirectory(parent, name, retries)` once
      the steps before the client call have given `built`. A rate-limited call
      with retries left starts the operation again with one retry fewer; the
      steps before the client call then give the same `built` again, since
      the file system is one snapshot. */
  function Attempts(built: Result<Prompt, Error>, retries: int, script: seq<Outcome>): (run: Run)
    ensures |run.sent| <= Max0(retries) + 1
    ensures run.result.Success? ==> run.result.value != []
    ensures built.Failure? ==> run == Run(Failure(built.error), [])
    decreases Max0(retries)
  {
    match built
    case Failure(e) => Run(Failure(e), [])
    case Success(p) =>
      var call := CallFor(p);
      match ResponseAt(script, 0)
      case Ok(text) => Run(Success(Shape(text)), [call])
      case Err(f) =>
        if IsRateLimit(f) && retries > 0 then
          var next := Attempts(built, retries - 1, Rest(script));
          Run(next.result, [call] + next.sent)
        else
          Run(Failure(ApiError(f)), [call])
  }

  /** `summarizeFileOrDirectory(parent, name, retries)` against the snapshot
      `env` and the client script. */
  function Summarize(env: Env, parent: Path, name: string, retries: int, script: seq<Outcome>): (run: Run)
    ensures |run.sent| <= Max0(retries) + 1
    ensures run.result.Success? ==> run.result.value != []
    ensures BuildPrompt(env, parent, name).Failure? ==>
              run == Run(Failure(BuildPrompt(env, parent, name).error), [])
  {
    Attempts(BuildPrompt(env, parent, name), retries, script)
  }

  /** Earlier client calls put in front of a run. */
  function After(earlier: seq<ChatCall>, run: Run): Run {
    Run(run.result, earlier + run.sent)
  }

  /** `summarizeFileOrDirectory` as a bounded attempt loop: each attempt
      rebuilds the prompt and makes one client call; a 429 with retries left
      starts the next attempt. */
  method SummarizeFileOrDirectory(env: Env, parent: Path, name: string, retries: int, script: seq<Outcome>)
    returns (result: Result<string, Error>, sent: seq<ChatCall>)
    ensures Run(result, sent) == Summarize(env, parent, name, retries, script)
  {
    var left := retries;
    var rest := script;
    sent := [];
    while true
      invariant Summarize(env, parent, name, retries, script) ==
                After(sent, Attempts(BuildPrompt(env, parent, name), left, rest))
      decreases Max0(left)
    {
      var built := BuildPrompt(env, parent, name);
      if built.Failure? {
        result := Failure(built.error);
        return;
      }
      var call := ChatCall(SYSTEM_MESSAGE, Render(built.value));
      var response := ResponseAt(rest, 0);
      ghost var before := sent;
      sent := sent + [call];
      match response {
        case Ok(text) =>
          result := Success(Shape(text));
          return;
        case Err(f) =>
          if IsRateLimit(f) && left > 0 {
            assert before + ([call] + Attempts(built, left - 1, Rest(rest)).sent)
                == sent + Attempts(built, left - 1, Rest(rest)).sent;
            left := left - 1;
            rest := Rest(rest);
          } else {
            result := Failure(ApiError(f));
            return;
          }
      }
    }
  }

  /** Number of rate-limit errors at the head of the script. */
  function LeadingRateLimits(script: seq<Outcome>): nat
    decreases |script|
  {
    if script != [] && script[0].Err? && IsRateLimit(script[0].failure) then
      1 + LeadingRateLimits(script[1..])
    else 0
  }

  /** The exact number of client calls: one, plus one per leading 429 the
      retry budget lets through. */
  lemma {:induction false} AttemptCount(p: Prompt, retries: int, script: seq<Outcome>)
    ensures |Attempts(Success(p), retries, script).sent| == 1 + Min(LeadingRateLimits(script), Max0(retries))
    decreases Max0(retries)
  {
    var r := ResponseAt(script, 0);
    if r.Err? && IsRateLimit(r.failure) && retries > 0 {
      AttemptCount(p, retries - 1, Rest(script));
    }
  }

  /** The exact number of client calls of a summarisation whose prompt can
      be built; with the default budget that is at most
      DEFAULT_RETRY_COUNT + 1 = 4 calls. */
  lemma CallCount(env: Env, parent: Path, name: string, retries: int, script: seq<Outcome>)
    requires BuildPrompt(env, parent, name).Success?
    ensures |Summarize(env, parent, name, retries, script).sent| ==
            1 + Min(LeadingRateLimits(script), Max0(retries))
    ensures retries == DEFAULT_RETRY_COUNT ==>
            |Summarize(env, parent, name, retries, script).sent| <= DEFAULT_RETRY_COUNT + 1
  {
    AttemptCount(BuildPrompt(env, parent, name).value, retries, script);
  }

  /** How a run of attempts ends: every call gets the same prompt; every
      call but the last was answered with a 429; the last answer decides
      the result: a completion gives its shaped text, and an error is
      rethrown unchanged, either because it is not a 429 or because the
      retries are used up. */
  lemma {:induction false} AttemptsOutcome(p: Prompt, retries: int, script: seq<Outcome>)
    ensures var run := Attempts(Success(p), retries, script);
      var n := |run.sent|;
      var last := ResponseAt(script, n - 1);
      && n >= 1
      && (forall k :: 0 <= k < n ==> run.sent[k] == CallFor(p))
      && (forall k: nat :: k < n - 1 ==> ResponseAt(script, k).Err? && IsRateLimit(ResponseAt(script, k).failure))
      && (last.Ok? ==> run.result == Success(Shape(last.text)))
      && (last.Err? ==> run.result == Failure(ApiError(last.failure))
                        && (!IsRateLimit(last.failure) || n - 1 == Max0(retries)))
    decreases Max0(retries)
  {
    var r := ResponseAt(script, 0);
    if r.Err? && IsRateLimit(r.failure) && retries > 0 {
      AttemptsOutcome(p, retries - 1, Rest(script));
      var next := Attempts(Success(p), retries - 1, Rest(script));
      var run := Attempts(Success(p), retries, script);
      assert run.sent == [CallFor(p)] + next.sent;
      assert ResponseAt(script, |run.sent| - 1) == ResponseAt(Rest(script), |next.sent| - 1);
      forall k: nat | k < |run.sent| - 1
        ensures ResponseAt(script, k).Err? && IsRateLimit(ResponseAt(script, k).failure)
      {
        if k > 0 {
          assert ResponseAt(script, k) == ResponseAt(Rest(script), k - 1);
        }
      }
    }
  }

  /** The same, for a summarisation whose prompt can be built. */
  lemma RunOutcome(env: Env, parent: Path, name: string, retries: int, script: seq<Outcome>)
    requires BuildPrompt(env, parent, name).Success?
    ensures var run := Summarize(env, parent, name, retries, script);
      var n := |run.sent|;
      var last := ResponseAt(script, n - 1);
      && n >= 1
      && (forall k :: 0 <= k < n ==> run.sent[k] == CallFor(BuildPrompt(env, parent, name).value))
      && (forall k: nat :: k < n - 1 ==> ResponseAt(script, k).Err? && IsRateLimit(ResponseAt(script, k).failure))
      && (last.Ok? ==> run.result == Success(Shape(last.text)))
      && (last.Err? ==> run.result == Failure(ApiError(last.failure))
                        && (!IsRateLimit(last.failure) || n - 1 == Max0(retries)))
  {
    AttemptsOutcome(BuildPrompt(env, parent, name).value, retries, script);
  }

  /** An entry that is neither a file nor a directory fails with "Unknown
      file type." before any client call, whatever the retry budget. */
  lemma UnknownKindNotRetried(env: Env, parent: Path, name: string, retries: int, script: seq<Outcome>)
    requires parent in env.listings
    requires Stat(env, parent, name).Success? && Stat(env, parent, name).value.Other?
    ensures Summarize(env, parent, name, retries, script) == Run(Failure(UnknownFileType), [])
  {
  }
}
