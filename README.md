# GitCommit2Test core in Dafny

GitCommit2Test is a VS Code extension that collects the commits and the
diff of the current branch against a base branch. It asks an AI model
(OpenAI-compatible or Anthropic) to write test cases for them. The reply
streams into a webview as it arrives, and the finished markdown is parsed
into a requirement sentence and categories of test cases.

This project models the core of that pipeline and proves properties of it:

- `text.dfy` (module `Text`): JavaScript's `trim`, `split` and `join`, and
  `substring` as `Take`. It also writes a number in decimal, as `${n}` does.
- `patterns.dfy` (module `Patterns`): the regular expressions that
  `parseTestCases` applies to each trimmed line. Each one is an explicit
  matcher. Where a pattern can backtrack (`\s*(.+)$`, `#{1,3}`), the matcher
  searches in the order a backtracking engine tries.
- `fallback.dfy` (module `Fallback`): the two fallbacks that recover a
  requirement. The first is the loose `需求：` match. The second takes the
  first meaningful lines before the test cases.
- `extractor.dfy` (module `Extractor`): `parseTestCases`.
  - The specification is a function over the lines: `Step` and `ScanLines`
    describe the pass, and `Searched` and `LastField` describe the
    lookahead.
  - The method `ParseTestCases` has the outer loop over the lines. It calls
    `ScanLine` for each iteration and `ReadCase` for the inner lookahead
    loop.
  - Each method is proved to compute its function.
- `streaming.dfy` (module `Streaming`): the `data` handlers of the two
  streaming calls.
  - The class `StreamHandler` holds the closure state (`fullText`) and the
    callbacks fired so far.
  - `OnData` handles one chunk, and `Collect` runs a whole stream.
  - Both are proved against `TextFrom` and `CallbacksFrom`.
- `ai_service.dfy` (module `AiService`): `generateTestCases`.
  - The API-key check and the dispatch on the provider.
  - The prompt template with the diff truncated to 8000 characters.
  - The streaming call and the parse of the reply.
  - The mapping of every caught error to the message of the rethrown
    `Error`.
  - The HTTP transport and `JSON.parse` are given functions (`Backend`).
- `git_service.dfy` (module `GitService`): the string processing of
  `GitService`.
  - The commit list read from `git cherry -v`.
  - The changed files read from `git diff --name-only`.
  - The `main` default for the base branch, and `getGitDiffInfo`.
  - What each `git` command prints is given (`Workspace`).
- `webview.dfy` (module `Webview`): `handleGenerateTestCase`.
  - The class `TestCaseView` has a `posted` field: the messages sent to the
    webview so far.
  - Its methods are proved to append exactly `Trace(...)`, the trace
    function. The trace lemmas state the message protocol.
- `wrappers.dfy` (module `Wrappers`): `Option` and `Result`.

## Model

| member | source | states |
|---|---|---|
| Text.TrimSpec | src/aiService.ts:358 | `trim` removes exactly the leading and the trailing whitespace. The result neither starts nor ends with whitespace and is a slice of the input. |
| Text.TrimIdempotent | src/gitService.ts:39 | Trimming twice is trimming once. |
| Text.Split | src/aiService.ts:348 | `split('\n')` always gives at least one piece, and no piece holds the separator. |
| Text.SplitJoin | src/aiService.ts:101 | Splitting parts joined by a separator that none of them holds gives the parts back. |
| Text.Take | src/aiService.ts:105 | `substring(0, n)` is a prefix of length `min(n, length)`. |
| Text.DecimalRoundTrip | src/aiService.ts:83 | The decimal rendering of a status can be read back to the same number. |
| Patterns.BacktrackRestSpec | src/aiService.ts:395-397 | `\s*(.+)$` succeeds iff some whitespace prefix is followed by a non-empty line rest. It captures the rest after the longest such prefix. |
| Patterns.CategoryName | src/aiService.ts:395-404 | The category a header line names (`一、x`, `1. x`, `# x`, tried in that order) is never empty, holds no line terminator, and is the text that ends the line. |
| Patterns.NumeralHeaderRoundTrip | src/aiService.ts:395-404 | A header made of Chinese numerals, `、` and a name names exactly that name. |
| Patterns.NumberedHeaderRoundTrip | src/aiService.ts:396-404 | A header `<digits>. <name>` names exactly that name. |
| Patterns.HeadingRoundTrip | src/aiService.ts:397-404 | A heading of one to three `#`, a space and a name names exactly that name. |
| Patterns.CaseTitle | src/aiService.ts:410 | The title of a `用例N:` header is never empty, holds no line terminator, and is the text that ends the line. |
| Patterns.CaseTitleRoundTrip | src/aiService.ts:410 | `用例`, digits, a colon and a title give exactly that title. |
| Patterns.FieldValue | src/aiService.ts:431-437 | The value of a `* 操作：` / `* 期望：` bullet is never empty, holds no line terminator, and is the text that ends the line. |
| Patterns.FieldValueRoundTrip | src/aiService.ts:431-437 | `* 操作：v` gives exactly `v` as the operation and no expected result, and the same for `期望`. |
| Patterns.CaseHeaderStopsLookahead | src/aiService.ts:421-428 | Every case header ends a lookahead. A `#` heading never does. |
| Patterns.BareMarkerIsMarker | src/aiService.ts:377 | A line that `^[#*\-]+$` accepts is also accepted by `^[#*\-=]+$`. |
| Fallback.LooseFrom | src/aiService.ts:455 | What the loose `需求[：:]\s*([^\n]+)` match captures is non-empty and holds no line feed. |
| Fallback.LineAfterSpacesSpec | src/aiService.ts:455 | `\s*([^\n]+)` backtracks to the last position in the whitespace run where a line can start, fails iff there is none, and captures the text from there up to the next line feed. |
| Fallback.LooseFromSpec | src/aiService.ts:455 | The loose match succeeds iff `需求`, a colon and a line after the whitespace occur somewhere. It then captures what the leftmost such position captures. |
| Fallback.FirstCaseMarker | src/aiService.ts:465 | The first position of `测试用例` or `用例\d`. No marker occurs before it. |
| Fallback.BeforeCaseMarker | src/aiService.ts:465 | `split(/测试用例\|用例\d+/)[0]` is the prefix of the reply up to its first case marker, or the whole reply when there is none. |
| Fallback.MeaningfulLines | src/aiService.ts:466-468 | Every kept line is meaningful: trimmed, longer than ten characters, not a marker line and not a bare `需求`. Every meaningful trimmed line is kept. |
| Fallback.MeaningfulLinesAppend | src/aiService.ts:466-468 | The filter works line by line: the lines kept from two runs are those of the first followed by those of the second, so order and repetitions are kept. |
| Fallback.MeaningfulLine | src/aiService.ts:467-468 | One line contributes itself, trimmed, exactly when it is meaningful. |
| Fallback.SmartRequirement | src/aiService.ts:462-473 | The last fallback is empty iff no line qualifies. Otherwise it is the first three meaningful lines joined by spaces, cut to 200 characters, so its length is the smaller of 200 and the joined length. |
| Extractor.ParseTestCases | src/aiService.ts:347-480 | The loop computes `Parse`. The result never fails, keeps the reply as `rawText`, always has a requirement, and holds only named, non-empty categories. |
| Extractor.ScanLine | src/aiService.ts:357-445 | One iteration of the outer loop, with all its `continue`s, is one `Step` of the specification. |
| Extractor.ReadCase | src/aiService.ts:413-443 | The lookahead loop gives the case `CaseAt` specifies: the last operation and the last expected result among the lines it searches. |
| Extractor.LookaheadLine | src/aiService.ts:418-440 | One lookahead line either stops the search or lets a bullet field replace the value so far. |
| Extractor.LookaheadStep | src/aiService.ts:417-441 | A lookahead step that does not stop keeps the loop invariant: no stop line so far, and each field is the last one found. |
| Extractor.SearchedSpec | src/aiService.ts:417-429 | The lookahead reads at most nine lines after the header, none of them a stop line. It ends early only at a stop line. |
| Extractor.LastFieldSpec | src/aiService.ts:430-440 | The field found is none iff no line carries it. Otherwise it is the value of a line after which no line carries it. |
| Extractor.CaseLookahead | src/aiService.ts:413-443 | A case field is `''` iff no searched line carries it. Otherwise it is the value of the last searched line that does. |
| Extractor.StepWellFormed | src/aiService.ts:384-407 | Each iteration keeps the state well formed. Stored categories are named and non-empty, and collected requirement lines are trimmed, non-empty and not marker lines. |
| Extractor.ScanWellFormed | src/aiService.ts:357-446 | The state stays well formed after any number of lines. |
| Extractor.ParseWellFormed | src/aiService.ts:399-451 | Every category returned has a name and at least one case. |
| Extractor.ClassifiedCoherent | src/aiService.ts:358 | Every classified line is trimmed, and every group it captured is non-empty. |
| Extractor.ClassifiedFields | src/aiService.ts:358-440 | What the pass reads of a line is what the regular expressions say of the trimmed line, the section headers included. |
| Extractor.CleanLinesKeepsCollected | src/aiService.ts:374-379 | The second filter keeps every collected requirement line. |
| Extractor.RequirementIsJoinedLines | src/aiService.ts:370-380 | At the test-case header, the collected requirement lines become the requirement, joined by single spaces in reading order. |
| Extractor.RequirementSection | src/aiService.ts:362-390 | From a requirement header to the next section header, the lines held are exactly the trimmed, non-empty, non-marker lines read since that header, in order. Earlier lines are dropped. |
| Extractor.RequirementFromSection | src/aiService.ts:362-380 | The test-case header sets the requirement to those lines of the last requirement section joined by single spaces. |
| Extractor.ScanExtends | src/aiService.ts:401-403 | Categories are only appended. What is stored after `n` lines is a prefix of what is stored later. |
| Extractor.CategoriesFromHeaders | src/aiService.ts:399-405 | Every stored category, and the open one, is named by a header line read so far. |
| Extractor.ParseKeepsOrder | src/aiService.ts:399-451 | Categories come in document order, and the category still open at the end is flushed last. |
| Extractor.NoHeaderNoCategories | src/aiService.ts:362-451 | A reply in which only the section headers have the form of a category header yields no categories, whatever case lines it has. |
| Extractor.OrphanCasesDropped | src/aiService.ts:399-406 | Cases read while no category is open are dropped. The next header stores nothing and opens an empty category, and the end of the reply flushes nothing. |
| Extractor.HeaderAfterHeader | src/aiService.ts:399-406 | A category header followed directly by another contributes nothing. |
| Extractor.CaseAppended | src/aiService.ts:409-443 | A case header appends its case after the cases of the open category and changes nothing else. |
| Extractor.RequirementFallbackOrder | src/aiService.ts:453-479 | The requirement comes from the first of these that succeeds: the test-case header, the loose match (only when the requirement lines held at the end are none; every requirement header empties them), the meaningful lines, the placeholder. |
| Streaming.StreamHandler.OnData | src/aiService.ts:237-261 | After a chunk, `fullText` and the fired callbacks are those of its non-blank lines, handled in order from the previous text. |
| Streaming.StreamHandler.HandleLine | src/aiService.ts:240-260 | A line appends its content to `fullText`, and fires one callback with the new text iff that content is non-empty. |
| Streaming.Collect | src/aiService.ts:234-270 | A stream up to `end` resolves with the text of all its lines from `''`, and fires their callbacks in order. |
| Streaming.LinesAppend | src/aiService.ts:237-261 | Handling two runs of lines one after the other is handling their concatenation. |
| Streaming.CallbackChain | src/aiService.ts:250-254 | Each callback carries non-empty content, and its `fullText` is the previous one plus that content. The last `fullText` is the resolved text. |
| Streaming.TextIsDelivered | src/aiService.ts:263-265 | The resolved text is the concatenation of the contents handed to the callbacks. |
| Streaming.TextExtends | src/aiService.ts:251 | `fullText` only grows. |
| Streaming.NoiseLines | src/aiService.ts:241-258 | These carry no content: lines without `data: `, the OpenAI `[DONE]`, payloads that do not decode, and Anthropic events other than `content_block_delta`. |
| Streaming.NoiseIsSkipped | src/aiService.ts:240-260 | A line without content changes neither text nor callbacks, and the lines after it are handled as if it were absent. |
| Streaming.DoneDoesNotTerminate | src/aiService.ts:243-245 | `[DONE]` is skipped, and the lines after it are still handled. |
| Streaming.BlankLinesCarryNothing | src/aiService.ts:238 | Dropping blank lines changes neither text nor callbacks. |
| Streaming.SplitLineIsLost | src/aiService.ts:238 | Nothing is buffered across chunks. A content line cut into two contentless chunks is lost, although the same bytes in one chunk deliver it. |
| AiService.Dispatch | src/aiService.ts:55-63 | `openai` and `custom` select the OpenAI format and `anthropic` the Anthropic one. Every other provider is unsupported. |
| AiService.RequestFor | src/aiService.ts:286-293 | The request carries the key, the diff and the commits. The system prompt is never empty and defaults only when unset. The Anthropic model is never empty. |
| AiService.PromptShowsDiff | src/aiService.ts:101-106 | The prompt shows exactly the first `min(8000, \|diff\|)` characters of the diff, then a space, right after the commits section. |
| AiService.PromptMarksTruncation | src/aiService.ts:105-106 | The truncation marker stands right before the fixed tail iff the diff is longer than 8000 characters. |
| AiService.TruncationHidesTail | src/aiService.ts:105 | Diffs longer than 8000 characters that agree on their first 8000 give the same prompt. |
| AiService.ShortDiffSentWhole | src/aiService.ts:105 | Two diffs of at most 8000 characters give the same prompt only if they are equal. |
| AiService.PromptShowsCommits | src/aiService.ts:97-101 | The prompt starts with the fixed head, followed by the commits joined by newlines. When no commit holds a newline, the commits can be read back from that section in order. |
| AiService.DetailText | src/aiService.ts:83 | The server's detail is used when it is present and non-empty, and `未知错误` is used otherwise. |
| AiService.ErrorMessageNonEmpty | src/aiService.ts:67-89 | Every caught error is rethrown with a non-empty message. |
| AiService.StatusInMessage | src/aiService.ts:76-84 | For statuses other than 401, 429 and 500, the message determines the status and the detail. |
| AiService.GenerateTestCases | src/aiService.ts:31-90 | The method computes `Generate`, and every error it reports has a message. |
| AiService.MissingKeyFirst | src/aiService.ts:39-42 | A missing key is reported unwrapped, before anything is sent or fired. |
| AiService.UnknownProviderMessage | src/aiService.ts:52-88 | An unknown provider fails without a request, with `AI 调用失败: 不支持的 AI 提供商: <provider>`. |
| AiService.StreamedResult | src/aiService.ts:64-65 | A stream that ends normally gives the parse of its text. `rawText` is what the callbacks delivered, the requirement is non-empty, and the categories are well formed. |
| AiService.FiredChain | src/aiService.ts:57-60 | Whatever the outcome, the callbacks fired form the chain of the stream handler, starting from `''`. |
| GitService.CommitOf | src/gitService.ts:62-68 | A cherry line gives a commit iff it starts with `+ ` and holds more. The commit is the line without the marker. |
| GitService.CommitLinesAppend | src/gitService.ts:60-68 | The filter keeps the order of the output. |
| GitService.ParseCommitsListing | src/gitService.ts:60-68 | Reading a listing of new commits gives the commits back, in order. |
| GitService.NoCommitLineIgnored | src/gitService.ts:62 | A line that gives no commit, such as a `- ` line, can be removed without changing the commits. |
| GitService.NoOutputNoFiles | src/gitService.ts:134 | Empty or whitespace-only output names no file. |
| GitService.ChangedFilesListing | src/gitService.ts:134 | File names printed one per line are read back as they are. |
| GitService.BaseBranch | src/gitService.ts:163 | The base is `main` when the argument is absent or empty, and the argument otherwise. |
| GitService.DiffInfoSpec | src/gitService.ts:156-169 | The information exists iff the directory is a repository whose branch can be read and whose diff and name listing succeed. Otherwise the error is the first failure, in that order. Every command runs against the base, the branch is trimmed, and no listed file or commit is empty. |
| Webview.TestCaseView.HandleGenerateTestCase | src/webviewProvider.ts:57-124 | One call appends exactly `Trace(...)` to the posted messages. |
| Webview.TestCaseView.Try | src/webviewProvider.ts:58-113 | The `try` block posts what `TryBlock` says and throws its error, if any. |
| Webview.TestCaseView.Stream | src/webviewProvider.ts:77-111 | `streamStart`, then the AI call's chunks and `streamEnd`, or the call's error. |
| Webview.TestCaseView.Deliver | src/webviewProvider.ts:92-111 | The chunks of the AI call in order, then `streamEnd` iff the call succeeded. |
| Webview.TestCaseView.PostChunks | src/webviewProvider.ts:92-99 | One `streamChunk` per callback, in order. |
| Webview.OrUnknown | src/webviewProvider.ts:115 | The error text is the message, or `未知错误` when the message is empty. |
| Webview.ChunkMessages | src/webviewProvider.ts:92-99 | Each `streamChunk` carries the content and the `fullText` of its callback. |
| Webview.TryBlockCases | src/webviewProvider.ts:58-113 | The `try` block either throws before posting anything, or runs the AI call on the diff and commits of the workspace. |
| Webview.LoadingBrackets | src/webviewProvider.ts:57-124 | The first message is `loading:true` and the last is `loading:false`. No other message is a loading message. |
| Webview.NotRepositoryTrace | src/webviewProvider.ts:63-66 | Outside a repository only the error is posted between the loading messages. |
| Webview.GitFailureTrace | src/webviewProvider.ts:70-122 | When a `git` step of `getGitDiffInfo` fails, its error is posted and nothing of the stream. |
| Webview.NoChangesTrace | src/webviewProvider.ts:72-74 | An empty or blank diff posts only an error that names the branch. |
| Webview.StreamAttemptOrder | src/webviewProvider.ts:77-122 | Once the AI is called, the messages are `loading`, `streamStart`, one chunk per callback, `streamEnd` with the same data or the error, and `loading`. |
| Webview.StreamOrder | src/webviewProvider.ts:77-111 | `streamStart` is second and precedes every chunk. `streamEnd` comes last before `loading` turns off, with the data of `streamStart`. |
| Webview.EndOrError | src/webviewProvider.ts:103-120 | Exactly one of `streamEnd` and `error` is posted, and every error has a message. |
| Webview.ChunksCarryText | src/webviewProvider.ts:92-98 | For an AI call whose callbacks form a chain, the posted chunks form the same chain. |
| Webview.ServiceChunksChained | src/webviewProvider.ts:92-98 | With the extension's AI service, each posted chunk's `fullText` is the previous chunk's plus its own content. |

## Left out

- The HTTP transport is not modelled; `axios.post` and the stream's
  `end` and `error` events are a given function from the request to a
  `Transport`. Headers, `temperature`, `max_tokens` and the endpoint are
  configuration glue.
- The user message of a request is not stored as text. It is
  `UserPrompt(r)`, the prompt built from the diff and the commits the
  request carries.
- `callOpenAI` and `callAnthropic`, the non-streaming calls, are left out:
  nothing calls them.
- `JSON.parse` and the property reads on its result are a given `decode`.
  A payload on which either throws is `Malformed`. A non-string content is
  not modelled.
- VS Code configuration reads, notifications, the clipboard and the
  commands of `src/extension.ts` are host glue. The configuration is a
  given `Config` with its defaults applied.
- Process I/O is left out: `child_process` and the main → master → HEAD
  retries of `GitService`. What each command finally prints is a given
  function of the base branch. For the diff and the name listing, the
  result is an error when the last `git diff HEAD` fails too. The commit
  listing swallows its last failure, and the model gives that as empty
  output.
- `_getHtmlForWebview` and `resources/webview.js` are presentation and are
  not part of this model.
- Logging is left out.
- Asynchrony is left out. Chunks are an ordered sequence handled one after
  the other. The view's chunk messages are posted in the order the
  callbacks fired, before `streamEnd`, which is the order the event loop
  gives them.
- `_view` is always present, and the stream callback is always passed.
- Strings are sequences of Unicode scalar values. JavaScript counts UTF-16
  code units, so lengths (8000, 200, 10) differ for characters outside the
  Basic Multilingual Plane.
- Error messages are strings. An `error.message` that is `undefined`, and
  an HTTP error without `data`, which would throw inside the `catch`, are
  not modelled.
- No partial line is buffered across chunks: a line split between two
  chunks delivers nothing (`SplitLineIsLost`). `[DONE]` is skipped but does
  not end the stream (`DoneDoesNotTerminate`).
- The error for an unsupported provider is thrown inside the `try`, so the
  `catch` wraps it: the message is `AI 调用失败: 不支持的 AI 提供商: x`.
  The model follows the code.
- Streaming.NonBlank: states only that at most as many lines remain. That
  dropping blank lines loses no content is `BlankLinesCarryNothing`.
