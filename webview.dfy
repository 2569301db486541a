/** `TestCaseViewProvider.handleGenerateTestCase`
    (src/webviewProvider.ts:57-124): the messages the view posts to its
    webview while one generation runs, in order.

    The view is a class whose `posted` field is the sequence of messages
    posted so far; the git workspace and the AI backend are given values. */
module Webview {
  import opened Wrappers
  import opened Text
  import Streaming
  import Extractor
  import AiService
  import GitService

  /** The `data` of `streamStart`, repeated in `streamEnd`. */
  datatype Summary = Summary(branch: string, files: seq<string>, commits: seq<string>)

  /** The messages the view posts: `loading`, `streamStart`, `streamChunk`,
      `streamEnd` and `error`. */
  datatype Message =
    | Loading(status: bool)
    | StreamStart(data: Summary)
    | StreamChunk(chunk: string, fullText: string)
    | StreamEnd(data: Summary, result: Extractor.ParseResult)
    | ErrorNotice(message: string)

  const NotRepositoryMessage: string := "当前工作区不是 Git 仓库。请确保在 Git 仓库目录中打开 VSCode。"
  const UnknownError: string := "未知错误"

  /** The error for a branch without changes against its base
      (src/webviewProvider.ts:73). */
  function NoChangesMessage(branch: string): string
  {
    "当前分支 \"" + branch + "\" 相对于基准分支没有代码变更。\n\n请确保：\n1. 当前分支有新的提交\n2. 基准分支名称正确（默认: main）\n3. 已经提交了代码变更"
  }

  /** `error.message || '未知错误'`. */
  function OrUnknown(message: string): (r: string)
    ensures r != ""
    ensures message != "" ==> r == message
    ensures message == "" ==> r == UnknownError
  {
    if message == "" then UnknownError else message
  }

  function SummaryOf(info: GitService.DiffInfo): Summary
  {
    Summary(info.branch, info.files, info.commits)
  }

  /** One `streamChunk` per stream callback, in order. */
  function ChunkMessages(cbs: seq<Streaming.Callback>): (ms: seq<Message>)
    ensures |ms| == |cbs|
    ensures forall k :: 0 <= k < |ms| ==> ms[k] == StreamChunk(cbs[k].chunk, cbs[k].fullText)
    decreases |cbs|
  {
    if cbs == [] then [] else [StreamChunk(cbs[0].chunk, cbs[0].fullText)] + ChunkMessages(cbs[1..])
  }

  /** What the `try` block posts, and the message of the error it throws,
      if any. */
  datatype Attempt = Attempt(posts: seq<Message>, thrown: Option<string>)

  /** What the stream callback and the end of the `try` block post for the
      outcome of the AI call: the chunks, then `streamEnd` unless the call
      throws. */
  function Reported(info: GitService.DiffInfo, o: AiService.Outcome): seq<Message>
  {
    ChunkMessages(o.fired) + (if o.result.Ok? then [StreamEnd(SummaryOf(info), o.result.value)] else [])
  }

  /** The `try` block once the diff is known to be non-empty, given the
      outcome of the AI call. */
  function StreamAttempt(info: GitService.DiffInfo, o: AiService.Outcome): Attempt
  {
    Attempt([StreamStart(SummaryOf(info))] + Reported(info, o), if o.result.Ok? then None else Some(o.result.message))
  }

  /** The AI call as the view makes it: the outcome for a diff and its
      commits. */
  type AiCall = (string, seq<string>) -> AiService.Outcome

  /** `aiService.generateTestCases` with a given configuration and
      backend. */
  function GenerateWith(config: AiService.Config, backend: AiService.Backend): AiCall
  {
    (diff: string, commits: seq<string>) => AiService.Generate(config, diff, commits, backend)
  }

  // Proof steps for the methods of `TestCaseView`: how the messages they
  // post one after the other line up with the trace functions.

  lemma AppendAssociative<T>(a: seq<T>, b: seq<T>, c: seq<T>)
    ensures (a + b) + c == a + (b + c)
  {
  }

  lemma AppendEmpty<T>(a: seq<T>)
    ensures a + [] == a
  {
  }

  lemma AppendFour<T>(o: seq<T>, a: seq<T>, b: seq<T>, c: seq<T>, d: seq<T>)
    ensures (((o + a) + b) + c) + d == o + (((a + b) + c) + d)
  {
  }

  lemma GenerateWithApplies(config: AiService.Config, backend: AiService.Backend, diff: string, commits: seq<string>)
    ensures GenerateWith(config, backend)(diff, commits) == AiService.Generate(config, diff, commits, backend)
  {
  }

  /** The `try` block (src/webviewProvider.ts:58-113) after `loading`, for
      any AI call. */
  function TryBlock(ws: GitService.Workspace, baseBranch: Option<string>, ai: AiCall): Attempt
  {
    if !ws.isGit then Attempt([], Some(NotRepositoryMessage))
    else
      match GitService.GetGitDiffInfo(ws, baseBranch)
      case Err(m) => Attempt([], Some(m))
      case Ok(info) =>
        if Trim(info.diff) == "" then Attempt([], Some(NoChangesMessage(info.branch)))
        else StreamAttempt(info, ai(info.diff, info.commits))
  }

  /** What the `catch` block posts for the outcome of the `try` block. */
  function Caught(a: Attempt): seq<Message>
  {
    if a.thrown.Some? then [ErrorNotice(OrUnknown(a.thrown.value))] else []
  }

  /** The messages of one call around the outcome of its `try` block:
      `loading` on, the `try` block, the `catch` block, `loading` off (the
      `finally` block). */
  function Bracketed(a: Attempt): seq<Message>
  {
    [Loading(true)] + a.posts + Caught(a) + [Loading(false)]
  }

  /** Every message one call of `handleGenerateTestCase` posts, in order,
      for any AI call. */
  function TraceWith(ws: GitService.Workspace, baseBranch: Option<string>, ai: AiCall): seq<Message>
  {
    Bracketed(TryBlock(ws, baseBranch, ai))
  }

  /** Every message one call of `handleGenerateTestCase` posts, in order. */
  function Trace(ws: GitService.Workspace, baseBranch: Option<string>, config: AiService.Config, backend: AiService.Backend): seq<Message>
  {
    TraceWith(ws, baseBranch, GenerateWith(config, backend))
  }

  /** The provider with its `_view`, workspace and AI backend. */
  class TestCaseView {
    const workspace: GitService.Workspace
    const backend: AiService.Backend
    var posted: seq<Message>

    constructor(workspace: GitService.Workspace, backend: AiService.Backend)
      ensures this.workspace == workspace && this.backend == backend && posted == []
    {
      this.workspace := workspace;
      this.backend := backend;
      posted := [];
    }

    /** `this._view?.webview.postMessage(m)`. */
    method Post(m: Message)
      modifies this
      ensures posted == old(posted) + [m]
    {
      posted := posted + [m];
    }

    /** `handleGenerateTestCase(baseBranch)` with the configuration read at
        the start of the AI call. */
    method HandleGenerateTestCase(baseBranch: Option<string>, config: AiService.Config)
      modifies this
      ensures posted == old(posted) + Trace(workspace, baseBranch, config, backend)
    {
      ghost var a := TryBlock(workspace, baseBranch, GenerateWith(config, backend));
      Post(Loading(true));
      var thrown := Try(baseBranch, config);
      if thrown.Some? {
        Post(ErrorNotice(OrUnknown(thrown.value)));
      } else {
        AppendEmpty(posted);
      }
      Post(Loading(false));
      AppendFour(old(posted), [Loading(true)], a.posts, Caught(a), [Loading(false)]);
    }

    /** The `try` block: it posts its messages and gives back the message
        of the error it throws, if any. */
    method Try(baseBranch: Option<string>, config: AiService.Config) returns (thrown: Option<string>)
      modifies this
      ensures posted == old(posted) + TryBlock(workspace, baseBranch, GenerateWith(config, backend)).posts
      ensures thrown == TryBlock(workspace, baseBranch, GenerateWith(config, backend)).thrown
    {
      if !workspace.isGit {
        return Some(NotRepositoryMessage);
      }
      var info := GitService.GetGitDiffInfo(workspace, baseBranch);
      if info.Err? {
        return Some(info.message);
      }
      if Trim(info.value.diff) == "" {
        return Some(NoChangesMessage(info.value.branch));
      }
      thrown := Stream(info.value, config);
    }

    /** `streamStart`, the AI call with its stream callback, and
        `streamEnd`. */
    method Stream(info: GitService.DiffInfo, config: AiService.Config) returns (thrown: Option<string>)
      modifies this
      ensures var a := StreamAttempt(info, GenerateWith(config, backend)(info.diff, info.commits));
              posted == old(posted) + a.posts && thrown == a.thrown
    {
      Post(StreamStart(SummaryOf(info)));
      var result, fired := AiService.GenerateTestCases(config, info.diff, info.commits, backend);
      var o := AiService.Outcome(result, fired);
      GenerateWithApplies(config, backend, info.diff, info.commits);
      thrown := Deliver(info, o);
      AppendAssociative(old(posted), [StreamStart(SummaryOf(info))], Reported(info, o));
    }

    /** The chunks of the AI call and then `streamEnd`, or the error the
        call throws. */
    method Deliver(info: GitService.DiffInfo, o: AiService.Outcome) returns (thrown: Option<string>)
      modifies this
      ensures posted == old(posted) + Reported(info, o)
      ensures thrown == StreamAttempt(info, o).thrown
    {
      PostChunks(o.fired);
      if o.result.Ok? {
        Post(StreamEnd(SummaryOf(info), o.result.value));
        thrown := None;
      } else {
        thrown := Some(o.result.message);
      }
    }

    /** The stream callback, once per fired callback, in order. */
    method PostChunks(fired: seq<Streaming.Callback>)
      modifies this
      ensures posted == old(posted) + ChunkMessages(fired)
    {
      for k := 0 to |fired|
        invariant posted == old(posted) + ChunkMessages(fired[..k])
      {
        ChunkMessagesSnoc(fired, k);
        Post(StreamChunk(fired[k].chunk, fired[k].fullText));
      }
      assert fired[..|fired|] == fired;
    }
  }

  lemma ChunkMessagesSnoc(cbs: seq<Streaming.Callback>, k: nat)
    requires k < |cbs|
    ensures ChunkMessages(cbs[..k + 1]) == ChunkMessages(cbs[..k]) + [StreamChunk(cbs[k].chunk, cbs[k].fullText)]
  {
    var a := ChunkMessages(cbs[..k + 1]);
    var b := ChunkMessages(cbs[..k]) + [StreamChunk(cbs[k].chunk, cbs[k].fullText)];
    assert |a| == |b|;
    forall i | 0 <= i < |a| ensures a[i] == b[i] {
      if i < k {
        assert cbs[..k + 1][i] == cbs[..k][i];
      }
    }
  }

  /** A `try` block that throws before posting anything. */
  predicate Failed(a: Attempt)
  {
    a.posts == [] && a.thrown.Some?
  }

  /** The `try` block either throws before `streamStart` or runs the AI
      call on the diff and commits of the workspace. */
  lemma TryBlockCases(ws: GitService.Workspace, baseBranch: Option<string>, ai: AiCall)
    ensures var a := TryBlock(ws, baseBranch, ai);
            var d := GitService.GetGitDiffInfo(ws, baseBranch);
            Failed(a)
            || (ws.isGit && d.Ok? && Trim(d.value.diff) != ""
                && a == StreamAttempt(d.value, ai(d.value.diff, d.value.commits)))
  {
  }

  /** The first message turns the loading state on, the last turns it off,
      and no other message touches it, whatever the AI call does. */
  lemma LoadingBrackets(ws: GitService.Workspace, baseBranch: Option<string>, ai: AiCall)
    ensures var t := TraceWith(ws, baseBranch, ai);
            |t| >= 3 && t[0] == Loading(true) && t[|t| - 1] == Loading(false)
            && forall k :: 0 < k < |t| - 1 ==> !t[k].Loading?
  {
    TryBlockCases(ws, baseBranch, ai);
    var a := TryBlock(ws, baseBranch, ai);
    if !Failed(a) {
      var d := GitService.GetGitDiffInfo(ws, baseBranch).value;
      StreamAttemptOrder(d, ai(d.diff, d.commits));
    }
  }

  /** Outside a git repository only the error is posted between the loading
      messages: nothing of the stream, and the AI is not called. */
  lemma NotRepositoryTrace(ws: GitService.Workspace, baseBranch: Option<string>, ai: AiCall)
    requires !ws.isGit
    ensures TraceWith(ws, baseBranch, ai) == [Loading(true), ErrorNotice(NotRepositoryMessage), Loading(false)]
  {
  }

  /** When a `git` step of `getGitDiffInfo` fails, such as `git diff HEAD`
      in a repository without commits, its error is posted and nothing of
      the stream. */
  lemma GitFailureTrace(ws: GitService.Workspace, baseBranch: Option<string>, ai: AiCall)
    requires ws.isGit && GitService.GetGitDiffInfo(ws, baseBranch).Err?
    ensures TraceWith(ws, baseBranch, ai)
            == [Loading(true), ErrorNotice(OrUnknown(GitService.GetGitDiffInfo(ws, baseBranch).message)), Loading(false)]
  {
  }

  /** A diff that is empty or only whitespace is reported with an error
      that names the branch, and nothing of the stream is posted. */
  lemma NoChangesTrace(ws: GitService.Workspace, baseBranch: Option<string>, ai: AiCall)
    requires ws.isGit && GitService.GetGitDiffInfo(ws, baseBranch).Ok?
    requires Trim(GitService.GetGitDiffInfo(ws, baseBranch).value.diff) == ""
    ensures var branch := GitService.GetGitDiffInfo(ws, baseBranch).value.branch;
            var m := NoChangesMessage(branch);
            TraceWith(ws, baseBranch, ai) == [Loading(true), ErrorNotice(m), Loading(false)]
            && m[6..6 + |branch|] == branch
  {
    var branch := GitService.GetGitDiffInfo(ws, baseBranch).value.branch;
    var m := NoChangesMessage(branch);
    assert |"当前分支 \""| == 6;
    assert m == "当前分支 \"" + branch + m[6 + |branch|..];
  }

  /** The messages of a call that reaches the AI: `loading`, `streamStart`,
      one chunk per callback, then `streamEnd` with the same data or the
      error, and `loading` again. */
  lemma StreamAttemptOrder(info: GitService.DiffInfo, o: AiService.Outcome)
    ensures var t := Bracketed(StreamAttempt(info, o));
            var n := |o.fired|;
            |t| == n + 4
            && t[0] == Loading(true) && t[1] == StreamStart(SummaryOf(info))
            && (forall k :: 2 <= k < 2 + n ==> t[k] == StreamChunk(o.fired[k - 2].chunk, o.fired[k - 2].fullText))
            && t[2 + n] == (if o.result.Ok? then StreamEnd(SummaryOf(info), o.result.value) else ErrorNotice(OrUnknown(o.result.message)))
            && t[3 + n] == Loading(false)
  {
    var a := StreamAttempt(info, o);
    var ms := ChunkMessages(o.fired);
    var t := Bracketed(a);
    var last := if o.result.Ok? then StreamEnd(SummaryOf(info), o.result.value) else ErrorNotice(OrUnknown(o.result.message));
    assert t == [Loading(true), StreamStart(SummaryOf(info))] + ms + [last, Loading(false)];
  }

  /** The stream messages come in protocol order: `streamStart` right after
      `loading`, every chunk after it, and `streamEnd`, if any, last before
      `loading` turns off, with the data of `streamStart`. */
  lemma StreamOrder(ws: GitService.Workspace, baseBranch: Option<string>, ai: AiCall)
    ensures var t := TraceWith(ws, baseBranch, ai);
            (forall k :: 0 <= k < |t| && t[k].StreamChunk? ==> 1 < k && t[1].StreamStart?)
            && (forall k :: 0 <= k < |t| && t[k].StreamEnd? ==> k == |t| - 2 && t[1] == StreamStart(t[k].data))
            && (forall k :: 0 <= k < |t| && t[k].StreamStart? ==> k == 1)
  {
    TryBlockCases(ws, baseBranch, ai);
    var a := TryBlock(ws, baseBranch, ai);
    if !Failed(a) {
      var d := GitService.GetGitDiffInfo(ws, baseBranch).value;
      StreamAttemptOrder(d, ai(d.diff, d.commits));
    }
  }

  /** A trace posts `streamEnd` or `error` at least once, never both, and
      every error it posts has a message. */
  predicate EndsOnce(t: seq<Message>)
  {
    !(exists j, k :: 0 <= j < |t| && 0 <= k < |t| && t[j].StreamEnd? && t[k].ErrorNotice?)
    && (forall k :: 0 <= k < |t| && t[k].ErrorNotice? ==> t[k].message != "")
    && (exists k :: 0 <= k < |t| && (t[k].StreamEnd? || t[k].ErrorNotice?))
  }

  /** A streamed attempt ends with exactly one of the two messages. */
  lemma StreamEndsOnce(info: GitService.DiffInfo, o: AiService.Outcome)
    ensures EndsOnce(Bracketed(StreamAttempt(info, o)))
  {
    var t := Bracketed(StreamAttempt(info, o));
    var n := |o.fired|;
    StreamAttemptOrder(info, o);
    assert forall k :: 0 <= k < |t| && (t[k].StreamEnd? || t[k].ErrorNotice?) ==> k == 2 + n;
    assert t[2 + n].StreamEnd? || t[2 + n].ErrorNotice?;
  }

  /** An attempt that throws before the stream posts only its error. */
  lemma FailedEndsOnce(a: Attempt)
    requires Failed(a)
    ensures EndsOnce(Bracketed(a))
  {
    var t := Bracketed(a);
    assert t == [Loading(true), ErrorNotice(OrUnknown(a.thrown.value)), Loading(false)];
    assert t[1].ErrorNotice?;
  }

  /** Every call ends its `try`/`catch` with exactly one of `streamEnd` and
      `error`, and every posted error has a message. */
  lemma EndOrError(ws: GitService.Workspace, baseBranch: Option<string>, ai: AiCall)
    ensures var t := TraceWith(ws, baseBranch, ai);
            !(exists j, k :: 0 <= j < |t| && 0 <= k < |t| && t[j].StreamEnd? && t[k].ErrorNotice?)
            && (forall k :: 0 <= k < |t| && t[k].ErrorNotice? ==> t[k].message != "")
            && (exists k :: 0 <= k < |t| && (t[k].StreamEnd? || t[k].ErrorNotice?))
  {
    TryBlockCases(ws, baseBranch, ai);
    var a := TryBlock(ws, baseBranch, ai);
    if Failed(a) {
      FailedEndsOnce(a);
    } else {
      var d := GitService.GetGitDiffInfo(ws, baseBranch).value;
      StreamEndsOnce(d, ai(d.diff, d.commits));
    }
    assert EndsOnce(TraceWith(ws, baseBranch, ai));
  }

  /** The callbacks of one AI call form a chain: non-empty contents, the
      first text is the first content, and every later text extends the
      previous one by its content. */
  predicate Chained(cbs: seq<Streaming.Callback>)
  {
    (forall k :: 0 <= k < |cbs| ==> cbs[k].chunk != "")
    && (|cbs| > 0 ==> cbs[0].fullText == cbs[0].chunk)
    && (forall k :: 0 < k < |cbs| ==> cbs[k].fullText == cbs[k - 1].fullText + cbs[k].chunk)
  }

  /** The extension's AI service always fires a chain of callbacks. */
  lemma GenerateChained(config: AiService.Config, backend: AiService.Backend)
    ensures forall diff, commits :: Chained(GenerateWith(config, backend)(diff, commits).fired)
  {
    forall diff, commits
      ensures Chained(GenerateWith(config, backend)(diff, commits).fired)
    {
      AiService.FiredChain(config, diff, commits, backend);
    }
  }

  /** The `streamChunk` messages of a trace carry non-empty content and
      the text so far: a chunk right after another message has its content
      as text, and one right after a chunk extends that chunk's text by its
      content. */
  predicate ChunksChained(t: seq<Message>)
  {
    (forall k :: 0 <= k < |t| && t[k].StreamChunk? ==> t[k].chunk != "")
    && (forall k :: 0 < k < |t| && t[k].StreamChunk? && !t[k - 1].StreamChunk? ==> t[k].fullText == t[k].chunk)
    && (forall k :: 0 < k < |t| && t[k].StreamChunk? && t[k - 1].StreamChunk? ==> t[k].fullText == t[k - 1].fullText + t[k].chunk)
  }

  /** For an AI call whose callbacks form a chain, the chunks posted form
      the same chain. */
  lemma ChunksCarryText(ws: GitService.Workspace, baseBranch: Option<string>, ai: AiCall)
    requires forall diff, commits :: Chained(ai(diff, commits).fired)
    ensures ChunksChained(TraceWith(ws, baseBranch, ai))
  {
    TryBlockCases(ws, baseBranch, ai);
    var a := TryBlock(ws, baseBranch, ai);
    if Failed(a) {
      assert Bracketed(a) == [Loading(true), ErrorNotice(OrUnknown(a.thrown.value)), Loading(false)];
    } else {
      var d := GitService.GetGitDiffInfo(ws, baseBranch).value;
      StreamChunksChained(d, ai(d.diff, d.commits));
    }
  }

  lemma StreamChunksChained(info: GitService.DiffInfo, o: AiService.Outcome)
    requires Chained(o.fired)
    ensures ChunksChained(Bracketed(StreamAttempt(info, o)))
  {
    StreamAttemptOrder(info, o);
    ChunkRunChained(Bracketed(StreamAttempt(info, o)), o.fired);
  }

  /** A trace holding a chain of callbacks as chunks from its third
      message on, between two non-chunk messages on each side. */
  lemma ChunkRunChained(t: seq<Message>, cbs: seq<Streaming.Callback>)
    requires Chained(cbs) && |t| == |cbs| + 4
    requires !t[0].StreamChunk? && !t[1].StreamChunk? && !t[2 + |cbs|].StreamChunk? && !t[3 + |cbs|].StreamChunk?
    requires forall k :: 2 <= k < 2 + |cbs| ==> t[k] == StreamChunk(cbs[k - 2].chunk, cbs[k - 2].fullText)
    ensures ChunksChained(t)
  {
    forall k | 0 <= k < |t|
      ensures t[k].StreamChunk? <==> 2 <= k < 2 + |cbs|
    {
    }
  }

  /** With the extension's AI service the chunks of every call form a
      chain. */
  lemma ServiceChunksChained(ws: GitService.Workspace, baseBranch: Option<string>, config: AiService.Config, backend: AiService.Backend)
    ensures ChunksChained(Trace(ws, baseBranch, config, backend))
  {
    GenerateChained(config, backend);
    ChunksCarryText(ws, baseBranch, GenerateWith(config, backend));
  }
}
