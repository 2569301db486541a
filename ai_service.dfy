/** `AIService.generateTestCases` (src/aiService.ts:31-90) and the prompt it
    sends (src/aiService.ts:96-143): the API-key check, the dispatch on the
    configured provider, the streaming call, the parse of the reply and the
    translation of every failure into the message of the `Error` it throws.

    The HTTP transport is a given function `send` from the request to what
    came back: a refusal (an error thrown by `axios.post` itself) or the
    chunks of a response stream, possibly cut short by a stream `error`
    event. `JSON.parse` is the given `decode` of the streaming model. */
module AiService {
  import opened Wrappers
  import opened Text
  import Streaming
  import Extractor

  /** The settings `generateTestCases` reads, with their defaults already
      applied by the configuration store. */
  datatype Config = Config(apiKey: string, provider: string, model: string, systemPrompt: string)

  /** What a streaming call puts in its request body and headers. The user
      message is `UserPrompt` of the request: the prompt built from the
      diff and the commits it carries. */
  datatype Request = Request(family: Streaming.Family, apiKey: string, model: string, system: string, diff: string, commits: seq<string>)

  /** An error caught by the `catch` of `generateTestCases`: one with an
      HTTP `response` (its `status` and `data.error?.message`, `None` when
      absent), or any other error with its `code` (`""` when absent) and
      `message`. */
  datatype Failure = Response(status: nat, detail: Option<string>) | Thrown(code: string, message: string)

  /** What the transport gives back for one request. */
  datatype Transport = Refused(failure: Failure) | Streamed(chunks: seq<string>, ending: Option<Failure>)

  /** The outside world of one call: the transport and `JSON.parse`. */
  datatype Backend = Backend(send: Request -> Transport, decode: string -> Streaming.Payload)

  /** The promise's outcome and the stream callbacks fired before it
      settled, in order. */
  datatype Outcome = Outcome(result: Result<Extractor.ParseResult>, fired: seq<Streaming.Callback>)

  const MissingKeyMessage: string := "请先配置 AI API 密钥。\n\n点击\"AI 配置\"按钮进行配置。"
  const InvalidKeyMessage: string := "API 密钥无效，请检查配置。\n\n点击\"AI 配置\"按钮重新配置。"
  const RateLimitMessage: string := "API 调用频率超限，请稍后再试。"
  const ServerErrorMessage: string := "AI 服务器错误，请稍后再试。"
  const UnreachableMessage: string := "无法连接到 AI 服务，请检查网络连接和 API 端点配置。"
  const HttpFailurePrefix: string := "API 调用失败 ("
  const HttpFailureInfix: string := "): "
  const UnknownError: string := "未知错误"
  const CallFailurePrefix: string := "AI 调用失败: "
  const UnsupportedPrefix: string := "不支持的 AI 提供商: "
  const DefaultSystemPrompt: string := "你是一个专业的测试用例生成助手。"
  const DefaultAnthropicModel: string := "claude-3-opus-20240229"

  /** The wire format a provider name selects, if any
      (src/aiService.ts:55-63). */
  function Dispatch(provider: string): (r: Option<Streaming.Family>)
    ensures r == Some(Streaming.OpenAIFamily) <==> provider == "openai" || provider == "custom"
    ensures r == Some(Streaming.AnthropicFamily) <==> provider == "anthropic"
    ensures r.None? <==> provider != "openai" && provider != "custom" && provider != "anthropic"
  {
    if provider == "openai" || provider == "custom" then Some(Streaming.OpenAIFamily)
    else if provider == "anthropic" then Some(Streaming.AnthropicFamily)
    else None
  }

  /** The request a streaming call sends: an empty system prompt is replaced
      by the default one, and the Anthropic call also replaces an empty
      model name (src/aiService.ts:215-219, 287-293). */
  function RequestFor(family: Streaming.Family, config: Config, diff: string, commits: seq<string>): (r: Request)
    ensures r.family == family && r.apiKey == config.apiKey && r.diff == diff && r.commits == commits
    ensures r.system != "" && (config.systemPrompt != "" ==> r.system == config.systemPrompt)
    ensures family == Streaming.AnthropicFamily ==> r.model != ""
    ensures config.model != "" ==> r.model == config.model
  {
    var system := if config.systemPrompt == "" then DefaultSystemPrompt else config.systemPrompt;
    var model := if family == Streaming.AnthropicFamily && config.model == "" then DefaultAnthropicModel else config.model;
    Request(family, config.apiKey, model, system, diff, commits)
  }

  // The prompt template, around the commits and the diff.

  const PromptHead: string :=
    "\n你是一个专业的测试用例生成专家。请根据以下 Git 提交信息和代码变更，生成详细的测试用例。\n\n## 提交记录\n"
  const PromptMiddle: string := "\n\n## 代码变更\n```diff\n"
  const PromptTail: string :=
    "\n"
    + "```\n"
    + "\n"
    + "## 输出格式要求\n"
    + "\n"
    + "请严格按照以下格式输出，必须包含\"需求\"和\"测试用例\"两个部分：\n"
    + "\n"
    + "### 需求\n"
    + "用一句话描述需求。\n"
    + "\n"
    + "[请仔细分析代码变更和提交记录，总结本次代码变更的核心需求。要求：\n"
    + "1. 描述实现了什么功能\n"
    + "2. 说明适用的场景和范围\n"
    + "3. 如果涉及权限，说明权限要求\n"
    + "4. 如果是修复bug，说明修复的问题\n"
    + "示例：授权信息删除功能，支持查看待删除授权信息和已删除记录，仅高级管理员和普通管理员可删除操作。微商城店铺、零售单店、零售总部显示此功能。]\n"
    + "\n"
    + "### 测试用例\n"
    + "\n"
    + "一、[测试分类1，如：Tab页显示控制]\n"
    + "用例1: [具体的测试场景描述]\n"
    + "\n"
    + "用例2: [具体的测试场景描述]\n"
    + "\n"
    + "二、[测试分类2，如：权限控制]\n"
    + "用例1: [具体的测试场景描述]\n"
    + "\n"
    + "\n"
    + "## 测试用例要求\n"
    + "1. 覆盖正向流程、异常情况、边界条件\n"
    + "2. 如果涉及权限，必须包含不同角色的测试\n"
    + "3. 测试用例要具体、可执行\n"
    + "4. 测试用例需要结合代码变更和提交记录来设计\n"
    + "\n"
    + "输出正常标题和测试用例，不要包含其他内容，和奇怪的格式。\n"
    + "\n"
    + "请开始生成：\n"

  const MaxDiffLength: nat := 8000
  const TruncationMarker: string := "...(已截断)"

  /** The diff as the prompt shows it: its first 8000 characters, a space,
      and the truncation marker when something was cut. */
  function DiffSection(diff: string): string
  {
    Take(diff, MaxDiffLength) + " " + (if |diff| > MaxDiffLength then TruncationMarker else "")
  }

  /** `buildPrompt(gitDiff, commits)`. */
  function BuildPrompt(diff: string, commits: seq<string>): string
  {
    PromptHead + Join(commits, "\n") + PromptMiddle + DiffSection(diff) + PromptTail
  }

  /** The user message of a request: the prompt for its diff and commits. */
  function UserPrompt(r: Request): string
  {
    BuildPrompt(r.diff, r.commits)
  }

  /** The prompt shows exactly the first `min(8000, |diff|)` characters of
      the diff, followed by a space, right after the commits section. */
  lemma PromptShowsDiff(diff: string, commits: seq<string>)
    ensures var shown := if |diff| <= MaxDiffLength then diff else diff[..MaxDiffLength];
            var p := BuildPrompt(diff, commits);
            var at := |PromptHead + Join(commits, "\n") + PromptMiddle|;
            at + |shown| + 1 <= |p| && p[at..at + |shown| + 1] == shown + " "
  {
    DiffLayout(PromptHead + Join(commits, "\n") + PromptMiddle, diff, PromptTail, BuildPrompt(diff, commits));
  }

  /** The truncation marker stands right before the fixed tail of the
      prompt if and only if the diff is longer than 8000 characters. */
  lemma PromptMarksTruncation(diff: string, commits: seq<string>)
    ensures EndsWith(BuildPrompt(diff, commits), TruncationMarker + PromptTail) <==> |diff| > MaxDiffLength
  {
    DiffLayout(PromptHead + Join(commits, "\n") + PromptMiddle, diff, PromptTail, BuildPrompt(diff, commits));
  }

  /** The layout of the diff section in a text `p` made of any text before
      it and after it. */
  lemma DiffLayout(head: string, diff: string, tail: string, p: string)
    requires p == head + DiffSection(diff) + tail
    ensures var shown := if |diff| <= MaxDiffLength then diff else diff[..MaxDiffLength];
            |head| + |shown| + 1 <= |p| && p[|head|..|head| + |shown| + 1] == shown + " "
    ensures EndsWith(p, TruncationMarker + tail) <==> |diff| > MaxDiffLength
  {
    var shown := Take(diff, MaxDiffLength);
    var suffix := TruncationMarker + tail;
    if |diff| > MaxDiffLength {
      assert p == (head + (shown + " ")) + suffix;
      EndsWithConcat(head + shown + " ", suffix);
    } else {
      assert p == (head + (shown + " ")) + tail;
      assert p[|p| - |tail| - 1] == ' ';
      assert suffix[|suffix| - |tail| - 1] == ')';
    }
  }

  /** Two diffs that agree on their first 8000 characters and are both
      longer than that give the same prompt: the rest is never sent. */
  lemma TruncationHidesTail(d1: string, d2: string, commits: seq<string>)
    requires |d1| > MaxDiffLength && |d2| > MaxDiffLength
    requires d1[..MaxDiffLength] == d2[..MaxDiffLength]
    ensures BuildPrompt(d1, commits) == BuildPrompt(d2, commits)
  {
  }

  /** A diff of at most 8000 characters is sent whole: for the same
      commits, two such diffs give the same prompt only if they are equal. */
  lemma ShortDiffSentWhole(d1: string, d2: string, commits: seq<string>)
    requires |d1| <= MaxDiffLength && |d2| <= MaxDiffLength
    requires BuildPrompt(d1, commits) == BuildPrompt(d2, commits)
    ensures d1 == d2
  {
    ShortSectionsDiffer(PromptHead + Join(commits, "\n") + PromptMiddle, d1, d2, PromptTail);
  }

  /** Between any text before and after, diff sections of short diffs are
      equal only for equal diffs. */
  lemma ShortSectionsDiffer(head: string, d1: string, d2: string, tail: string)
    requires |d1| <= MaxDiffLength && |d2| <= MaxDiffLength
    requires head + DiffSection(d1) + tail == head + DiffSection(d2) + tail
    ensures d1 == d2
  {
    var p := head + DiffSection(d1) + tail;
    assert p == head + d1 + (" " + tail);
    assert p == head + d2 + (" " + tail);
    assert |d1| == |d2|;
    assert d1 == p[|head|..|head| + |d1|];
    assert d2 == p[|head|..|head| + |d2|];
  }

  /** The prompt shows the commits joined by newlines right after the fixed
      head; when no commit holds a newline, they can be read back from that
      section, in order. */
  lemma PromptShowsCommits(diff: string, commits: seq<string>)
    ensures var j := Join(commits, "\n");
            var p := BuildPrompt(diff, commits);
            |PromptHead| + |j| <= |p| && p[..|PromptHead|] == PromptHead
            && p[|PromptHead|..|PromptHead| + |j|] == j
    ensures |commits| >= 1 && (forall k :: 0 <= k < |commits| ==> '\n' !in commits[k]) ==>
              var p := BuildPrompt(diff, commits);
              Split(p[|PromptHead|..|PromptHead| + |Join(commits, "\n")|], '\n') == commits
  {
    SecondPart(PromptHead, Join(commits, "\n"), PromptMiddle, DiffSection(diff), PromptTail);
    if |commits| >= 1 && (forall k :: 0 <= k < |commits| ==> '\n' !in commits[k]) {
      SplitJoin(commits, '\n');
    }
  }

  /** Where the second of five concatenated parts sits. */
  lemma SecondPart(a: string, b: string, c: string, d: string, e: string)
    ensures var p := a + b + c + d + e;
            |a| + |b| <= |p| && p[..|a|] == a && p[|a|..|a| + |b|] == b
  {
    var p := a + b + c + d + e;
    assert p == (a + b) + (c + d + e);
    assert (a + b)[..|a|] == a && (a + b)[|a|..] == b;
  }

  /** `data.error?.message || '未知错误'`. */
  function DetailText(detail: Option<string>): (r: string)
    ensures r != ""
    ensures detail.Some? && detail.value != "" ==> r == detail.value
    ensures !(detail.Some? && detail.value != "") ==> r == UnknownError
  {
    if detail.Some? && detail.value != "" then detail.value else UnknownError
  }

  /** The message of the `Error` the `catch` block throws for a caught
      error (src/aiService.ts:67-88). */
  function ErrorMessage(f: Failure): string
  {
    match f
    case Response(status, detail) =>
      if status == 401 then InvalidKeyMessage
      else if status == 429 then RateLimitMessage
      else if status == 500 then ServerErrorMessage
      else HttpFailurePrefix + Decimal(status) + HttpFailureInfix + DetailText(detail)
    case Thrown(code, message) =>
      if code == "ENOTFOUND" || code == "ECONNREFUSED" then UnreachableMessage
      else CallFailurePrefix + message
  }

  /** Every caught error is rethrown with a non-empty message. */
  lemma ErrorMessageNonEmpty(f: Failure)
    ensures ErrorMessage(f) != ""
  {
  }

  /** Any status other than 401, 429 and 500 is reported with its number
      and the server's detail, and both can be read back from the message:
      different statuses or details never give the same message. */
  lemma StatusInMessage(s1: nat, d1: Option<string>, s2: nat, d2: Option<string>)
    requires s1 != 401 && s1 != 429 && s1 != 500
    requires s2 != 401 && s2 != 429 && s2 != 500
    requires ErrorMessage(Response(s1, d1)) == ErrorMessage(Response(s2, d2))
    ensures s1 == s2 && DetailText(d1) == DetailText(d2)
  {
    assert ErrorMessage(Response(s1, d1)) == HttpFailurePrefix + Decimal(s1) + (HttpFailureInfix + DetailText(d1));
    assert ErrorMessage(Response(s2, d2)) == HttpFailurePrefix + Decimal(s2) + (HttpFailureInfix + DetailText(d2));
    NumberReadBack(HttpFailurePrefix, s1, HttpFailureInfix + DetailText(d1), s2, HttpFailureInfix + DetailText(d2));
    assert HttpFailureInfix + DetailText(d1) == HttpFailureInfix + DetailText(d2);
    assert DetailText(d1) == (HttpFailureInfix + DetailText(d1))[|HttpFailureInfix|..];
    assert DetailText(d2) == (HttpFailureInfix + DetailText(d2))[|HttpFailureInfix|..];
  }

  /** A number written between a fixed prefix and a text that starts with a
      non-digit can be read back, and so can that text. */
  lemma NumberReadBack(prefix: string, n1: nat, rest1: string, n2: nat, rest2: string)
    requires rest1 != [] && !IsDigit(rest1[0]) && rest2 != [] && !IsDigit(rest2[0])
    requires prefix + Decimal(n1) + rest1 == prefix + Decimal(n2) + rest2
    ensures n1 == n2 && rest1 == rest2
  {
    var a := Decimal(n1);
    var b := Decimal(n2);
    var x := a + rest1;
    var y := b + rest2;
    assert prefix + a + rest1 == prefix + x;
    assert prefix + b + rest2 == prefix + y;
    assert x == (prefix + x)[|prefix|..];
    assert y == (prefix + y)[|prefix|..];
    DigitRun(a, rest1);
    DigitRun(b, rest2);
    assert a == x[..|a|] && b == y[..|b|];
    assert rest1 == x[|a|..] && rest2 == y[|b|..];
    DecimalRoundTrip(n1);
    DecimalRoundTrip(n2);
  }

  /** A run of digits followed by a non-digit is exactly as long as the
      leading digit run of the whole string. */
  lemma {:induction false} DigitRun(digits: string, rest: string)
    requires forall i :: 0 <= i < |digits| ==> IsDigit(digits[i])
    requires rest != [] && !IsDigit(rest[0])
    ensures PrefixRun(digits + rest, IsDigit) == |digits|
    decreases |digits|
  {
    if digits != [] {
      assert (digits + rest)[1..] == digits[1..] + rest;
      DigitRun(digits[1..], rest);
    }
  }

  /** The error for an unknown provider is thrown inside the `try`, so the
      `catch` wraps it like any other error without a response or code. */
  function UnsupportedProvider(provider: string): Failure
  {
    Thrown("", UnsupportedPrefix + provider)
  }

  /** `generateTestCases(gitDiff, commits, onStream)`: the key check comes
      first and is not wrapped; then the provider selects a streaming call,
      whose text, once the stream ends, is parsed; every failure on the way
      becomes the message of the `catch` block. */
  function Generate(config: Config, diff: string, commits: seq<string>, backend: Backend): Outcome
  {
    if config.apiKey == "" then Outcome(Err(MissingKeyMessage), [])
    else match Dispatch(config.provider)
      case None => Outcome(Err(ErrorMessage(UnsupportedProvider(config.provider))), [])
      case Some(family) =>
        match backend.send(RequestFor(family, config, diff, commits))
        case Refused(f) => Outcome(Err(ErrorMessage(f)), [])
        case Streamed(chunks, ending) =>
          var lines := Streaming.StreamLines(chunks);
          var fired := Streaming.LinesCallbacks(family, backend.decode, lines, "");
          match ending
          case Some(f) => Outcome(Err(ErrorMessage(f)), fired)
          case None => Outcome(Ok(Extractor.Parse(Streaming.LinesText(family, backend.decode, lines, ""))), fired)
  }

  /** The body of `generateTestCases`, calling the streaming handler and the
      parser in turn. */
  method GenerateTestCases(config: Config, diff: string, commits: seq<string>, backend: Backend)
    returns (result: Result<Extractor.ParseResult>, fired: seq<Streaming.Callback>)
    ensures Outcome(result, fired) == Generate(config, diff, commits, backend)
    ensures result.Err? ==> result.message != ""
  {
    if config.apiKey == "" {
      return Err(MissingKeyMessage), [];
    }
    var family := Dispatch(config.provider);
    if family.None? {
      ErrorMessageNonEmpty(UnsupportedProvider(config.provider));
      return Err(ErrorMessage(UnsupportedProvider(config.provider))), [];
    }
    var transport := backend.send(RequestFor(family.value, config, diff, commits));
    match transport
    case Refused(f) =>
      ErrorMessageNonEmpty(f);
      result, fired := Err(ErrorMessage(f)), [];
    case Streamed(chunks, ending) =>
      var text;
      text, fired := Streaming.Collect(family.value, backend.decode, chunks);
      if ending.Some? {
        ErrorMessageNonEmpty(ending.value);
        result := Err(ErrorMessage(ending.value));
      } else {
        var parsed := Extractor.ParseTestCases(text);
        result := Ok(parsed);
      }
  }

  /** A missing key is reported as it is, whatever the provider and before
      anything is sent or fired. */
  lemma MissingKeyFirst(config: Config, diff: string, commits: seq<string>, backend: Backend)
    requires config.apiKey == ""
    ensures Generate(config, diff, commits, backend) == Outcome(Err(MissingKeyMessage), [])
  {
  }

  /** An unknown provider fails without a request, with the wrapped
      message naming the provider. */
  lemma UnknownProviderMessage(config: Config, diff: string, commits: seq<string>, backend: Backend)
    requires config.apiKey != ""
    requires config.provider != "openai" && config.provider != "custom" && config.provider != "anthropic"
    ensures Generate(config, diff, commits, backend) == Outcome(Err(CallFailurePrefix + UnsupportedPrefix + config.provider), [])
  {
    assert CallFailurePrefix + (UnsupportedPrefix + config.provider) == CallFailurePrefix + UnsupportedPrefix + config.provider;
  }

  /** When the stream ends normally the result is the parse of the
      streamed text: its `rawText` is that text, its `requirement` is never
      empty, and the text is what the callbacks delivered. */
  lemma StreamedResult(config: Config, diff: string, commits: seq<string>, backend: Backend)
    requires config.apiKey != "" && Dispatch(config.provider).Some?
    requires var t := backend.send(RequestFor(Dispatch(config.provider).value, config, diff, commits));
             t.Streamed? && t.ending.None?
    ensures var o := Generate(config, diff, commits, backend);
            o.result.Ok?
            && o.result.value.rawText == Streaming.Delivered(o.fired)
            && o.result.value.requirement != ""
            && Extractor.CategoriesWellFormed(o.result.value.testCases)
  {
    var family := Dispatch(config.provider).value;
    var t := backend.send(RequestFor(family, config, diff, commits));
    var cs := Streaming.Contents(family, backend.decode, Streaming.StreamLines(t.chunks));
    Streaming.TextIsDelivered("", cs);
    var text := Streaming.TextFrom("", cs);
    Extractor.ParseWellFormed(text);
  }

  /** Whatever the outcome, the callbacks fired form the chain of the
      streaming model, starting from an empty text. */
  lemma FiredChain(config: Config, diff: string, commits: seq<string>, backend: Backend)
    ensures var cbs := Generate(config, diff, commits, backend).fired;
            (forall k :: 0 <= k < |cbs| ==> cbs[k].chunk != "")
            && (|cbs| > 0 ==> cbs[0].fullText == cbs[0].chunk)
            && (forall k :: 0 < k < |cbs| ==> cbs[k].fullText == cbs[k - 1].fullText + cbs[k].chunk)
  {
    var fired := Generate(config, diff, commits, backend).fired;
    if config.apiKey != "" && Dispatch(config.provider).Some? {
      var family := Dispatch(config.provider).value;
      var t := backend.send(RequestFor(family, config, diff, commits));
      if t.Streamed? {
        var cs := Streaming.Contents(family, backend.decode, Streaming.StreamLines(t.chunks));
        assert fired == Streaming.CallbacksFrom("", cs);
        Streaming.CallbackChain("", cs);
      } else {
        assert fired == [];
      }
    } else {
      assert fired == [];
    }
  }
}
