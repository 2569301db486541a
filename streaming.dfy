/** The `data` handlers of `callOpenAIStream` and `callAnthropicStream`
    (src/aiService.ts:234-270, 306-341): each chunk of the response stream
    is split into lines, blank lines are dropped, and every `data: ` line is
    decoded; non-empty content is appended to `fullText` and handed to the
    stream callback together with the new `fullText`.

    `JSON.parse` and the property reads on its result are a given function
    `decode` from the text after `data: ` to the fields the handlers read.
    Chunks arrive as an ordered sequence and are handled one after the
    other; nothing is carried from one chunk to the next except `fullText`. */
module Streaming {
  import opened Text

  /** The two wire formats: `openai` and `custom` endpoints speak the first,
      `anthropic` the second. */
  datatype Family = OpenAIFamily | AnthropicFamily

  /** A decoded payload as far as the handlers read it. `Malformed` stands
      for a payload on which `JSON.parse` or a property read throws; the
      fields hold `parsed.type`, `parsed.delta?.text` and
      `parsed.choices[0]?.delta?.content`, with `''` for an absent value. */
  datatype Payload = Malformed | Parsed(eventType: string, deltaText: string, choiceContent: string)

  /** One invocation `onStream(content, fullText)`. */
  datatype Callback = Callback(chunk: string, fullText: string)

  const DataPrefix: string := "data: "
  const DoneMarker: string := "[DONE]"
  const ContentBlockDelta: string := "content_block_delta"

  /** The content a decoded payload contributes. */
  function PayloadContent(family: Family, p: Payload): string
  {
    match p
    case Malformed => ""
    case Parsed(eventType, deltaText, choiceContent) =>
      match family
      case OpenAIFamily => choiceContent
      case AnthropicFamily => if eventType == ContentBlockDelta then deltaText else ""
  }

  /** The content one non-blank line contributes: only `data: ` lines count,
      and the OpenAI handler skips `[DONE]` before decoding. */
  function LineContent(family: Family, decode: string -> Payload, line: string): string
  {
    if !StartsWith(line, DataPrefix) then ""
    else
      var data := line[|DataPrefix|..];
      if family == OpenAIFamily && data == DoneMarker then ""
      else PayloadContent(family, decode(data))
  }

  /** `lines.filter(line => line.trim() !== '')`. */
  function NonBlank(ls: seq<string>): (r: seq<string>)
    ensures |r| <= |ls|
    decreases |ls|
  {
    if ls == [] then []
    else NonBlank(ls[..|ls| - 1]) + (if Trim(ls[|ls| - 1]) != "" then [ls[|ls| - 1]] else [])
  }

  /** The lines one chunk is cut into. */
  function ChunkLines(chunk: string): seq<string>
  {
    NonBlank(Split(chunk, '\n'))
  }

  /** The lines of a whole stream, chunk after chunk. */
  function StreamLines(chunks: seq<string>): seq<string>
    decreases |chunks|
  {
    if chunks == [] then [] else StreamLines(chunks[..|chunks| - 1]) + ChunkLines(chunks[|chunks| - 1])
  }

  /** The content of each line, in order. */
  function Contents(family: Family, decode: string -> Payload, ls: seq<string>): (cs: seq<string>)
    ensures |cs| == |ls|
    decreases |ls|
  {
    if ls == [] then [] else Contents(family, decode, ls[..|ls| - 1]) + [LineContent(family, decode, ls[|ls| - 1])]
  }

  /** `fullText` after a run of contents, starting from `before`. */
  function TextFrom(before: string, cs: seq<string>): string
    decreases |cs|
  {
    if cs == [] then before else TextFrom(before, cs[..|cs| - 1]) + cs[|cs| - 1]
  }

  /** The callbacks a run of contents fires when `fullText` starts as
      `before`: one for each non-empty content, with the text up to and
      including it. */
  function CallbacksFrom(before: string, cs: seq<string>): seq<Callback>
    decreases |cs|
  {
    if cs == [] then []
    else
      var prev := CallbacksFrom(before, cs[..|cs| - 1]);
      var content := cs[|cs| - 1];
      if content == "" then prev else prev + [Callback(content, TextFrom(before, cs))]
  }

  /** `fullText` after the lines `ls`, starting from `before`. */
  function LinesText(family: Family, decode: string -> Payload, ls: seq<string>, before: string): string
  {
    TextFrom(before, Contents(family, decode, ls))
  }

  /** The callbacks the lines `ls` fire when `fullText` starts as `before`. */
  function LinesCallbacks(family: Family, decode: string -> Payload, ls: seq<string>, before: string): seq<Callback>
  {
    CallbacksFrom(before, Contents(family, decode, ls))
  }

  /** The closure state of one streaming call: `fullText` and the callbacks
      fired so far. */
  class StreamHandler {
    const family: Family
    const decode: string -> Payload
    var fullText: string
    var fired: seq<Callback>

    constructor(family: Family, decode: string -> Payload)
      ensures this.family == family && this.decode == decode
      ensures fullText == "" && fired == []
    {
      this.family := family;
      this.decode := decode;
      fullText := "";
      fired := [];
    }

    /** `response.data.on('data', chunk => ...)`: the chunk's lines are
        handled in order, and each one with content extends `fullText` and
        fires the callback with the extended text. */
    method OnData(chunk: string)
      modifies this
      ensures fullText == LinesText(family, decode, ChunkLines(chunk), old(fullText))
      ensures fired == old(fired) + LinesCallbacks(family, decode, ChunkLines(chunk), old(fullText))
    {
      var lines := NonBlank(Split(chunk, '\n'));
      for k := 0 to |lines|
        invariant fullText == TextFrom(old(fullText), Contents(family, decode, lines[..k]))
        invariant fired == old(fired) + CallbacksFrom(old(fullText), Contents(family, decode, lines[..k]))
      {
        ContentsSnoc(family, decode, lines, k);
        HandleLine(lines[k]);
      }
      assert lines[..|lines|] == lines;
    }

    /** The body of `for (const line of lines)`: the content of one line,
        if any, is appended and handed to the callback. */
    method HandleLine(line: string)
      modifies this
      ensures var content := LineContent(family, decode, line);
              fullText == old(fullText) + content
              && fired == old(fired) + (if content == "" then [] else [Callback(content, fullText)])
    {
      if StartsWith(line, DataPrefix) {
        var data := line[6..];
        if family == OpenAIFamily && data == DoneMarker {
          return;
        }
        var content := PayloadContent(family, decode(data));
        if content != "" {
          fullText := fullText + content;
          fired := fired + [Callback(content, fullText)];
        }
      }
    }
  }

  /** One more line adds its content at the end of the contents. */
  lemma ContentsSnoc(family: Family, decode: string -> Payload, lines: seq<string>, k: nat)
    requires k < |lines|
    ensures Contents(family, decode, lines[..k + 1]) == Contents(family, decode, lines[..k]) + [LineContent(family, decode, lines[k])]
    ensures (Contents(family, decode, lines[..k]) + [LineContent(family, decode, lines[k])])[..k] == Contents(family, decode, lines[..k])
  {
    assert lines[..k + 1][..k] == lines[..k];
  }

  /** A whole streaming call up to its `end` event: the text it resolves
      with and the callbacks it fired, in order. */
  method Collect(family: Family, decode: string -> Payload, chunks: seq<string>)
    returns (fullText: string, fired: seq<Callback>)
    ensures fullText == LinesText(family, decode, StreamLines(chunks), "")
    ensures fired == LinesCallbacks(family, decode, StreamLines(chunks), "")
  {
    var handler := new StreamHandler(family, decode);
    for i := 0 to |chunks|
      invariant handler.family == family && handler.decode == decode
      invariant handler.fullText == LinesText(family, decode, StreamLines(chunks[..i]), "")
      invariant handler.fired == LinesCallbacks(family, decode, StreamLines(chunks[..i]), "")
    {
      assert chunks[..i + 1][..i] == chunks[..i];
      LinesAppend(family, decode, StreamLines(chunks[..i]), ChunkLines(chunks[i]), "");
      handler.OnData(chunks[i]);
    }
    assert chunks[..|chunks|] == chunks;
    fullText := handler.fullText;
    fired := handler.fired;
  }

  lemma {:induction false} ContentsAppend(family: Family, decode: string -> Payload, a: seq<string>, b: seq<string>)
    ensures Contents(family, decode, a + b) == Contents(family, decode, a) + Contents(family, decode, b)
    decreases |b|
  {
    if b == [] {
      assert a + b == a;
    } else {
      var b' := b[..|b| - 1];
      assert (a + b)[..|a + b| - 1] == a + b';
      ContentsAppend(family, decode, a, b');
    }
  }

  /** Handling `cs` and then `ds` is handling `cs + ds`, for the text. */
  lemma {:induction false} TextAppend(before: string, cs: seq<string>, ds: seq<string>)
    ensures TextFrom(before, cs + ds) == TextFrom(TextFrom(before, cs), ds)
    decreases |ds|
  {
    if ds == [] {
      assert cs + ds == cs;
    } else {
      var ds' := ds[..|ds| - 1];
      assert (cs + ds)[..|cs + ds| - 1] == cs + ds';
      TextAppend(before, cs, ds');
    }
  }

  /** Handling `cs` and then `ds` is handling `cs + ds`, for the callbacks. */
  lemma {:induction false} CallbacksAppend(before: string, cs: seq<string>, ds: seq<string>)
    ensures CallbacksFrom(before, cs + ds) == CallbacksFrom(before, cs) + CallbacksFrom(TextFrom(before, cs), ds)
    decreases |ds|
  {
    if ds == [] {
      assert cs + ds == cs;
    } else {
      var ds' := ds[..|ds| - 1];
      assert (cs + ds)[..|cs + ds| - 1] == cs + ds';
      CallbacksAppend(before, cs, ds');
      TextAppend(before, cs, ds);
      assert (cs + ds)[|cs + ds| - 1] == ds[|ds| - 1];
    }
  }

  /** Handling two runs of lines one after the other is handling their
      concatenation: text and callbacks both compose. */
  lemma LinesAppend(family: Family, decode: string -> Payload, a: seq<string>, b: seq<string>, before: string)
    ensures LinesText(family, decode, a + b, before) == LinesText(family, decode, b, LinesText(family, decode, a, before))
    ensures LinesCallbacks(family, decode, a + b, before)
            == LinesCallbacks(family, decode, a, before)
               + LinesCallbacks(family, decode, b, LinesText(family, decode, a, before))
  {
    ContentsAppend(family, decode, a, b);
    TextAppend(before, Contents(family, decode, a), Contents(family, decode, b));
    CallbacksAppend(before, Contents(family, decode, a), Contents(family, decode, b));
  }

  /** The text only grows: `fullText` after a run starts with the text
      before it. */
  lemma {:induction false} TextExtends(before: string, cs: seq<string>)
    ensures StartsWith(TextFrom(before, cs), before)
    decreases |cs|
  {
    if cs != [] {
      TextExtends(before, cs[..|cs| - 1]);
      var t := TextFrom(before, cs[..|cs| - 1]);
      assert (t + cs[|cs| - 1])[..|before|] == t[..|before|];
    }
  }

  /** The chain the callbacks form: every callback carries non-empty
      content, its `fullText` is the previous one's (or the text before the
      run) plus its content, and the last `fullText` is the final text;
      without callbacks the text is unchanged. */
  lemma {:induction false} CallbackChain(before: string, cs: seq<string>)
    ensures var cbs := CallbacksFrom(before, cs);
            (forall k :: 0 <= k < |cbs| ==> cbs[k].chunk != "")
            && (forall k :: 0 < k < |cbs| ==> cbs[k].fullText == cbs[k - 1].fullText + cbs[k].chunk)
            && (|cbs| > 0 ==> cbs[0].fullText == before + cbs[0].chunk)
            && (|cbs| > 0 ==> cbs[|cbs| - 1].fullText == TextFrom(before, cs))
            && (|cbs| == 0 ==> TextFrom(before, cs) == before)
    decreases |cs|
  {
    if cs != [] {
      var init := cs[..|cs| - 1];
      CallbackChain(before, init);
      var prev := CallbacksFrom(before, init);
      var content := cs[|cs| - 1];
      if content != "" {
        var cb := Callback(content, TextFrom(before, cs));
        var cbs := prev + [cb];
        assert forall k :: 0 <= k < |prev| ==> cbs[k] == prev[k];
      } else {
        assert TextFrom(before, cs) == TextFrom(before, init) + "";
        assert TextFrom(before, init) + "" == TextFrom(before, init);
      }
    }
  }

  /** The contents of a run of callbacks, concatenated. */
  function Delivered(cbs: seq<Callback>): string
    decreases |cbs|
  {
    if cbs == [] then "" else Delivered(cbs[..|cbs| - 1]) + cbs[|cbs| - 1].chunk
  }

  /** The resolved text is the text before the run followed by the
      contents handed to the callbacks. */
  lemma {:induction false} TextIsDelivered(before: string, cs: seq<string>)
    ensures TextFrom(before, cs) == before + Delivered(CallbacksFrom(before, cs))
    decreases |cs|
  {
    if cs != [] {
      var init := cs[..|cs| - 1];
      TextIsDelivered(before, init);
      var prev := CallbacksFrom(before, init);
      var content := cs[|cs| - 1];
      if content != "" {
        var cb := Callback(content, TextFrom(before, cs));
        assert (prev + [cb])[..|prev|] == prev;
        assert before + (Delivered(prev) + content) == (before + Delivered(prev)) + content;
      } else {
        assert TextFrom(before, init) + "" == TextFrom(before, init);
      }
    }
  }

  /** A line without content neither adds text nor fires a callback, and
      the lines after it are handled as if it were absent. */
  lemma NoiseIsSkipped(family: Family, decode: string -> Payload, a: seq<string>, line: string, b: seq<string>, before: string)
    requires LineContent(family, decode, line) == ""
    ensures LinesText(family, decode, a + [line] + b, before) == LinesText(family, decode, a + b, before)
    ensures LinesCallbacks(family, decode, a + [line] + b, before) == LinesCallbacks(family, decode, a + b, before)
  {
    ContentsAppend(family, decode, a + [line], b);
    ContentsAppend(family, decode, a, [line]);
    ContentsAppend(family, decode, a, b);
    assert [line][..0] == [];
    EmptyContentSkipped(before, Contents(family, decode, a), Contents(family, decode, b));
  }

  /** An empty content in a run changes neither the text nor the callbacks. */
  lemma EmptyContentSkipped(before: string, cs: seq<string>, ds: seq<string>)
    ensures TextFrom(before, cs + [""] + ds) == TextFrom(before, cs + ds)
    ensures CallbacksFrom(before, cs + [""] + ds) == CallbacksFrom(before, cs + ds)
  {
    TextAppend(before, cs + [""], ds);
    TextAppend(before, cs, ds);
    CallbacksAppend(before, cs + [""], ds);
    CallbacksAppend(before, cs, ds);
    assert (cs + [""])[..|cs|] == cs;
    assert TextFrom(before, cs) + "" == TextFrom(before, cs);
  }

  /** The lines that carry no content: those not starting with `data: `,
      the OpenAI `[DONE]` marker, payloads that do not decode, and Anthropic
      events other than `content_block_delta`. */
  lemma NoiseLines(family: Family, decode: string -> Payload, line: string)
    ensures !StartsWith(line, DataPrefix) ==> LineContent(family, decode, line) == ""
    ensures family == OpenAIFamily && line == DataPrefix + DoneMarker ==> LineContent(family, decode, line) == ""
    ensures StartsWith(line, DataPrefix) && decode(line[|DataPrefix|..]).Malformed? ==> LineContent(family, decode, line) == ""
    ensures family == AnthropicFamily && StartsWith(line, DataPrefix)
            && decode(line[|DataPrefix|..]).Parsed? && decode(line[|DataPrefix|..]).eventType != ContentBlockDelta
            ==> LineContent(family, decode, line) == ""
  {
    if family == OpenAIFamily && line == DataPrefix + DoneMarker {
      assert line[|DataPrefix|..] == DoneMarker;
    }
  }

  /** A `[DONE]` line does not end the stream: for OpenAI it is skipped and
      the lines after it are still handled. */
  lemma DoneDoesNotTerminate(decode: string -> Payload, a: seq<string>, b: seq<string>, before: string)
    ensures LinesText(OpenAIFamily, decode, a + [DataPrefix + DoneMarker] + b, before)
            == LinesText(OpenAIFamily, decode, a + b, before)
    ensures LinesCallbacks(OpenAIFamily, decode, a + [DataPrefix + DoneMarker] + b, before)
            == LinesCallbacks(OpenAIFamily, decode, a + b, before)
  {
    NoiseLines(OpenAIFamily, decode, DataPrefix + DoneMarker);
    NoiseIsSkipped(OpenAIFamily, decode, a, DataPrefix + DoneMarker, b, before);
  }

  /** Dropping blank lines changes nothing: a blank line does not start
      with `data: `. */
  lemma {:induction false} BlankLinesCarryNothing(family: Family, decode: string -> Payload, ls: seq<string>, before: string)
    ensures LinesText(family, decode, NonBlank(ls), before) == LinesText(family, decode, ls, before)
    ensures LinesCallbacks(family, decode, NonBlank(ls), before) == LinesCallbacks(family, decode, ls, before)
    decreases |ls|
  {
    if ls != [] {
      var init := ls[..|ls| - 1];
      var last := ls[|ls| - 1];
      BlankLinesCarryNothing(family, decode, init, before);
      if Trim(last) == "" {
        BlankLineCarriesNothing(family, decode, last);
        assert init + [last] == ls;
        assert NonBlank(ls) == NonBlank(init);
        NoiseIsSkipped(family, decode, init, last, [], before);
        assert init + [] == init;
      } else {
        assert NonBlank(ls) == NonBlank(init) + [last];
        assert init + [last] == ls;
        LinesAppend(family, decode, NonBlank(init), [last], before);
        LinesAppend(family, decode, init, [last], before);
      }
    }
  }

  lemma BlankLineCarriesNothing(family: Family, decode: string -> Payload, line: string)
    requires Trim(line) == ""
    ensures LineContent(family, decode, line) == ""
  {
    TrimEmptyStartsWithSpace(line);
  }

  /** A line that holds no newline and neither starts nor ends with
      whitespace is a chunk of exactly one line. */
  lemma OneLine(line: string)
    requires line != [] && '\n' !in line && !IsSpace(line[0]) && !IsSpace(line[|line| - 1])
    ensures ChunkLines(line) == [line]
  {
    SplitNoSep(line, '\n');
    TrimKeeps(line);
    assert [line][..0] == [];
  }

  /** No partial line is kept from one chunk to the next: when the
      transport cuts a line with content into two pieces that have none,
      the content is lost, although the same bytes in one chunk give it. */
  lemma SplitLineIsLost(family: Family, decode: string -> Payload, a: string, b: string)
    requires a != [] && '\n' !in a && !IsSpace(a[0]) && !IsSpace(a[|a| - 1])
    requires b != [] && '\n' !in b && !IsSpace(b[0]) && !IsSpace(b[|b| - 1])
    requires LineContent(family, decode, a) == "" && LineContent(family, decode, b) == ""
    ensures LinesText(family, decode, StreamLines([a + b]), "") == LineContent(family, decode, a + b)
    ensures LinesText(family, decode, StreamLines([a, b]), "") == ""
  {
    JoinedLine(a, b);
    OneLine(a + b);
    SingleChunk(a + b);
    SingleLineText(family, decode, a + b, "");
    TwoChunks(a, b);
    LinesAppend(family, decode, [a], [b], "");
    SingleLineText(family, decode, a, "");
    SingleLineText(family, decode, b, "");
  }

  lemma JoinedLine(a: string, b: string)
    requires a != [] && '\n' !in a && !IsSpace(a[0])
    requires b != [] && '\n' !in b && !IsSpace(b[|b| - 1])
    ensures var ab := a + b;
            ab != [] && '\n' !in ab && !IsSpace(ab[0]) && !IsSpace(ab[|ab| - 1])
  {
    var ab := a + b;
    assert ab[0] == a[0] && ab[|ab| - 1] == b[|b| - 1];
    forall i | 0 <= i < |ab| ensures ab[i] != '\n' {
      if i < |a| { assert ab[i] == a[i]; } else { assert ab[i] == b[i - |a|]; }
    }
  }

  lemma SingleChunk(line: string)
    requires ChunkLines(line) == [line]
    ensures StreamLines([line]) == [line]
  {
    assert [line][..0] == [];
  }

  lemma TwoChunks(a: string, b: string)
    requires a != [] && '\n' !in a && !IsSpace(a[0]) && !IsSpace(a[|a| - 1])
    requires b != [] && '\n' !in b && !IsSpace(b[0]) && !IsSpace(b[|b| - 1])
    ensures StreamLines([a, b]) == [a] + [b]
  {
    OneLine(a);
    OneLine(b);
    SingleChunk(a);
    assert [a, b][..1] == [a];
  }

  lemma SingleLineText(family: Family, decode: string -> Payload, line: string, before: string)
    ensures LinesText(family, decode, [line], before) == before + LineContent(family, decode, line)
  {
    var c := LineContent(family, decode, line);
    assert [line][..0] == [];
    assert Contents(family, decode, [line]) == [c];
    assert [c][..0] == [];
    assert TextFrom(before, [c]) == TextFrom(before, []) + c;
  }
}
